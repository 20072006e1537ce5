/**
 * The OVAL 5.7 entities the translator assembles. Tests, objects and states
 * come from the mapping library and are treated as opaque apart from their
 * identifiers; definitions and their criteria are built by the translator.
 */
module Oval {
  import opened Wrappers

  datatype OvalTest = OvalTest(id: string, objectRef: string, stateRefs: seq<string>)

  datatype OvalObject = OvalObject(id: string)

  datatype OvalState = OvalState(id: string)

  /** What the mapping library returns for one supported CybOX object. */
  datatype Mapped = Mapped(test: OvalTest, obj: OvalObject, states: seq<OvalState>)

  datatype Criterion = Criterion(testRef: string)

  datatype Criteria = Criteria(criteria: seq<Criterion>)

  /** `CriteriaType.hasContent_`: the criteria hold at least one criterion. */
  predicate HasContent(c: Criteria) {
    |c.criteria| > 0
  }

  /**
   * Empty criteria have no content, and criteria have content once a criterion
   * has been added to them, whatever they held before.
   */
  lemma AddedCriterionGivesContent(cs: seq<Criterion>, testRef: string)
    ensures !HasContent(Criteria([]))
    ensures HasContent(Criteria(cs + [Criterion(testRef)]))
    ensures Criteria(cs + [Criterion(testRef)]).criteria[|cs|].testRef == testRef
  {
  }

  datatype Metadata = Metadata(title: string, description: string)

  /** The metadata every generated definition shares. */
  const ObjectCheckMetadata := Metadata("Object check", "Existence check for object(s) extracted from MAEC Action")

  const MiscellaneousClass := "miscellaneous"

  /** A definition; `id` is the value drawn from the definition-id generator. */
  datatype Definition = Definition(
    id: nat,
    version: real,
    defClass: string,
    metadata: Metadata,
    criteria: Option<Criteria>)

  /** A fresh definition, before its criteria are set. */
  function NewDefinition(id: nat): Definition {
    Definition(id, 1.0, MiscellaneousClass, ObjectCheckMetadata, None)
  }

  datatype Generator = Generator(
    productName: string,
    productVersion: string,
    schemaVersion: string,
    timestamp: string)

  const ProductName := "MAEC XML to OVAL Script"
  const ProductVersion := "0.94"
  const SchemaVersion := "5.7"

  /** The root `oval_definitions` element; each part is `None` until it is set. */
  datatype OvalDefinitions = OvalDefinitions(
    generator: Option<Generator>,
    definitions: Option<seq<Definition>>,
    tests: Option<seq<OvalTest>>,
    objects: Option<seq<OvalObject>>,
    states: Option<seq<OvalState>>)

  const EmptyDocument := OvalDefinitions(None, None, None, None, None)
}
