# MAEC → OVAL translation engine, modelled in Dafny

This project models the translation engine of the MAEC-to-OVAL translator. The engine is the
`maec_to_oval_processor` class. It walks a parsed MAEC document, a single bundle or a package of
bundles, and looks at each action in turn:

- It keeps an action only if the action has an id, its verb (the first space-separated token of
  its name) is `create` or `modify`, and its status is absent, empty, `Success` or
  `Complete/Finish`.
- It goes through the associated objects of a kept action in order. For each one whose
  association type is `input`, `output` or `side-effect` and whose properties are present, it
  asks the CybOX-to-OVAL mapping library for a test, an object and states. It looks an idref up
  in the current bundle first. A short-circuiting `or` stops these calls after the first
  success, so only the first link whose mapping succeeds contributes to the document.
- Each successful mapping adds one OVAL test, one object, its states, and one definition. The
  definition's single criterion refers to the new test.
- Every action goes into exactly one of two ledgers: converted or skipped.
- At the end it attaches the entities and a generator record to the `oval_definitions` root. It
  hands the document on for writing only when at least one action was converted.

Files:

- `wrappers.dfy` (`Wrappers`): `Option`, and Python truthiness of an optional string.
- `maec.dfy` (`Maec`): the parsed input: actions, associated objects, behaviours, collections,
  bundles, packages. It also holds the order in which the walker visits actions. The
  behaviour-collection walk is given both as written and as intended.
- `oval.dfy` (`Oval`): the OVAL entities, the fixed metadata, and the generator constants
  "MAEC XML to OVAL Script", "0.94" and "5.7".
- `translation.dfy` (`Translation`): the specification, made of functions of the input:
  - the resolver's decision (`ResolveMapping`);
  - the action verdict (`ActionVerdict`, meaning convert with the first link that maps);
  - the effect of one action, of a sequence of actions, and of a sequence of bundles on the
    ledgers and the entity lists (`StepAction`, `StepActions`, `StepBundles`);
  - lemmas about these: ledger exclusivity and order, at most one definition per action, the
    document invariant `Consistent`, and the output decision.
- `processor.dfy` (`Processor`): the class `MaecToOvalProcessor`. It has the source's fields as
  sequence fields and the source's methods with their loops. Each method that walks actions is
  proved to change the state exactly as the matching `Translation` function says.
  `GenerateDefId` and `BuildOvalDocument` have no `Translation` counterpart: their contracts
  state their effect on the fields directly.
- `findings.dfy` (`Findings`): concrete inputs for three corner cases. These are the
  behaviour-collection defect, the short-circuit OR, and the dangling-idref fallback.

The mapping library's `create_oval` is a parameter of the model: a function value of type
`Translation.Mapping`, stored in the class as `createOval`. Its `generate_def_id` is modelled as a
counter, the field `defCounter`. `Bundle.get_object_by_id` is a lookup in a map from identifiers to
objects; it is an abstraction of that call, not part of the model's claims. The generator timestamp is a parameter of `BuildOvalDocument` and `GenerateOval`.

Two behaviours of the code worth noting:

- An idref that names no object in the bundle is not treated as "no properties". The resolver
  receives `None` as the actual object and falls back to the link's own inline properties
  (maec_to_oval_processor.py:38-41). See `Translation.DanglingIdrefFallsBack` and
  `Findings.DanglingIdrefConverts`.
- A status is checked only when it is truthy, so an empty status string passes the gate like an
  absent one.

## Model

| member | source | states |
|---|---|---|
| `Maec.FirstToken` | maec_to_oval_processor.py:71 | the verb is a prefix of the name, contains no space, and is followed by a space whenever it is shorter than the name |
| `Maec.FirstTokenOfWord` | maec_to_oval_processor.py:71 | the verb of a name "verb rest" is `verb` whenever `verb` has no space |
| `Maec.BehaviorsActionsMembers` | maec_to_oval_processor.py:107-118 | `BehaviorsActions`, the order in which `process_behaviors` and `process_behavior` visit actions, visits exactly the actions in the action lists of the behaviours, and no other |
| `Maec.ActionCollectionsActionsMembers` | maec_to_oval_processor.py:101-105 | `ActionCollectionsActions`, the walk over action collections, visits exactly the actions in their action lists; the non-emptiness gate drops no action |
| `Maec.BehaviorCollectionsActionsMembers` | maec_to_oval_processor.py:95-99 | `BehaviorCollectionsActions`, the intended walk over behaviour collections, visits exactly the actions of the behaviours they hold |
| `Maec.CollectionsActionsMembers` | maec_to_oval_processor.py:126-132 | `CollectionsActions` visits exactly the actions held in either kind of collection |
| `Maec.BundleActionsMembers` | maec_to_oval_processor.py:135-149 | `BundleActions` visits every action held anywhere in the bundle (top-level behaviours, the top-level action list, action collections and behaviour collections), and no other action |
| `Maec.PackageBundlesMembers` | maec_to_oval_processor.py:166-168 | `PackageBundles` yields exactly the findings bundles of the package's malware subjects |
| `Maec.SelectedBundlesMembers` | maec_to_oval_processor.py:161-168 | `SelectedBundles`: the bundle reading is the only bundle walked whenever it has content; otherwise every findings bundle of the package is walked; with neither, nothing is walked |
| `Oval.AddedCriterionGivesContent` | maec_to_oval_processor.py:55-57 | `HasContent`: empty criteria have no content, and criteria have content once a criterion has been added, whatever they held before; the added criterion refers to the given test |
| `Maec.BehaviorCollectionsRaiseAsWritten` | maec_to_oval_processor.py:96-99 | as written, walking behaviour collections raises exactly when one of them holds a non-empty behaviour list; when nothing raises, the intended walk visits no action either |
| `Maec.CollectionsWalkAsWritten` | maec_to_oval_processor.py:126-132 | as written, the collections walk raises exactly when a behaviour collection is forwarded; otherwise it visits exactly the actions of the intended walk |
| `Maec.BundleWalkAsWritten` | maec_to_oval_processor.py:135-149 | as written, a bundle walk raises exactly when its collections walk raises; otherwise it visits exactly the intended actions (top-level behaviours, then top-level actions, then collections) |
| `Translation.ResolveMapping` | maec_to_oval_processor.py:34-67 | the resolver adds something only for a link whose role is input, output or side-effect and whose resolved properties are present, and what it adds is the mapping's result for those properties and the action id |
| `Translation.ResolverAccepts` | maec_to_oval_processor.py:36-44 | conversely, a link with an eligible role and present resolved properties gets exactly what the mapping returns, so it is accepted whenever the mapping returns something |
| `Translation.ResolverRejections` | maec_to_oval_processor.py:36-44 | the resolver adds nothing for an ineligible or absent role, for absent properties, or when the mapping returns None |
| `Translation.DanglingIdrefFallsBack` | maec_to_oval_processor.py:38-41 | when an idref names no object in the bundle, the link's own inline properties are the ones mapped |
| `Translation.FirstMappedIsFirst` | maec_to_oval_processor.py:79-85 | `FirstMapped`, the short-circuit OR finds a mapping exactly when some link maps, and the mapping it keeps is the one of the first link that maps |
| `Translation.ActionVerdict` | maec_to_oval_processor.py:70-93 | an action is converted only if it has an id, a create/modify verb, an accepted or absent status, and a non-empty list of associated objects |
| `Translation.ConvertedIffSomeLinkMaps` | maec_to_oval_processor.py:76-89 | an action converts exactly when it passes the gates and some link's resolver call succeeds, and it is converted with the mapping of the first such link (earlier links map nothing) |
| `Translation.EmitAddsLinkedDefinition` | maec_to_oval_processor.py:46-59 | `Emit`, the effect of a successful resolver call: one test, one object, the states in order, and one definition whose id differs from every earlier definition's and whose only criterion refers to the new test |
| `Translation.ConsistentEveryTestReferenced` | maec_to_oval_processor.py:46-59 | in a document satisfying the invariant `Consistent`, test k is the one definition k refers to, so no test is left without a definition, and definition ids are distinct |
| `Translation.StepAction` | maec_to_oval_processor.py:70-93 | each processed action appends its id to exactly one ledger: to the converted ledger exactly when it converts, otherwise to the skipped ledger (a missing id included). A skipped action leaves definitions, tests, objects, states and the id generator unchanged. A converted one adds exactly one definition, one test and one object |
| `Translation.SkippedWithoutEntities` | maec_to_oval_processor.py:71-93 | an action with no id, an unsupported verb, a rejected status, or no associated objects only appends its id to the skipped ledger |
| `Translation.StepActionKeepsConsistent` | maec_to_oval_processor.py:46-60 | processing an action keeps the document invariant: definition k wraps one criterion referring to test k, each converted action owns one definition, and definition ids are increasing and below the generator's next value |
| `Translation.StepActions` | maec_to_oval_processor.py:121-123 | walking n actions grows the two ledgers by n entries in total and only appends to them |
| `Translation.StepActionsAppend` | maec_to_oval_processor.py:116-123 | walking two lists one after the other has the same effect as walking their concatenation |
| `Translation.StepActionsKeepsConsistent` | maec_to_oval_processor.py:121-123 | a walk over any list of actions keeps the document invariant |
| `Translation.StepActionsLedger` | maec_to_oval_processor.py:86-93 | after a walk, the ledgers are their old contents followed by the converted ids and the skipped ids of the walked actions, in input order |
| `Translation.StepActionsConvertsSome` | maec_to_oval_processor.py:86-87 | a walk adds to the converted ledger exactly when one of its actions converts |
| `Translation.StepBundles` | maec_to_oval_processor.py:164-168 | walking bundles only appends to the two ledgers; each bundle's actions are resolved against that bundle |
| `Translation.StepBundlesAppend` | maec_to_oval_processor.py:166-168 | walking two lists of bundles one after the other has the same effect as walking their concatenation |
| `Translation.StepBundlesKeepsConsistent` | maec_to_oval_processor.py:161-168 | walking all selected bundles, aggregated into one document, keeps the document invariant |
| `Translation.StepBundlesConvertsSome` | maec_to_oval_processor.py:161-173 | a walk over bundles adds to the converted ledger exactly when some action of some bundle converts |
| `Translation.WrittenIffSomeActionConverts` | maec_to_oval_processor.py:173-179 | from a fresh translator, output is written exactly when some action of some selected bundle converts |
| `Processor.MaecToOvalProcessor.constructor` | maec_to_oval_processor.py:16-31 | a new translator has empty ledgers and entity lists, no current bundle and an empty root document |
| `Processor.MaecToOvalProcessor.GenerateDefId` | maec_to_oval_processor.py:46 | each definition id drawn is the counter's value, and the counter then advances by one |
| `Processor.MaecToOvalProcessor.ProcessAssociatedObject` | maec_to_oval_processor.py:34-67 | returns True exactly when the resolver's decision is a mapping. Then it appends that test, that object, all its states in order, and one definition whose single criterion's test_ref is the appended test's id. Otherwise the state is unchanged |
| `Processor.MaecToOvalProcessor.ProcessAction` | maec_to_oval_processor.py:70-93 | the loop with the short-circuit OR changes the state exactly as `StepAction` says |
| `Processor.MaecToOvalProcessor.ProcessActions` | maec_to_oval_processor.py:121-123 | processes the actions in input order, with the effect of `StepActions` |
| `Processor.MaecToOvalProcessor.ProcessBehavior` | maec_to_oval_processor.py:108-113 | processes the behaviour's actions, when it has an action list, in order |
| `Processor.MaecToOvalProcessor.ProcessBehaviors` | maec_to_oval_processor.py:116-118 | processes the actions of each behaviour, behaviour by behaviour |
| `Processor.MaecToOvalProcessor.ProcessActionCollection` | maec_to_oval_processor.py:102-105 | processes the collection's actions when its list is present and non-empty |
| `Processor.MaecToOvalProcessor.ProcessBehaviorCollection` | maec_to_oval_processor.py:96-99 | processes every action of every behaviour of a present, non-empty behaviour list, in order (the intended element-wise dispatch) |
| `Processor.MaecToOvalProcessor.ProcessActionCollections` | maec_to_oval_processor.py:127-129 | processes the action collections in order |
| `Processor.MaecToOvalProcessor.ProcessBehaviorCollections` | maec_to_oval_processor.py:130-132 | processes the behaviour collections in order |
| `Processor.MaecToOvalProcessor.ProcessCollections` | maec_to_oval_processor.py:126-132 | processes all action collections before all behaviour collections |
| `Processor.MaecToOvalProcessor.ProcessBundle` | maec_to_oval_processor.py:135-149 | makes the bundle current, then processes top-level behaviours, top-level actions and collections in that order, with the effect of `StepActions` over `BundleActions` |
| `Processor.MaecToOvalProcessor.BuildOvalDocument` | maec_to_oval_processor.py:202-217 | always attaches definitions, tests and objects, attaches states only when there are some, and attaches a generator with the fixed product name, version and schema version and the given timestamp |
| `Processor.MaecToOvalProcessor.ProcessFindingsBundles` | maec_to_oval_processor.py:167-168 | processes a malware subject's findings bundles in order, with the effect of `StepBundles` |
| `Processor.MaecToOvalProcessor.ProcessMalwareSubjects` | maec_to_oval_processor.py:166-168 | processes every malware subject's findings bundles in order, with the effect of `StepBundles` over `PackageBundles` |
| `Processor.MaecToOvalProcessor.GenerateOval` | maec_to_oval_processor.py:152-179 | walks the bundle reading if it has content, else every findings bundle of every malware subject in order, into one shared state. Then it finalises the document and returns it for writing exactly when the converted ledger is non-empty |
| `Findings.BehaviorCollectionRaises` | maec_to_oval_processor.py:96-99 | on a bundle whose one action sits in a behaviour collection, the walk as written raises, while the intended walk converts that action |
| `Findings.ShortCircuitEmitsOnce` | maec_to_oval_processor.py:83-85 | an action with two mappable links gets one test and one definition, from the first link |
| `Findings.DanglingIdrefConverts` | maec_to_oval_processor.py:38-41 | an action whose only link has a dangling idref but inline properties is still converted |

## Findings

| source | as written | input that shows it | evidently intended | confidence | as-written member | corrected member |
|---|---|---|---|---|---|---|
| maec_to_oval_processor.py:99 | `process_behavior_collection` passes the whole behaviour list to `process_behavior`, which reads `action_list` from it. A list has no such attribute, so the walk raises. The run then ends in the catch-all of `generate_oval` and writes no output. | `Findings.CollectedBundle`: a bundle whose collections hold one behaviour collection with one behaviour containing a successful "create File" action | call `process_behaviors(behavior_list)` so that each behaviour's actions are processed | not executed; high (the list type has no `action_list`) | `Maec.BundleWalkAsWritten`, exhibited by `Findings.BehaviorCollectionRaises` | `Processor.MaecToOvalProcessor.ProcessBehaviorCollection` |

The rest of the model uses the corrected walk: `Maec.BehaviorCollectionActions`,
`Maec.CollectionsActions` and `Maec.BundleActions`.

## Left out

- XML parsing and binding conversion (`package_binding.parse`, `bundle_binding.parse`,
  `Bundle.from_obj`, `Package.from_obj`) are foreign libraries. The input is the already-built
  `Maec.ParsedInput`, whose two fields stand for "the bundle reading has content" and "the package
  reading has content".
- The input-file check with `sys.exit(1)`, opening the output file, and `export` with its
  namespace declarations are file I/O. `GenerateOval` returns the document to be written instead.
- Progress messages, the stat-mode listing of converted and skipped ids, and the catch-all
  `except` with its traceback are reporting only. The one raise the model needs, from the
  behaviour-collection defect, is the `Raised` outcome of `Maec.Walk`.
- The generator timestamp from `datetime.now()` is a clock reading. It is a parameter.
- The internals of `create_oval` belong to an external library. They are an arbitrary function
  value, assumed deterministic. Uniqueness of the test, object and state ids it issues is that
  library's responsibility and is not modelled.
- The textual format of the ids from `generate_def_id` is not modelled. Definition ids are the
  counter's values, starting at 0.
- `Bundle.get_object_by_id` searches the bundle's actions and objects in a fixed order. It is
  modelled as a single identifier-to-object map.
- An action with an id but no name, and a malware subject without findings bundles, raise
  attribute errors in the source. The model gives every action a name and every subject a list of
  bundles.
- Python truthiness is modelled as follows: a properties object or a dereferenced object counts as
  true whenever it is present, and an idref or status counts as true when present and non-empty.
- In the empty-criteria branch of the resolver, the test, object and states would stay appended
  with no definition. The branch is kept in `ProcessAssociatedObject`, but it cannot be taken: the
  criteria always hold the criterion just added, and the method's postcondition, which covers
  every path, excludes that outcome.
