/**
 * The translator object: its ledgers and OVAL entity lists grow as it walks
 * the input, action by action. Every method that walks actions is proved to
 * change the state exactly as the corresponding function of `Translation`
 * says; the id generator and the document builder state their effect directly.
 */
module Processor {
  import opened Wrappers
  import opened Maec
  import opened Oval
  import opened Translation

  class MaecToOvalProcessor {
    /** `mappings.create_oval`. */
    const createOval: Mapping
    var convertedIds: seq<string>
    var skippedActions: seq<Option<string>>
    var ovalDefs: seq<Definition>
    var ovalTests: seq<OvalTest>
    var ovalObjects: seq<OvalObject>
    var ovalStates: seq<OvalState>
    /** The next value of `mappings.generate_def_id`. */
    var defCounter: nat
    var currentBundle: Option<Bundle>
    /** `ovaldefroot`, the document handed to the serializer. */
    var ovalDefRoot: OvalDefinitions

    /** The ledgers, the entity lists and the definition-id generator, as one value. */
    function Snapshot(): State
      reads this
    {
      State(convertedIds, skippedActions, ovalDefs, ovalTests, ovalObjects, ovalStates, defCounter)
    }

    constructor (createOval: Mapping)
      ensures this.createOval == createOval
      ensures Snapshot() == Initial && Consistent(Snapshot())
      ensures currentBundle == None && ovalDefRoot == EmptyDocument
    {
      this.createOval := createOval;
      convertedIds, skippedActions := [], [];
      ovalDefs, ovalTests, ovalObjects, ovalStates := [], [], [], [];
      defCounter := 0;
      currentBundle := None;
      ovalDefRoot := EmptyDocument;
    }

    /** Draws the next definition id. */
    method GenerateDefId() returns (id: nat)
      modifies this`defCounter
      ensures id == old(defCounter) && defCounter == old(defCounter) + 1
    {
      id := defCounter;
      defCounter := defCounter + 1;
    }

    /**
     * `process_associated_object`: on a successful mapping, adds its test, object
     * and states and one definition whose single criterion refers to that test.
     */
    method ProcessAssociatedObject(link: AssociatedObject, actionId: string, actual: Option<CyboxObject>)
      returns (ok: bool)
      modifies this`ovalDefs, this`ovalTests, this`ovalObjects, this`ovalStates, this`defCounter
      ensures ok <==> ResolveMapping(link, actionId, actual, createOval).Some?
      ensures !ok ==> Snapshot() == old(Snapshot())
      ensures ok ==> Snapshot() == Emit(old(Snapshot()), ResolveMapping(link, actionId, actual, createOval).value)
      ensures ok ==> ovalDefs[|ovalDefs| - 1].criteria == Some(Criteria([Criterion(ovalTests[|ovalTests| - 1].id)]))
    {
      ok := false;
      if link.associationType.Some? && link.associationType.value in AffectedRoles {
        var objectProperties := if actual.Some? then actual.value.properties else link.properties;
        if objectProperties.Some? {
          var ovalEntities := createOval(objectProperties.value, actionId);
          if ovalEntities.Some? {
            var entities := ovalEntities.value;
            var defId := GenerateDefId();
            var ovalDef := NewDefinition(defId);
            var ovalCriteria := Criteria([]);
            ovalTests := ovalTests + [entities.test];
            ovalObjects := ovalObjects + [entities.obj];
            for i := 0 to |entities.states|
              invariant ovalStates == old(ovalStates) + entities.states[..i]
              modifies this`ovalStates
            {
              ovalStates := ovalStates + [entities.states[i]];
            }
            assert entities.states[..|entities.states|] == entities.states;
            ovalCriteria := Criteria(ovalCriteria.criteria + [Criterion(entities.test.id)]);
            assert ovalCriteria == Criteria([Criterion(entities.test.id)]);
            if HasContent(ovalCriteria) {
              ovalDef := ovalDef.(criteria := Some(ovalCriteria));
              ovalDefs := ovalDefs + [ovalDef];
              ok := true;
            }
          }
        }
      }
    }

    /** `process_action`: records the action in exactly one ledger. */
    method ProcessAction(a: Action)
      requires currentBundle.Some?
      modifies this`convertedIds, this`skippedActions, this`ovalDefs, this`ovalTests,
        this`ovalObjects, this`ovalStates, this`defCounter
      ensures Snapshot() == StepAction(old(Snapshot()), a, currentBundle.value, createOval)
    {
      if a.id.Some? && FirstToken(a.name) in SupportedActionTypes {
        if Truthy(a.status) && a.status.value !in AcceptedStatuses {
          skippedActions := skippedActions + [a.id];
          return;
        }
        var converted := false;
        var associatedObjects := a.associatedObjects;
        if associatedObjects.Some? && |associatedObjects.value| > 0 {
          var links := associatedObjects.value;
          ghost var s0 := Snapshot();
          for i := 0 to |links|
            invariant converted <==> FirstMapped(links[..i], a.id.value, currentBundle.value, createOval).Some?
            invariant !converted ==> Snapshot() == s0
            invariant converted ==>
              Snapshot() == Emit(s0, FirstMapped(links[..i], a.id.value, currentBundle.value, createOval).value)
          {
            var link := links[i];
            assert links[..i + 1][..i] == links[..i];
            if Truthy(link.idref) {
              var actualObject := Lookup(currentBundle.value, link.idref.value);
              if !converted {
                converted := ProcessAssociatedObject(link, a.id.value, actualObject);
              }
            } else {
              if !converted {
                converted := ProcessAssociatedObject(link, a.id.value, None);
              }
            }
          }
          assert links[..|links|] == links;
          if converted {
            convertedIds := convertedIds + [a.id.value];
          } else {
            skippedActions := skippedActions + [a.id];
          }
        } else {
          skippedActions := skippedActions + [a.id];
        }
      } else {
        skippedActions := skippedActions + [a.id];
      }
    }

    /** `process_actions`: each action in turn. */
    method ProcessActions(actions: seq<Action>)
      requires currentBundle.Some?
      modifies this`convertedIds, this`skippedActions, this`ovalDefs, this`ovalTests,
        this`ovalObjects, this`ovalStates, this`defCounter
      ensures Snapshot() == StepActions(old(Snapshot()), actions, currentBundle.value, createOval)
    {
      for i := 0 to |actions|
        invariant Snapshot() == StepActions(old(Snapshot()), actions[..i], currentBundle.value, createOval)
      {
        assert actions[..i + 1][..i] == actions[..i];
        ProcessAction(actions[i]);
      }
      assert actions[..|actions|] == actions;
    }

    /** `process_behavior`: the behaviour's actions, when it has an action list. */
    method ProcessBehavior(behavior: Behavior)
      requires currentBundle.Some?
      modifies this`convertedIds, this`skippedActions, this`ovalDefs, this`ovalTests,
        this`ovalObjects, this`ovalStates, this`defCounter
      ensures Snapshot() == StepActions(old(Snapshot()), BehaviorActions(behavior), currentBundle.value, createOval)
    {
      var behavioralActions := behavior.actions;
      if behavioralActions.Some? {
        var actions := behavioralActions.value;
        for i := 0 to |actions|
          invariant Snapshot() == StepActions(old(Snapshot()), actions[..i], currentBundle.value, createOval)
        {
          assert actions[..i + 1][..i] == actions[..i];
          ProcessAction(actions[i]);
        }
        assert actions[..|actions|] == actions;
      }
    }

    /** `process_behaviors`: each behaviour in turn. */
    method ProcessBehaviors(behaviors: seq<Behavior>)
      requires currentBundle.Some?
      modifies this`convertedIds, this`skippedActions, this`ovalDefs, this`ovalTests,
        this`ovalObjects, this`ovalStates, this`defCounter
      ensures Snapshot() == StepActions(old(Snapshot()), BehaviorsActions(behaviors), currentBundle.value, createOval)
    {
      for i := 0 to |behaviors|
        invariant Snapshot() == StepActions(old(Snapshot()), BehaviorsActions(behaviors[..i]), currentBundle.value, createOval)
      {
        assert behaviors[..i + 1][..i] == behaviors[..i];
        StepActionsAppend(old(Snapshot()), BehaviorsActions(behaviors[..i]), BehaviorActions(behaviors[i]),
          currentBundle.value, createOval);
        ProcessBehavior(behaviors[i]);
      }
      assert behaviors[..|behaviors|] == behaviors;
    }

    /** `process_action_collection`. */
    method ProcessActionCollection(collection: ActionCollection)
      requires currentBundle.Some?
      modifies this`convertedIds, this`skippedActions, this`ovalDefs, this`ovalTests,
        this`ovalObjects, this`ovalStates, this`defCounter
      ensures Snapshot() == StepActions(old(Snapshot()), ActionCollectionActions(collection), currentBundle.value, createOval)
    {
      var actionList := collection.actions;
      if actionList.Some? && |actionList.value| > 0 {
        ProcessActions(actionList.value);
      }
    }

    /**
     * `process_behavior_collection`, dispatching the behaviour list element by
     * element as evidently intended (the source hands the whole list to
     * `process_behavior`, see `Maec.BehaviorCollectionsRaiseAsWritten`).
     */
    method ProcessBehaviorCollection(collection: BehaviorCollection)
      requires currentBundle.Some?
      modifies this`convertedIds, this`skippedActions, this`ovalDefs, this`ovalTests,
        this`ovalObjects, this`ovalStates, this`defCounter
      ensures Snapshot() == StepActions(old(Snapshot()), BehaviorCollectionActions(collection), currentBundle.value, createOval)
    {
      var behaviorList := collection.behaviors;
      if behaviorList.Some? && |behaviorList.value| > 0 {
        ProcessBehaviors(behaviorList.value);
      }
    }

    /** The first loop of `process_collections`: each action collection in turn. */
    method ProcessActionCollections(cs: seq<ActionCollection>)
      requires currentBundle.Some?
      modifies this`convertedIds, this`skippedActions, this`ovalDefs, this`ovalTests,
        this`ovalObjects, this`ovalStates, this`defCounter
      ensures Snapshot() == StepActions(old(Snapshot()), ActionCollectionsActions(cs), currentBundle.value, createOval)
    {
      for i := 0 to |cs|
        invariant Snapshot() == StepActions(old(Snapshot()), ActionCollectionsActions(cs[..i]), currentBundle.value, createOval)
      {
        assert cs[..i + 1][..i] == cs[..i];
        StepActionsAppend(old(Snapshot()), ActionCollectionsActions(cs[..i]), ActionCollectionActions(cs[i]),
          currentBundle.value, createOval);
        ProcessActionCollection(cs[i]);
      }
      assert cs[..|cs|] == cs;
    }

    /** The second loop of `process_collections`: each behaviour collection in turn. */
    method ProcessBehaviorCollections(cs: seq<BehaviorCollection>)
      requires currentBundle.Some?
      modifies this`convertedIds, this`skippedActions, this`ovalDefs, this`ovalTests,
        this`ovalObjects, this`ovalStates, this`defCounter
      ensures Snapshot() == StepActions(old(Snapshot()), BehaviorCollectionsActions(cs), currentBundle.value, createOval)
    {
      for i := 0 to |cs|
        invariant Snapshot() == StepActions(old(Snapshot()), BehaviorCollectionsActions(cs[..i]), currentBundle.value, createOval)
      {
        assert cs[..i + 1][..i] == cs[..i];
        StepActionsAppend(old(Snapshot()), BehaviorCollectionsActions(cs[..i]), BehaviorCollectionActions(cs[i]),
          currentBundle.value, createOval);
        ProcessBehaviorCollection(cs[i]);
      }
      assert cs[..|cs|] == cs;
    }

    /** `process_collections`: every action collection, then every behaviour collection. */
    method ProcessCollections(collections: Collections)
      requires currentBundle.Some?
      modifies this`convertedIds, this`skippedActions, this`ovalDefs, this`ovalTests,
        this`ovalObjects, this`ovalStates, this`defCounter
      ensures Snapshot() == StepActions(old(Snapshot()), CollectionsActions(collections), currentBundle.value, createOval)
    {
      ghost var s0 := Snapshot();
      ghost var first := if collections.actionCollections.Some?
        then ActionCollectionsActions(collections.actionCollections.value) else [];
      ghost var second := if collections.behaviorCollections.Some?
        then BehaviorCollectionsActions(collections.behaviorCollections.value) else [];
      if collections.actionCollections.Some? {
        ProcessActionCollections(collections.actionCollections.value);
      }
      ghost var s1 := Snapshot();
      if collections.behaviorCollections.Some? {
        ProcessBehaviorCollections(collections.behaviorCollections.value);
      }
      StepActionsAppend(s0, first, second, currentBundle.value, createOval);
    }

    /**
     * `process_bundle`: makes `b` the current bundle, then walks its top-level
     * behaviours, its top-level actions and its collections, in that order.
     */
    method ProcessBundle(b: Bundle)
      modifies this`currentBundle, this`convertedIds, this`skippedActions, this`ovalDefs,
        this`ovalTests, this`ovalObjects, this`ovalStates, this`defCounter
      ensures currentBundle == Some(b)
      ensures Snapshot() == StepActions(old(Snapshot()), BundleActions(b), b, createOval)
    {
      currentBundle := Some(b);
      ghost var s0 := Snapshot();
      var behaviors := if b.behaviors.Some? then BehaviorsActions(b.behaviors.value) else [];
      var actions := if b.actions.Some? && |b.actions.value| > 0 then b.actions.value else [];
      var rest := if b.collections.Some? then CollectionsActions(b.collections.value) else [];
      if b.behaviors.Some? {
        ProcessBehaviors(b.behaviors.value);
      }
      ghost var s1 := Snapshot();
      if b.actions.Some? && |b.actions.value| > 0 {
        ProcessActions(b.actions.value);
      }
      ghost var s2 := Snapshot();
      if b.collections.Some? {
        ProcessCollections(b.collections.value);
      }
      StepActionsAppend(s0, behaviors, actions, b, createOval);
      StepActionsAppend(s0, behaviors + actions, rest, b, createOval);
    }

    /**
     * `__build_oval_document`: attaches definitions, tests and objects, the
     * states only when there are some, and a generator stamped with `timestamp`.
     */
    method BuildOvalDocument(timestamp: string)
      modifies this`ovalDefRoot
      ensures ovalDefRoot.definitions == Some(ovalDefs)
      ensures ovalDefRoot.tests == Some(ovalTests)
      ensures ovalDefRoot.objects == Some(ovalObjects)
      ensures ovalDefRoot.states == if |ovalStates| > 0 then Some(ovalStates) else old(ovalDefRoot).states
      ensures ovalDefRoot.generator == Some(Generator(ProductName, ProductVersion, SchemaVersion, timestamp))
    {
      var ovalGen := Generator(ProductName, ProductVersion, SchemaVersion, timestamp);
      ovalDefRoot := ovalDefRoot.(definitions := Some(ovalDefs));
      ovalDefRoot := ovalDefRoot.(tests := Some(ovalTests));
      ovalDefRoot := ovalDefRoot.(objects := Some(ovalObjects));
      if |ovalStates| > 0 {
        ovalDefRoot := ovalDefRoot.(states := Some(ovalStates));
      }
      ovalDefRoot := ovalDefRoot.(generator := Some(ovalGen));
    }

    /** The inner loop of `generate_oval`: one malware subject's findings bundles, in order. */
    method ProcessFindingsBundles(bundles: seq<Bundle>)
      modifies this`currentBundle, this`convertedIds, this`skippedActions, this`ovalDefs,
        this`ovalTests, this`ovalObjects, this`ovalStates, this`defCounter
      ensures Snapshot() == StepBundles(old(Snapshot()), bundles, createOval)
    {
      for j := 0 to |bundles|
        invariant Snapshot() == StepBundles(old(Snapshot()), bundles[..j], createOval)
      {
        assert bundles[..j + 1][..j] == bundles[..j];
        ProcessBundle(bundles[j]);
      }
      assert bundles[..|bundles|] == bundles;
    }

    /** The outer loop of `generate_oval`: every malware subject of the package, in order. */
    method ProcessMalwareSubjects(subjects: seq<MalwareSubject>)
      modifies this`currentBundle, this`convertedIds, this`skippedActions, this`ovalDefs,
        this`ovalTests, this`ovalObjects, this`ovalStates, this`defCounter
      ensures Snapshot() == StepBundles(old(Snapshot()), PackageBundles(subjects), createOval)
    {
      ghost var s0 := Snapshot();
      for i := 0 to |subjects|
        invariant Snapshot() == StepBundles(s0, PackageBundles(subjects[..i]), createOval)
      {
        assert subjects[..i + 1][..i] == subjects[..i];
        ProcessFindingsBundles(subjects[i].findingsBundles);
        StepBundlesAppend(s0, PackageBundles(subjects[..i]), subjects[i].findingsBundles, createOval);
      }
      assert subjects[..|subjects|] == subjects;
    }

    /**
     * `generate_oval` once the input is parsed: walks the selected bundles,
     * finalises the document and returns it when it is to be written, that is
     * when at least one action was converted.
     */
    method GenerateOval(input: ParsedInput, timestamp: string) returns (written: Option<OvalDefinitions>)
      modifies this
      ensures Snapshot() == StepBundles(old(Snapshot()), SelectedBundles(input), createOval)
      ensures ovalDefRoot.definitions == Some(ovalDefs) && ovalDefRoot.tests == Some(ovalTests)
      ensures ovalDefRoot.objects == Some(ovalObjects)
      ensures ovalDefRoot.states == if |ovalStates| > 0 then Some(ovalStates) else old(ovalDefRoot).states
      ensures ovalDefRoot.generator == Some(Generator(ProductName, ProductVersion, SchemaVersion, timestamp))
      ensures written == if |convertedIds| > 0 then Some(ovalDefRoot) else None
    {
      if input.asBundle.Some? {
        ProcessBundle(input.asBundle.value);
        assert [input.asBundle.value][..0] == [];
      } else if input.asPackage.Some? {
        ProcessMalwareSubjects(input.asPackage.value.malwareSubjects);
      }
      BuildOvalDocument(timestamp);
      if |convertedIds| > 0 {
        written := Some(ovalDefRoot);
      } else {
        written := None;
      }
    }
  }
}
