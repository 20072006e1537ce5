/**
 * The parsed MAEC input, as the binding library hands it to the translator,
 * and the order in which the translator visits its actions.
 */
module Maec {
  import opened Wrappers

  /** A CybOX object-properties bag (file, registry key, process, ...), passed through unchanged. */
  datatype Properties = Properties(xsiType: string, fields: map<string, string>)

  /** A CybOX object as found in a bundle; `properties` is its `_properties`. */
  datatype CyboxObject = CyboxObject(id: string, properties: Option<Properties>)

  /**
   * An associated-object link of an action: its association type (the role),
   * an optional idref to an object elsewhere in the bundle, and its inline properties.
   */
  datatype AssociatedObject = AssociatedObject(
    associationType: Option<string>,
    idref: Option<string>,
    properties: Option<Properties>)

  /** A MAEC action; `name` is the value of its name, whose first token is the verb. */
  datatype Action = Action(
    id: Option<string>,
    name: string,
    status: Option<string>,
    associatedObjects: Option<seq<AssociatedObject>>)

  datatype Behavior = Behavior(id: Option<string>, actions: Option<seq<Action>>)

  datatype ActionCollection = ActionCollection(actions: Option<seq<Action>>)

  datatype BehaviorCollection = BehaviorCollection(behaviors: Option<seq<Behavior>>)

  datatype Collections = Collections(
    actionCollections: Option<seq<ActionCollection>>,
    behaviorCollections: Option<seq<BehaviorCollection>>)

  /** A bundle; `objects` is the identifier index behind `get_object_by_id`. */
  datatype Bundle = Bundle(
    behaviors: Option<seq<Behavior>>,
    actions: Option<seq<Action>>,
    collections: Option<Collections>,
    objects: map<string, CyboxObject>)

  datatype MalwareSubject = MalwareSubject(findingsBundles: seq<Bundle>)

  datatype Package = Package(malwareSubjects: seq<MalwareSubject>)

  /**
   * The input file read under both bindings: `asBundle` is the bundle reading
   * when it has content, `asPackage` the package reading when it has content.
   */
  datatype ParsedInput = ParsedInput(asBundle: Option<Bundle>, asPackage: Option<Package>)

  /** `Bundle.get_object_by_id`: the object with that identifier, if the bundle has one. */
  function Lookup(b: Bundle, id: string): Option<CyboxObject> {
    if id in b.objects then Some(b.objects[id]) else None
  }

  /** `s.split(' ')[0]`: everything before the first space, or all of `s` when it has none. */
  function FirstToken(s: string): (t: string)
    ensures t <= s
    ensures ' ' !in t
    ensures |t| < |s| ==> s[|t|] == ' '
  {
    if s == [] || s[0] == ' ' then [] else [s[0]] + FirstToken(s[1..])
  }

  /** The verb of a name "<verb> <rest>" is `verb` whenever `verb` holds no space. */
  lemma {:induction false} FirstTokenOfWord(verb: string, rest: string)
    requires ' ' !in verb
    ensures FirstToken(verb + [' '] + rest) == verb
  {
    if verb != [] {
      assert (verb + [' '] + rest)[1..] == verb[1..] + [' '] + rest;
      FirstTokenOfWord(verb[1..], rest);
    }
  }

  // ---------------------------------------------------------------------------
  // Visiting order. Each function lists, in order, the actions the walker hands
  // to the action processor for one part of the input.
  // ---------------------------------------------------------------------------

  function ActionList(l: Option<seq<Action>>): seq<Action> {
    if l.Some? then l.value else []
  }

  /** `process_behavior`: the behaviour's actions, when it has an action list. */
  function BehaviorActions(b: Behavior): seq<Action> {
    ActionList(b.actions)
  }

  /** `process_behaviors`: each behaviour in turn. */
  function BehaviorsActions(bs: seq<Behavior>): seq<Action>
    decreases |bs|
  {
    if bs == [] then [] else BehaviorsActions(bs[..|bs| - 1]) + BehaviorActions(bs[|bs| - 1])
  }

  /** `process_action_collection`: the collection's actions, when the list is present and non-empty. */
  function ActionCollectionActions(c: ActionCollection): seq<Action> {
    if c.actions.Some? && |c.actions.value| > 0 then c.actions.value else []
  }

  function ActionCollectionsActions(cs: seq<ActionCollection>): seq<Action>
    decreases |cs|
  {
    if cs == [] then []
    else ActionCollectionsActions(cs[..|cs| - 1]) + ActionCollectionActions(cs[|cs| - 1])
  }

  /**
   * `process_behavior_collection` as evidently intended: every behaviour of a
   * present, non-empty behaviour list, element by element.
   */
  function BehaviorCollectionActions(c: BehaviorCollection): seq<Action> {
    if c.behaviors.Some? && |c.behaviors.value| > 0 then BehaviorsActions(c.behaviors.value) else []
  }

  function BehaviorCollectionsActions(cs: seq<BehaviorCollection>): seq<Action>
    decreases |cs|
  {
    if cs == [] then []
    else BehaviorCollectionsActions(cs[..|cs| - 1]) + BehaviorCollectionActions(cs[|cs| - 1])
  }

  /** `process_collections`: all action collections, then all behaviour collections. */
  function CollectionsActions(c: Collections): seq<Action> {
    (if c.actionCollections.Some? then ActionCollectionsActions(c.actionCollections.value) else [])
    + (if c.behaviorCollections.Some? then BehaviorCollectionsActions(c.behaviorCollections.value) else [])
  }

  /** `process_bundle`: top-level behaviours, then top-level actions, then the collections. */
  function BundleActions(b: Bundle): seq<Action> {
    (if b.behaviors.Some? then BehaviorsActions(b.behaviors.value) else [])
    + (if b.actions.Some? && |b.actions.value| > 0 then b.actions.value else [])
    + (if b.collections.Some? then CollectionsActions(b.collections.value) else [])
  }

  /** Every findings bundle of every malware subject, in document order. */
  function PackageBundles(subjects: seq<MalwareSubject>): seq<Bundle>
    decreases |subjects|
  {
    if subjects == [] then []
    else PackageBundles(subjects[..|subjects| - 1]) + subjects[|subjects| - 1].findingsBundles
  }

  /** The bundles `generate_oval` walks: the bundle reading if it has content, else the package's bundles. */
  function SelectedBundles(input: ParsedInput): seq<Bundle> {
    if input.asBundle.Some? then [input.asBundle.value]
    else if input.asPackage.Some? then PackageBundles(input.asPackage.value.malwareSubjects)
    else []
  }

  // ---------------------------------------------------------------------------
  // Where an action can sit in a bundle, stated without any walk: the walk
  // functions above visit exactly these actions.
  // ---------------------------------------------------------------------------

  predicate InBehaviors(x: Action, bs: seq<Behavior>) {
    exists k :: 0 <= k < |bs| && bs[k].actions.Some? && x in bs[k].actions.value
  }

  predicate InActionCollections(x: Action, cs: seq<ActionCollection>) {
    exists k :: 0 <= k < |cs| && cs[k].actions.Some? && x in cs[k].actions.value
  }

  predicate InBehaviorCollections(x: Action, cs: seq<BehaviorCollection>) {
    exists k :: 0 <= k < |cs| && cs[k].behaviors.Some? && InBehaviors(x, cs[k].behaviors.value)
  }

  predicate InCollections(x: Action, c: Collections) {
    (c.actionCollections.Some? && InActionCollections(x, c.actionCollections.value))
    || (c.behaviorCollections.Some? && InBehaviorCollections(x, c.behaviorCollections.value))
  }

  /** The action sits in a top-level behaviour, in the top-level action list, or in a collection. */
  predicate InBundle(x: Action, b: Bundle) {
    (b.behaviors.Some? && InBehaviors(x, b.behaviors.value))
    || (b.actions.Some? && x in b.actions.value)
    || (b.collections.Some? && InCollections(x, b.collections.value))
  }

  /** `process_behavior(s)` visits exactly the actions of the behaviours' action lists. */
  lemma {:induction false} BehaviorsActionsMembers(bs: seq<Behavior>)
    ensures forall x :: x in BehaviorsActions(bs) <==> InBehaviors(x, bs)
    decreases |bs|
  {
    if bs != [] {
      var n := |bs| - 1;
      var init := bs[..n];
      BehaviorsActionsMembers(init);
      assert forall k :: 0 <= k < n ==> init[k] == bs[k];
      forall x
        ensures x in BehaviorsActions(bs) <==> InBehaviors(x, bs)
      {
        if InBehaviors(x, bs) {
          var k :| 0 <= k < |bs| && bs[k].actions.Some? && x in bs[k].actions.value;
          if k < n {
            assert InBehaviors(x, init);
          }
        }
        if x in BehaviorsActions(init) {
          var k :| 0 <= k < n && init[k].actions.Some? && x in init[k].actions.value;
          assert bs[k] == init[k];
        }
      }
    }
  }

  /**
   * `process_action_collection` over a list of collections visits exactly the
   * actions of their action lists: the non-emptiness gate drops none.
   */
  lemma {:induction false} ActionCollectionsActionsMembers(cs: seq<ActionCollection>)
    ensures forall x :: x in ActionCollectionsActions(cs) <==> InActionCollections(x, cs)
    decreases |cs|
  {
    if cs != [] {
      var n := |cs| - 1;
      var init := cs[..n];
      ActionCollectionsActionsMembers(init);
      assert forall k :: 0 <= k < n ==> init[k] == cs[k];
      forall x
        ensures x in ActionCollectionsActions(cs) <==> InActionCollections(x, cs)
      {
        if InActionCollections(x, cs) {
          var k :| 0 <= k < |cs| && cs[k].actions.Some? && x in cs[k].actions.value;
          if k < n {
            assert InActionCollections(x, init);
          }
        }
        if x in ActionCollectionsActions(init) {
          var k :| 0 <= k < n && init[k].actions.Some? && x in init[k].actions.value;
          assert cs[k] == init[k];
        }
      }
    }
  }

  /** The intended behaviour-collection walk visits exactly the actions of the collected behaviours. */
  lemma {:induction false} BehaviorCollectionsActionsMembers(cs: seq<BehaviorCollection>)
    ensures forall x :: x in BehaviorCollectionsActions(cs) <==> InBehaviorCollections(x, cs)
    decreases |cs|
  {
    if cs != [] {
      var n := |cs| - 1;
      var init := cs[..n];
      var last := cs[n];
      BehaviorCollectionsActionsMembers(init);
      if last.behaviors.Some? {
        BehaviorsActionsMembers(last.behaviors.value);
      }
      assert forall k :: 0 <= k < n ==> init[k] == cs[k];
      forall x
        ensures x in BehaviorCollectionsActions(cs) <==> InBehaviorCollections(x, cs)
      {
        if InBehaviorCollections(x, cs) {
          var k :| 0 <= k < |cs| && cs[k].behaviors.Some? && InBehaviors(x, cs[k].behaviors.value);
          if k < n {
            assert InBehaviorCollections(x, init);
          } else {
            assert x in BehaviorCollectionActions(last);
          }
        }
        if x in BehaviorCollectionsActions(init) {
          var k :| 0 <= k < n && init[k].behaviors.Some? && InBehaviors(x, init[k].behaviors.value);
          assert cs[k] == init[k];
        }
        if x in BehaviorCollectionActions(last) {
          assert InBehaviors(x, cs[n].behaviors.value);
        }
      }
    }
  }

  /** `process_collections` visits exactly the actions held in either kind of collection. */
  lemma CollectionsActionsMembers(c: Collections)
    ensures forall x :: x in CollectionsActions(c) <==> InCollections(x, c)
  {
    if c.actionCollections.Some? {
      ActionCollectionsActionsMembers(c.actionCollections.value);
    }
    if c.behaviorCollections.Some? {
      BehaviorCollectionsActionsMembers(c.behaviorCollections.value);
    }
  }

  /**
   * `process_bundle` visits every action that sits anywhere in the bundle, and
   * no other: top-level behaviours, the top-level action list, and both kinds
   * of collection.
   */
  lemma BundleActionsMembers(b: Bundle)
    ensures forall x :: x in BundleActions(b) <==> InBundle(x, b)
  {
    if b.behaviors.Some? {
      BehaviorsActionsMembers(b.behaviors.value);
    }
    if b.collections.Some? {
      CollectionsActionsMembers(b.collections.value);
    }
  }

  /** A package yields exactly the findings bundles of its malware subjects. */
  lemma {:induction false} PackageBundlesMembers(subjects: seq<MalwareSubject>)
    ensures forall bd :: (bd in PackageBundles(subjects)
      <==> exists k :: 0 <= k < |subjects| && bd in subjects[k].findingsBundles)
    decreases |subjects|
  {
    if subjects != [] {
      var n := |subjects| - 1;
      var init := subjects[..n];
      PackageBundlesMembers(init);
      assert forall k :: 0 <= k < n ==> init[k] == subjects[k];
      forall bd
        ensures bd in PackageBundles(subjects)
          <==> exists k :: 0 <= k < |subjects| && bd in subjects[k].findingsBundles
      {
        if bd in PackageBundles(init) {
          var k :| 0 <= k < n && bd in init[k].findingsBundles;
          assert bd in subjects[k].findingsBundles;
        }
        if exists k :: 0 <= k < |subjects| && bd in subjects[k].findingsBundles {
          var k :| 0 <= k < |subjects| && bd in subjects[k].findingsBundles;
          if k < n {
            assert bd in init[k].findingsBundles;
          }
        }
      }
    }
  }

  /**
   * The bundle reading wins whenever it has content; only otherwise are the
   * package's findings bundles walked, and then all of them.
   */
  lemma SelectedBundlesMembers(input: ParsedInput)
    ensures input.asBundle.Some? ==> SelectedBundles(input) == [input.asBundle.value]
    ensures input.asBundle.None? && input.asPackage.Some? ==>
      forall bd :: bd in SelectedBundles(input) <==>
        exists k :: 0 <= k < |input.asPackage.value.malwareSubjects|
          && bd in input.asPackage.value.malwareSubjects[k].findingsBundles
    ensures input.asBundle.None? && input.asPackage.None? ==> SelectedBundles(input) == []
  {
    if input.asBundle.None? && input.asPackage.Some? {
      PackageBundlesMembers(input.asPackage.value.malwareSubjects);
    }
  }

  // ---------------------------------------------------------------------------
  // The behaviour-collection walk as written: `process_behavior` is handed the
  // whole behaviour list, whose lack of an `action_list` attribute raises.
  // ---------------------------------------------------------------------------

  /** The outcome of a walk: it completes with the actions visited, or raises after visiting some. */
  datatype Walk = Completed(actions: seq<Action>) | Raised(visited: seq<Action>)

  /** A behaviour collection that `process_behavior_collection` forwards (and, as written, raises on). */
  predicate Forwarded(c: BehaviorCollection) {
    c.behaviors.Some? && |c.behaviors.value| > 0
  }

  /** Whether, as written, walking these behaviour collections raises. */
  function BehaviorCollectionsRaiseAsWritten(cs: seq<BehaviorCollection>): (raised: bool)
    ensures raised <==> exists k :: 0 <= k < |cs| && Forwarded(cs[k])
    ensures !raised ==> BehaviorCollectionsActions(cs) == []
    decreases |cs|
  {
    if cs == [] then false
    else if BehaviorCollectionsRaiseAsWritten(cs[..|cs| - 1]) then true
    else Forwarded(cs[|cs| - 1])
  }

  /** `process_collections` as written. */
  function CollectionsWalkAsWritten(c: Collections): (w: Walk)
    ensures w.Completed? ==> w.actions == CollectionsActions(c)
    ensures w.Raised? <==>
      c.behaviorCollections.Some? &&
      exists k :: 0 <= k < |c.behaviorCollections.value| && Forwarded(c.behaviorCollections.value[k])
  {
    var visited := if c.actionCollections.Some? then ActionCollectionsActions(c.actionCollections.value) else [];
    if c.behaviorCollections.Some? && BehaviorCollectionsRaiseAsWritten(c.behaviorCollections.value)
    then Raised(visited)
    else Completed(visited)
  }

  /** `process_bundle` as written. */
  function BundleWalkAsWritten(b: Bundle): (w: Walk)
    ensures w.Completed? ==> w.actions == BundleActions(b)
    ensures w.Raised? <==> b.collections.Some? && CollectionsWalkAsWritten(b.collections.value).Raised?
  {
    var before := (if b.behaviors.Some? then BehaviorsActions(b.behaviors.value) else [])
      + (if b.actions.Some? && |b.actions.value| > 0 then b.actions.value else []);
    if b.collections.None? then Completed(before)
    else match CollectionsWalkAsWritten(b.collections.value)
      case Completed(rest) => Completed(before + rest)
      case Raised(rest) => Raised(before + rest)
  }
}
