/**
 * The translation decisions of `maec_to_oval_processor`, stated as functions
 * of the input: which links and actions convert, what each action adds to the
 * document and to the conversion ledger, and what a whole walk adds.
 * The processor class is proved to do exactly what these functions say.
 */
module Translation {
  import opened Wrappers
  import opened Maec
  import opened Oval

  /**
   * `cybox_oval_mappings.create_oval`: from a properties bag and the id of the
   * originating action, the test, object and states for that object, or `None`
   * when the object type is unsupported. It is a parameter of the model.
   */
  type Mapping = (Properties, string) -> Option<Mapped>

  const SupportedActionTypes: seq<string> := ["create", "modify"]
  const AcceptedStatuses: seq<string> := ["Success", "Complete/Finish"]
  const AffectedRoles: seq<string> := ["input", "output", "side-effect"]

  /** The association-type gate of the resolver. */
  predicate RoleEligible(role: Option<string>) {
    role.Some? && role.value in AffectedRoles
  }

  /** The id-and-verb gate of `process_action`. */
  predicate SupportedAction(a: Action) {
    a.id.Some? && FirstToken(a.name) in SupportedActionTypes
  }

  /** The status gate: no status, an empty one, or one of the accepted ones. */
  predicate StatusAccepted(status: Option<string>) {
    !(Truthy(status) && status.value !in AcceptedStatuses)
  }

  /** The action has a present, non-empty list of associated objects. */
  predicate HasLinks(a: Action) {
    a.associatedObjects.Some? && |a.associatedObjects.value| > 0
  }

  // ---------------------------------------------------------------------------
  // Associated-object resolver
  // ---------------------------------------------------------------------------

  /** The object `process_action` looks up for a link whose idref is set. */
  function Dereference(link: AssociatedObject, b: Bundle): Option<CyboxObject> {
    if Truthy(link.idref) then Lookup(b, link.idref.value) else None
  }

  /** The properties the resolver maps: the dereferenced object's when one was found, else the link's own. */
  function ResolvedProperties(link: AssociatedObject, actual: Option<CyboxObject>): Option<Properties> {
    if actual.Some? then actual.value.properties else link.properties
  }

  /** What `process_associated_object` adds to the document, if anything. */
  function ResolveMapping(link: AssociatedObject, actionId: string, actual: Option<CyboxObject>, m: Mapping): (r: Option<Mapped>)
    ensures r.Some? ==> RoleEligible(link.associationType) && ResolvedProperties(link, actual).Some?
    ensures r.Some? ==> r == m(ResolvedProperties(link, actual).value, actionId)
  {
    if !RoleEligible(link.associationType) then None
    else match ResolvedProperties(link, actual)
      case None => None
      case Some(p) => m(p, actionId)
  }

  /** The resolver's three ways of returning False. */
  lemma ResolverRejections(link: AssociatedObject, actionId: string, actual: Option<CyboxObject>, m: Mapping)
    requires !RoleEligible(link.associationType)
      || ResolvedProperties(link, actual).None?
      || m(ResolvedProperties(link, actual).value, actionId).None?
    ensures ResolveMapping(link, actionId, actual, m).None?
  {
  }

  /**
   * The converse: a link with an eligible role and present properties gets
   * exactly what the mapping returns, so it is accepted whenever the mapping
   * returns something.
   */
  lemma ResolverAccepts(link: AssociatedObject, actionId: string, actual: Option<CyboxObject>, m: Mapping)
    requires RoleEligible(link.associationType) && ResolvedProperties(link, actual).Some?
    ensures ResolveMapping(link, actionId, actual, m) == m(ResolvedProperties(link, actual).value, actionId)
    ensures m(ResolvedProperties(link, actual).value, actionId).Some? ==> ResolveMapping(link, actionId, actual, m).Some?
  {
  }

  /** A link whose idref names no object in the bundle is resolved from its own inline properties. */
  lemma DanglingIdrefFallsBack(link: AssociatedObject, b: Bundle)
    requires Truthy(link.idref) && link.idref.value !in b.objects
    ensures ResolvedProperties(link, Dereference(link, b)) == link.properties
  {
  }

  /** The resolver's decision for one link of an action, with dereferencing done in `b`. */
  function LinkMapping(link: AssociatedObject, actionId: string, b: Bundle, m: Mapping): Option<Mapped> {
    ResolveMapping(link, actionId, Dereference(link, b), m)
  }

  /**
   * The mapping of the first link that maps, if any: the short-circuiting
   * `converted or ...` never resolves the links after it.
   */
  function FirstMapped(links: seq<AssociatedObject>, actionId: string, b: Bundle, m: Mapping): Option<Mapped>
    decreases |links|
  {
    if links == [] then None
    else
      var earlier := FirstMapped(links[..|links| - 1], actionId, b, m);
      if earlier.Some? then earlier else LinkMapping(links[|links| - 1], actionId, b, m)
  }

  lemma {:induction false} FirstMappedIsFirst(links: seq<AssociatedObject>, actionId: string, b: Bundle, m: Mapping)
    ensures FirstMapped(links, actionId, b, m).Some?
        <==> exists k :: 0 <= k < |links| && LinkMapping(links[k], actionId, b, m).Some?
    ensures forall k :: (0 <= k < |links| && LinkMapping(links[k], actionId, b, m).Some?
        && (forall j :: 0 <= j < k ==> LinkMapping(links[j], actionId, b, m).None?)
        ==> FirstMapped(links, actionId, b, m) == LinkMapping(links[k], actionId, b, m))
    decreases |links|
  {
    if links != [] {
      var n := |links| - 1;
      var init := links[..n];
      FirstMappedIsFirst(init, actionId, b, m);
      assert forall j :: 0 <= j < n ==> links[j] == init[j];
      if FirstMapped(init, actionId, b, m).Some? {
        var w :| 0 <= w < n && LinkMapping(init[w], actionId, b, m).Some?;
        assert LinkMapping(links[w], actionId, b, m).Some?;
      }
    }
  }

  // ---------------------------------------------------------------------------
  // Action filter
  // ---------------------------------------------------------------------------

  /** Why `process_action` skips an action, or the mapping it converts it with. */
  datatype Verdict =
    | UnsupportedAction
    | IneligibleStatus
    | NoAssociatedObjects
    | NothingMapped
    | Converted(mapped: Mapped)

  function ActionVerdict(a: Action, b: Bundle, m: Mapping): (v: Verdict)
    ensures v.Converted? ==> SupportedAction(a) && StatusAccepted(a.status) && HasLinks(a)
  {
    if !SupportedAction(a) then UnsupportedAction
    else if !StatusAccepted(a.status) then IneligibleStatus
    else if !HasLinks(a) then NoAssociatedObjects
    else match FirstMapped(a.associatedObjects.value, a.id.value, b, m)
      case None => NothingMapped
      case Some(mp) => Converted(mp)
  }

  predicate Converts(a: Action, b: Bundle, m: Mapping) {
    ActionVerdict(a, b, m).Converted?
  }

  /**
   * An action converts exactly when it passes the gates and one of its links maps;
   * it is converted with the mapping of the first such link.
   */
  lemma ConvertedIffSomeLinkMaps(a: Action, b: Bundle, m: Mapping)
    ensures Converts(a, b, m) <==>
      SupportedAction(a) && StatusAccepted(a.status) && HasLinks(a) &&
      exists k :: 0 <= k < |a.associatedObjects.value|
        && LinkMapping(a.associatedObjects.value[k], a.id.value, b, m).Some?
    ensures Converts(a, b, m) ==>
      exists k :: 0 <= k < |a.associatedObjects.value|
        && Some(ActionVerdict(a, b, m).mapped) == LinkMapping(a.associatedObjects.value[k], a.id.value, b, m)
        && forall j :: 0 <= j < k ==> LinkMapping(a.associatedObjects.value[j], a.id.value, b, m).None?
  {
    if SupportedAction(a) && StatusAccepted(a.status) && HasLinks(a) {
      var links := a.associatedObjects.value;
      FirstMappedIsFirst(links, a.id.value, b, m);
      if Converts(a, b, m) {
        var w :| 0 <= w < |links| && LinkMapping(links[w], a.id.value, b, m).Some?;
        var k := 0;
        while LinkMapping(links[k], a.id.value, b, m).None?
          invariant 0 <= k <= w
          decreases w - k
          invariant forall j :: 0 <= j < k ==> LinkMapping(links[j], a.id.value, b, m).None?
        {
          k := k + 1;
        }
      }
    }
  }

  // ---------------------------------------------------------------------------
  // Document state and conversion ledger
  // ---------------------------------------------------------------------------

  /**
   * The translator's growing state: the two ledgers, the four entity lists and
   * the next value of the definition-id generator.
   */
  datatype State = State(
    converted: seq<string>,
    skipped: seq<Option<string>>,
    defs: seq<Definition>,
    tests: seq<OvalTest>,
    objects: seq<OvalObject>,
    states: seq<OvalState>,
    nextDefId: nat)

  const Initial := State([], [], [], [], [], [], 0)

  /** A definition whose criteria hold one criterion referring to `testId`. */
  function LinkedDefinition(id: nat, testId: string): Definition {
    NewDefinition(id).(criteria := Some(Criteria([Criterion(testId)])))
  }

  /**
   * The document invariant: definition k is the one built for test k, every
   * definition was converted from one action, and definition ids were drawn in
   * increasing order from the generator.
   */
  predicate Consistent(s: State) {
    |s.defs| == |s.tests| == |s.objects| == |s.converted|
    && (forall k :: 0 <= k < |s.defs| ==> s.defs[k] == LinkedDefinition(s.defs[k].id, s.tests[k].id))
    && (forall k :: 0 <= k < |s.defs| ==> s.defs[k].id < s.nextDefId)
    && (forall i, j :: 0 <= i < j < |s.defs| ==> s.defs[i].id < s.defs[j].id)
  }

  /** The entities a successful resolver call adds, with the definition drawn from the generator. */
  function Emit(s: State, mp: Mapped): State {
    s.(tests := s.tests + [mp.test],
       objects := s.objects + [mp.obj],
       states := s.states + mp.states,
       defs := s.defs + [LinkedDefinition(s.nextDefId, mp.test.id)],
       nextDefId := s.nextDefId + 1)
  }

  /**
   * A successful resolver call adds one test, one object and the states in
   * order, and one definition with a fresh id whose only criterion refers to
   * the new test.
   */
  lemma EmitAddsLinkedDefinition(s: State, mp: Mapped)
    requires Consistent(s)
    ensures var r := Emit(s, mp);
      r.tests == s.tests + [mp.test] && r.objects == s.objects + [mp.obj]
      && r.states == s.states + mp.states && r.defs[..|s.defs|] == s.defs
      && |r.defs| == |s.defs| + 1
      && r.defs[|s.defs|].criteria == Some(Criteria([Criterion(mp.test.id)]))
      && (forall k :: 0 <= k < |s.defs| ==> s.defs[k].id != r.defs[|s.defs|].id)
  {
  }

  /**
   * In a consistent document test k is the one that definition k refers to, so
   * no test is left without a definition, and definition ids are distinct.
   */
  lemma ConsistentEveryTestReferenced(s: State)
    requires Consistent(s)
    ensures forall k :: 0 <= k < |s.tests| ==>
      k < |s.defs| && s.defs[k].criteria == Some(Criteria([Criterion(s.tests[k].id)]))
    ensures forall i, j :: 0 <= i < |s.defs| && 0 <= j < |s.defs| && i != j ==> s.defs[i].id != s.defs[j].id
  {
    forall k | 0 <= k < |s.tests|
      ensures k < |s.defs| && s.defs[k].criteria == Some(Criteria([Criterion(s.tests[k].id)]))
    {
      assert s.defs[k] == LinkedDefinition(s.defs[k].id, s.tests[k].id);
    }
  }

  /** The effect of `process_action` on the state. */
  function StepAction(s: State, a: Action, b: Bundle, m: Mapping): (r: State)
    ensures s.converted <= r.converted && s.skipped <= r.skipped
    ensures |r.converted| + |r.skipped| == |s.converted| + |s.skipped| + 1
    ensures |r.converted| > |s.converted| <==> Converts(a, b, m)
    ensures Converts(a, b, m) ==> r.converted == s.converted + [a.id.value]
    ensures !Converts(a, b, m) ==> r.skipped == s.skipped + [a.id]
    ensures !Converts(a, b, m) ==>
      r.defs == s.defs && r.tests == s.tests && r.objects == s.objects
      && r.states == s.states && r.nextDefId == s.nextDefId
    ensures |r.defs| - |s.defs| == |r.tests| - |s.tests| == |r.objects| - |s.objects|
      == |r.converted| - |s.converted|
  {
    match ActionVerdict(a, b, m)
    case Converted(mp) => Emit(s, mp).(converted := s.converted + [a.id.value])
    case _ => s.(skipped := s.skipped + [a.id])
  }

  /** An action that fails a gate is skipped and adds nothing to the document. */
  lemma SkippedWithoutEntities(s: State, a: Action, b: Bundle, m: Mapping)
    requires !SupportedAction(a) || !StatusAccepted(a.status) || !HasLinks(a)
    ensures StepAction(s, a, b, m) == s.(skipped := s.skipped + [a.id])
  {
  }

  /** Processing one action keeps the document invariant. */
  lemma StepActionKeepsConsistent(s: State, a: Action, b: Bundle, m: Mapping)
    requires Consistent(s)
    ensures Consistent(StepAction(s, a, b, m))
  {
  }

  /** The effect of processing `acts` in order, with `b` as the current bundle. */
  function StepActions(s: State, acts: seq<Action>, b: Bundle, m: Mapping): (r: State)
    ensures s.converted <= r.converted && s.skipped <= r.skipped
    ensures |r.converted| + |r.skipped| == |s.converted| + |s.skipped| + |acts|
    decreases |acts|
  {
    if acts == [] then s
    else StepAction(StepActions(s, acts[..|acts| - 1], b, m), acts[|acts| - 1], b, m)
  }

  lemma {:induction false} StepActionsAppend(s: State, xs: seq<Action>, ys: seq<Action>, b: Bundle, m: Mapping)
    ensures StepActions(s, xs + ys, b, m) == StepActions(StepActions(s, xs, b, m), ys, b, m)
    decreases |ys|
  {
    if ys == [] {
      assert xs + ys == xs;
    } else {
      var n := |ys| - 1;
      assert (xs + ys)[..|xs + ys| - 1] == xs + ys[..n];
      StepActionsAppend(s, xs, ys[..n], b, m);
    }
  }

  /** Processing a sequence of actions keeps the document invariant. */
  lemma {:induction false} StepActionsKeepsConsistent(s: State, acts: seq<Action>, b: Bundle, m: Mapping)
    requires Consistent(s)
    ensures Consistent(StepActions(s, acts, b, m))
    decreases |acts|
  {
    if acts != [] {
      StepActionsKeepsConsistent(s, acts[..|acts| - 1], b, m);
      StepActionKeepsConsistent(StepActions(s, acts[..|acts| - 1], b, m), acts[|acts| - 1], b, m);
    }
  }

  /** The ids of the actions in `acts` that convert, in order. */
  function ConvertedIds(acts: seq<Action>, b: Bundle, m: Mapping): seq<string>
    decreases |acts|
  {
    if acts == [] then []
    else
      var a := acts[|acts| - 1];
      ConvertedIds(acts[..|acts| - 1], b, m) + (if Converts(a, b, m) then [a.id.value] else [])
  }

  /** The ids (possibly missing) of the actions in `acts` that are skipped, in order. */
  function SkippedIds(acts: seq<Action>, b: Bundle, m: Mapping): seq<Option<string>>
    decreases |acts|
  {
    if acts == [] then []
    else
      var a := acts[|acts| - 1];
      SkippedIds(acts[..|acts| - 1], b, m) + (if Converts(a, b, m) then [] else [a.id])
  }

  /** The ledgers grow by the converted and the skipped actions of the walk, in input order. */
  lemma {:induction false} StepActionsLedger(s: State, acts: seq<Action>, b: Bundle, m: Mapping)
    ensures StepActions(s, acts, b, m).converted == s.converted + ConvertedIds(acts, b, m)
    ensures StepActions(s, acts, b, m).skipped == s.skipped + SkippedIds(acts, b, m)
    decreases |acts|
  {
    if acts != [] {
      StepActionsLedger(s, acts[..|acts| - 1], b, m);
    }
  }

  /** A walk adds to the converted ledger exactly when one of its actions converts. */
  lemma {:induction false} StepActionsConvertsSome(s: State, acts: seq<Action>, b: Bundle, m: Mapping)
    ensures |StepActions(s, acts, b, m).converted| > |s.converted|
        <==> exists j :: 0 <= j < |acts| && Converts(acts[j], b, m)
    decreases |acts|
  {
    if acts != [] {
      var n := |acts| - 1;
      StepActionsConvertsSome(s, acts[..n], b, m);
      assert forall j :: 0 <= j < n ==> acts[..n][j] == acts[j];
    }
  }

  // ---------------------------------------------------------------------------
  // Several bundles
  // ---------------------------------------------------------------------------

  /** The effect of walking the bundles in order, each as the current bundle for its own actions. */
  function StepBundles(s: State, bs: seq<Bundle>, m: Mapping): (r: State)
    ensures s.converted <= r.converted && s.skipped <= r.skipped
    decreases |bs|
  {
    if bs == [] then s
    else
      var last := bs[|bs| - 1];
      StepActions(StepBundles(s, bs[..|bs| - 1], m), BundleActions(last), last, m)
  }

  /** Walking bundles keeps the document invariant; in particular a whole run from a fresh translator ends consistent. */
  lemma {:induction false} StepBundlesKeepsConsistent(s: State, bs: seq<Bundle>, m: Mapping)
    requires Consistent(s)
    ensures Consistent(StepBundles(s, bs, m))
    decreases |bs|
  {
    if bs != [] {
      var last := bs[|bs| - 1];
      StepBundlesKeepsConsistent(s, bs[..|bs| - 1], m);
      StepActionsKeepsConsistent(StepBundles(s, bs[..|bs| - 1], m), BundleActions(last), last, m);
    }
  }

  lemma {:induction false} StepBundlesAppend(s: State, xs: seq<Bundle>, ys: seq<Bundle>, m: Mapping)
    ensures StepBundles(s, xs + ys, m) == StepBundles(StepBundles(s, xs, m), ys, m)
    decreases |ys|
  {
    if ys == [] {
      assert xs + ys == xs;
    } else {
      var n := |ys| - 1;
      assert (xs + ys)[..|xs + ys| - 1] == xs + ys[..n];
      StepBundlesAppend(s, xs, ys[..n], m);
    }
  }

  /** Some action of bundle `b`, resolved in `b`, converts. */
  predicate BundleConverts(b: Bundle, m: Mapping) {
    exists j :: 0 <= j < |BundleActions(b)| && Converts(BundleActions(b)[j], b, m)
  }

  /** A walk over bundles adds to the converted ledger exactly when some action of some bundle converts. */
  lemma {:induction false} StepBundlesConvertsSome(s: State, bs: seq<Bundle>, m: Mapping)
    ensures |StepBundles(s, bs, m).converted| > |s.converted|
        <==> exists i :: 0 <= i < |bs| && BundleConverts(bs[i], m)
    decreases |bs|
  {
    if bs != [] {
      var n := |bs| - 1;
      var init, last := bs[..n], bs[n];
      var mid := StepBundles(s, init, m);
      var r := StepActions(mid, BundleActions(last), last, m);
      assert StepBundles(s, bs, m) == r;
      StepBundlesConvertsSome(s, init, m);
      StepActionsConvertsSome(mid, BundleActions(last), last, m);
      assert |r.converted| > |mid.converted| <==> BundleConverts(last, m);
      assert |s.converted| <= |mid.converted| <= |r.converted|;
      if |mid.converted| > |s.converted| {
        var i :| 0 <= i < n && BundleConverts(init[i], m);
        assert init[i] == bs[i];
      } else if !BundleConverts(last, m) {
        forall i | 0 <= i < |bs| ensures !BundleConverts(bs[i], m) {
          if i < n {
            assert init[i] == bs[i];
          }
        }
      }
    }
  }

  /**
   * Output decision of `generate_oval`: starting from a fresh translator, the
   * document is written exactly when some action of some selected bundle converts.
   */
  lemma WrittenIffSomeActionConverts(input: ParsedInput, m: Mapping)
    ensures |StepBundles(Initial, SelectedBundles(input), m).converted| > 0
        <==> exists i :: 0 <= i < |SelectedBundles(input)| && BundleConverts(SelectedBundles(input)[i], m)
  {
    StepBundlesConvertsSome(Initial, SelectedBundles(input), m);
  }
}
