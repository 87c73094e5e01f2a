/**
 The lifecycle of a streamed component: its logic object is built by the author's class, swapped
 when the registry's class changes, and told when it is mounted, updated and unmounted. The
 lifecycle is a state machine over what the host framework may do; the component's methods
 implement its steps. Errors the author's hooks throw are caught and leave no trace here.
 */
module Lifecycle {
  import opened Wrappers

  type Class = nat
  /** `undefined`, NaN, and the values that strict equality treats as themselves. */
  datatype PropValue = Undefined | NaN | Plain(v: int)

  type Props = map<string, PropValue>
  type Values = map<string, int>

  /** What the registry holds for the component's name. `hasTemplate` is false until it arrives. */
  datatype Entry = Entry(logic: Option<Class>, ver: int, hasTemplate: bool)

  /** An author's class was constructed (or the base class, when there is none); it may have thrown. */
  datatype Attempt = Attempt(logic: Option<Class>, ver: int, props: Props, ok: bool)

  datatype Event = DidMount(id: nat) | DidUpdate(id: nat) | WillUnmount(id: nat)

  datatype Stage = Constructed | Mounted | Gone

  /** `logic` is the class of the current logic object, `None` for the base class; `id` numbers the objects. */
  datatype State = State(
    id: nat,
    logic: Option<Class>,
    values: Values,
    needsDidMount: bool,
    failedLogic: Option<Class>,
    failedProps: Option<Props>,
    failedVer: int,
    err: bool,
    subscribed: bool,
    stage: Stage,
    attempts: seq<Attempt>,
    events: seq<Event>)

  predicate StrictlyEqual(a: PropValue, b: PropValue) {
    a == b && a != NaN
  }

  function Get(props: Props, key: string): PropValue {
    if key in props then props[key] else Undefined
  }

  /** As many keys, children aside, and under each key of `a` a strictly equal value. */
  predicate ShallowEqual(a: Props, b: Option<Props>) {
    && b.Some?
    && |a.Keys - {"children"}| == |b.value.Keys - {"children"}|
    && forall k :: k in a.Keys - {"children"} ==> StrictlyEqual(a[k], Get(b.value, k))
  }

  // ----- Steps -----

  /** `built` is the initial state of the new object, `None` when the author's constructor throws. */
  function Made(s: State, entry: Entry, props: Props, built: Option<Values>, previous: Option<Values>): State {
    var ok := entry.logic.None? || built.Some?;
    var initial := if entry.logic.Some? && built.Some? then built.value else map[];
    s.(
      id := s.id + 1,
      logic := if ok then entry.logic else None,
      failedLogic := if ok then None else entry.logic,
      failedProps := if ok then None else Some(props),
      failedVer := if ok then s.failedVer else entry.ver,
      values := match previous case None => initial case Some(values) => initial + values,
      attempts := s.attempts + [Attempt(entry.logic, entry.ver, props, ok)])
  }

  function Constructing(entry: Entry, props: Props, built: Option<Values>): State {
    Made(State(0, None, map[], false, None, None, -1, false, false, Constructed, [], []), entry, props, built, None)
  }

  predicate Settled(s: State, entry: Entry, props: Props) {
    || entry.logic == s.logic
    || (entry.logic == s.failedLogic && entry.ver == s.failedVer && ShallowEqual(props, s.failedProps))
  }

  function Reconciled(s: State, entry: Entry, props: Props, built: Option<Values>): State {
    if Settled(s, entry, props) then s
    else
      var t := if s.needsDidMount then s else s.(events := s.events + [WillUnmount(s.id)]);
      Made(t, entry, props, built, Some(t.values)).(needsDidMount := true)
  }

  /** A component that renders inside itself, or after an error, does not look at its logic. */
  function Rendered(s: State, entry: Entry, props: Props, built: Option<Values>, circular: bool): State {
    if circular || s.err then s else Reconciled(s, entry, props, built)
  }

  function MountCommitted(s: State): State {
    s.(stage := Mounted, subscribed := true, events := s.events + [DidMount(s.id)])
  }

  function UpdateCommitted(s: State, entry: Entry): State {
    if !s.needsDidMount then s.(events := s.events + [DidUpdate(s.id)])
    else if s.err || !entry.hasTemplate then s
    else s.(needsDidMount := false, events := s.events + [DidMount(s.id)])
  }

  function Unmounted(s: State): State {
    s.(stage := Gone, subscribed := false,
       events := if s.needsDidMount then s.events else s.events + [WillUnmount(s.id)])
  }

  datatype Step =
    | Render(entry: Entry, props: Props, built: Option<Values>, circular: bool)
    | CommitMount
    | CommitUpdate(entry: Entry)
    | Unmount
    | Catch
    | Notify
    | SetValues(patch: Values)

  /** What the framework may do; a component may even be rendered anew before its mount commits. */
  predicate Possible(s: State, step: Step) {
    match step
    case CommitMount => s.stage == Constructed
    case CommitUpdate(_) => s.stage == Mounted
    case Unmount => s.stage == Mounted
    case _ => s.stage != Gone
  }

  function Next(s: State, step: Step): State {
    match step
    case Render(entry, props, built, circular) => Rendered(s, entry, props, built, circular)
    case CommitMount => MountCommitted(s)
    case CommitUpdate(entry) => UpdateCommitted(s, entry)
    case Unmount => Unmounted(s)
    case Catch => s.(err := true)
    case Notify => s.(err := false)
    case SetValues(patch) => s.(values := s.values + patch)
  }

  predicate ValidRun(s: State, steps: seq<Step>)
    decreases steps
  {
    steps != [] ==> Possible(s, steps[0]) && ValidRun(Next(s, steps[0]), steps[1..])
  }

  function Run(s: State, steps: seq<Step>): State
    decreases steps
  {
    if steps == [] then s else Run(Next(s, steps[0]), steps[1..])
  }

  // ----- What a logic object may be told -----

  datatype Phase = Fresh | Alive | Done | Broken

  /** Mounted once, updated only while mounted, unmounted once and only after that. */
  function Follow(phase: Phase, event: Event): Phase {
    match event
    case DidMount(_) => if phase == Fresh then Alive else Broken
    case DidUpdate(_) => if phase == Alive then Alive else Broken
    case WillUnmount(_) => if phase == Alive then Done else Broken
  }

  function PhaseOf(events: seq<Event>, id: nat): Phase {
    if events == [] then Fresh
    else
      var before := PhaseOf(events[..|events| - 1], id);
      var last := events[|events| - 1];
      if last.id == id then Follow(before, last) else before
  }

  predicate Retried(a: Attempt, b: Attempt) {
    a.logic == b.logic ==> !a.ok && (a.ver != b.ver || !ShallowEqual(b.props, Some(a.props)))
  }

  predicate NoIdleRetry(attempts: seq<Attempt>) {
    forall k :: 0 < k < |attempts| ==> Retried(attempts[k - 1], attempts[k])
  }

  /** The memo of the last construction. */
  predicate Remembers(s: State) {
    && |s.attempts| > 0
    && var last := s.attempts[|s.attempts| - 1];
       if last.ok then s.logic == last.logic && s.failedLogic == None && s.failedProps == None
       else s.logic == None && last.logic.Some? && s.failedLogic == last.logic && s.failedProps == Some(last.props) && s.failedVer == last.ver
  }

  ghost predicate Paired(s: State) {
    && PhaseOf(s.events, s.id) ==
       (if s.stage == Constructed || s.needsDidMount then Fresh else if s.stage == Mounted then Alive else Done)
    && (forall i: nat :: i > s.id ==> PhaseOf(s.events, i) == Fresh)
    && (forall i: nat :: i < s.id ==> PhaseOf(s.events, i) in {Fresh, Done})
  }

  ghost predicate PairInv(s: State) {
    && Paired(s)
    && (s.stage == Constructed ==> !s.needsDidMount)
  }

  predicate MemoInv(s: State) {
    && Remembers(s)
    && NoIdleRetry(s.attempts)
    && (s.subscribed <==> s.stage == Mounted)
  }

  /** The render replaces the logic object. */
  predicate Swaps(s: State, step: Step) {
    step.Render? && !step.circular && !s.err && !Settled(s, step.entry, step.props)
  }

  /** No render replaces the logic object before the mount commits. */
  predicate NoEarlySwap(s: State, steps: seq<Step>)
    decreases steps
  {
    steps != [] ==> !(s.stage == Constructed && Swaps(s, steps[0])) && NoEarlySwap(Next(s, steps[0]), steps[1..])
  }

  lemma PhaseAfter(events: seq<Event>, event: Event, id: nat)
    ensures PhaseOf(events + [event], id) == if event.id == id then Follow(PhaseOf(events, id), event) else PhaseOf(events, id)
  {
    assert (events + [event])[..|events|] == events;
  }

  lemma ConstructingInv(entry: Entry, props: Props, built: Option<Values>)
    ensures PairInv(Constructing(entry, props, built)) && MemoInv(Constructing(entry, props, built))
  {
  }

  lemma PhasesAfter(events: seq<Event>, event: Event)
    ensures forall i: nat :: PhaseOf(events + [event], i) ==
                             if event.id == i then Follow(PhaseOf(events, i), event) else PhaseOf(events, i)
  {
    forall i: nat ensures PhaseOf(events + [event], i) ==
                          if event.id == i then Follow(PhaseOf(events, i), event) else PhaseOf(events, i)
    {
      PhaseAfter(events, event, i);
    }
  }

  lemma SwapKeepsPairs(s: State, entry: Entry, props: Props, built: Option<Values>)
    requires Paired(s) && s.stage == Mounted
    ensures Paired(Reconciled(s, entry, props, built))
  {
    PhasesAfter(s.events, WillUnmount(s.id));
  }

  lemma SwapIsNotIdle(s: State, entry: Entry, props: Props, ok: bool)
    requires Remembers(s) && !Settled(s, entry, props)
    ensures Retried(s.attempts[|s.attempts| - 1], Attempt(entry.logic, entry.ver, props, ok))
  {
  }

  lemma SwapKeepsMemo(s: State, entry: Entry, props: Props, built: Option<Values>)
    requires Remembers(s) && NoIdleRetry(s.attempts)
    ensures Remembers(Reconciled(s, entry, props, built)) && NoIdleRetry(Reconciled(s, entry, props, built).attempts)
  {
    if !Settled(s, entry, props) {
      var ok := entry.logic.None? || built.Some?;
      SwapIsNotIdle(s, entry, props, ok);
      OneMoreAttempt(s.attempts, Attempt(entry.logic, entry.ver, props, ok));
    }
  }

  lemma OneMoreAttempt(attempts: seq<Attempt>, next: Attempt)
    requires NoIdleRetry(attempts) && (attempts != [] ==> Retried(attempts[|attempts| - 1], next))
    ensures NoIdleRetry(attempts + [next])
  {
  }

  lemma MountKeepsPairs(s: State)
    requires Paired(s) && s.stage == Constructed && !s.needsDidMount
    ensures Paired(MountCommitted(s))
  {
    PhasesAfter(s.events, DidMount(s.id));
  }

  lemma UpdateKeepsPairs(s: State, entry: Entry)
    requires Paired(s) && s.stage == Mounted
    ensures Paired(UpdateCommitted(s, entry))
  {
    if s.needsDidMount { PhasesAfter(s.events, DidMount(s.id)); } else { PhasesAfter(s.events, DidUpdate(s.id)); }
  }

  lemma UnmountKeepsPairs(s: State)
    requires Paired(s) && s.stage == Mounted
    ensures Paired(Unmounted(s))
  {
    PhasesAfter(s.events, WillUnmount(s.id));
  }

  lemma StepKeepsPairs(s: State, step: Step)
    requires PairInv(s) && Possible(s, step) && !(s.stage == Constructed && Swaps(s, step))
    ensures PairInv(Next(s, step))
  {
    match step
    case Render(entry, props, built, _) => if s.stage == Mounted { SwapKeepsPairs(s, entry, props, built); }
    case CommitMount => MountKeepsPairs(s);
    case CommitUpdate(entry) => UpdateKeepsPairs(s, entry);
    case Unmount => UnmountKeepsPairs(s);
    case _ =>
  }

  lemma StepKeepsMemo(s: State, step: Step)
    requires MemoInv(s) && Possible(s, step)
    ensures MemoInv(Next(s, step))
  {
    if step.Render? { SwapKeepsMemo(s, step.entry, step.props, step.built); }
  }

  lemma {:induction false} RunKeepsMemo(s: State, steps: seq<Step>)
    requires MemoInv(s) && ValidRun(s, steps)
    ensures MemoInv(Run(s, steps))
    decreases steps
  {
    if steps != [] {
      StepKeepsMemo(s, steps[0]);
      RunKeepsMemo(Next(s, steps[0]), steps[1..]);
    }
  }

  lemma {:induction false} RunKeepsPairs(s: State, steps: seq<Step>)
    requires PairInv(s) && ValidRun(s, steps) && NoEarlySwap(s, steps)
    ensures PairInv(Run(s, steps))
    decreases steps
  {
    if steps != [] {
      StepKeepsPairs(s, steps[0]);
      RunKeepsPairs(Next(s, steps[0]), steps[1..]);
    }
  }

  // ----- Swaps before the mount commits -----

  /** The object replaced is told to unmount although it was never mounted. */
  lemma EarlySwapBreaks(s: State, step: Step)
    requires PairInv(s) && s.stage == Constructed && Swaps(s, step)
    ensures PhaseOf(Next(s, step).events, s.id) == Broken
  {
    PhaseAfter(s.events, WillUnmount(s.id), s.id);
  }

  lemma BrokenStays(s: State, step: Step, id: nat)
    requires PhaseOf(s.events, id) == Broken
    ensures PhaseOf(Next(s, step).events, id) == Broken
  {
    forall event: Event ensures PhaseOf(s.events + [event], id) == Broken { PhaseAfter(s.events, event, id); }
  }

  lemma {:induction false} BrokenForGood(s: State, steps: seq<Step>, id: nat)
    requires PhaseOf(s.events, id) == Broken
    ensures PhaseOf(Run(s, steps).events, id) == Broken
    decreases steps
  {
    if steps != [] {
      BrokenStays(s, steps[0], id);
      BrokenForGood(Next(s, steps[0]), steps[1..], id);
    }
  }

  lemma {:induction false} EarlySwapShows(s: State, steps: seq<Step>) returns (id: nat)
    requires PairInv(s) && ValidRun(s, steps) && !NoEarlySwap(s, steps)
    ensures PhaseOf(Run(s, steps).events, id) == Broken
    decreases steps
  {
    if s.stage == Constructed && Swaps(s, steps[0]) {
      id := s.id;
      EarlySwapBreaks(s, steps[0]);
      BrokenForGood(Next(s, steps[0]), steps[1..], id);
    } else {
      StepKeepsPairs(s, steps[0]);
      id := EarlySwapShows(Next(s, steps[0]), steps[1..]);
    }
  }

  // ----- Over whole runs -----

  /**
   No logic object is ever mounted twice, unmounted unless mounted, unmounted twice, or updated
   outside of that; and once the component is gone, no object is left mounted.
   */
  ghost predicate AllPaired(s: State) {
    forall id: nat ::
      && PhaseOf(s.events, id) != Broken
      && (PhaseOf(s.events, id) == Alive ==> id == s.id && s.stage == Mounted)
  }

  /** The lifecycle is paired exactly on the runs in which no render swaps before the mount commits. */
  lemma LifecycleIsPaired(entry: Entry, props: Props, built: Option<Values>, steps: seq<Step>)
    requires ValidRun(Constructing(entry, props, built), steps)
    ensures AllPaired(Run(Constructing(entry, props, built), steps)) <==>
            NoEarlySwap(Constructing(entry, props, built), steps)
  {
    var s := Constructing(entry, props, built);
    ConstructingInv(entry, props, built);
    if NoEarlySwap(s, steps) {
      RunKeepsPairs(s, steps);
    } else {
      var id := EarlySwapShows(s, steps);
      assert PhaseOf(Run(s, steps).events, id) == Broken;
    }
  }

  predicate HasNaN(props: Props) {
    exists k :: k in props.Keys - {"children"} && props[k] == NaN
  }

  /** Properties compare as equal to themselves exactly when NaN is not among them. */
  lemma EqualToItselfIffNoNaN(props: Props)
    ensures ShallowEqual(props, Some(props)) <==> !HasNaN(props)
  {
    assert forall k :: k in props.Keys - {"children"} ==> (StrictlyEqual(props[k], Get(props, k)) <==> props[k] != NaN);
  }

  /**
   A render of the same class, version and properties as the construction, as when both are one
   turn: it keeps the object unless the class threw and NaN is among the properties.
   */
  lemma OneTurnIsSettled(s: State, entry: Entry)
    requires Remembers(s)
    requires var last := s.attempts[|s.attempts| - 1]; entry.logic == last.logic && entry.ver == last.ver
    ensures var last := s.attempts[|s.attempts| - 1];
            Settled(s, entry, last.props) <==> last.ok || !HasNaN(last.props)
  {
    EqualToItselfIffNoNaN(s.attempts[|s.attempts| - 1].props);
  }

  /** Until the mount commits, every render has the class, version and properties of the construction. */
  predicate OneTurn(entry: Entry, props: Props, steps: seq<Step>)
    decreases steps
  {
    steps != [] && !steps[0].CommitMount? ==>
      && (steps[0].Render? ==>
            steps[0].entry.logic == entry.logic && steps[0].entry.ver == entry.ver && steps[0].props == props)
      && OneTurn(entry, props, steps[1..])
  }

  /** Once committed, swaps are never early. */
  lemma {:induction false} LaterSwapsAreNotEarly(s: State, steps: seq<Step>)
    requires s.stage != Constructed && ValidRun(s, steps)
    ensures NoEarlySwap(s, steps)
    decreases steps
  {
    if steps != [] { LaterSwapsAreNotEarly(Next(s, steps[0]), steps[1..]); }
  }

  lemma OneTurnStep(s: State, entry: Entry, props: Props, step: Step)
    requires s.stage == Constructed && Settled(s, entry, props) && Possible(s, step) && !step.CommitMount?
    requires step.Render? ==> step.entry.logic == entry.logic && step.entry.ver == entry.ver && step.props == props
    ensures !Swaps(s, step)
    ensures Next(s, step).stage == Constructed && Settled(Next(s, step), entry, props)
  {
    if step.Render? { assert Next(s, step) == s; }
  }

  lemma {:induction false} OneTurnHasNoEarlySwap(s: State, entry: Entry, props: Props, steps: seq<Step>)
    requires s.stage == Constructed && ValidRun(s, steps) && OneTurn(entry, props, steps) && Settled(s, entry, props)
    ensures NoEarlySwap(s, steps)
    decreases steps
  {
    if steps != [] {
      if steps[0].CommitMount? {
        LaterSwapsAreNotEarly(Next(s, steps[0]), steps[1..]);
      } else {
        OneTurnStep(s, entry, props, steps[0]);
        OneTurnHasNoEarlySwap(Next(s, steps[0]), entry, props, steps[1..]);
      }
    }
  }

  /** With the first render one turn with the construction, every run is paired, NaN in a failure aside. */
  lemma OneTurnIsPaired(entry: Entry, props: Props, built: Option<Values>, steps: seq<Step>)
    requires ValidRun(Constructing(entry, props, built), steps) && OneTurn(entry, props, steps)
    requires entry.logic.None? || built.Some? || !HasNaN(props)
    ensures AllPaired(Run(Constructing(entry, props, built), steps))
  {
    var s := Constructing(entry, props, built);
    ConstructingInv(entry, props, built);
    OneTurnIsSettled(s, entry);
    OneTurnHasNoEarlySwap(s, entry, props, steps);
    LifecycleIsPaired(entry, props, built, steps);
  }

  /** A class that arrives between construction and commit: the first object is unmounted unmounted. */
  lemma LateClassBreaks(props: Props)
    ensures var s := Constructing(Entry(None, 0, false), props, None);
            var steps := [Render(Entry(Some(1), 1, true), props, Some(map[]), false)];
            ValidRun(s, steps) && !NoEarlySwap(s, steps) && PhaseOf(Run(s, steps).events, 1) == Broken
  {
    var s := Constructing(Entry(None, 0, false), props, None);
    var step := Render(Entry(Some(1), 1, true), props, Some(map[]), false);
    ConstructingInv(Entry(None, 0, false), props, None);
    EarlySwapBreaks(s, step);
    assert [step][1..] == [];
  }

  /** A class that throws on NaN is constructed again by the very first render. */
  lemma ThrowOnNaNBreaks()
    ensures var entry, props := Entry(Some(1), 0, true), map["width" := NaN];
            var s := Constructing(entry, props, None);
            var steps := [Render(entry, props, None, false)];
            ValidRun(s, steps) && OneTurn(entry, props, steps) && PhaseOf(Run(s, steps).events, 1) == Broken
  {
    var entry, props: Props := Entry(Some(1), 0, true), map["width" := NaN];
    var s := Constructing(entry, props, None);
    var step := Render(entry, props, None, false);
    ConstructingInv(entry, props, None);
    assert HasNaN(props) by { assert "width" in props.Keys - {"children"}; }
    OneTurnIsSettled(s, entry);
    EarlySwapBreaks(s, step);
    assert [step][1..] == [];
  }

  /** Two constructions in a row of the same class: the first threw, and version or properties changed. */
  lemma FailedClassWaits(entry: Entry, props: Props, built: Option<Values>, steps: seq<Step>)
    requires ValidRun(Constructing(entry, props, built), steps)
    ensures NoIdleRetry(Run(Constructing(entry, props, built), steps).attempts)
  {
    ConstructingInv(entry, props, built);
    RunKeepsMemo(Constructing(entry, props, built), steps);
  }

  predicate Defined(props: Props) {
    forall k :: k in props ==> props[k] != Undefined
  }

  /** What counts as changed: without NaN and `undefined`, any difference outside the children. */
  lemma ShallowEqualIsEquality(a: Props, b: Props)
    requires !HasNaN(a) && Defined(a)
    ensures ShallowEqual(a, Some(b)) <==> a - {"children"} == b - {"children"}
  {
    var a', b' := a - {"children"}, b - {"children"};
    if ShallowEqual(a, Some(b)) {
      forall k | k in a' ensures k in b' && b'[k] == a'[k] { assert StrictlyEqual(a[k], Get(b, k)); }
      SameSizeSubset(a.Keys - {"children"}, b.Keys - {"children"});
    }
    if a' == b' {
      assert a.Keys - {"children"} == a'.Keys && b.Keys - {"children"} == b'.Keys;
      forall k | k in a.Keys - {"children"} ensures StrictlyEqual(a[k], Get(b, k)) { assert a'[k] == b'[k]; }
    }
  }

  lemma SameSizeSubset<T>(a: set<T>, b: set<T>)
    requires a <= b && |a| == |b|
    ensures a == b
  {
    assert |b - a| == |b| - |a|;
    assert b == a + (b - a);
  }

  /** With `undefined` a change can pass unseen: a key of the one is then missing in the other. */
  lemma UndefinedHidesAChange(v: int)
    ensures ShallowEqual(map["x" := Undefined], Some(map["y" := Plain(v)]))
  {
    var a: Props, b: Props := map["x" := Undefined], map["y" := Plain(v)];
    assert a.Keys - {"children"} == {"x"} && b.Keys - {"children"} == {"y"};
  }

  /** A swap replaces the object but none of the values the author has set. */
  lemma RenderKeepsValues(s: State, step: Step, key: string)
    requires step.Render? && key in s.values
    ensures key in Next(s, step).values && Next(s, step).values[key] == s.values[key]
  {
  }

  /** After an early swap the next commits mount the new object twice, once its template is there. */
  lemma EarlySwapMountsTwice(s: State, step: Step, entry: Entry)
    requires PairInv(s) && s.stage == Constructed && Swaps(s, step)
    ensures var t := Next(s, step);
            PhaseOf(UpdateCommitted(MountCommitted(t), entry).events, t.id) == if entry.hasTemplate then Broken else Alive
  {
    var t := Next(s, step);
    var mounted := MountCommitted(t);
    PhaseAfter(s.events, WillUnmount(s.id), t.id);
    PhaseAfter(t.events, DidMount(t.id), t.id);
    PhaseAfter(mounted.events, DidMount(t.id), t.id);
  }

  // ----- What each step does -----

  /** A new component holds the author's object with its own values, or a bare base object when there is none. */
  lemma ConstructionGives(entry: Entry, props: Props, built: Option<Values>)
    ensures var s := Constructing(entry, props, built);
            && s.stage == Constructed && !s.needsDidMount && !s.subscribed && !s.err && s.events == []
            && (entry.logic.Some? && built.Some? ==> s.logic == entry.logic && s.values == built.value)
            && (entry.logic.None? || built.None? ==> s.logic == None && s.values == map[])
            && (entry.logic.Some? && built.None? ==>
                  s.failedLogic == entry.logic && s.failedProps == Some(props) && s.failedVer == entry.ver)
            && (entry.logic.None? || built.Some? ==> s.failedLogic == None && s.failedProps == None)
            && s.attempts == [Attempt(entry.logic, entry.ver, props, entry.logic.None? || built.Some?)]
  {
  }

  /** A render swaps the object unless nothing may be looked at, the class is the same, or it is known to fail. */
  lemma RenderSwapsExactly(s: State, entry: Entry, props: Props, built: Option<Values>, circular: bool)
    ensures Next(s, Render(entry, props, built, circular)).id == s.id + 1 <==>
            && !circular && !s.err
            && entry.logic != s.logic
            && (entry.logic != s.failedLogic || entry.ver != s.failedVer || !ShallowEqual(props, s.failedProps))
    ensures Next(s, Render(entry, props, built, circular)).id != s.id + 1 ==> Next(s, Render(entry, props, built, circular)) == s
  {
  }

  /** The old object is told to unmount if it was mounted; the new one waits, with its own values under those set before. */
  lemma SwapGives(s: State, step: Step)
    requires Swaps(s, step)
    ensures var t := Next(s, step);
            var made := step.entry.logic.Some? && step.built.Some?;
            && t.needsDidMount && t.stage == s.stage && t.subscribed == s.subscribed && t.err == s.err
            && t.logic == (if made then step.entry.logic else None)
            && t.events == (if s.needsDidMount then s.events else s.events + [WillUnmount(s.id)])
            && t.attempts == s.attempts + [Attempt(step.entry.logic, step.entry.ver, step.props, step.entry.logic.None? || step.built.Some?)]
            && (forall k :: k in t.values <==> k in s.values || (made && k in step.built.value))
            && (forall k :: k in t.values ==> t.values[k] == if k in s.values then s.values[k] else step.built.value[k])
  {
  }

  /** Commits tell the object it is mounted, or updated; a swapped one hears of it once it can be shown. */
  lemma CommitsGive(s: State, entry: Entry)
    ensures MountCommitted(s) == s.(stage := Mounted, subscribed := true, events := s.events + [DidMount(s.id)])
    ensures !s.needsDidMount ==> UpdateCommitted(s, entry) == s.(events := s.events + [DidUpdate(s.id)])
    ensures s.needsDidMount && (s.err || !entry.hasTemplate) ==> UpdateCommitted(s, entry) == s
    ensures s.needsDidMount && !s.err && entry.hasTemplate ==>
              UpdateCommitted(s, entry) == s.(needsDidMount := false, events := s.events + [DidMount(s.id)])
    ensures Unmounted(s).stage == Gone && !Unmounted(s).subscribed
    ensures Unmounted(s).events == if s.needsDidMount then s.events else s.events + [WillUnmount(s.id)]
  {
  }

  // ----- The component -----

  /** The author's object, as far as the component knows it. */
  datatype Logic = Logic(id: nat, cls: Option<Class>, values: Values)

  class StreamableComponent {
    var logic: Logic
    var needsDidMount: bool
    var failedLogic: Option<Class>
    var failedProps: Option<Props>
    var failedVer: int
    var err: bool
    var subscribed: bool
    ghost var stage: Stage
    ghost var attempts: seq<Attempt>
    ghost var events: seq<Event>

    ghost function View(): State
      reads this
    {
      State(logic.id, logic.cls, logic.values, needsDidMount, failedLogic, failedProps, failedVer, err,
            subscribed, stage, attempts, events)
    }

    constructor (entry: Entry, props: Props, built: Option<Values>)
      ensures View() == Constructing(entry, props, built)
    {
      logic := Logic(0, None, map[]);
      needsDidMount := false;
      failedLogic, failedProps, failedVer := None, None, -1;
      err, subscribed, stage, attempts, events := false, false, Constructed, [], [];
      new;
      MakeLogic(entry, props, built, None);
    }

    method MakeLogic(entry: Entry, props: Props, built: Option<Values>, previous: Option<Values>)
      modifies this
      ensures View() == Made(old(View()), entry, props, built, previous)
    {
      attempts := attempts + [Attempt(entry.logic, entry.ver, props, entry.logic.None? || built.Some?)];
      if entry.logic.None? || built.Some? {
        logic := Logic(logic.id + 1, entry.logic, if entry.logic.Some? then built.value else map[]);
        failedLogic := None;
        failedProps := None;
      } else {
        failedLogic := entry.logic;
        failedProps := Some(props);
        failedVer := entry.ver;
        logic := Logic(logic.id + 1, None, map[]);
      }
      if previous.Some? {
        logic := logic.(values := logic.values + previous.value);
      }
    }

    method ReconcileLogic(entry: Entry, props: Props, built: Option<Values>)
      modifies this
      ensures View() == Reconciled(old(View()), entry, props, built)
    {
      var memo := entry.logic == failedLogic && entry.ver == failedVer && ShallowEqual(props, failedProps);
      if entry.logic == logic.cls || memo { return; }
      if !needsDidMount {
        events := events + [WillUnmount(logic.id)];
      }
      MakeLogic(entry, props, built, Some(logic.values));
      needsDidMount := true;
    }

    method Render(entry: Entry, props: Props, built: Option<Values>, circular: bool)
      modifies this
      ensures View() == Rendered(old(View()), entry, props, built, circular)
    {
      if circular || err { return; }
      ReconcileLogic(entry, props, built);
    }

    method ComponentDidMount()
      modifies this
      ensures View() == MountCommitted(old(View()))
    {
      subscribed := true;
      stage := Mounted;
      events := events + [DidMount(logic.id)];
    }

    method ComponentDidUpdate(entry: Entry)
      modifies this
      ensures View() == UpdateCommitted(old(View()), entry)
    {
      if needsDidMount {
        if err || !entry.hasTemplate { return; }
        needsDidMount := false;
        events := events + [DidMount(logic.id)];
      } else {
        events := events + [DidUpdate(logic.id)];
      }
    }

    method ComponentWillUnmount()
      modifies this
      ensures View() == Unmounted(old(View()))
    {
      subscribed := false;
      stage := Gone;
      if !needsDidMount {
        events := events + [WillUnmount(logic.id)];
      }
    }

    method SetLogicState(patch: Values)
      modifies this
      ensures View() == Next(old(View()), SetValues(patch))
    {
      logic := logic.(values := logic.values + patch);
    }
  }
}
