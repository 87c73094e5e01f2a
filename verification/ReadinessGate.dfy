/**
 A single-flight gate: concurrent callers share one verification, a success opens the gate for
 good, and a failure is reported to those who waited for it. Between two turns of the event loop
 any caller may arrive and any pending callback may run.
 */
module ReadinessGate {
  import opened Wrappers

  /** A verification, from the promise that will call it to the promise its waiters see settle. */
  datatype Flight = Queued | Running | Passed | Marked | Failed | Settled(ok: bool)

  /** `Joined` callers wait for a flight; `Told` callers have seen it settle. */
  datatype Caller = Admitted | Joined(flight: nat) | Told(flight: nat, ok: bool)

  datatype Gate = Gate(verified: bool, inFlight: Option<nat>, flights: seq<Flight>, callers: map<nat, Caller>)

  datatype Step =
    | Ensure(caller: nat)
    | Begin(flight: nat)
    | Finish(flight: nat, ok: bool)
    | Mark(flight: nat)
    | Clear(flight: nat)
    | Resume(caller: nat)

  function Initial(): Gate {
    Gate(false, None, [], map[])
  }

  predicate At(g: Gate, flight: nat, phase: Flight) {
    flight < |g.flights| && g.flights[flight] == phase
  }

  predicate Possible(g: Gate, step: Step) {
    match step
    case Ensure(caller) => caller !in g.callers
    case Begin(flight) => At(g, flight, Queued)
    case Finish(flight, _) => At(g, flight, Running)
    case Mark(flight) => At(g, flight, Passed)
    case Clear(flight) => At(g, flight, Marked) || At(g, flight, Failed)
    case Resume(caller) =>
      caller in g.callers && g.callers[caller].Joined? &&
      var flight := g.callers[caller].flight; flight < |g.flights| && g.flights[flight].Settled?
  }

  function Entered(g: Gate, caller: nat): Gate {
    if g.verified then g.(callers := g.callers[caller := Admitted])
    else if g.inFlight.Some? then g.(callers := g.callers[caller := Joined(g.inFlight.value)])
    else
      g.(inFlight := Some(|g.flights|), flights := g.flights + [Queued],
         callers := g.callers[caller := Joined(|g.flights|)])
  }

  function Next(g: Gate, step: Step): Gate
    requires Possible(g, step)
  {
    match step
    case Ensure(caller) => Entered(g, caller)
    case Begin(flight) => g.(flights := g.flights[flight := Running])
    case Finish(flight, ok) => g.(flights := g.flights[flight := if ok then Passed else Failed])
    case Mark(flight) => g.(verified := true, flights := g.flights[flight := Marked])
    case Clear(flight) =>
      g.(inFlight := None, flights := g.flights[flight := Settled(g.flights[flight] == Marked)])
    case Resume(caller) =>
      var flight := g.callers[caller].flight;
      g.(callers := g.callers[caller := Told(flight, g.flights[flight].ok)])
  }

  ghost predicate ValidRun(g: Gate, steps: seq<Step>)
    decreases steps
  {
    steps != [] ==> Possible(g, steps[0]) && ValidRun(Next(g, steps[0]), steps[1..])
  }

  ghost function Run(g: Gate, steps: seq<Step>): Gate
    requires ValidRun(g, steps)
    decreases steps
  {
    if steps == [] then g else Run(Next(g, steps[0]), steps[1..])
  }

  /** Every flight but the last has failed and settled; the last one is the gate's. */
  predicate SingleFlight(g: Gate) {
    && (forall k :: 0 <= k < |g.flights| - 1 ==> g.flights[k] == Settled(false))
    && (g.inFlight.Some? ==> g.inFlight.value + 1 == |g.flights| && !g.flights[|g.flights| - 1].Settled?)
    && (g.inFlight.None? && g.flights != [] ==> g.flights[|g.flights| - 1].Settled?)
  }

  predicate OpenWhenProved(g: Gate) {
    g.verified <==> |g.flights| > 0 && g.flights[|g.flights| - 1] in {Marked, Settled(true)}
  }

  predicate CallersKept(g: Gate) {
    forall c :: c in g.callers ==>
      match g.callers[c]
      case Admitted => g.verified
      case Joined(flight) => flight < |g.flights|
      case Told(flight, ok) => At(g, flight, Settled(ok))
  }

  predicate Inv(g: Gate) {
    SingleFlight(g) && OpenWhenProved(g) && CallersKept(g)
  }

  lemma {:induction false} RunKeepsInv(g: Gate, steps: seq<Step>)
    requires Inv(g) && ValidRun(g, steps)
    ensures Inv(Run(g, steps))
    decreases steps
  {
    if steps != [] {
      RunKeepsInv(Next(g, steps[0]), steps[1..]);
    }
  }

  // ----- Any number of callers, any interleaving -----

  /** A verification is under way from its promise to the clearing of the gate. */
  predicate UnderWay(g: Gate, k: nat) {
    k < |g.flights| && !g.flights[k].Settled?
  }

  lemma OneVerificationAtATime(steps: seq<Step>, j: nat, k: nat)
    requires ValidRun(Initial(), steps)
    requires UnderWay(Run(Initial(), steps), j) && UnderWay(Run(Initial(), steps), k)
    ensures j == k && Run(Initial(), steps).inFlight == Some(j)
  {
    RunKeepsInv(Initial(), steps);
  }

  /** A caller returns normally only if some verification succeeded, and is rejected only by the failure it waited for. */
  lemma CallersLearnTheOutcome(steps: seq<Step>, caller: nat)
    requires ValidRun(Initial(), steps) && caller in Run(Initial(), steps).callers
    ensures var g := Run(Initial(), steps);
            match g.callers[caller]
            case Admitted => exists k :: 0 <= k < |g.flights| && g.flights[k] in {Marked, Settled(true)}
            case Told(flight, ok) => At(g, flight, Settled(ok))
            case Joined(flight) => flight < |g.flights|
  {
    RunKeepsInv(Initial(), steps);
    var g := Run(Initial(), steps);
    if g.verified { assert g.flights[|g.flights| - 1] in {Marked, Settled(true)}; }
  }

  /** Once a verification has succeeded, none ever starts again. */
  lemma {:induction false} NoneAfterSuccess(g: Gate, steps: seq<Step>, k: nat)
    requires Inv(g) && ValidRun(g, steps)
    requires k < |g.flights| && g.flights[k] in {Passed, Marked, Settled(true)}
    ensures |Run(g, steps).flights| == |g.flights| && Run(g, steps).flights[k] in {Passed, Marked, Settled(true)}
    decreases steps
  {
    if steps != [] {
      assert k == |g.flights| - 1;
      NoneAfterSuccess(Next(g, steps[0]), steps[1..], k);
    }
  }

  /** A caller starts a new verification exactly when none is under way and every earlier one failed. */
  lemma FailureIsRetryable(g: Gate, caller: nat)
    requires Inv(g) && Possible(g, Ensure(caller))
    ensures |Next(g, Ensure(caller)).flights| == |g.flights| + 1 <==>
            forall k :: 0 <= k < |g.flights| ==> g.flights[k] == Settled(false)
  {
    var last := |g.flights| - 1;
    assert g.flights != [] && g.verified ==> g.flights[last] != Settled(false);
  }

  // ----- What the verifications answered -----

  /** Every verification that began and every answer that was given are steps of the run. */
  ghost predicate Witnessed(g: Gate, steps: seq<Step>) {
    forall f: nat :: f < |g.flights| ==>
      && (g.flights[f] != Queued ==> Begin(f) in steps)
      && (g.flights[f] in {Passed, Marked, Settled(true)} ==> Finish(f, true) in steps)
      && (g.flights[f] in {Failed, Settled(false)} ==> Finish(f, false) in steps)
  }

  lemma {:induction false} LastStep(g: Gate, steps: seq<Step>, n: nat)
    requires ValidRun(g, steps) && n < |steps|
    ensures ValidRun(g, steps[..n]) && Possible(Run(g, steps[..n]), steps[n])
    ensures ValidRun(g, steps[..n + 1]) && Run(g, steps[..n + 1]) == Next(Run(g, steps[..n]), steps[n])
    decreases n
  {
    if n > 0 {
      LastStep(Next(g, steps[0]), steps[1..], n - 1);
      assert steps[..n][0] == steps[0] && steps[..n][1..] == steps[1..][..n - 1];
      assert steps[..n + 1][0] == steps[0] && steps[..n + 1][1..] == steps[1..][..n];
    } else {
      assert steps[..1] == [steps[0]] && [steps[0]][1..] == [];
    }
  }

  lemma {:induction false} RunIsWitnessed(steps: seq<Step>, n: nat)
    requires ValidRun(Initial(), steps) && n <= |steps|
    ensures ValidRun(Initial(), steps[..n]) && Witnessed(Run(Initial(), steps[..n]), steps[..n])
    decreases n
  {
    if n > 0 {
      RunIsWitnessed(steps, n - 1);
      LastStep(Initial(), steps, n - 1);
      assert steps[..n] == steps[..n - 1] + [steps[n - 1]];
    }
  }

  ghost predicate SomeYes(steps: seq<Step>) {
    exists flight: nat :: Finish(flight, true) in steps
  }

  /** A caller is told only what the verification it waited for answered, and admitted only after one answered yes. */
  lemma CallersLearnTheAnswer(steps: seq<Step>, caller: nat)
    requires ValidRun(Initial(), steps) && caller in Run(Initial(), steps).callers
    ensures var told := Run(Initial(), steps).callers[caller];
            && (told.Told? ==> Finish(told.flight, told.ok) in steps)
            && (told.Admitted? ==> SomeYes(steps))
  {
    var g := Run(Initial(), steps);
    RunKeepsInv(Initial(), steps);
    RunIsWitnessed(steps, |steps|);
    assert steps[..|steps|] == steps;
    if g.verified { assert Finish(|g.flights| - 1, true) in steps; }
  }

  /** The gate itself is open only after a verification answered yes. */
  lemma OpenOnlyAfterYes(steps: seq<Step>)
    requires ValidRun(Initial(), steps) && Run(Initial(), steps).verified
    ensures SomeYes(steps)
  {
    var g := Run(Initial(), steps);
    RunKeepsInv(Initial(), steps);
    RunIsWitnessed(steps, |steps|);
    assert steps[..|steps|] == steps;
    assert Finish(|g.flights| - 1, true) in steps;
  }

  lemma {:induction false} RunThenRun(g: Gate, steps: seq<Step>, n: nat)
    requires ValidRun(g, steps) && n <= |steps|
    ensures ValidRun(g, steps[..n]) && ValidRun(Run(g, steps[..n]), steps[n..])
    ensures Run(g, steps) == Run(Run(g, steps[..n]), steps[n..])
    decreases n
  {
    if n > 0 {
      RunThenRun(Next(g, steps[0]), steps[1..], n - 1);
      assert steps[..n][0] == steps[0] && steps[..n][1..] == steps[1..][..n - 1];
    } else {
      assert steps[..0] == [] && steps[0..] == steps;
    }
  }

  /** No verification begins after one has answered yes. */
  lemma NoneBeginsAfterYes(steps: seq<Step>, i: nat, j: nat, f: nat)
    requires ValidRun(Initial(), steps) && i < j < |steps| && steps[i] == Finish(f, true)
    ensures !steps[j].Begin?
  {
    LastStep(Initial(), steps, i);
    LastStep(Initial(), steps, j);
    var g := Run(Initial(), steps[..i + 1]);
    RunKeepsInv(Initial(), steps[..i + 1]);
    assert g.flights[f] == Passed;
    RunThenRun(Initial(), steps[..j], i + 1);
    assert steps[..j][..i + 1] == steps[..i + 1];
    NoneAfterSuccess(g, steps[..j][i + 1..], f);
    RunKeepsInv(Initial(), steps[..j]);
  }

  /** Every verification answers at most once. */
  lemma OneAnswerEach(steps: seq<Step>, i: nat, j: nat, f: nat, a: bool, b: bool)
    requires ValidRun(Initial(), steps) && i < |steps| && j < |steps| && steps[i] == Finish(f, a) && steps[j] == Finish(f, b)
    ensures i == j
  {
    if i < j { AnsweredForGood(steps, i, j, f); }
    if j < i { AnsweredForGood(steps, j, i, f); }
  }

  lemma {:induction false} AnsweredForGood(steps: seq<Step>, i: nat, j: nat, f: nat)
    requires ValidRun(Initial(), steps) && i < j <= |steps| && steps[i].Finish? && steps[i].flight == f
    ensures ValidRun(Initial(), steps[..j]) && f < |Run(Initial(), steps[..j]).flights|
    ensures Run(Initial(), steps[..j]).flights[f] !in {Queued, Running}
    ensures j < |steps| ==> !(steps[j].Finish? && steps[j].flight == f)
    decreases j
  {
    LastStep(Initial(), steps, j - 1);
    if i < j - 1 { AnsweredForGood(steps, i, j - 1, f); }
    if j < |steps| { LastStep(Initial(), steps, j); }
  }

  // ----- The gate -----

  class ValidatorSandboxReadinessGate {
    var verified: bool
    var inFlight: Option<nat>
    ghost var flights: seq<Flight>
    ghost var callers: map<nat, Caller>
    var started: nat

    ghost function View(): Gate
      reads this
    {
      Gate(verified, inFlight, flights, callers)
    }

    ghost predicate Valid()
      reads this
    {
      Inv(View()) && started == |flights|
    }

    constructor ()
      ensures Valid() && View() == Initial()
    {
      verified, inFlight, flights, callers, started := false, None, [], map[], 0;
    }

    /** The turn in which a caller arrives; `None` when it may go on at once. */
    method Enter(caller: nat) returns (awaited: Option<nat>)
      requires Valid() && Possible(View(), Ensure(caller))
      modifies this
      ensures Valid() && View() == Next(old(View()), Ensure(caller))
      ensures awaited == match callers[caller] case Joined(flight) => Some(flight) case _ => None
    {
      if verified {
        callers := callers[caller := Admitted];
        return None;
      }
      if inFlight.None? {
        inFlight := Some(started);
        flights := flights + [Queued];
        started := started + 1;
      }
      callers := callers[caller := Joined(inFlight.value)];
      return inFlight;
    }

    /** The callback of a verification that succeeded. */
    method OnVerified(ghost flight: nat)
      requires Valid() && Possible(View(), Mark(flight))
      modifies this
      ensures Valid() && View() == Next(old(View()), Mark(flight))
    {
      verified := true;
      flights := flights[flight := Marked];
    }

    /** The callback that runs either way, before the waiters do. */
    method OnFinally(ghost flight: nat)
      requires Valid() && Possible(View(), Clear(flight))
      modifies this
      ensures Valid() && View() == Next(old(View()), Clear(flight))
    {
      inFlight := None;
      flights := flights[flight := Settled(flights[flight] == Marked)];
    }
  }
}
