/**
 From a sealed plan to its completion. Whatever crashed, was replayed or was written by others in
 between, one of the two drivers can go on, and its success leaves fewer events to record.
 */
module QuarantineProgress {
  import opened Wrappers
  import opened QuarantineModel
  import opened QuarantineSafety
  import opened QuarantineTheorems
  import opened QuarantineResume
  import opened QuarantineFinalize

  // ----- Events still to come -----

  /** Every event a completed operation has. */
  function PlanMarks(m: Manifest): set<Mark> {
    {PlanAuthorized, Authorized, CopiedVerified, DeletedVerified, FinalAuditVerified, Completed}
    + (set i | 0 <= i < |m.entries| :: DestinationVerified(i))
    + (set i | 0 <= i < |m.entries| :: SourceDeleted(i))
  }

  function MissingEvents(w: World, m: Manifest): nat
    requires PlanSealed(w, m)
  {
    |PlanMarks(m) - w.operations[m.digest].journal.Keys|
  }

  lemma SmallerSet<T>(a: set<T>, b: set<T>)
    requires a <= b
    ensures |a| <= |b| && (a != b ==> |a| < |b|)
  {
    assert b == a + (b - a);
    assert a != b ==> b - a != {};
  }

  /** Over any run, no event is lost, so one new event means that fewer are missing. */
  lemma MissingFalls(w: World, m: Manifest, steps: seq<Step>)
    requires Inv(w) && ValidRun(w, steps) && PlanSealed(w, m)
    ensures PlanSealed(Run(w, steps), m)
    ensures MissingEvents(Run(w, steps), m) <= MissingEvents(w, m)
    ensures forall mark :: mark in PlanMarks(m) && !Recorded(w, m.digest, mark) && Recorded(Run(w, steps), m.digest, mark) ==>
                             MissingEvents(Run(w, steps), m) < MissingEvents(w, m)
  {
    RunOnlyGrows(w, steps);
    var op, op' := w.operations[m.digest], Run(w, steps).operations[m.digest];
    assert Extends(op, op');
    SmallerSet(PlanMarks(m) - op'.journal.Keys, PlanMarks(m) - op.journal.Keys);
  }

  /** Nothing is missing exactly when the operation is completed. */
  lemma NothingMissingIffCompleted(w: World, m: Manifest)
    requires Inv(w) && PlanSealed(w, m)
    ensures MissingEvents(w, m) == 0 <==> Recorded(w, m.digest, Completed)
  {
    var op := w.operations[m.digest];
    assert OperationKept(w, m.digest);
    if Recorded(w, m.digest, Completed) {
      forall mark | mark in PlanMarks(m) ensures mark in op.journal { CompletedHasAll(op, mark); }
      assert PlanMarks(m) - op.journal.Keys == {};
    } else {
      assert Completed in PlanMarks(m) - op.journal.Keys;
    }
  }

  lemma CompletedHasAll(op: Operation, mark: Mark)
    requires PhaseOrder(op) && |op.manifest.entries| > 0 && Completed in op.journal && mark in PlanMarks(op.manifest)
    ensures mark in op.journal
  {
    assert SourceDeleted(0) in op.journal;
  }

  // ----- No dead end -----

  lemma {:induction false} BenignRunKeepsFinishable(w: World, m: Manifest, steps: seq<Step>)
    requires Inv(w) && Finishable(w, m) && BenignRun(w, m, steps)
    ensures Finishable(Run(w, steps), m)
    decreases |steps|
  {
    if steps != [] {
      StepKeepsInv(w, steps[0]);
      BenignKeepsFinishable(w, m, steps[0]);
      BenignRunKeepsFinishable(Execute(w, steps[0]), m, steps[1..]);
    }
  }

  /** Finalize has what it needs: the deletion is acknowledged, an audit is at hand, the archive is clean. */
  predicate FinalizeDue(w: World, m: Manifest, external: Option<AuditPin>) {
    && Recorded(w, m.digest, DeletedVerified)
    && EvidenceAtHand(w, m, external)
    && Orphans(w) == {} && Missing(w) == {}
  }

  /**
   As long as the operation is open, apply would succeed, and finalize would as soon as it is due:
   audit recorded, crash, other writers, archive clean again included.
   */
  lemma AlwaysResumable(w: World, m: Manifest, who: Identity, steps: seq<Step>, external: Option<AuditPin>)
    requires Inv(w) && Resumable(w, m, who) && Finishable(w, m)
    requires BenignRun(w, m, steps) && IsOpen(Run(w, steps), m.digest)
    ensures var w' := Run(w, steps);
            && w'.fences && w'.workerLeases == 0
            && ApplyReady(w', m, who)
            && (FinalizeDue(w', m, external) ==> FinalizeReady(w', m, external))
  {
    var w' := Run(w, steps);
    BenignIsValid(w, m, steps);
    RunKeepsInv(w, steps);
    NoDeadEnd(w, m, who, steps);
    BenignRunKeepsFinishable(w, m, steps);
    if FinalizeDue(w', m, external) { AcknowledgedCanFinalize(w', m, who, external); }
  }

  /** Before the first plan no audit is dated in the future. */
  ghost predicate Fresh(w: World) {
    Initial(w) && AuditsPast(w)
  }

  /**
   From sealing to completion. In every reachable world, a plan newly sealed behind the fences can
   be driven on after any benign run: while it is open the next driver is ready, and whenever a
   driver's attempt records its last event, fewer events are missing than before it.
   */
  lemma SealedReachesCompletion(
    w0: World, before: seq<Step>, m: Manifest, planner: Identity, who: Identity, steps: seq<Step>, external: Option<AuditPin>)
    requires Fresh(w0) && ValidRun(w0, before)
    requires var w := Run(w0, before);
             && Possible(w, Seal(m, planner)) && SealPlan(w, m, planner).Committed? && m.digest !in w.operations
             && w.fences && who.stable == planner.stable && who.token != planner.token
             && (forall phase :: Receipt(m.digest, phase) !in w.objects)
             && BenignRun(Execute(w, Seal(m, planner)), m, steps)
             && IsOpen(Run(Execute(w, Seal(m, planner)), steps), m.digest)
    ensures var w' := Run(Execute(Run(w0, before), Seal(m, planner)), steps);
            && w'.fences && w'.workerLeases == 0 && PlanSealed(w', m) && MissingEvents(w', m) > 0
            && ApplyReady(w', m, who)
            && (FinalizeDue(w', m, external) ==> FinalizeReady(w', m, external))
    ensures var w' := Run(Execute(Run(w0, before), Seal(m, planner)), steps);
            forall attempt :: BenignRun(w', m, attempt) ==>
              var w'' := Run(w', attempt);
              && PlanSealed(w'', m)
              && (!Recorded(w', m.digest, DeletedVerified) && Recorded(w'', m.digest, DeletedVerified) ==>
                    MissingEvents(w'', m) < MissingEvents(w', m))
              && (Recorded(w'', m.digest, Completed) ==> MissingEvents(w'', m) == 0)
  {
    var w := Run(w0, before);
    RunKeepsInv(w0, before);
    RunKeepsAuditsPast(w0, before);
    SealedIsResumable(w, m, planner, who);
    StepKeepsInv(w, Seal(m, planner));
    var w1 := Execute(w, Seal(m, planner));
    BenignIsValid(w1, m, steps);
    RunKeepsInv(w1, steps);
    AlwaysResumable(w1, m, who, steps, external);
    MissingFalls(w1, m, steps);
    var w' := Run(w1, steps);
    NothingMissingIffCompleted(w', m);
    forall attempt | BenignRun(w', m, attempt)
      ensures PlanSealed(Run(w', attempt), m)
      ensures !Recorded(w', m.digest, DeletedVerified) && Recorded(Run(w', attempt), m.digest, DeletedVerified) ==>
                MissingEvents(Run(w', attempt), m) < MissingEvents(w', m)
      ensures Recorded(Run(w', attempt), m.digest, Completed) ==> MissingEvents(Run(w', attempt), m) == 0
    {
      BenignIsValid(w', m, attempt);
      RunKeepsInv(w', attempt);
      MissingFalls(w', m, attempt);
      NothingMissingIffCompleted(Run(w', attempt), m);
    }
  }
}
