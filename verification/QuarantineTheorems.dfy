/** What the invariant means for the documents, the journal and its callers. */
module QuarantineTheorems {
  import opened Wrappers
  import opened QuarantineModel
  import opened QuarantineSafety

  // ----- Documents -----

  /** The bytes of a sealed entry are at its source, untouched, or at its verified copy. */
  ghost predicate DocumentSafe(w: World, d: string, i: nat)
    requires IsEntry(w, d, i)
  {
    var e := EntryAt(w, d, i);
    || (Source(e.sourceKey) in w.objects && w.objects[Source(e.sourceKey)] == Stored(e.facts, e.content))
    || (Copy(e.destinationKey) in w.objects && w.objects[Copy(e.destinationKey)].content == e.content)
  }

  lemma NoDocumentLost(w0: World, steps: seq<Step>, d: string, i: nat)
    requires Initial(w0) && ValidRun(w0, steps) && IsEntry(Run(w0, steps), d, i)
    ensures var w := Run(w0, steps);
            var e := EntryAt(w, d, i);
            && DocumentSafe(w, d, i)
            && (Recorded(w, d, SourceDeleted(i)) ==>
                  && Source(e.sourceKey) !in w.objects
                  && Copy(e.destinationKey) in w.objects && w.objects[Copy(e.destinationKey)].content == e.content)
  {
    RunKeepsInv(w0, steps);
    var w := Run(w0, steps);
    assert OperationKept(w, d);
    assert CopyKept(w, w.operations[d], i) && SourceKept(w, w.operations[d], i);
  }

  /** Whoever acts, a sealed source leaves storage only through the guarded deletion of its entry. */
  lemma OnlyGuardedDeletion(w: World, step: Step, d: string, i: nat)
    requires Inv(w) && Possible(w, step) && IsEntry(w, d, i)
    requires Source(EntryAt(w, d, i).sourceKey) in w.objects
    requires Source(EntryAt(w, d, i).sourceKey) !in Execute(w, step).objects
    ensures step == DeleteSealed(d, i)
    ensures EntryAt(w, d, i).sourceKey !in w.references && w.fences && Recorded(w, d, Authorized)
    ensures forall k :: 0 <= k < |w.operations[d].manifest.entries| ==>
                          && Copy(EntryAt(w, d, k).destinationKey) in w.objects
                          && w.objects[Copy(EntryAt(w, d, k).destinationKey)].content == EntryAt(w, d, k).content
    ensures forall k :: 0 <= k < |w.operations[d].manifest.entries| ==> (Recorded(w, d, SourceDeleted(k)) <==> k < i)
  {
    var a := Source(EntryAt(w, d, i).sourceKey);
    assert SealedSource(w, a);
    if !step.DeleteSealed? {
      ObjectsOutsideDeletion(w, step, a);
      assert false;
    }
    assert TriggerAllowsDelete(w, step.d, step.entry);
    assert step.d == d && step.entry == i by {
      assert IsEntry(w, step.d, step.entry) && EntryAt(w, step.d, step.entry).sourceKey == a.key;
    }
    var op := w.operations[d];
    assert OperationKept(w, d);
    AllVerifiedIsFullCount(op, |op.manifest.entries|);
    DeletedPrefix(op, |op.manifest.entries|);
    forall k | 0 <= k < |op.manifest.entries|
      ensures Copy(EntryAt(w, d, k).destinationKey) in w.objects
      ensures w.objects[Copy(EntryAt(w, d, k).destinationKey)].content == EntryAt(w, d, k).content
    {
      assert CopyKept(w, op, k);
    }
  }

  /** Repository transactions never touch storage, and the trigger stops the other writers. */
  lemma ObjectsOutsideDeletion(w: World, step: Step, a: Address)
    requires ObjectsIssued(w) && Possible(w, step) && !step.DeleteSealed? && SealedSource(w, a)
    ensures SameAt(w, Execute(w, step), a)
  {
    match step
    case Seal(_, _) =>
    case Authorize(_, _) =>
    case VerifyDestination(_, _, _) =>
    case Acknowledge(_, _, _, _, _) =>
    case RecordAudit(_, _) =>
    case _ => OtherStepsAreProtected(w, step);
  }

  /** A verified copy stays, byte for byte and row for row, in every later state. */
  lemma {:induction false} VerifiedCopyStays(w: World, steps: seq<Step>, d: string, i: nat)
    requires Inv(w) && ValidRun(w, steps) && IsEntry(w, d, i) && Recorded(w, d, DestinationVerified(i))
    ensures IsEntry(Run(w, steps), d, i)
    ensures SameAt(w, Run(w, steps), Copy(EntryAt(w, d, i).destinationKey))
    ensures Copy(EntryAt(w, d, i).destinationKey) in w.objects
    ensures w.objects[Copy(EntryAt(w, d, i).destinationKey)].content == EntryAt(w, d, i).content
  {
    RunKeepsInv(w, steps);
    RunOnlyGrows(w, steps);
    var w' := Run(w, steps);
    assert OperationKept(w, d) && OperationKept(w', d);
    assert CopyKept(w, w.operations[d], i) && CopyKept(w', w'.operations[d], i);
  }

  // ----- Phases -----

  lemma PhasesInOrder(w0: World, steps: seq<Step>, d: string)
    requires Initial(w0) && ValidRun(w0, steps) && d in Run(w0, steps).operations
    ensures var w := Run(w0, steps);
            var op := w.operations[d];
            var n := |op.manifest.entries|;
            && (forall i: nat :: SourceDeleted(i) in op.journal ==>
                                   AllVerified(op) && CopiedVerified in op.journal && Authorized in op.journal)
            && (forall i: nat :: SourceDeleted(i) in op.journal <==> i < DeletedCount(op.journal, n))
            && (DeletedVerified in op.journal ==> DeletedCount(op.journal, n) == n)
            && (FinalAuditVerified in op.journal ==>
                  && DeletedVerified in op.journal
                  && op.journal[FinalAuditVerified].AuditSeen?
                  && op.journal[FinalAuditVerified].pin in w.audits
                  && op.journal[DeletedVerified].at <= w.audits[op.journal[FinalAuditVerified].pin].auditedAt)
            && (Completed in op.journal ==> FinalAuditVerified in op.journal)
            && (forall d' :: IsOpen(w, d) && IsOpen(w, d') ==> d' == d)
  {
    RunKeepsInv(w0, steps);
    var w := Run(w0, steps);
    var op := w.operations[d];
    assert OperationKept(w, d);
    DeletedPrefix(op, |op.manifest.entries|);
    AllDeletedIsFullCount(op, |op.manifest.entries|);
  }

  // ----- The journal only grows -----

  /** The same operation with the same manifest; its events are kept, more may have come. */
  ghost predicate Extends(op: Operation, op': Operation) {
    && op'.id == op.id
    && op'.manifest == op.manifest
    && (forall mark :: mark in op.journal ==> mark in op'.journal && op'.journal[mark] == op.journal[mark])
  }

  /** Operations are never dropped, manifests never edited, events never replaced. */
  ghost predicate Grows(w: World, w': World) {
    && (forall d :: d in w.operations ==> d in w'.operations && Extends(w.operations[d], w'.operations[d]))
    && (forall f :: f in w.issued ==> f in w'.issued && w'.issued[f] == w.issued[f])
  }

  lemma DeletionGrows(w: World, d: string, i: nat)
    requires Inv(w)
    ensures Grows(w, Execute(w, DeleteSealed(d, i)))
  {
    var w' := Execute(w, DeleteSealed(d, i));
    if w' != w {
      DeletionInOrder(w, d, i);
    }
  }

  /** A repository transaction ends in the old world or in one event more. */
  ghost predicate AppendsAtMost(w: World, w': World, d: string, mark: Mark, event: Event) {
    w' == w || (d in w.operations && mark !in w.operations[d].journal && w' == Append(w, d, mark, event))
  }

  lemma AppendGrows(w: World, w': World, d: string, mark: Mark, event: Event)
    requires AppendsAtMost(w, w', d, mark, event)
    ensures Grows(w, w')
  {
    forall o | o in w.operations
      ensures o in w'.operations && Extends(w.operations[o], w'.operations[o])
    {
      assert o != d ==> w'.operations[o] == w.operations[o];
    }
  }

  lemma StepOnlyGrows(w: World, step: Step)
    requires Inv(w) && Possible(w, step)
    ensures Grows(w, Execute(w, step))
  {
    var w' := Execute(w, step);
    match step
    case Seal(m, who) => SealGrows(w, m, who);
    case Authorize(d, who) => AppendGrows(w, w', d, Authorized, Authority(who, w.now));
    case VerifyDestination(d, i, loaded) => AppendGrows(w, w', d, DestinationVerified(i), ObjectSeen(loaded, w.now));
    case Acknowledge(d, phase, _, loaded, _) => AppendGrows(w, w', d, PhaseMark(phase), ObjectSeen(loaded, w.now));
    case RecordAudit(d, pin) => AppendGrows(w, w', d, FinalAuditVerified, AuditSeen(pin, w.now));
    case DeleteSealed(d, i) => DeletionGrows(w, d, i);
    case _ =>
      OtherStepsAreProtected(w, step);
      OtherStepsOnlyIssue(w, step);
  }

  lemma SealGrows(w: World, m: Manifest, who: Identity)
    requires Inv(w)
    ensures Grows(w, Execute(w, Seal(m, who)))
  {
  }

  lemma OtherStepsOnlyIssue(w: World, step: Step)
    requires Possible(w, step)
    requires !step.Seal? && !step.Authorize? && !step.VerifyDestination? && !step.Acknowledge?
             && !step.RecordAudit? && !step.DeleteSealed?
    ensures forall f :: f in w.issued ==> f in Execute(w, step).issued && Execute(w, step).issued[f] == w.issued[f]
  {
  }

  lemma {:induction false} RunOnlyGrows(w: World, steps: seq<Step>)
    requires Inv(w) && ValidRun(w, steps)
    ensures Grows(w, Run(w, steps))
    decreases |steps|
  {
    if steps != [] {
      StepKeepsInv(w, steps[0]);
      StepOnlyGrows(w, steps[0]);
      RunOnlyGrows(Execute(w, steps[0]), steps[1..]);
    }
  }

  // ----- Replays -----

  ghost predicate RecordedObject(w: World, d: string, mark: Mark, seen: Stored) {
    Recorded(w, d, mark) && w.operations[d].journal[mark].ObjectSeen? && w.operations[d].journal[mark].seen == seen
  }

  ghost predicate RecordedAudit(w: World, d: string, pin: AuditPin) {
    && Recorded(w, d, FinalAuditVerified)
    && w.operations[d].journal[FinalAuditVerified].AuditSeen?
    && w.operations[d].journal[FinalAuditVerified].pin == pin
  }

  /** Authorising again succeeds for the same workflow under any token but the planner's. */
  lemma AuthorizeReplay(w: World, d: string, who: Identity)
    requires Inv(w) && Recorded(w, d, Authorized)
    ensures var planned := w.operations[d].journal[PlanAuthorized].identity;
            RecordAuthorized(w, d, who) ==
            if planned.stable == who.stable && planned.token != who.token
            then Committed(w, ()) else Refused(ApplyAuthorityDivergent)
  {
    assert OperationKept(w, d);
  }

  lemma VerifyDestinationReplay(w: World, d: string, i: nat, loaded: Stored)
    requires Inv(w) && Recorded(w, d, DestinationVerified(i))
    ensures var outcome := RecordDestinationVerified(w, d, i, loaded);
            && (outcome.Committed? <==> RecordedObject(w, d, DestinationVerified(i), loaded))
            && (outcome.Committed? ==> outcome.world == w)
  {
    assert OperationKept(w, d);
    assert IsEntry(w, d, i) && CopyKept(w, w.operations[d], i);
  }

  /** The read-back compares two columns, yet a replay passes only with the very same object. */
  lemma AcknowledgeReplay(w: World, d: string, phase: Phase, expected: Body, loaded: Stored, saw: bool)
    requires Inv(w) && Recorded(w, d, PhaseMark(phase))
    ensures var outcome := RecordReceipt(w, d, phase, expected, loaded, saw);
            && (outcome.Committed? <==>
                  && RecordedObject(w, d, PhaseMark(phase), loaded)
                  && loaded.content.body == expected
                  && (phase.Final? ==> saw))
            && (outcome.Committed? ==> outcome.world == w)
  {
    var op := w.operations[d];
    assert OperationKept(w, d) && ReceiptKept(w, d, op, phase);
    AllVerifiedIsFullCount(op, |op.manifest.entries|);
    AllDeletedIsFullCount(op, |op.manifest.entries|);
  }

  /** The recorded audit is accepted again exactly while the archive is still clean. */
  lemma FinalAuditReplay(w: World, d: string, pin: AuditPin)
    requires Inv(w) && Recorded(w, d, FinalAuditVerified)
    ensures var outcome := RecordFinalAudit(w, d, pin);
            && (outcome.Committed? <==>
                  RecordedAudit(w, d, pin) && Orphans(w) == {} && Missing(w) == {})
            && (outcome.Committed? ==> outcome.world == w)
  {
    assert OperationKept(w, d) && FinalAuditKept(w, d);
  }

  lemma VerificationIsRecorded(w: World, d: string, i: nat, loaded: Stored)
    requires RecordDestinationVerified(w, d, i, loaded).Committed?
    ensures RecordedObject(Execute(w, VerifyDestination(d, i, loaded)), d, DestinationVerified(i), loaded)
  {
  }

  /** A verification that was acknowledged once is acknowledged again at any later time. */
  lemma VerifyDestinationAnyTimeLater(w: World, steps: seq<Step>, d: string, i: nat, loaded: Stored)
    requires Inv(w) && Possible(w, VerifyDestination(d, i, loaded))
    requires RecordDestinationVerified(w, d, i, loaded).Committed?
    requires ValidRun(Execute(w, VerifyDestination(d, i, loaded)), steps)
    ensures var w' := Run(Execute(w, VerifyDestination(d, i, loaded)), steps);
            RecordDestinationVerified(w', d, i, loaded) == Committed(w', ())
  {
    var w1 := Execute(w, VerifyDestination(d, i, loaded));
    StepKeepsInv(w, VerifyDestination(d, i, loaded));
    RunKeepsInv(w1, steps);
    RunOnlyGrows(w1, steps);
    VerificationIsRecorded(w, d, i, loaded);
    VerifyDestinationReplay(Run(w1, steps), d, i, loaded);
  }

  /** Sealing again, however far the operation has gone, returns the same operation and nothing else. */
  lemma SealAnyTimeLater(w: World, steps: seq<Step>, m: Manifest, who: Identity, again: Identity)
    requires Inv(w) && Possible(w, Seal(m, who)) && SealPlan(w, m, who).Committed?
    requires ValidRun(Execute(w, Seal(m, who)), steps)
    ensures var w' := Run(Execute(w, Seal(m, who)), steps);
            SealPlan(w', m, again) ==
            if again.stable == who.stable then Committed(w', SealPlan(w, m, who).value)
            else Refused(SealedPlanDivergent)
  {
    var w1 := Execute(w, Seal(m, who));
    StepKeepsInv(w, Seal(m, who));
    assert PlanIdentity(w1.operations[m.digest]).Some? && PlanIdentity(w1.operations[m.digest]).value.stable == who.stable;
    RunOnlyGrows(w1, steps);
    assert PlanAuthorized in w1.operations[m.digest].journal;
  }

  // ----- Reading an object -----

  /** A step creates objects under new facts only; it never brings back facts already used. */
  lemma FactsNeverReturn(w: World, step: Step, a: Address, f: Facts)
    requires Possible(w, step) && f in w.issued
    requires a in Execute(w, step).objects && Execute(w, step).objects[a].facts == f
    ensures a in w.objects && w.objects[a] == Execute(w, step).objects[a]
  {
    match step
    case Seal(m, who) =>
    case Authorize(_, _) =>
    case VerifyDestination(_, _, _) =>
    case Acknowledge(_, _, _, _, _) =>
    case RecordAudit(_, _) =>
    case _ =>
  }

  lemma {:induction false} FactsHeldThroughout(w: World, steps: seq<Step>, a: Address, f: Facts)
    requires Inv(w) && ValidRun(w, steps) && f in w.issued
    requires a in Run(w, steps).objects && Run(w, steps).objects[a].facts == f
    ensures a in w.objects && w.objects[a] == Run(w, steps).objects[a]
    decreases |steps|
  {
    if steps != [] {
      StepKeepsInv(w, steps[0]);
      StepOnlyGrows(w, steps[0]);
      FactsHeldThroughout(Execute(w, steps[0]), steps[1..], a, f);
      FactsNeverReturn(w, steps[0], a, f);
    }
  }

  /**
   Storage is read as row, bytes, row. When both rows agree the bytes in between belong to them,
   whatever other writers did meanwhile, so the reader holds an observation.
   */
  lemma LoadIsNotTorn(before: World, toBytes: seq<Step>, toAfter: seq<Step>, a: Address)
    requires Inv(before) && ValidRun(before, toBytes) && ValidRun(Run(before, toBytes), toAfter)
    requires a in before.objects && a in Run(before, toBytes).objects && a in Run(Run(before, toBytes), toAfter).objects
    requires before.objects[a].facts == Run(Run(before, toBytes), toAfter).objects[a].facts
    ensures Run(before, toBytes).objects[a] == before.objects[a]
    ensures Observed(Run(Run(before, toBytes), toAfter), Run(before, toBytes).objects[a])
  {
    var middle := Run(before, toBytes);
    RunKeepsInv(before, toBytes);
    RunOnlyGrows(before, toBytes);
    var f := before.objects[a].facts;
    assert Observed(before, before.objects[a]);
    FactsHeldThroughout(middle, toAfter, a, f);
    FactsHeldThroughout(before, toBytes, a, f);
    RunOnlyGrows(middle, toAfter);
  }
}
