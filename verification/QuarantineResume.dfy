/**
 What a crashed operation leaves behind. `ApplyReady` and `FinalizeReady` are the exact success
 conditions of the two drivers (module QuarantineSaga); here they are shown to survive every
 prefix of the protocol's own steps and everything other writers can do while the fences are on.
 */
module QuarantineResume {
  import opened Wrappers
  import opened QuarantineModel
  import opened QuarantineSafety
  import opened QuarantineTheorems

  predicate PlanSealed(w: World, m: Manifest) {
    m.digest in w.operations && w.operations[m.digest].manifest == m
  }

  lemma SourceTellsDeletion(w: World, m: Manifest, i: nat)
    requires Inv(w) && PlanSealed(w, m) && i < |m.entries|
    ensures Source(m.entries[i].sourceKey) in w.objects <==> !Recorded(w, m.digest, SourceDeleted(i))
    ensures Source(m.entries[i].sourceKey) in w.objects ==>
              w.objects[Source(m.entries[i].sourceKey)] == Stored(m.entries[i].facts, m.entries[i].content)
    ensures Recorded(w, m.digest, SourceDeleted(i)) ==>
              && Recorded(w, m.digest, CopiedVerified) && Receipt(m.digest, Copied) in w.objects
              && Recorded(w, m.digest, DestinationVerified(i))
  {
    assert OperationKept(w, m.digest);
    assert SourceKept(w, w.operations[m.digest], i);
    assert ReceiptKept(w, m.digest, w.operations[m.digest], Copied);
  }

  /** Nothing stands at the destination yet, or the right bytes do. */
  predicate CopyUsable(w: World, e: Entry) {
    Copy(e.destinationKey) in w.objects ==> w.objects[Copy(e.destinationKey)].content == e.content
  }

  // ----- When apply succeeds -----

  predicate SourcesGone(w: World, m: Manifest)
    requires PlanSealed(w, m)
  {
    forall i: nat :: i < |m.entries| ==> SourceDeleted(i) in w.operations[m.digest].journal
  }

  /** Nothing left to copy that cannot be copied, nothing left to delete that cannot be deleted. */
  predicate CopyReady(w: World, m: Manifest)
    requires PlanSealed(w, m)
  {
    && (Receipt(m.digest, Copied) in w.objects ==> w.objects[Receipt(m.digest, Copied)].content == CopyReceiptContent(m))
    && (forall i :: 0 <= i < |m.entries| ==> CopyUsable(w, m.entries[i]))
    && NoReferences(w, m)
    && (SourcesGone(w, m) || (w.fences && w.workerLeases == 0))
  }

  /** A deletion receipt is only believed once every source is gone. */
  predicate AcknowledgeReady(w: World, m: Manifest)
    requires PlanSealed(w, m) && Receipt(m.digest, Deleted) in w.objects
  {
    && ParsesAsDeleted(w.objects[Receipt(m.digest, Deleted)].content, m)
    && w.objects[Receipt(m.digest, Deleted)].content.contentType == JSON
    && SourcesGone(w, m)
    && NoReferences(w, m)
  }

  predicate ApplyReady(w: World, m: Manifest, who: Identity) {
    && w.private
    && PlanSealed(w, m)
    && DistinctApplyAuthority(w.operations[m.digest], who)
    && if Receipt(m.digest, Deleted) in w.objects then AcknowledgeReady(w, m) else CopyReady(w, m)
  }

  /** A fresh, clean audit of the same database under the pin the operator supplied. */
  predicate LoadableAudit(w: World, m: Manifest, pin: AuditPin) {
    && pin in w.audits
    && var row := w.audits[pin];
       && row.release == m.release && row.database == m.database
       && row.ready && row.issueCodes == []
       && row.auditedAt <= row.createdAt <= w.now
       && w.now - row.createdAt <= AUDIT_FRESHNESS_MS
       && row.orphans == 0 && row.missing == 0 && row.p0Issues == 0
  }

  function RecordedPin(w: World, m: Manifest): Option<AuditPin>
    requires PlanSealed(w, m)
  {
    var j := w.operations[m.digest].journal;
    if FinalAuditVerified in j && j[FinalAuditVerified].AuditSeen? then Some(j[FinalAuditVerified].pin) else None
  }

  /** The audit already recorded wins over the external pin, which may even be missing by then. */
  function FinalEvidence(w: World, m: Manifest, external: Option<AuditPin>): Option<AuditPin>
    requires PlanSealed(w, m)
  {
    var recorded := RecordedPin(w, m);
    if recorded.Some? then recorded
    else if external.Some? && LoadableAudit(w, m, external.value) then external
    else None
  }

  /** Exactly when finalize succeeds. */
  predicate FinalizeReady(w: World, m: Manifest, external: Option<AuditPin>) {
    && w.private
    && PlanSealed(w, m)
    && var evidence := FinalEvidence(w, m, external);
       && evidence.Some?
       && evidence.value in w.audits
       && w.audits[evidence.value].auditedAt <= w.now
       && FinalizeReadyOn(w, m, evidence.value)
  }

  /** Exactly when finalize succeeds on the evidence of `pin`. */
  predicate FinalizeReadyOn(w: World, m: Manifest, pin: AuditPin)
    requires PlanSealed(w, m)
  {
    && CleanFinalAudit(w, m.digest, pin)
    && Receipt(m.digest, Deleted) in w.objects
    && ParsesAsDeleted(w.objects[Receipt(m.digest, Deleted)].content, m)
    && SourcesGone(w, m) && NoReferences(w, m)
    && Orphans(w) == {} && Missing(w) == {}
    && (Receipt(m.digest, Final) in w.objects ==>
          && ParsesAsCompleted(w.objects[Receipt(m.digest, Final)].content, m, pin)
          && w.objects[Receipt(m.digest, Final)].content.contentType == JSON)
    && (Completed in w.operations[m.digest].journal || (w.fences && w.workerLeases == 0))
  }

  // ----- What a crash may leave -----

  /** A state from which apply can go on, whether it has copied, deleted or acknowledged so far. */
  ghost predicate Resumable(w: World, m: Manifest, who: Identity) {
    && w.private && w.fences
    && PlanSealed(w, m)
    && DistinctApplyAuthority(w.operations[m.digest], who)
    && NoReferences(w, m)
    && (Receipt(m.digest, Copied) in w.objects ==> w.objects[Receipt(m.digest, Copied)].content == CopyReceiptContent(m))
    && (forall i :: 0 <= i < |m.entries| ==> CopyUsable(w, m.entries[i]))
    && (Receipt(m.digest, Deleted) in w.objects ==> AcknowledgeReady(w, m))
    && w.workerLeases == 0
  }

  lemma ResumableIsReady(w: World, m: Manifest, who: Identity)
    requires Resumable(w, m, who)
    ensures ApplyReady(w, m, who)
  {
  }

  ghost predicate OwnAddress(m: Manifest, a: Address) {
    || (a.Copy? && exists i :: 0 <= i < |m.entries| && m.entries[i].destinationKey == a.key)
    || (a.Receipt? && a.digest == m.digest)
  }

  /** What the protocol itself may store at the operation's own quarantine addresses. */
  ghost predicate OwnContent(w: World, m: Manifest, a: Address, content: Content) {
    match a
    case Source(_) => true
    case Copy(key) => forall i :: 0 <= i < |m.entries| && m.entries[i].destinationKey == key ==> content == m.entries[i].content
    case Receipt(d, phase) =>
      d == m.digest ==>
        match phase
        case Copied => content == CopyReceiptContent(m)
        case Deleted => ParsesAsDeleted(content, m) && content.contentType == JSON && PlanSealed(w, m) && SourcesGone(w, m)
        case Final => FinalContentGood(w, m, content)
  }

  /** A completed receipt for the audit that the operation has recorded. */
  predicate FinalContentGood(w: World, m: Manifest, content: Content) {
    && PlanSealed(w, m)
    && RecordedPin(w, m).Some?
    && ParsesAsCompleted(content, m, RecordedPin(w, m).value)
    && content.contentType == JSON
  }

  /** Any step of anyone, except: fences off, or foreign objects at this operation's quarantine addresses. */
  ghost predicate Benign(w: World, m: Manifest, step: Step) {
    match step
    case SetFence(fences) => fences
    case Upload(a, content, _) => OwnContent(w, m, a, content)
    case Overwrite(from, to, _, _) => !OwnAddress(m, from) && !OwnAddress(m, to)
    case _ => true
  }

  ghost predicate BenignRun(w: World, m: Manifest, steps: seq<Step>)
    decreases |steps|
  {
    steps == [] || (Possible(w, steps[0]) && Benign(w, m, steps[0]) && BenignRun(Execute(w, steps[0]), m, steps[1..]))
  }

  // ----- One benign step -----

  /** Recording steps leave storage and the surroundings alone. */
  ghost predicate SameSurroundings(w: World, w': World) {
    && w'.objects == w.objects && w'.references == w.references && w'.fences == w.fences
    && w'.private == w.private && w'.workerLeases == w.workerLeases
  }

  predicate OnlyRecords(step: Step) {
    step.Seal? || step.Authorize? || step.VerifyDestination? || step.Acknowledge? || step.RecordAudit? || step.Audit? || step.Clock?
  }

  lemma SurroundingsOfRecording(w: World, step: Step)
    requires OnlyRecords(step)
    ensures SameSurroundings(w, Execute(w, step))
  {
  }

  /** Everything about the plan itself that resuming depends on, storage aside. */
  lemma PlanStaysResumable(w: World, w': World, m: Manifest, who: Identity)
    requires Inv(w) && PlanSealed(w, m) && DistinctApplyAuthority(w.operations[m.digest], who) && Grows(w, w')
    ensures PlanSealed(w', m) && DistinctApplyAuthority(w'.operations[m.digest], who)
    ensures SourcesGone(w, m) ==> SourcesGone(w', m)
  {
    assert OperationKept(w, m.digest) && Extends(w.operations[m.digest], w'.operations[m.digest]);
  }

  lemma RecordingKeepsResumable(w: World, m: Manifest, who: Identity, step: Step)
    requires Inv(w) && Possible(w, step) && OnlyRecords(step) && Resumable(w, m, who)
    ensures Resumable(Execute(w, step), m, who)
  {
    StepOnlyGrows(w, step);
    SurroundingsOfRecording(w, step);
    PlanStaysResumable(w, Execute(w, step), m, who);
  }

  /** Own addresses either stay, empty, or get what the protocol stores there. */
  ghost predicate OwnObjectsGood(w: World, w': World, m: Manifest)
    requires PlanSealed(w, m)
  {
    forall a :: OwnAddress(m, a) && a in w'.objects ==>
                  || (a in w.objects && w'.objects[a] == w.objects[a])
                  || OwnContent(w, m, a, w'.objects[a].content)
  }

  lemma StorageKeepsResumable(w: World, w': World, m: Manifest, who: Identity)
    requires Inv(w) && Grows(w, w') && Resumable(w, m, who) && OwnObjectsGood(w, w', m)
    requires w'.references == w.references && w'.fences && w'.private && w'.workerLeases == w.workerLeases
    ensures Resumable(w', m, who)
  {
    PlanStaysResumable(w, w', m, who);
    forall i | 0 <= i < |m.entries|
      ensures CopyUsable(w', m.entries[i])
    {
      assert OwnAddress(m, Copy(m.entries[i].destinationKey));
      assert CopyUsable(w, m.entries[i]);
    }
    assert OwnAddress(m, Receipt(m.digest, Copied)) && OwnAddress(m, Receipt(m.digest, Deleted));
  }

  lemma StorageStepIsGood(w: World, m: Manifest, step: Step)
    requires PlanSealed(w, m) && Benign(w, m, step)
    requires step.Upload? || step.Overwrite? || step.DeleteSealed? || step.DeleteOther?
    ensures OwnObjectsGood(w, Execute(w, step), m)
    ensures var w' := Execute(w, step);
            w'.references == w.references && w'.fences == w.fences && w'.private == w.private && w'.workerLeases == w.workerLeases
  {
  }

  lemma ReferenceFenceHolds(w: World, m: Manifest, who: Identity, step: Step)
    requires Inv(w) && Resumable(w, m, who) && IsOpen(w, m.digest) && step.Reference?
    ensures Resumable(Execute(w, step), m, who)
  {
    assert HasOpenOperation(w);
    forall i | 0 <= i < |m.entries| ensures m.entries[i].sourceKey !in Execute(w, step).references {
      if m.entries[i].sourceKey == step.key {
        assert IsEntry(w, m.digest, i) && EntryAt(w, m.digest, i).sourceKey == step.key;
        assert SealedSource(w, Source(step.key));
      }
    }
  }

  /** With the fences on, an open operation keeps references, leases and bucket changes away. */
  lemma FencesHold(w: World, m: Manifest, who: Identity, step: Step)
    requires Inv(w) && Resumable(w, m, who) && Benign(w, m, step) && IsOpen(w, m.digest)
    requires step.Reference? || step.Dereference? || step.TakeLease? || step.ReleaseLease? || step.SetPrivacy? || step.SetFence?
    ensures Resumable(Execute(w, step), m, who)
  {
    assert HasOpenOperation(w);
    if step.Reference? { ReferenceFenceHolds(w, m, who, step); }
  }

  lemma BenignKeepsResumable(w: World, m: Manifest, who: Identity, step: Step)
    requires Inv(w) && Possible(w, step) && Benign(w, m, step) && Resumable(w, m, who) && IsOpen(w, m.digest)
    ensures Resumable(Execute(w, step), m, who)
  {
    if OnlyRecords(step) {
      RecordingKeepsResumable(w, m, who, step);
    } else if step.Upload? || step.Overwrite? || step.DeleteSealed? || step.DeleteOther? {
      StepOnlyGrows(w, step);
      StorageStepIsGood(w, m, step);
      StorageKeepsResumable(w, Execute(w, step), m, who);
    } else {
      FencesHold(w, m, who, step);
    }
  }

  // ----- Whole runs -----

  lemma {:induction false} BenignIsValid(w: World, m: Manifest, steps: seq<Step>)
    requires BenignRun(w, m, steps)
    ensures ValidRun(w, steps)
    decreases |steps|
  {
    if steps != [] { BenignIsValid(Execute(w, steps[0]), m, steps[1..]); }
  }

  lemma {:induction false} BenignThenStep(w: World, m: Manifest, steps: seq<Step>, step: Step)
    requires BenignRun(w, m, steps) && Possible(Run(w, steps), step) && Benign(Run(w, steps), m, step)
    ensures BenignRun(w, m, steps + [step]) && Run(w, steps + [step]) == Execute(Run(w, steps), step)
    decreases |steps|
  {
    if steps == [] {
      assert steps + [step] == [step] && BenignRun(Execute(w, step), m, []);
    } else {
      assert (steps + [step])[0] == steps[0] && (steps + [step])[1..] == steps[1..] + [step];
      BenignThenStep(Execute(w, steps[0]), m, steps[1..], step);
    }
  }

  lemma {:induction false} RunThenRun(w: World, first: seq<Step>, second: seq<Step>)
    requires ValidRun(w, first) && ValidRun(Run(w, first), second)
    ensures ValidRun(w, first + second) && Run(w, first + second) == Run(Run(w, first), second)
    decreases |first|
  {
    if first == [] {
      assert first + second == second;
    } else {
      assert (first + second)[0] == first[0] && (first + second)[1..] == first[1..] + second;
      RunThenRun(Execute(w, first[0]), first[1..], second);
    }
  }

  /** An attempt cut short anywhere has only taken a prefix of its steps. */
  lemma {:induction false} PrefixIsBenign(w: World, m: Manifest, steps: seq<Step>, crash: nat)
    requires BenignRun(w, m, steps) && crash <= |steps|
    ensures BenignRun(w, m, steps[..crash])
    decreases |steps|
  {
    if crash > 0 {
      assert steps[..crash][0] == steps[0] && steps[..crash][1..] == steps[1..][..crash - 1];
      PrefixIsBenign(Execute(w, steps[0]), m, steps[1..], crash - 1);
    }
  }

  /**
   No dead end. Whatever mixture of crashed attempts, replays and other writers came before, as
   long as the operation is open, apply would succeed now.
   */
  lemma {:induction false} NoDeadEnd(w: World, m: Manifest, who: Identity, steps: seq<Step>)
    requires Inv(w) && Resumable(w, m, who) && BenignRun(w, m, steps) && IsOpen(Run(w, steps), m.digest)
    ensures ApplyReady(Run(w, steps), m, who) && Resumable(Run(w, steps), m, who)
    decreases |steps|
  {
    if steps != [] {
      BenignIsValid(w, m, steps);
      RunOnlyGrows(w, steps);
      assert IsOpen(w, m.digest);
      StepKeepsInv(w, steps[0]);
      BenignKeepsResumable(w, m, who, steps[0]);
      NoDeadEnd(Execute(w, steps[0]), m, who, steps[1..]);
    }
  }

  /** Crash an attempt at any point: a fresh attempt, under any token but the planner's, succeeds. */
  lemma CrashThenApply(w: World, m: Manifest, who: Identity, attempt: seq<Step>, crash: nat)
    requires Inv(w) && Resumable(w, m, who) && BenignRun(w, m, attempt) && crash <= |attempt|
    requires IsOpen(Run(w, attempt[..crash]), m.digest)
    ensures ApplyReady(Run(w, attempt[..crash]), m, who)
  {
    PrefixIsBenign(w, m, attempt, crash);
    NoDeadEnd(w, m, who, attempt[..crash]);
  }

  /** A freshly sealed plan can be applied by any other run of the same workflow. */
  lemma SealedIsResumable(w: World, m: Manifest, planner: Identity, who: Identity)
    requires Inv(w) && Possible(w, Seal(m, planner)) && SealPlan(w, m, planner).Committed? && m.digest !in w.operations
    requires w.fences && who.stable == planner.stable && who.token != planner.token
    requires forall phase :: Receipt(m.digest, phase) !in w.objects
    ensures Resumable(Execute(w, Seal(m, planner)), m, who)
    ensures IsOpen(Execute(w, Seal(m, planner)), m.digest)
  {
    SealedSurroundings(w, m, planner, who);
  }

  lemma SealedSurroundings(w: World, m: Manifest, planner: Identity, who: Identity)
    requires w.fences && w.private && w.workerLeases == 0 && NoReferences(w, m) && DestinationsAbsent(w, m)
    requires who.stable == planner.stable && who.token != planner.token
    requires forall phase :: Receipt(m.digest, phase) !in w.objects
    ensures Resumable(Sealed(w, m, planner), m, who) && IsOpen(Sealed(w, m, planner), m.digest)
  {
  }

  /** An interrupted finalize resumes from the recorded audit, with no pin at all. */
  lemma FinalizeResumes(w: World, m: Manifest, external: Option<AuditPin>)
    requires Inv(w) && FinalizeReady(w, m, external)
    ensures var pin := FinalEvidence(w, m, external).value;
            var w' := Execute(w, RecordAudit(m.digest, pin));
            RecordedPin(w', m) == Some(pin) && FinalizeReady(w', m, None)
  {
    assert OperationKept(w, m.digest) && FinalAuditKept(w, m.digest);
  }
}
