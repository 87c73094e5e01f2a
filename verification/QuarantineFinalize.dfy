/** Crashes in the middle of finalize: the steps it takes, and why any prefix of them can be resumed. */
module QuarantineFinalize {
  import opened Wrappers
  import opened QuarantineModel
  import opened QuarantineSafety
  import opened QuarantineTheorems
  import opened QuarantineResume

  /** What finalize writes: the audit event, the final receipt, the completion event. */
  predicate FinalStep(m: Manifest, pin: AuditPin, step: Step) {
    match step
    case RecordAudit(d, recorded) => d == m.digest && recorded == pin
    case Upload(a, content, _) =>
      a == Receipt(m.digest, Final) && ParsesAsCompleted(content, m, pin) && content.contentType == JSON
    case Acknowledge(d, phase, _, _, _) => d == m.digest && phase == Final
    case _ => false
  }

  /** The steps taken between two lists of steps. */
  ghost predicate OnlyFinalSteps(m: Manifest, pin: AuditPin, before: seq<Step>, after: seq<Step>) {
    before <= after && forall k :: |before| <= k < |after| ==> FinalStep(m, pin, after[k])
  }

  /** A step of an attempt, or time passing once the audit is recorded. */
  predicate FinalTurn(w: World, m: Manifest, pin: AuditPin, step: Step) {
    FinalStep(m, pin, step) || (step.Clock? && PlanSealed(w, m) && RecordedPin(w, m) == Some(pin))
  }

  lemma FinalStepsChain(m: Manifest, pin: AuditPin, a: seq<Step>, b: seq<Step>, c: seq<Step>)
    requires OnlyFinalSteps(m, pin, a, b) && OnlyFinalSteps(m, pin, b, c)
    ensures OnlyFinalSteps(m, pin, a, c)
  {
  }

  /** Crashed attempts one after the other. */
  ghost predicate FinalRun(w: World, m: Manifest, pin: AuditPin, steps: seq<Step>)
    decreases |steps|
  {
    steps != [] ==>
      && Possible(w, steps[0]) && FinalTurn(w, m, pin, steps[0])
      && FinalRun(Execute(w, steps[0]), m, pin, steps[1..])
  }

  /** Ready to finalize on the evidence of `pin`. */
  ghost predicate ReadyOn(w: World, m: Manifest, external: Option<AuditPin>, pin: AuditPin) {
    FinalizeReady(w, m, external) && FinalEvidence(w, m, external) == Some(pin)
  }

  lemma CompletionKeepsReady(w: World, m: Manifest, external: Option<AuditPin>, pin: AuditPin, step: Step)
    requires ReadyOn(w, m, external, pin) && step.Acknowledge? && FinalStep(m, pin, step)
    ensures ReadyOn(Execute(w, step), m, external, pin)
  {
  }

  lemma TurnKeepsReady(w: World, m: Manifest, external: Option<AuditPin>, pin: AuditPin, step: Step)
    requires Inv(w) && ReadyOn(w, m, external, pin) && FinalTurn(w, m, pin, step)
    ensures ReadyOn(Execute(w, step), m, external, pin)
  {
    if step.Acknowledge? { CompletionKeepsReady(w, m, external, pin, step); }
  }

  /** Finalize crashed after any step, any number of times, and resumed any time later, still succeeds. */
  lemma {:induction false} CrashThenFinalize(w: World, m: Manifest, external: Option<AuditPin>, pin: AuditPin, steps: seq<Step>)
    requires Inv(w) && ReadyOn(w, m, external, pin) && FinalRun(w, m, pin, steps)
    ensures ReadyOn(Run(w, steps), m, external, pin)
    decreases |steps|
  {
    if steps != [] {
      StepKeepsInv(w, steps[0]);
      TurnKeepsReady(w, m, external, pin, steps[0]);
      CrashThenFinalize(Execute(w, steps[0]), m, external, pin, steps[1..]);
    }
  }

  /** A finalize attempt, cut short anywhere, is such a run. */
  lemma {:induction false} AttemptIsFinalRun(w: World, m: Manifest, pin: AuditPin, attempt: seq<Step>, crash: nat)
    requires BenignRun(w, m, attempt) && OnlyFinalSteps(m, pin, [], attempt) && crash <= |attempt|
    ensures FinalRun(w, m, pin, attempt[..crash])
    decreases |attempt|
  {
    if crash > 0 {
      assert attempt[..crash][1..] == attempt[1..][..crash - 1];
      AttemptIsFinalRun(Execute(w, attempt[0]), m, pin, attempt[1..], crash - 1);
    }
  }

  // ----- Finalize after anything -----

  /** No audit row is dated in the future. */
  predicate AuditsPast(w: World) {
    forall pin :: pin in w.audits ==> w.audits[pin].createdAt <= w.now
  }

  /** Nothing but a receipt of the recorded audit stands at the final receipt's address. */
  predicate Finishable(w: World, m: Manifest) {
    && AuditsPast(w)
    && (Receipt(m.digest, Final) in w.objects ==> FinalContentGood(w, m, w.objects[Receipt(m.digest, Final)].content))
  }

  lemma StepKeepsAuditsPast(w: World, step: Step)
    requires AuditsPast(w) && Possible(w, step)
    ensures AuditsPast(Execute(w, step))
  {
    match step
    case Seal(_, _) =>
    case Authorize(_, _) =>
    case VerifyDestination(_, _, _) =>
    case Acknowledge(_, _, _, _, _) =>
    case RecordAudit(_, _) =>
    case _ =>
  }

  lemma {:induction false} RunKeepsAuditsPast(w: World, steps: seq<Step>)
    requires AuditsPast(w) && ValidRun(w, steps)
    ensures AuditsPast(Run(w, steps))
    decreases |steps|
  {
    if steps != [] {
      StepKeepsAuditsPast(w, steps[0]);
      RunKeepsAuditsPast(Execute(w, steps[0]), steps[1..]);
    }
  }

  lemma FinalContentStays(w: World, w': World, m: Manifest, content: Content)
    requires Grows(w, w') && FinalContentGood(w, m, content)
    ensures FinalContentGood(w', m, content)
  {
    assert Extends(w.operations[m.digest], w'.operations[m.digest]);
  }

  /** A benign step puts nothing else at the final receipt's address. */
  lemma FinalReceiptOrigin(w: World, m: Manifest, step: Step)
    requires Benign(w, m, step) && Receipt(m.digest, Final) in Execute(w, step).objects
    ensures var a := Receipt(m.digest, Final);
            || (a in w.objects && Execute(w, step).objects[a] == w.objects[a])
            || FinalContentGood(w, m, Execute(w, step).objects[a].content)
  {
    var a := Receipt(m.digest, Final);
    assert OwnAddress(m, a);
    if OnlyRecords(step) {
      SurroundingsOfRecording(w, step);
    } else if !step.Upload? && !step.Overwrite? && !step.DeleteSealed? && !step.DeleteOther? {
      assert Execute(w, step).objects == w.objects;
    }
  }

  lemma BenignKeepsFinishable(w: World, m: Manifest, step: Step)
    requires Inv(w) && Possible(w, step) && Benign(w, m, step) && Finishable(w, m)
    ensures Finishable(Execute(w, step), m)
  {
    var a := Receipt(m.digest, Final);
    var w' := Execute(w, step);
    StepKeepsAuditsPast(w, step);
    if a in w'.objects {
      StepOnlyGrows(w, step);
      FinalReceiptOrigin(w, m, step);
      FinalContentStays(w, w', m, w'.objects[a].content);
    }
  }

  /** An audit to finalize on: the one recorded, or a fresh clean one taken after the deletions. */
  predicate EvidenceAtHand(w: World, m: Manifest, external: Option<AuditPin>) {
    && PlanSealed(w, m)
    && (RecordedPin(w, m).Some? ||
        (external.Some? && LoadableAudit(w, m, external.value) && Recorded(w, m.digest, DeletedVerified)
         && w.operations[m.digest].journal[DeletedVerified].at <= w.audits[external.value].auditedAt))
  }

  lemma EvidenceIsClean(w: World, m: Manifest, external: Option<AuditPin>)
    requires Inv(w) && AuditsPast(w) && EvidenceAtHand(w, m, external)
    ensures var evidence := FinalEvidence(w, m, external);
            && evidence.Some? && CleanFinalAudit(w, m.digest, evidence.value)
            && w.audits[evidence.value].auditedAt <= w.now
  {
    assert OperationKept(w, m.digest) && FinalAuditKept(w, m.digest);
    assert ReceiptKept(w, m.digest, w.operations[m.digest], Deleted);
  }

  /** Once the deletion is acknowledged, an audit at hand and a clean archive are all finalize needs. */
  lemma AcknowledgedCanFinalize(w: World, m: Manifest, who: Identity, external: Option<AuditPin>)
    requires Inv(w) && Resumable(w, m, who) && Finishable(w, m)
    requires Recorded(w, m.digest, DeletedVerified) && EvidenceAtHand(w, m, external)
    requires Orphans(w) == {} && Missing(w) == {}
    ensures FinalizeReady(w, m, external)
  {
    EvidenceIsClean(w, m, external);
    AcknowledgedIsGone(w, m, who);
  }

  lemma AcknowledgedIsGone(w: World, m: Manifest, who: Identity)
    requires Inv(w) && Resumable(w, m, who) && Recorded(w, m.digest, DeletedVerified)
    ensures Receipt(m.digest, Deleted) in w.objects && AcknowledgeReady(w, m)
  {
    assert OperationKept(w, m.digest) && ReceiptKept(w, m.digest, w.operations[m.digest], Deleted);
  }
}
