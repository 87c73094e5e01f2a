/**
 The terms of every transaction, in the words of storage, ledger and references alone: exactly when
 it commits, and exactly what it then adds. Counts, guards and named conditions are spelled out.
 */
module QuarantineTerms {
  import opened Wrappers
  import opened QuarantineModel
  import opened QuarantineSafety
  import opened QuarantineTheorems
  import opened QuarantineResume

  /** The world with one more event of an operation, and nothing else. */
  function With(w: World, d: string, mark: Mark, event: Event): World
    requires d in w.operations
  {
    var op := w.operations[d];
    w.(operations := w.operations[d := Operation(op.id, op.manifest, op.journal[mark := event])])
  }

  // ----- Sealing -----

  /** Every stored source object is referenced and every reference has its object, but for the keys given. */
  predicate ReferencedExcept(w: World, keys: seq<string>) {
    && (forall a: Address :: a in w.objects && a.Source? ==> (a.key in w.references <==> a.key !in keys))
    && (forall key :: key in w.references ==> Source(key) in w.objects)
    && (forall key :: key in keys ==> Source(key) in w.objects)
  }

  /** The audit a plan rests on: this release, database and snapshot, with findings, dated in order, half an hour old at most. */
  predicate PlannedOn(w: World, m: Manifest) {
    && m.audit in w.audits
    && w.audits[m.audit].release == m.release
    && w.audits[m.audit].database == m.database
    && w.audits[m.audit].snapshot == m.snapshot
    && w.audits[m.audit].ready == false
    && w.audits[m.audit].auditedAt <= w.audits[m.audit].createdAt
    && w.audits[m.audit].createdAt <= w.now <= w.audits[m.audit].createdAt + 1_800_000
  }

  /** At least one entry, each a PDF, under keys of its own. */
  predicate ProperEntries(entries: seq<Entry>) {
    && entries != []
    && (forall i :: 0 <= i < |entries| ==> entries[i].content.contentType == "application/pdf")
    && (forall i, j :: 0 <= i < |entries| && 0 <= j < |entries| && i != j ==>
          entries[i].sourceKey != entries[j].sourceKey && entries[i].destinationKey != entries[j].destinationKey)
  }

  /** No operation is under way, and none has used one of these keys or this audit. */
  predicate LedgerFree(w: World, m: Manifest) {
    && (forall d :: d in w.operations ==>
          Completed in w.operations[d].journal && w.operations[d].manifest.audit.deploymentId != m.audit.deploymentId)
    && (forall d, e, f :: d in w.operations && e in w.operations[d].manifest.entries && f in m.entries ==>
          e.sourceKey != f.sourceKey && e.destinationKey != f.destinationKey)
  }

  lemma FreeOfConflicts(w: World, m: Manifest)
    ensures PlanInsertAllowed(w, m) <==> LedgerFree(w, m)
  {
    if PlanInsertAllowed(w, m) {
      forall d | d in w.operations ensures Completed in w.operations[d].journal { assert !IsOpen(w, d); }
      forall d, e, f | d in w.operations && e in w.operations[d].manifest.entries && f in m.entries
        ensures e.sourceKey != f.sourceKey && e.destinationKey != f.destinationKey
      {
        var i :| 0 <= i < |w.operations[d].manifest.entries| && w.operations[d].manifest.entries[i] == e;
        var k :| 0 <= k < |m.entries| && m.entries[k] == f;
        assert IsEntry(w, d, i) && EntryAt(w, d, i) == e;
      }
    }
    if LedgerFree(w, m) {
      forall d, i | IsEntry(w, d, i) ensures EntryAt(w, d, i) in w.operations[d].manifest.entries {}
    }
  }

  lemma OnlyTargetsAreOrphans(w: World, m: Manifest)
    ensures Orphans(w) == (set i | 0 <= i < |m.entries| :: m.entries[i].sourceKey) && Missing(w) == {} <==>
            ReferencedExcept(w, SourceKeySeq(m))
  {
    var targets := set i | 0 <= i < |m.entries| :: m.entries[i].sourceKey;
    var keys := SourceKeySeq(m);
    assert forall key :: key in keys <==> key in targets by {
      forall key | key in targets ensures key in keys {
        var i :| 0 <= i < |m.entries| && m.entries[i].sourceKey == key;
        assert keys[i] == key;
      }
    }
    assert Missing(w) == {} <==> forall key :: key in w.references ==> key !in Missing(w);
    if ReferencedExcept(w, keys) {
      forall key ensures key in Orphans(w) <==> key in targets {
        if Source(key) in w.objects { assert Source(key).Source?; }
      }
    }
  }

  /**
   A digest not sealed before is sealed exactly on such an audit, in such an archive and ledger; the
   new operation starts with the planner's authority and nothing else.
   */
  lemma SealsExactly(w: World, m: Manifest, who: Identity)
    requires m.digest !in w.operations
    ensures SealPlan(w, m, who).Committed? <==>
            && ProperEntries(m.entries)
            && PlannedOn(w, m)
            && w.workerLeases == 0
            && w.private
            && ReferencedExcept(w, SourceKeySeq(m))
            && (forall e :: e in m.entries ==>
                  && e.sourceKey !in w.references
                  && Source(e.sourceKey) in w.objects && w.objects[Source(e.sourceKey)].facts == e.facts
                  && Copy(e.destinationKey) !in w.objects)
            && LedgerFree(w, m)
    ensures SealPlan(w, m, who).Committed? ==>
            SealPlan(w, m, who) == Committed(
              w.(operations := w.operations[m.digest := Operation(|w.operations|, m, map[PlanAuthorized := Authority(who, w.now)])]),
              |w.operations|)
  {
    FreeOfConflicts(w, m);
    OnlyTargetsAreOrphans(w, m);
    assert ProperEntries(m.entries) <==> ValidManifest(m);
    assert forall i :: 0 <= i < |m.entries| ==> m.entries[i] in m.entries;
  }

  // ----- Authorising and verifying copies -----

  /** The first authorisation: the planner's workflow under another token. */
  lemma AuthorizesExactly(w: World, d: string, who: Identity)
    requires Inv(w) && d in w.operations && Authorized !in w.operations[d].journal
    ensures var planner := w.operations[d].journal[PlanAuthorized].identity;
            RecordAuthorized(w, d, who) ==
            if who.stable == planner.stable && who.token != planner.token
            then Committed(With(w, d, Authorized, Authority(who, w.now)), ()) else Refused(ApplyAuthorityDivergent)
  {
    assert OperationKept(w, d);
  }

  /** The first verification of a copy: the manifest's bytes, in the row that stands there. */
  lemma VerifiesExactly(w: World, d: string, i: nat, loaded: Stored)
    requires d in w.operations && i < |w.operations[d].manifest.entries| && DestinationVerified(i) !in w.operations[d].journal
    ensures var e := w.operations[d].manifest.entries[i];
            RecordDestinationVerified(w, d, i, loaded).Committed? <==>
            && loaded.content == e.content
            && Copy(e.destinationKey) in w.objects && w.objects[Copy(e.destinationKey)].facts == loaded.facts
    ensures RecordDestinationVerified(w, d, i, loaded).Committed? ==>
            RecordDestinationVerified(w, d, i, loaded) ==
            Committed(With(w, d, DestinationVerified(i), ObjectSeen(loaded, w.now)), ())
  {
  }

  // ----- Receipts -----

  predicate EveryCopyVerified(op: Operation) {
    forall i :: 0 <= i < |op.manifest.entries| ==> DestinationVerified(i) in op.journal
  }

  predicate EverySourceDeleted(op: Operation) {
    forall i :: 0 <= i < |op.manifest.entries| ==> SourceDeleted(i) in op.journal
  }

  /** The receipt that was read is the one that stands there, as JSON, with the expected body. */
  predicate ReceiptStands(w: World, d: string, phase: Phase, expected: Body, loaded: Stored) {
    && Receipt(d, phase) in w.objects && w.objects[Receipt(d, phase)].facts == loaded.facts
    && loaded.content.body == expected && loaded.content.contentType == "application/json"
  }

  /** A receipt of one phase may be recorded: every copy verified, then every source deleted, then the deletion acknowledged and audited. */
  lemma PrerequisitesExactly(op: Operation, phase: Phase)
    ensures ReceiptPrerequisites(op, phase) <==>
            match phase
            case Copied => EveryCopyVerified(op)
            case Deleted => EveryCopyVerified(op) && EverySourceDeleted(op)
            case Final =>
              EveryCopyVerified(op) && EverySourceDeleted(op) && DeletedVerified in op.journal && FinalAuditVerified in op.journal
  {
    AllVerifiedIsFullCount(op, |op.manifest.entries|);
    AllDeletedIsFullCount(op, |op.manifest.entries|);
  }

  /** A receipt names the manifest and every source as often as the plan does, in any order; the last one its audit too. */
  lemma ReceiptsName(c: Content, m: Manifest, pin: AuditPin)
    ensures ParsesAsDeleted(c, m) <==>
            && c.body.DeletedReceipt? && c.body.manifestDigest == m.digest
            && forall key :: multiset(c.body.sourceKeys)[key] == multiset(SourceKeySeq(m))[key]
    ensures ParsesAsCompleted(c, m, pin) <==>
            && c.body.CompletedReceipt? && c.body.manifestDigest == m.digest && c.body.audit == pin
            && forall key :: multiset(c.body.sourceKeys)[key] == multiset(SourceKeySeq(m))[key]
  {
  }

  /** The receipts of copy and deletion, recorded for the first time. */
  lemma AcknowledgesExactly(w: World, d: string, phase: Phase, expected: Body, loaded: Stored, saw: bool)
    requires d in w.operations && phase != Final && PhaseMark(phase) !in w.operations[d].journal
    ensures var op := w.operations[d];
            RecordReceipt(w, d, phase, expected, loaded, saw).Committed? <==>
            && ReceiptStands(w, d, phase, expected, loaded)
            && EveryCopyVerified(op)
            && (phase == Deleted ==> EverySourceDeleted(op))
    ensures RecordReceipt(w, d, phase, expected, loaded, saw).Committed? ==>
            RecordReceipt(w, d, phase, expected, loaded, saw) ==
            Committed(With(w, d, if phase == Copied then CopiedVerified else DeletedVerified, ObjectSeen(loaded, w.now)), ())
  {
    var op := w.operations[d];
    AllVerifiedIsFullCount(op, |op.manifest.entries|);
    AllDeletedIsFullCount(op, |op.manifest.entries|);
  }

  // ----- The final audit -----

  /** Release and database of the plan, ready and without findings, dated in order and after the deletions. */
  predicate AuditedClean(w: World, d: string, pin: AuditPin)
    requires d in w.operations
  {
    var op := w.operations[d];
    && pin in w.audits
    && DeletedVerified in op.journal && op.journal[DeletedVerified].ObjectSeen?
    && w.audits[pin].release == op.manifest.release
    && w.audits[pin].database == op.manifest.database
    && w.audits[pin].ready == true
    && w.audits[pin].issueCodes == []
    && w.audits[pin].orphans == w.audits[pin].missing == w.audits[pin].p0Issues == 0
    && op.journal[DeletedVerified].at <= w.audits[pin].auditedAt
    && w.audits[pin].auditedAt <= w.audits[pin].createdAt
  }

  lemma CleanSourceBucket(w: World)
    ensures Orphans(w) == {} && Missing(w) == {} <==> ReferencedExcept(w, [])
  {
    assert Missing(w) == {} <==> forall key :: key in w.references ==> key !in Missing(w);
    if ReferencedExcept(w, []) {
      forall key ensures key !in Orphans(w) {
        if Source(key) in w.objects { assert Source(key).Source?; }
      }
    }
    if Orphans(w) == {} {
      forall a: Address | a in w.objects && a.Source? ensures a.key in w.references { assert a.key !in Orphans(w); }
    }
  }

  /** The first recording of the final audit: such an audit, while the source bucket is all referenced. */
  lemma AuditsExactly(w: World, d: string, pin: AuditPin)
    requires d in w.operations && FinalAuditVerified !in w.operations[d].journal
    ensures RecordFinalAudit(w, d, pin).Committed? <==> AuditedClean(w, d, pin) && ReferencedExcept(w, [])
    ensures RecordFinalAudit(w, d, pin).Committed? ==>
            RecordFinalAudit(w, d, pin) == Committed(With(w, d, FinalAuditVerified, AuditSeen(pin, w.now)), ())
  {
    CleanSourceBucket(w);
  }

  /** An audit supplied from outside: of the plan's release and database, clean, half an hour old at most. */
  lemma EvidenceExactly(w: World, m: Manifest, pin: AuditPin)
    requires PlanSealed(w, m) && FinalAuditVerified !in w.operations[m.digest].journal
    ensures FinalEvidence(w, m, Some(pin)) ==
            if && pin in w.audits
               && w.audits[pin].release == m.release
               && w.audits[pin].database == m.database
               && w.audits[pin].ready == true
               && w.audits[pin].issueCodes == []
               && w.audits[pin].orphans == w.audits[pin].missing == w.audits[pin].p0Issues == 0
               && w.audits[pin].auditedAt <= w.audits[pin].createdAt
               && w.audits[pin].createdAt <= w.now <= w.audits[pin].createdAt + 1_800_000
            then Some(pin) else None
  {
  }

  // ----- Completion -----

  /** The row an event saw is the one that stands there. */
  predicate StillThere(w: World, d: string, mark: Mark, a: Address) {
    && d in w.operations && mark in w.operations[d].journal && w.operations[d].journal[mark].ObjectSeen?
    && a in w.objects && w.objects[a] == w.operations[d].journal[mark].seen
  }

  /**
   The world in which completion may be recorded: every stored source object is referenced and every
   reference has its object, both buckets are private, nobody works and the fences stand; no sealed
   source is left or referenced, and every verified copy and receipt is the recorded row.
   */
  ghost predicate SettledArchive(w: World, d: string) {
    && d in w.operations
    && var op := w.operations[d];
    && (forall key :: Source(key) in w.objects ==> key in w.references)
    && (forall key :: key in w.references ==> Source(key) in w.objects)
    && w.private && w.fences && w.workerLeases == 0
    && (forall i :: 0 <= i < |op.manifest.entries| ==>
          && Source(op.manifest.entries[i].sourceKey) !in w.objects
          && op.manifest.entries[i].sourceKey !in w.references
          && SourceDeleted(i) in op.journal
          && StillThere(w, d, DestinationVerified(i), Copy(op.manifest.entries[i].destinationKey))
          && w.objects[Copy(op.manifest.entries[i].destinationKey)].content == op.manifest.entries[i].content)
    && StillThere(w, d, CopiedVerified, Receipt(d, Copied))
    && StillThere(w, d, DeletedVerified, Receipt(d, Deleted))
    && Authorized in op.journal
    && FinalAuditVerified in op.journal
  }

  /** The row at the address is the one an event has seen, by all its facts. */
  predicate SameRow(w: World, d: string, mark: Mark, a: Address) {
    && d in w.operations && mark in w.operations[d].journal && w.operations[d].journal[mark].ObjectSeen?
    && a in w.objects && w.objects[a].facts == w.operations[d].journal[mark].seen.facts
  }

  /** The row of a JSON receipt. */
  predicate SameReceipt(w: World, d: string, mark: Mark, phase: Phase) {
    && SameRow(w, d, mark, Receipt(d, phase))
    && w.operations[d].journal[mark].seen.content.contentType == "application/json"
  }

  predicate SameCopy(w: World, d: string, i: nat) {
    && d in w.operations && i < |w.operations[d].manifest.entries|
    && SameRow(w, d, DestinationVerified(i), Copy(w.operations[d].manifest.entries[i].destinationKey))
    && w.operations[d].journal[DestinationVerified(i)].seen.content == w.operations[d].manifest.entries[i].content
  }

  /** The recertification trusts nothing recorded: in any world at all it asks for every row and every event again. */
  lemma BoundaryRechecks(w: World, d: string)
    requires d in w.operations
    ensures var op := w.operations[d];
            CompletionBoundary(w, d) <==>
            && (forall i :: 0 <= i < |op.manifest.entries| ==>
                  && Source(op.manifest.entries[i].sourceKey) !in w.objects
                  && op.manifest.entries[i].sourceKey !in w.references
                  && SourceDeleted(i) in op.journal
                  && SameCopy(w, d, i))
            && SameReceipt(w, d, CopiedVerified, Copied)
            && SameReceipt(w, d, DeletedVerified, Deleted)
            && PlanAuthorized in op.journal && Authorized in op.journal
            && FinalAuditVerified in op.journal && Completed !in op.journal
            && ReferencedExcept(w, [])
            && w.private && w.fences && w.workerLeases == 0
  {
    var op := w.operations[d];
    AllVerifiedIsFullCount(op, |op.manifest.entries|);
    AllDeletedIsFullCount(op, |op.manifest.entries|);
    CleanSourceBucket(w);
    assert forall i :: 0 <= i < |op.manifest.entries| && SameCopy(w, d, i) ==> DestinationVerified(i) in op.journal;
  }

  lemma SettledEntries(w: World, d: string)
    requires Inv(w) && SettledArchive(w, d)
    ensures forall i :: 0 <= i < |w.operations[d].manifest.entries| ==>
              && DestinationVerified(i) in w.operations[d].journal
              && ExactObjectEvent(w, w.operations[d].journal[DestinationVerified(i)], Copy(w.operations[d].manifest.entries[i].destinationKey))
              && w.operations[d].journal[DestinationVerified(i)].seen.content == w.operations[d].manifest.entries[i].content
  {
    var op := w.operations[d];
    forall i | 0 <= i < |op.manifest.entries|
      ensures StillThere(w, d, DestinationVerified(i), Copy(op.manifest.entries[i].destinationKey)) {}
  }

  lemma BoundaryEntries(w: World, d: string)
    requires Inv(w) && d in w.operations && CompletionBoundary(w, d)
    ensures var op := w.operations[d];
            forall i :: 0 <= i < |op.manifest.entries| ==>
              && SourceDeleted(i) in op.journal
              && StillThere(w, d, DestinationVerified(i), Copy(op.manifest.entries[i].destinationKey))
              && w.objects[Copy(op.manifest.entries[i].destinationKey)].content == op.manifest.entries[i].content
  {
    var op := w.operations[d];
    assert OperationKept(w, d);
    AllDeletedIsFullCount(op, |op.manifest.entries|);
    forall i | 0 <= i < |op.manifest.entries|
      ensures StillThere(w, d, DestinationVerified(i), Copy(op.manifest.entries[i].destinationKey))
      ensures w.objects[Copy(op.manifest.entries[i].destinationKey)].content == op.manifest.entries[i].content
    {
      assert CopyKept(w, op, i);
    }
  }

  lemma BoundaryReceipts(w: World, d: string)
    requires Inv(w) && d in w.operations && CompletionBoundary(w, d)
    ensures StillThere(w, d, CopiedVerified, Receipt(d, Copied))
    ensures StillThere(w, d, DeletedVerified, Receipt(d, Deleted))
  {
    var op := w.operations[d];
    assert OperationKept(w, d);
    assert ReceiptKept(w, d, op, Copied) && ReceiptKept(w, d, op, Deleted);
  }

  lemma SettledIsBoundary(w: World, d: string)
    requires Inv(w) && SettledArchive(w, d) && Completed !in w.operations[d].journal
    ensures CompletionBoundary(w, d)
  {
    var op := w.operations[d];
    assert OperationKept(w, d);
    AllVerifiedIsFullCount(op, |op.manifest.entries|);
    AllDeletedIsFullCount(op, |op.manifest.entries|);
    BucketIsSettled(w);
    SettledEntries(w, d);
    assert ReceiptKept(w, d, op, Copied) && ReceiptKept(w, d, op, Deleted);
  }

  lemma BoundaryIsSettled(w: World, d: string)
    requires Inv(w) && d in w.operations && Completed !in w.operations[d].journal
    ensures CompletionBoundary(w, d) <==> SettledArchive(w, d)
  {
    if SettledArchive(w, d) { SettledIsBoundary(w, d); }
    if CompletionBoundary(w, d) {
      BucketIsSettled(w);
      BoundaryEntries(w, d);
      BoundaryReceipts(w, d);
    }
  }

  lemma BucketIsSettled(w: World)
    ensures Orphans(w) == {} && Missing(w) == {} <==>
            (forall key :: Source(key) in w.objects ==> key in w.references)
            && (forall key :: key in w.references ==> Source(key) in w.objects)
  {
    assert Missing(w) == {} <==> forall key :: key in w.references ==> key !in Missing(w);
    assert Orphans(w) == {} <==> forall key :: key !in Orphans(w);
  }

  /** The last receipt is recorded for the first time exactly in such a world, with its receipt in place. */
  lemma CompletesExactly(w: World, d: string, expected: Body, loaded: Stored)
    requires Inv(w) && Observed(w, loaded) && d in w.operations && Completed !in w.operations[d].journal
    ensures RecordReceipt(w, d, Final, expected, loaded, false).Committed? <==>
            SettledArchive(w, d) && ReceiptStands(w, d, Final, expected, loaded)
    ensures RecordReceipt(w, d, Final, expected, loaded, false).Committed? ==>
            RecordReceipt(w, d, Final, expected, loaded, false) ==
            Committed(With(w, d, Completed, ObjectSeen(loaded, w.now)), ())
  {
    var op := w.operations[d];
    BoundaryIsSettled(w, d);
    AllVerifiedIsFullCount(op, |op.manifest.entries|);
    AllDeletedIsFullCount(op, |op.manifest.entries|);
  }

  /** A step that records `completed` for the first time. */
  lemma CompletingStep(w: World, step: Step, d: string)
    requires Inv(w) && Possible(w, step) && !Recorded(w, d, Completed) && Recorded(Execute(w, step), d, Completed)
    ensures SettledArchive(w, d)
  {
    assert step.Acknowledge? && step.d == d && step.phase == Final by { OnlyAcknowledgingCompletes(w, step, d); }
    CompletesExactly(w, d, step.expected, step.loaded);
  }

  lemma RecordingNeverCompletes(w: World, step: Step, d: string)
    requires (step.Authorize? || step.VerifyDestination? || step.RecordAudit?) && !Recorded(w, d, Completed)
    ensures !Recorded(Execute(w, step), d, Completed)
  {
  }

  lemma OthersNeverComplete(w: World, step: Step, d: string)
    requires Inv(w) && Possible(w, step) && !step.Acknowledge? && !Recorded(w, d, Completed)
    ensures !Recorded(Execute(w, step), d, Completed)
  {
    match step
    case Seal(_, _) =>
    case Authorize(_, _) => RecordingNeverCompletes(w, step, d);
    case VerifyDestination(_, _, _) => RecordingNeverCompletes(w, step, d);
    case RecordAudit(_, _) => RecordingNeverCompletes(w, step, d);
    case DeleteSealed(_, _) =>
    case _ => OtherStepsAreProtected(w, step);
  }

  lemma OnlyAcknowledgingCompletes(w: World, step: Step, d: string)
    requires Inv(w) && Possible(w, step) && !Recorded(w, d, Completed) && Recorded(Execute(w, step), d, Completed)
    ensures step.Acknowledge? && step.d == d && step.phase == Final && !step.sawCompleted && d in w.operations
    ensures RecordReceipt(w, d, Final, step.expected, step.loaded, false).Committed?
  {
    if !step.Acknowledge? { OthersNeverComplete(w, step, d); }
  }

  /** Whatever the schedule, an operation was completed in such a world: never over a dirty archive. */
  lemma {:induction false} CompletedInSettledArchive(w: World, steps: seq<Step>, d: string) returns (k: nat)
    requires Inv(w) && ValidRun(w, steps) && !Recorded(w, d, Completed) && Recorded(Run(w, steps), d, Completed)
    ensures k < |steps| && ValidRun(w, steps[..k]) && SettledArchive(Run(w, steps[..k]), d)
    ensures !Recorded(Run(w, steps[..k]), d, Completed)
    ensures steps[k].Acknowledge? && Recorded(Execute(Run(w, steps[..k]), steps[k]), d, Completed)
    decreases |steps|
  {
    var next := Execute(w, steps[0]);
    StepKeepsInv(w, steps[0]);
    if Recorded(next, d, Completed) {
      CompletingStep(w, steps[0], d);
      OnlyAcknowledgingCompletes(w, steps[0], d);
      k := 0;
    } else {
      var rest := CompletedInSettledArchive(next, steps[1..], d);
      k := rest + 1;
      assert steps[..k][0] == steps[0] && steps[..k][1..] == steps[1..][..rest];
    }
  }

  // ----- Deleting a source -----

  /** Authorised, every copy verified and acknowledged, exactly the entries before this one deleted. */
  predicate TurnToDelete(op: Operation, i: nat) {
    && Authorized in op.journal && CopiedVerified in op.journal
    && EveryCopyVerified(op)
    && (forall k :: 0 <= k < |op.manifest.entries| ==> (SourceDeleted(k) in op.journal <==> k < i))
  }

  /** A sealed source goes exactly in its turn, behind the fences and unreferenced, and leaves its event. */
  lemma DeletesExactly(w: World, d: string, i: nat)
    requires d in w.operations && i < |w.operations[d].manifest.entries|
    requires Source(w.operations[d].manifest.entries[i].sourceKey) in w.objects
    ensures var op := w.operations[d];
            var e := op.manifest.entries[i];
            RemoveSealed(w, d, i) ==
            if TurnToDelete(op, i) && w.objects[Source(e.sourceKey)].facts == e.facts && w.fences && e.sourceKey !in w.references
            then Committed(
                   With(w, d, SourceDeleted(i), ObjectSeen(Stored(e.facts, e.content), w.now)).(objects := w.objects - {Source(e.sourceKey)}), ())
            else Refused(StorageImmutable)
  {
    var op := w.operations[d];
    AllVerifiedIsFullCount(op, |op.manifest.entries|);
    if TurnToDelete(op, i) { PrefixCounts(op, i, |op.manifest.entries|); }
    if TriggerAllowsDelete(w, d, i) { PrefixIsAll(op, i, |op.manifest.entries|); }
  }

  /** As many deletions as the first i entries, and those among them: no others. */
  lemma {:induction false} PrefixIsAll(op: Operation, i: nat, n: nat)
    requires i <= n && forall k :: 0 <= k < i ==> SourceDeleted(k) in op.journal
    ensures DeletedCount(op.journal, n) >= i
    ensures DeletedCount(op.journal, n) == i ==> forall k :: i <= k < n ==> SourceDeleted(k) !in op.journal
  {
    if n > i {
      PrefixIsAll(op, i, n - 1);
    } else if n > 0 {
      PrefixIsAll(op, i - 1, n - 1);
    }
  }

  lemma {:induction false} PrefixCounts(op: Operation, i: nat, n: nat)
    requires i <= n && forall k :: 0 <= k < n ==> (SourceDeleted(k) in op.journal <==> k < i)
    ensures DeletedCount(op.journal, n) == i
  {
    if n > i {
      PrefixCounts(op, i, n - 1);
    } else if n > 0 {
      PrefixCounts(op, i - 1, n - 1);
    }
  }

  /** The application's own check before it asks for the deletion. */
  lemma PreflightExactly(w: World, d: string, i: nat, removed: seq<string>)
    requires Inv(w) && d in w.operations && i < |w.operations[d].manifest.entries|
    requires Source(w.operations[d].manifest.entries[i].sourceKey) in w.objects
    ensures var op := w.operations[d];
            var e := op.manifest.entries[i];
            EntryDeleteSafe(w, d, i, removed) <==>
            && TurnToDelete(op, i) && w.fences && e.sourceKey !in w.references
            && w.workerLeases == 0 && w.private
            && removed == SourceKeySeq(op.manifest)[..i]
  {
    var op := w.operations[d];
    assert OperationKept(w, d) && SourceKept(w, op, i) && CopyKept(w, op, i) && ReceiptKept(w, d, op, Copied);
    AllVerifiedIsFullCount(op, |op.manifest.entries|);
    DeletedPrefix(op, |op.manifest.entries|);
    if TurnToDelete(op, i) { PrefixCounts(op, i, |op.manifest.entries|); }
  }

  lemma {:induction false} CountIsSize(op: Operation, n: nat)
    ensures DeletedCount(op.journal, n) == |set k: nat | k < n && SourceDeleted(k) in op.journal|
  {
    if n > 0 {
      CountIsSize(op, n - 1);
      var before := set k: nat | k < n - 1 && SourceDeleted(k) in op.journal;
      assert (set k: nat | k < n && SourceDeleted(k) in op.journal) ==
             if SourceDeleted(n - 1) in op.journal then before + {n - 1} else before;
    }
  }

  /** In any world at all, the check asks for every row and every event again. */
  lemma PreflightRechecks(w: World, d: string, i: nat, removed: seq<string>)
    requires d in w.operations && i < |w.operations[d].manifest.entries|
    ensures var op := w.operations[d];
            var e := op.manifest.entries[i];
            EntryDeleteSafe(w, d, i, removed) <==>
            && Source(e.sourceKey) in w.objects && w.objects[Source(e.sourceKey)].facts == e.facts
            && e.sourceKey !in w.references
            && SameCopy(w, d, i)
            && SameReceipt(w, d, CopiedVerified, Copied)
            && Authorized in op.journal
            && EveryCopyVerified(op)
            && |set k: nat | k < |op.manifest.entries| && SourceDeleted(k) in op.journal| == i
            && w.fences && w.workerLeases == 0 && w.private
            && removed == SourceKeySeq(op.manifest)[..i]
  {
    var op := w.operations[d];
    AllVerifiedIsFullCount(op, |op.manifest.entries|);
    CountIsSize(op, |op.manifest.entries|);
  }

  /** What the driver reads back: after one deletion, its event and no source; at the end, this for every entry, with its copy. */
  lemma ReadBacks(w: World, d: string, i: nat)
    requires d in w.operations && i < |w.operations[d].manifest.entries|
    ensures var op := w.operations[d];
            && (SourceDeletionCommitted(w, d, i) <==>
                  Source(op.manifest.entries[i].sourceKey) !in w.objects && SourceDeleted(i) in op.journal)
            && (FinalSnapshotClean(w, d) <==>
                  EverySourceDeleted(op) && forall e :: e in op.manifest.entries ==>
                    Source(e.sourceKey) !in w.objects && Copy(e.destinationKey) in w.objects && e.sourceKey !in w.references)
  {
    var op := w.operations[d];
    AllDeletedIsFullCount(op, |op.manifest.entries|);
    assert forall k :: 0 <= k < |op.manifest.entries| ==> op.manifest.entries[k] in op.manifest.entries;
  }

  // ----- Other writers -----

  /** A key that some operation, completed or not, has sealed as a source. */
  predicate SealedKey(w: World, key: string) {
    exists d :: d in w.operations && exists i :: 0 <= i < |w.operations[d].manifest.entries| && w.operations[d].manifest.entries[i].sourceKey == key
  }

  lemma SealedKeys(w: World, key: string)
    ensures SealedSource(w, Source(key)) <==> SealedKey(w, key)
  {
    if SealedKey(w, key) {
      var d :| d in w.operations && exists i :: 0 <= i < |w.operations[d].manifest.entries| && w.operations[d].manifest.entries[i].sourceKey == key;
      var i :| 0 <= i < |w.operations[d].manifest.entries| && w.operations[d].manifest.entries[i].sourceKey == key;
      assert IsEntry(w, d, i) && EntryAt(w, d, i).sourceKey == key;
    }
    if SealedSource(w, Source(key)) {
      var d, i :| d in w.operations && 0 <= i < |w.operations[d].manifest.entries| && IsEntry(w, d, i) && EntryAt(w, d, i).sourceKey == key;
      assert w.operations[d].manifest.entries[i].sourceKey == key;
    }
  }

  /** Neither a sealed source nor a recorded copy or receipt. */
  ghost predicate Unprotected(w: World, a: Address) {
    match a
    case Source(key) => !SealedKey(w, key)
    case Copy(key) =>
      forall d, i :: d in w.operations && 0 <= i < |w.operations[d].manifest.entries|
                     && DestinationVerified(i) in w.operations[d].journal ==>
                       w.operations[d].manifest.entries[i].destinationKey != key
    case Receipt(d, phase) =>
      d in w.operations ==>
        (match phase case Copied => CopiedVerified case Deleted => DeletedVerified case Final => Completed)
        !in w.operations[d].journal
  }

  lemma MayWriteExactly(w: World, a: Address)
    ensures MayWrite(w, a) <==> Unprotected(w, a)
  {
    match a
    case Source(key) => SealedKeys(w, key);
    case Copy(key) =>
      forall d, i | d in w.operations && 0 <= i < |w.operations[d].manifest.entries|
        ensures IsEntry(w, d, i) && EntryAt(w, d, i) == w.operations[d].manifest.entries[i] {}
    case Receipt(d, phase) =>
  }

  /** Uploads go to free unprotected addresses. */
  lemma UploadsExactly(w: World, a: Address, content: Content, minted: Facts)
    ensures PutImmutable(w, a, content, minted).Committed? <==> a !in w.objects && Unprotected(w, a)
    ensures PutImmutable(w, a, content, minted).Committed? ==>
            PutImmutable(w, a, content, minted) ==
            Committed(w.(objects := w.objects[a := Stored(minted, content)], issued := w.issued[minted := content]), ())
  {
    MayWriteExactly(w, a);
  }

  /** Overwriting and renaming: both ends unprotected, nothing else overwritten, the old address left free. */
  lemma RewritesExactly(w: World, from: Address, to: Address, content: Content, minted: Facts)
    ensures var r := Rewrite(w, from, to, content, minted);
            && (r.Committed? <==>
                  from in w.objects && (to in w.objects ==> to == from) && Unprotected(w, from) && Unprotected(w, to))
            && (r.Committed? ==>
                  && r.world == w.(objects := r.world.objects, issued := w.issued[minted := content])
                  && forall a :: (a in r.world.objects <==> a == to || (a in w.objects && a != from))
                                 && (a in r.world.objects ==>
                                       r.world.objects[a] == if a == to then Stored(minted, content) else w.objects[a]))
  {
    MayWriteExactly(w, from);
    MayWriteExactly(w, to);
  }

  /** Removing an object that is not protected takes it and nothing else; a missing one is no error. */
  lemma RemovesExactly(w: World, address: Address)
    ensures var r := RemoveUnsealed(w, address);
            && (r.Committed? <==> address in w.objects ==> Unprotected(w, address))
            && (r.Committed? ==>
                  && r.world == w.(objects := r.world.objects)
                  && forall a :: (a in r.world.objects <==> a in w.objects && a != address)
                                 && (a in r.world.objects ==> r.world.objects[a] == w.objects[a]))
  {
    MayWriteExactly(w, address);
  }

  /** Behind the fences, no reference to a sealed key. */
  lemma ReferencesExactly(w: World, key: string)
    ensures Execute(w, Reference(key)) == if w.fences && SealedKey(w, key) then w else w.(references := w.references + {key})
    ensures Execute(w, Dereference(key)) == w.(references := w.references - {key})
  {
    SealedKeys(w, key);
  }

  lemma SomeOpen(w: World)
    ensures HasOpenOperation(w) <==> exists d :: d in w.operations && Completed !in w.operations[d].journal
  {
    if d :| d in w.operations && Completed !in w.operations[d].journal { assert IsOpen(w, d); }
  }

  /** Behind the fences, no worker and no bucket change beside an open operation. */
  lemma FencesExactly(w: World, private: bool)
    ensures var open := exists d :: d in w.operations && Completed !in w.operations[d].journal;
            && Execute(w, TakeLease) == (if w.fences && open then w else w.(workerLeases := w.workerLeases + 1))
            && Execute(w, SetPrivacy(private)) == (if w.fences && open then w else w.(private := private))
  {
    SomeOpen(w);
  }

  /** The writers that are never refused. */
  lemma FreeWriters(w: World, fences: bool, pin: AuditPin, row: AuditRow)
    ensures Execute(w, ReleaseLease) == w.(workerLeases := if w.workerLeases > 0 then w.workerLeases - 1 else 0)
    ensures Execute(w, SetFence(fences)) == w.(fences := fences)
    ensures Execute(w, Audit(pin, row)) == w.(audits := if pin in w.audits then w.audits else w.audits[pin := row])
    ensures Execute(w, Clock).now > w.now && Execute(w, Clock) == w.(now := Execute(w, Clock).now)
  {
  }

  /** Committed work is there, refused work leaves nothing. */
  predicate TakesEffect<T>(w: World, outcome: Outcome<T>, next: World) {
    next == match outcome case Committed(world, _) => world case Refused(_) => w
  }

  /** The steps of a run are the transactions, whole or not at all. */
  lemma StepsAreTransactions(w: World, step: Step)
    ensures var next := Execute(w, step);
            match step
            case Seal(m, who) => TakesEffect(w, SealPlan(w, m, who), next)
            case Authorize(d, who) => TakesEffect(w, RecordAuthorized(w, d, who), next)
            case VerifyDestination(d, i, loaded) => TakesEffect(w, RecordDestinationVerified(w, d, i, loaded), next)
            case Acknowledge(d, phase, expected, loaded, saw) => TakesEffect(w, RecordReceipt(w, d, phase, expected, loaded, saw), next)
            case RecordAudit(d, pin) => TakesEffect(w, RecordFinalAudit(w, d, pin), next)
            case Upload(a, content, minted) => TakesEffect(w, PutImmutable(w, a, content, minted), next)
            case Overwrite(from, to, content, minted) => TakesEffect(w, Rewrite(w, from, to, content, minted), next)
            case DeleteSealed(d, i) => TakesEffect(w, RemoveSealed(w, d, i), next)
            case DeleteOther(a) => TakesEffect(w, RemoveUnsealed(w, a), next)
            case _ => true
  {
  }
}
