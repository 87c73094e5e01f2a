/**
 Safety of the quarantine over every run: any number of processes, any interleaving of their
 transactions, crashes and replays at any point, and other writers of the same database.
 */
module QuarantineSafety {
  import opened Wrappers
  import opened QuarantineModel

  // ----- Runs -----

  datatype Step =
    | Seal(m: Manifest, who: Identity)
    | Authorize(d: string, who: Identity)
    | VerifyDestination(d: string, entry: nat, loaded: Stored)
    | Acknowledge(d: string, phase: Phase, expected: Body, loaded: Stored, sawCompleted: bool)
    | RecordAudit(d: string, pin: AuditPin)
    | Upload(a: Address, content: Content, minted: Facts)
    | Overwrite(from: Address, to: Address, content: Content, minted: Facts)
    | DeleteSealed(d: string, entry: nat)
    | DeleteOther(a: Address)
    | Reference(key: string)
    | Dereference(key: string)
    | TakeLease
    | ReleaseLease
    | SetPrivacy(private: bool)
    | SetFence(fences: bool)
    | Audit(pin: AuditPin, row: AuditRow)
    | Clock

  /**
   What the surroundings guarantee about a step. Objects handed to the repository were read in
   full some time before, storage never reuses facts, a `completed` event seen was there, and the
   database dates an audit row by its own clock.
   */
  predicate Possible(w: World, step: Step) {
    match step
    case Seal(m, _) => forall i :: 0 <= i < |m.entries| ==> Observed(w, Stored(m.entries[i].facts, m.entries[i].content))
    case VerifyDestination(_, _, loaded) => Observed(w, loaded)
    case Acknowledge(d, _, _, loaded, sawCompleted) => Observed(w, loaded) && (sawCompleted ==> Recorded(w, d, Completed))
    case Upload(_, _, minted) => minted !in w.issued
    case Overwrite(_, _, _, minted) => minted !in w.issued
    case Audit(_, row) => row.createdAt <= w.now
    case _ => true
  }

  function After<T>(w: World, outcome: Outcome<T>): World {
    if outcome.Committed? then outcome.world else w
  }

  function Execute(w: World, step: Step): World {
    match step
    case Seal(m, who) => After(w, SealPlan(w, m, who))
    case Authorize(d, who) => After(w, RecordAuthorized(w, d, who))
    case VerifyDestination(d, i, loaded) => After(w, RecordDestinationVerified(w, d, i, loaded))
    case Acknowledge(d, phase, expected, loaded, saw) => After(w, RecordReceipt(w, d, phase, expected, loaded, saw))
    case RecordAudit(d, pin) => After(w, RecordFinalAudit(w, d, pin))
    case Upload(a, content, minted) => After(w, PutImmutable(w, a, content, minted))
    case Overwrite(from, to, content, minted) => After(w, Rewrite(w, from, to, content, minted))
    case DeleteSealed(d, i) => After(w, RemoveSealed(w, d, i))
    case DeleteOther(a) => After(w, RemoveUnsealed(w, a))
    case Reference(key) => After(w, AddReference(w, key))
    case Dereference(key) => After(w, DropReference(w, key))
    case TakeLease => After(w, TakeWorkerLease(w))
    case ReleaseLease => After(w, ReleaseWorkerLease(w))
    case SetPrivacy(p) => After(w, SetBucketPrivacy(w, p))
    case SetFence(f) => After(w, SetFences(w, f))
    case Audit(pin, row) => After(w, StoreAudit(w, pin, row))
    case Clock => After(w, Tick(w))
  }

  predicate ValidRun(w: World, steps: seq<Step>)
    decreases |steps|
  {
    steps == [] || (Possible(w, steps[0]) && ValidRun(Execute(w, steps[0]), steps[1..]))
  }

  function Run(w: World, steps: seq<Step>): World
    decreases |steps|
  {
    if steps == [] then w else Run(Execute(w, steps[0]), steps[1..])
  }

  /** Before the first plan: any buckets, any references, any audits. */
  ghost predicate Initial(w: World) {
    w.operations == map[] && ObjectsIssued(w)
  }

  // ----- The invariant -----

  ghost predicate ObjectsIssued(w: World) {
    forall a :: a in w.objects ==> Observed(w, w.objects[a])
  }

  /** A verified copy is still the object that was verified, and it holds the entry's bytes. */
  ghost predicate CopyKept(w: World, op: Operation, i: nat)
    requires i < |op.manifest.entries|
  {
    var e := op.manifest.entries[i];
    DestinationVerified(i) in op.journal ==>
      && Copy(e.destinationKey) in w.objects
      && op.journal[DestinationVerified(i)].ObjectSeen?
      && op.journal[DestinationVerified(i)].seen == w.objects[Copy(e.destinationKey)]
      && w.objects[Copy(e.destinationKey)].content == e.content
  }

  /** A source is exactly as planned until its deletion event, and absent from then on. */
  ghost predicate SourceKept(w: World, op: Operation, i: nat)
    requires i < |op.manifest.entries|
  {
    var e := op.manifest.entries[i];
    if SourceDeleted(i) in op.journal then
      && Source(e.sourceKey) !in w.objects
      && op.journal[SourceDeleted(i)].ObjectSeen?
      && op.journal[SourceDeleted(i)].seen == Stored(e.facts, e.content)
    else Source(e.sourceKey) in w.objects && w.objects[Source(e.sourceKey)] == Stored(e.facts, e.content)
  }

  ghost predicate ReceiptKept(w: World, d: string, op: Operation, phase: Phase) {
    PhaseMark(phase) in op.journal ==>
      && Receipt(d, phase) in w.objects
      && op.journal[PhaseMark(phase)].ObjectSeen?
      && op.journal[PhaseMark(phase)].seen == w.objects[Receipt(d, phase)]
      && w.objects[Receipt(d, phase)].content.contentType == JSON
  }

  ghost predicate AllVerified(op: Operation) {
    forall i :: 0 <= i < |op.manifest.entries| ==> DestinationVerified(i) in op.journal
  }

  ghost predicate AllDeleted(op: Operation) {
    forall i :: 0 <= i < |op.manifest.entries| ==> SourceDeleted(i) in op.journal
  }

  /** The order of the phases, as one journal shows it. */
  ghost predicate PhaseOrder(op: Operation) {
    var j := op.journal;
    && PlanAuthorized in j
    && (CopiedVerified in j ==> AllVerified(op))
    && (forall i: nat :: SourceDeleted(i) in j ==>
                      && i < |op.manifest.entries|
                      && Authorized in j && CopiedVerified in j
                      && forall k :: 0 <= k < i ==> SourceDeleted(k) in j)
    && (DeletedVerified in j ==> AllDeleted(op))
    && (FinalAuditVerified in j ==> DeletedVerified in j)
    && (Completed in j ==> FinalAuditVerified in j)
  }

  /** Who planned and who applied: the same workflow with two different tokens. */
  ghost predicate AuthorityKept(op: Operation) {
    && PlanAuthorized in op.journal && op.journal[PlanAuthorized].Authority?
    && (Authorized in op.journal ==>
          && op.journal[Authorized].Authority?
          && op.journal[Authorized].identity.stable == op.journal[PlanAuthorized].identity.stable
          && op.journal[Authorized].identity.token != op.journal[PlanAuthorized].identity.token)
  }

  /** The recorded final audit is a clean one, taken after the deletions were acknowledged. */
  ghost predicate FinalAuditKept(w: World, d: string)
    requires d in w.operations
  {
    var j := w.operations[d].journal;
    FinalAuditVerified in j ==> j[FinalAuditVerified].AuditSeen? && CleanFinalAudit(w, d, j[FinalAuditVerified].pin)
  }

  ghost predicate OperationKept(w: World, d: string)
    requires d in w.operations
  {
    var op := w.operations[d];
    && op.manifest.digest == d
    && ValidManifest(op.manifest)
    && PhaseOrder(op)
    && AuthorityKept(op)
    && (forall i: nat :: DestinationVerified(i) in op.journal ==> i < |op.manifest.entries|)
    && (forall i :: 0 <= i < |op.manifest.entries| ==> CopyKept(w, op, i) && SourceKept(w, op, i))
    && (forall phase :: ReceiptKept(w, d, op, phase))
    && FinalAuditKept(w, d)
  }

  ghost predicate EntriesDisjoint(w: World) {
    forall d, i, d', i' :: IsEntry(w, d, i) && IsEntry(w, d', i') && (d, i) != (d', i') ==>
                             && EntryAt(w, d, i).sourceKey != EntryAt(w, d', i').sourceKey
                             && EntryAt(w, d, i).destinationKey != EntryAt(w, d', i').destinationKey
  }

  ghost predicate SingleOpen(w: World) {
    forall d, d' :: IsOpen(w, d) && IsOpen(w, d') ==> d == d'
  }

  ghost predicate Inv(w: World) {
    && ObjectsIssued(w)
    && (forall d :: d in w.operations ==> OperationKept(w, d))
    && EntriesDisjoint(w)
    && SingleOpen(w)
  }

  // ----- Counting events -----

  lemma {:induction false} AllVerifiedIsFullCount(op: Operation, n: nat)
    ensures VerifiedCount(op.journal, n) <= n
    ensures VerifiedCount(op.journal, n) == n <==> forall i :: 0 <= i < n ==> DestinationVerified(i) in op.journal
  {
    if n > 0 { AllVerifiedIsFullCount(op, n - 1); }
  }

  lemma {:induction false} AllDeletedIsFullCount(op: Operation, n: nat)
    ensures DeletedCount(op.journal, n) <= n
    ensures DeletedCount(op.journal, n) == n <==> forall i :: 0 <= i < n ==> SourceDeleted(i) in op.journal
  {
    if n > 0 { AllDeletedIsFullCount(op, n - 1); }
  }

  /** The deleted entries are a prefix of the manifest, so their number says which ones they are. */
  lemma {:induction false} DeletedPrefix(op: Operation, n: nat)
    requires PhaseOrder(op)
    ensures forall i :: 0 <= i < n ==> (SourceDeleted(i) in op.journal <==> i < DeletedCount(op.journal, n))
    ensures DeletedCount(op.journal, n) <= n
  {
    if n > 0 {
      DeletedPrefix(op, n - 1);
      if SourceDeleted(n - 1) in op.journal {
        AllDeletedIsFullCount(op, n - 1);
      }
    }
  }

  // ----- One step -----

  /** An operation reads storage only at its own addresses, and audits are never rewritten. */
  lemma OperationFramed(w: World, w': World, d: string)
    requires d in w.operations && OperationKept(w, d)
    requires d in w'.operations && w'.operations[d] == w.operations[d]
    requires forall i :: IsEntry(w, d, i) ==>
                           && SameAt(w, w', Source(EntryAt(w, d, i).sourceKey))
                           && (DestinationVerified(i) in w.operations[d].journal ==>
                                 SameAt(w, w', Copy(EntryAt(w, d, i).destinationKey)))
    requires forall phase :: PhaseMark(phase) in w.operations[d].journal ==> SameAt(w, w', Receipt(d, phase))
    requires forall pin :: pin in w.audits ==> pin in w'.audits && w'.audits[pin] == w.audits[pin]
    ensures OperationKept(w', d)
  {
    var op := w.operations[d];
    forall i | 0 <= i < |op.manifest.entries|
      ensures CopyKept(w', op, i) && SourceKept(w', op, i)
    {
      assert IsEntry(w, d, i) && EntryAt(w, d, i) == op.manifest.entries[i];
      assert CopyKept(w, op, i) && SourceKept(w, op, i);
    }
    forall phase
      ensures ReceiptKept(w', d, op, phase)
    {
      assert ReceiptKept(w, d, op, phase);
    }
  }

  ghost predicate SameAt(w: World, w': World, a: Address) {
    (a in w.objects <==> a in w'.objects) && (a in w.objects ==> w'.objects[a] == w.objects[a])
  }

  /** Every operation of w is there in w' with the same manifest; at most `d` has a longer journal. */
  ghost predicate OnlyJournalMoved(w: World, w': World, d: string) {
    && w'.operations.Keys == w.operations.Keys
    && (forall o :: o in w.operations && o != d ==> w'.operations[o] == w.operations[o])
    && (d in w.operations ==>
          && w'.operations[d].manifest == w.operations[d].manifest
          && w.operations[d].journal.Keys <= w'.operations[d].journal.Keys)
  }

  lemma LedgerFramed(w: World, w': World, d: string)
    requires EntriesDisjoint(w) && SingleOpen(w) && OnlyJournalMoved(w, w', d)
    ensures EntriesDisjoint(w') && SingleOpen(w')
  {
    assert forall o, i :: IsEntry(w', o, i) ==> IsEntry(w, o, i) && EntryAt(w', o, i) == EntryAt(w, o, i);
    assert forall o :: IsOpen(w', o) ==> IsOpen(w, o);
  }

  /** Storage, references, leases or audits changed, but no protected address did. */
  lemma StorageStepKeepsInv(w: World, w': World)
    requires Inv(w) && w'.operations == w.operations && ObjectsIssued(w')
    requires forall a :: SealedSource(w, a) || Frozen(w, a) ==> SameAt(w, w', a)
    requires forall pin :: pin in w.audits ==> pin in w'.audits && w'.audits[pin] == w.audits[pin]
    ensures Inv(w')
  {
    forall d | d in w'.operations
      ensures OperationKept(w', d)
    {
      forall i | IsEntry(w, d, i)
        ensures SameAt(w, w', Source(EntryAt(w, d, i).sourceKey))
        ensures DestinationVerified(i) in w.operations[d].journal ==> SameAt(w, w', Copy(EntryAt(w, d, i).destinationKey))
      {
        assert SealedSource(w, Source(EntryAt(w, d, i).sourceKey));
      }
      forall phase | PhaseMark(phase) in w.operations[d].journal
        ensures SameAt(w, w', Receipt(d, phase))
      {
        assert Frozen(w, Receipt(d, phase));
      }
      OperationFramed(w, w', d);
    }
    LedgerFramed(w, w', "");
  }

  /** A new event that leaves its own operation in order leaves everything in order. */
  lemma AppendKeepsInv(w: World, d: string, mark: Mark, event: Event)
    requires Inv(w) && d in w.operations && mark !in w.operations[d].journal
    requires OperationKept(Append(w, d, mark, event), d)
    ensures Inv(Append(w, d, mark, event))
  {
    var w' := Append(w, d, mark, event);
    forall o | o in w'.operations && o != d
      ensures OperationKept(w', o)
    {
      OperationFramed(w, w', o);
    }
    LedgerFramed(w, w', d);
  }

  /** The parts of an operation a new event does not touch carry over one by one. */
  lemma AppendFramed(w: World, d: string, mark: Mark, event: Event)
    requires Inv(w) && d in w.operations && mark !in w.operations[d].journal
    requires forall i :: mark != SourceDeleted(i)
    ensures var w' := Append(w, d, mark, event);
            var op := w'.operations[d];
            && op.manifest == w.operations[d].manifest
            && (forall i :: 0 <= i < |op.manifest.entries| ==>
                              SourceKept(w', op, i) && (mark != DestinationVerified(i) ==> CopyKept(w', op, i)))
            && (forall phase :: mark != PhaseMark(phase) ==> ReceiptKept(w', d, op, phase))
  {
    var w' := Append(w, d, mark, event);
    var op := w'.operations[d];
    assert OperationKept(w, d);
    forall i | 0 <= i < |op.manifest.entries|
      ensures SourceKept(w', op, i) && (mark != DestinationVerified(i) ==> CopyKept(w', op, i))
    {
      assert CopyKept(w, w.operations[d], i) && SourceKept(w, w.operations[d], i);
    }
    forall phase | mark != PhaseMark(phase) ensures ReceiptKept(w', d, op, phase) {
      assert ReceiptKept(w, d, w.operations[d], phase);
    }
  }

  lemma AuthorizeKeepsInv(w: World, d: string, who: Identity)
    requires Inv(w)
    ensures Inv(After(w, RecordAuthorized(w, d, who)))
  {
    if RecordAuthorized(w, d, who).Committed? && Authorized !in w.operations[d].journal {
      assert OperationKept(w, d);
      AppendFramed(w, d, Authorized, Authority(who, w.now));
      AppendKeepsInv(w, d, Authorized, Authority(who, w.now));
    }
  }

  lemma VerifyDestinationKeepsInv(w: World, d: string, i: nat, loaded: Stored)
    requires Inv(w) && Observed(w, loaded)
    ensures Inv(After(w, RecordDestinationVerified(w, d, i, loaded)))
  {
    if RecordDestinationVerified(w, d, i, loaded).Committed? && DestinationVerified(i) !in w.operations[d].journal {
      assert OperationKept(w, d);
      assert Observed(w, w.objects[Copy(EntryAt(w, d, i).destinationKey)]);
      AppendFramed(w, d, DestinationVerified(i), ObjectSeen(loaded, w.now));
      AppendKeepsInv(w, d, DestinationVerified(i), ObjectSeen(loaded, w.now));
    }
  }

  /** The receipt events, once storage and prerequisites have been checked. */
  lemma ReceiptEventKeepsInv(w: World, d: string, phase: Phase, receipt: Stored)
    requires Inv(w) && d in w.operations && PhaseMark(phase) !in w.operations[d].journal
    requires Receipt(d, phase) in w.objects && w.objects[Receipt(d, phase)] == receipt && receipt.content.contentType == JSON
    requires AllVerified(w.operations[d])
    requires phase.Deleted? ==> AllDeleted(w.operations[d])
    requires phase.Final? ==> FinalAuditVerified in w.operations[d].journal
    ensures Inv(Append(w, d, PhaseMark(phase), ObjectSeen(receipt, w.now)))
  {
    var w' := Append(w, d, PhaseMark(phase), ObjectSeen(receipt, w.now));
    assert OperationKept(w, d);
    AppendFramed(w, d, PhaseMark(phase), ObjectSeen(receipt, w.now));
    assert PhaseOrder(w'.operations[d]);
    assert FinalAuditKept(w, d);
    assert FinalAuditKept(w', d);
    assert ReceiptKept(w', d, w'.operations[d], phase);
    AppendKeepsInv(w, d, PhaseMark(phase), ObjectSeen(receipt, w.now));
  }

  lemma PrerequisitesMeanAll(op: Operation, phase: Phase)
    requires ReceiptPrerequisites(op, phase)
    ensures AllVerified(op) && (phase.Deleted? ==> AllDeleted(op)) && (phase.Final? ==> FinalAuditVerified in op.journal)
  {
    AllVerifiedIsFullCount(op, |op.manifest.entries|);
    AllDeletedIsFullCount(op, |op.manifest.entries|);
  }

  lemma AcknowledgeKeepsInv(w: World, d: string, phase: Phase, expected: Body, loaded: Stored, saw: bool)
    requires Inv(w) && Observed(w, loaded)
    ensures Inv(After(w, RecordReceipt(w, d, phase, expected, loaded, saw)))
  {
    if RecordReceipt(w, d, phase, expected, loaded, saw).Committed? && PhaseMark(phase) !in w.operations[d].journal {
      assert Observed(w, w.objects[Receipt(d, phase)]);
      PrerequisitesMeanAll(w.operations[d], phase);
      ReceiptEventKeepsInv(w, d, phase, loaded);
    }
  }

  lemma RecordAuditKeepsInv(w: World, d: string, pin: AuditPin)
    requires Inv(w)
    ensures Inv(After(w, RecordFinalAudit(w, d, pin)))
  {
    if RecordFinalAudit(w, d, pin).Committed? && FinalAuditVerified !in w.operations[d].journal {
      assert OperationKept(w, d);
      AppendFramed(w, d, FinalAuditVerified, AuditSeen(pin, w.now));
      AppendKeepsInv(w, d, FinalAuditVerified, AuditSeen(pin, w.now));
    }
  }

  /** The world right after the trigger let entry i of operation d go. */
  function AfterDeletion(w: World, d: string, i: nat): World
    requires IsEntry(w, d, i)
  {
    var e := EntryAt(w, d, i);
    Append(w.(objects := w.objects - {Source(e.sourceKey)}), d, SourceDeleted(i),
           ObjectSeen(Stored(e.facts, e.content), w.now))
  }

  /** The trigger's conditions pin the deletion to the next entry of the manifest. */
  lemma DeletionInOrder(w: World, d: string, i: nat)
    requires Inv(w) && IsEntry(w, d, i) && TriggerAllowsDelete(w, d, i)
    ensures PhaseOrder(AfterDeletion(w, d, i).operations[d])
    ensures SourceDeleted(i) !in w.operations[d].journal
  {
    var op := w.operations[d];
    assert OperationKept(w, d) && SourceKept(w, op, i);
    AllVerifiedIsFullCount(op, |op.manifest.entries|);
  }

  lemma DeletionKeepsOperation(w: World, d: string, i: nat)
    requires Inv(w) && IsEntry(w, d, i) && TriggerAllowsDelete(w, d, i)
    ensures OperationKept(AfterDeletion(w, d, i), d)
  {
    var w' := AfterDeletion(w, d, i);
    var op, op' := w.operations[d], w'.operations[d];
    DeletionInOrder(w, d, i);
    assert OperationKept(w, d);
    forall k | 0 <= k < |op.manifest.entries|
      ensures CopyKept(w', op', k) && SourceKept(w', op', k)
    {
      assert CopyKept(w, op, k) && SourceKept(w, op, k);
      assert IsEntry(w, d, k) && EntryAt(w, d, k) == op.manifest.entries[k];
      assert k != i ==> op.manifest.entries[k].sourceKey != op.manifest.entries[i].sourceKey;
    }
    forall phase ensures ReceiptKept(w', d, op', phase) {
      assert ReceiptKept(w, d, op, phase);
    }
    assert FinalAuditKept(w, d);
  }

  lemma DeletionKeepsOthers(w: World, d: string, i: nat, o: string)
    requires Inv(w) && IsEntry(w, d, i) && o in w.operations && o != d
    ensures OperationKept(AfterDeletion(w, d, i), o)
  {
    var w' := AfterDeletion(w, d, i);
    forall k | IsEntry(w, o, k)
      ensures SameAt(w, w', Source(EntryAt(w, o, k).sourceKey))
    {
      assert EntryAt(w, o, k).sourceKey != EntryAt(w, d, i).sourceKey;
    }
    OperationFramed(w, w', o);
  }

  lemma DeleteSealedKeepsInv(w: World, d: string, i: nat)
    requires Inv(w)
    ensures Inv(After(w, RemoveSealed(w, d, i)))
  {
    if IsEntry(w, d, i) && Source(EntryAt(w, d, i).sourceKey) in w.objects && TriggerAllowsDelete(w, d, i) {
      var w' := AfterDeletion(w, d, i);
      assert w' == After(w, RemoveSealed(w, d, i));
      DeletionKeepsOperation(w, d, i);
      forall o | o in w'.operations
        ensures OperationKept(w', o)
      {
        if o != d { DeletionKeepsOthers(w, d, i, o); }
      }
      LedgerFramed(w, w', d);
    }
  }

  function Sealed(w: World, m: Manifest, who: Identity): World {
    w.(operations := w.operations[m.digest := Operation(|w.operations|, m, map[PlanAuthorized := Authority(who, w.now)])])
  }

  /** A new plan starts from the exact sources the planner read, with nothing copied. */
  lemma SealedOperationKept(w: World, m: Manifest, who: Identity)
    requires Inv(w) && ValidManifest(m) && SourcesExact(w, m)
    requires forall i :: 0 <= i < |m.entries| ==> Observed(w, Stored(m.entries[i].facts, m.entries[i].content))
    ensures OperationKept(Sealed(w, m, who), m.digest)
  {
    var w' := Sealed(w, m, who);
    var op := w'.operations[m.digest];
    forall i | 0 <= i < |m.entries|
      ensures SourceKept(w', op, i) && CopyKept(w', op, i)
    {
      assert Observed(w, w.objects[Source(m.entries[i].sourceKey)]);
    }
    assert PhaseOrder(op) && AuthorityKept(op);
  }

  lemma SealedOperationsKept(w: World, m: Manifest, who: Identity)
    requires Inv(w) && ValidManifest(m) && SourcesExact(w, m) && m.digest !in w.operations
    requires forall i :: 0 <= i < |m.entries| ==> Observed(w, Stored(m.entries[i].facts, m.entries[i].content))
    ensures forall o :: o in Sealed(w, m, who).operations ==> OperationKept(Sealed(w, m, who), o)
  {
    forall o | o in Sealed(w, m, who).operations
      ensures OperationKept(Sealed(w, m, who), o)
    {
      if o == m.digest { SealedOperationKept(w, m, who); } else { SealedKeepsOthers(w, m, who, o); }
    }
  }

  lemma SealedKeepsInv(w: World, m: Manifest, who: Identity)
    requires Inv(w) && ValidManifest(m) && SourcesExact(w, m) && m.digest !in w.operations && PlanInsertAllowed(w, m)
    requires forall i :: 0 <= i < |m.entries| ==> Observed(w, Stored(m.entries[i].facts, m.entries[i].content))
    ensures Inv(Sealed(w, m, who))
  {
    SealedIsDisjoint(w, m, who);
    SealedOperationsKept(w, m, who);
  }

  lemma SealedKeepsOthers(w: World, m: Manifest, who: Identity, o: string)
    requires Inv(w) && o in w.operations && o != m.digest
    ensures OperationKept(Sealed(w, m, who), o)
  {
    OperationFramed(w, Sealed(w, m, who), o);
  }

  lemma SealKeepsInv(w: World, m: Manifest, who: Identity)
    requires Inv(w)
    requires forall i :: 0 <= i < |m.entries| ==> Observed(w, Stored(m.entries[i].facts, m.entries[i].content))
    ensures Inv(After(w, SealPlan(w, m, who)))
  {
    if SealPlan(w, m, who).Committed? {
      if m.digest !in w.operations { SealedKeepsInv(w, m, who); }
    }
  }

  lemma SealedIsDisjoint(w: World, m: Manifest, who: Identity)
    requires EntriesDisjoint(w) && ValidManifest(m) && m.digest !in w.operations && PlanInsertAllowed(w, m)
    ensures EntriesDisjoint(Sealed(w, m, who))
  {
    var w' := Sealed(w, m, who);
    forall o, i, o', i' | IsEntry(w', o, i) && IsEntry(w', o', i') && (o, i) != (o', i')
      ensures EntryAt(w', o, i).sourceKey != EntryAt(w', o', i').sourceKey
      ensures EntryAt(w', o, i).destinationKey != EntryAt(w', o', i').destinationKey
    {
      if o != m.digest { assert IsEntry(w, o, i) && EntryAt(w', o, i) == EntryAt(w, o, i); }
      if o' != m.digest { assert IsEntry(w, o', i') && EntryAt(w', o', i') == EntryAt(w, o', i'); }
      if o == m.digest && o' == m.digest {
        assert DistinctKeys(m.entries);
      }
    }
  }

  lemma StepKeepsInv(w: World, step: Step)
    requires Inv(w) && Possible(w, step)
    ensures Inv(Execute(w, step))
  {
    match step
    case Seal(m, who) => SealKeepsInv(w, m, who);
    case Authorize(d, who) => AuthorizeKeepsInv(w, d, who);
    case VerifyDestination(d, i, loaded) => VerifyDestinationKeepsInv(w, d, i, loaded);
    case Acknowledge(d, phase, expected, loaded, saw) => AcknowledgeKeepsInv(w, d, phase, expected, loaded, saw);
    case RecordAudit(d, pin) => RecordAuditKeepsInv(w, d, pin);
    case DeleteSealed(d, i) => DeleteSealedKeepsInv(w, d, i);
    case _ =>
      OtherStepsAreProtected(w, step);
      StorageStepKeepsInv(w, Execute(w, step));
  }

  ghost predicate Protected(w: World, w': World) {
    && w'.operations == w.operations
    && (forall a :: SealedSource(w, a) || Frozen(w, a) ==> SameAt(w, w', a))
    && (forall pin :: pin in w.audits ==> pin in w'.audits && w'.audits[pin] == w.audits[pin])
  }

  lemma StorageWritersIssue(w: World, step: Step)
    requires ObjectsIssued(w) && Possible(w, step) && (step.Upload? || step.Overwrite? || step.DeleteOther?)
    ensures ObjectsIssued(Execute(w, step))
  {
    var w' := Execute(w, step);
    forall a | a in w'.objects
      ensures Observed(w', w'.objects[a])
    {
      if a in w.objects && w'.objects[a] == w.objects[a] {
        assert Observed(w, w.objects[a]);
      }
    }
  }

  /** The trigger stands in front of every other storage writer. */
  lemma StorageWritersAreProtected(w: World, step: Step)
    requires step.Upload? || step.Overwrite? || step.DeleteOther?
    ensures Protected(w, Execute(w, step))
  {
    var w' := Execute(w, step);
    match step
    case Upload(a, _, _) => assert w' == w || MayWrite(w, a);
    case Overwrite(from, to, _, _) => assert w' == w || (MayWrite(w, from) && MayWrite(w, to));
    case DeleteOther(a) => assert w' == w || MayWrite(w, a);
  }

  lemma OtherStepsAreProtected(w: World, step: Step)
    requires ObjectsIssued(w) && Possible(w, step)
    requires !step.Seal? && !step.Authorize? && !step.VerifyDestination? && !step.Acknowledge?
             && !step.RecordAudit? && !step.DeleteSealed?
    ensures Protected(w, Execute(w, step)) && ObjectsIssued(Execute(w, step))
  {
    if step.Upload? || step.Overwrite? || step.DeleteOther? {
      StorageWritersIssue(w, step);
      StorageWritersAreProtected(w, step);
    } else {
      OtherWritersLeaveStorage(w, step);
      assert forall a :: a in w.objects ==> Observed(w, w.objects[a]);
    }
  }

  lemma AuditIsAppended(w: World, pin: AuditPin, row: AuditRow)
    ensures var w' := After(w, StoreAudit(w, pin, row));
            && w'.objects == w.objects && w'.issued == w.issued && w'.operations == w.operations
            && (forall p :: p in w.audits ==> p in w'.audits && w'.audits[p] == w.audits[p])
  {
  }

  lemma ReferencesLeaveStorage(w: World, step: Step)
    requires step.Reference? || step.Dereference? || step.TakeLease? || step.ReleaseLease?
    ensures var w' := Execute(w, step);
            w'.objects == w.objects && w'.issued == w.issued && w'.operations == w.operations && w'.audits == w.audits
  {
  }

  lemma OtherWritersLeaveStorage(w: World, step: Step)
    requires step.Reference? || step.Dereference? || step.TakeLease? || step.ReleaseLease? || step.SetPrivacy?
             || step.SetFence? || step.Audit? || step.Clock?
    ensures var w' := Execute(w, step);
            && w'.objects == w.objects && w'.issued == w.issued && w'.operations == w.operations
            && (forall pin :: pin in w.audits ==> pin in w'.audits && w'.audits[pin] == w.audits[pin])
  {
    if step.Audit? {
      AuditIsAppended(w, step.pin, step.row);
    } else if step.Reference? || step.Dereference? || step.TakeLease? || step.ReleaseLease? {
      ReferencesLeaveStorage(w, step);
    }
  }

  /** From any initial database, every run of every schedule stays within the invariant. */
  lemma {:induction false} RunKeepsInv(w: World, steps: seq<Step>)
    requires Inv(w) && ValidRun(w, steps)
    ensures Inv(Run(w, steps))
    decreases |steps|
  {
    if steps != [] {
      StepKeepsInv(w, steps[0]);
      RunKeepsInv(Execute(w, steps[0]), steps[1..]);
    }
  }
}
