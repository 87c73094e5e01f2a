/**
 The apply and finalize drivers. Started from any reachable state, in particular from whatever a
 crash left behind, each of them succeeds exactly when a condition its operator can check holds.
 */
module QuarantineSaga {
  import opened Wrappers
  import opened QuarantineModel
  import opened QuarantineSafety
  import opened QuarantineResume
  import opened QuarantineFinalize
  import opened QuarantineProgress
  import opened QuarantineStore

  /** The saga touches storage and its own journal, nothing else. */
  ghost predicate Frame(w0: World, w: World, d: string) {
    && w.references == w0.references && w.fences == w0.fences && w.private == w0.private
    && w.workerLeases == w0.workerLeases && w.audits == w0.audits && w.now == w0.now
    && d in w0.operations && d in w.operations
    && w.operations[d].manifest == w0.operations[d].manifest
  }

  /** The same kinds of event are recorded, `mark` aside. */
  ghost predicate SameMarksBut(w0: World, w: World, d: string, mark: Mark)
    requires d in w0.operations && d in w.operations
  {
    forall k :: k != mark ==> (k in w0.operations[d].journal <==> k in w.operations[d].journal)
  }

  ghost predicate SameObjectsBut(w0: World, w: World, a: Address) {
    forall b :: b != a ==> SameAt(w0, w, b)
  }

  // ----- Facts of the invariant the drivers rely on -----

  lemma VerifiedCopyThere(w: World, m: Manifest, i: nat)
    requires Inv(w) && PlanSealed(w, m) && i < |m.entries| && Recorded(w, m.digest, DestinationVerified(i))
    ensures Copy(m.entries[i].destinationKey) in w.objects
    ensures w.objects[Copy(m.entries[i].destinationKey)].content == m.entries[i].content
    ensures w.operations[m.digest].journal[DestinationVerified(i)].ObjectSeen?
    ensures w.operations[m.digest].journal[DestinationVerified(i)].seen == w.objects[Copy(m.entries[i].destinationKey)]
  {
    assert OperationKept(w, m.digest);
    assert CopyKept(w, w.operations[m.digest], i);
  }

  lemma RecordedReceiptThere(w: World, d: string, phase: Phase)
    requires Inv(w) && Recorded(w, d, PhaseMark(phase))
    ensures Receipt(d, phase) in w.objects
    ensures w.operations[d].journal[PhaseMark(phase)].ObjectSeen?
    ensures w.operations[d].journal[PhaseMark(phase)].seen == w.objects[Receipt(d, phase)]
    ensures w.objects[Receipt(d, phase)].content.contentType == JSON
  {
    assert OperationKept(w, d) && ReceiptKept(w, d, w.operations[d], phase);
  }

  lemma FrozenIsThere(w: World, a: Address)
    requires Inv(w) && Frozen(w, a)
    ensures a in w.objects
  {
    match a
    case Copy(key) =>
      var d, i :| IsEntry(w, d, i) && EntryAt(w, d, i).destinationKey == key
                  && DestinationVerified(i) in w.operations[d].journal;
      assert OperationKept(w, d) && CopyKept(w, w.operations[d], i);
    case Receipt(d, phase) =>
      RecordedReceiptThere(w, d, phase);
  }

  lemma PutIntoAbsent(w: World, a: Address, content: Content, minted: Facts)
    requires Inv(w) && a !in w.objects && !a.Source? && minted !in w.issued
    ensures var w' := w.(objects := w.objects[a := Stored(minted, content)], issued := w.issued[minted := content]);
            PutImmutable(w, a, content, minted) == Committed(w', ()) && Inv(w')
  {
    if Frozen(w, a) { FrozenIsThere(w, a); }
    StepKeepsInv(w, Upload(a, content, minted));
  }

  lemma VerifyPresentCopy(w: World, m: Manifest, i: nat)
    requires Inv(w) && PlanSealed(w, m) && i < |m.entries|
    requires Copy(m.entries[i].destinationKey) in w.objects
    requires w.objects[Copy(m.entries[i].destinationKey)].content == m.entries[i].content
    ensures var loaded := w.objects[Copy(m.entries[i].destinationKey)];
            var outcome := RecordDestinationVerified(w, m.digest, i, loaded);
            && outcome == Committed(AppendIfAbsent(w, m.digest, DestinationVerified(i), ObjectSeen(loaded, w.now)), ())
            && Inv(outcome.world)
  {
    var loaded := w.objects[Copy(m.entries[i].destinationKey)];
    if Recorded(w, m.digest, DestinationVerified(i)) { VerifiedCopyThere(w, m, i); }
    assert Observed(w, loaded);
    StepKeepsInv(w, VerifyDestination(m.digest, i, loaded));
  }

  // ----- Storing and recording one object -----

  /** An upload to a free address of the quarantine bucket goes through. */
  method PutNew(store: ArchiveStore, a: Address, content: Content)
    requires store.Valid() && a !in store.objects && !a.Source? && OwnContent(store.View(), store.plan, a, content)
    modifies store`objects, store`issued, store`serial, store`operations, store`attempt
    ensures store.Valid()
    ensures var w0, w := old(store.View()), store.View();
            && w == w0.(objects := w.objects, issued := w.issued)
            && SameObjectsBut(w0, w, a)
            && a in w.objects && w.objects[a].content == content
    ensures exists minted :: store.attempt == old(store.attempt) + [Upload(a, content, minted)]
  {
    store.Reached();
    ghost var w := store.View();
    var put, minted := store.PutImmutable(a, content);
    PutIntoAbsent(w, a, content, minted);
  }

  /** Verifying a copy that is there with the right bytes records it, or finds it recorded. */
  method VerifyCopy(store: ArchiveStore, m: Manifest, i: nat, copied: Stored)
    requires store.Valid() && store.plan == m && PlanSealed(store.View(), m) && i < |m.entries|
    requires Copy(m.entries[i].destinationKey) in store.objects
    requires store.objects[Copy(m.entries[i].destinationKey)] == copied && copied.content == m.entries[i].content
    modifies store`objects, store`issued, store`serial, store`operations, store`attempt
    ensures store.Valid()
    ensures store.View() == AppendIfAbsent(old(store.View()), m.digest, DestinationVerified(i), ObjectSeen(copied, old(store.now)))
  {
    store.Reached();
    VerifyPresentCopy(store.View(), m, i);
    var verified := store.RecordDestinationVerified(m.digest, i, copied);
  }

  // ----- Copying one entry -----

  lemma CopyEffect(w0: World, w1: World, w2: World, m: Manifest, i: nat, event: Event)
    requires PlanSealed(w0, m) && i < |m.entries|
    requires w1 == w0.(objects := w1.objects, issued := w1.issued)
    requires SameObjectsBut(w0, w1, Copy(m.entries[i].destinationKey))
    requires w2 == AppendIfAbsent(w1, m.digest, DestinationVerified(i), event)
    ensures PlanSealed(w2, m) && Frame(w0, w2, m.digest)
    ensures SameObjectsBut(w0, w2, Copy(m.entries[i].destinationKey))
    ensures SameMarksBut(w0, w2, m.digest, DestinationVerified(i))
    ensures Recorded(w2, m.digest, DestinationVerified(i))
  {
    assert forall b :: SameAt(w0, w1, b) ==> SameAt(w0, w2, b);
  }

  method CopyEntry(store: ArchiveStore, m: Manifest, i: nat, durableCopyReceiptPresent: bool)
    returns (r: Result<(), Error>)
    requires store.Valid() && store.plan == m && PlanSealed(store.View(), m) && i < |m.entries|
    requires durableCopyReceiptPresent <==> Receipt(m.digest, Copied) in store.objects
    modifies store`objects, store`issued, store`serial, store`operations, store`attempt
    ensures store.Valid() && PlanSealed(store.View(), m)
    ensures Frame(old(store.View()), store.View(), m.digest)
    ensures SameObjectsBut(old(store.View()), store.View(), Copy(m.entries[i].destinationKey))
    ensures SameMarksBut(old(store.View()), store.View(), m.digest, DestinationVerified(i))
    ensures r.Ok? <==> CopyUsable(old(store.View()), m.entries[i])
    ensures r.Ok? ==> Recorded(store.View(), m.digest, DestinationVerified(i))
  {
    var e := m.entries[i];
    store.Reached();
    SourceTellsDeletion(store.View(), m, i);
    if Recorded(store.View(), m.digest, DestinationVerified(i)) { VerifiedCopyThere(store.View(), m, i); }
    var source := store.Load(Source(e.sourceKey));
    var destination := store.Load(Copy(e.destinationKey));
    assert source.Some? ==> source.value == Stored(e.facts, e.content);
    if destination.Some? && destination.value.content != e.content {
      return Err(DestinationCollision);
    }
    assert source.Some? || durableCopyReceiptPresent;
    assert source.Some? || destination.Some?;
    ghost var w0 := store.View();
    if destination.None? {
      PutNew(store, Copy(e.destinationKey), source.value.content);
    }
    ghost var w1 := store.View();
    var copied := store.Load(Copy(e.destinationKey));
    assert copied.Some? && copied.value.content == e.content;
    VerifyCopy(store, m, i, copied.value);
    CopyEffect(w0, w1, store.View(), m, i, ObjectSeen(copied.value, w0.now));
    r := Ok(());
  }

  // ----- Deleting one source -----

  /** Everything copied and acknowledged, the first i sources gone: the i-th deletion is next. */
  ghost predicate DeletionReached(w: World, m: Manifest, i: nat) {
    && PlanSealed(w, m)
    && w.private
    && Recorded(w, m.digest, Authorized) && Recorded(w, m.digest, CopiedVerified)
    && (forall k :: 0 <= k < i ==> Recorded(w, m.digest, SourceDeleted(k)))
  }

  /** What may still stop a deletion that has been reached. */
  predicate DeletionOpen(w: World, e: Entry) {
    w.fences && w.workerLeases == 0 && e.sourceKey !in w.references
  }

  lemma DeletePreflight(w: World, m: Manifest, i: nat)
    requires Inv(w) && DeletionReached(w, m, i) && i < |m.entries| && !Recorded(w, m.digest, SourceDeleted(i))
    ensures EntryDeleteSafe(w, m.digest, i, SourceKeySeq(m)[..i]) <==> DeletionOpen(w, m.entries[i])
    ensures DeletionOpen(w, m.entries[i]) ==> TriggerAllowsDelete(w, m.digest, i)
  {
    var op := w.operations[m.digest];
    assert OperationKept(w, m.digest);
    SourceTellsDeletion(w, m, i);
    VerifiedCopyThere(w, m, i);
    RecordedReceiptThere(w, m.digest, Copied);
    AllVerifiedIsFullCount(op, |m.entries|);
    CountUpTo(op, i, |m.entries|);
  }

  lemma {:induction false} CountUpTo(op: Operation, i: nat, n: nat)
    requires PhaseOrder(op) && i <= n && SourceDeleted(i) !in op.journal
    requires forall k :: 0 <= k < i ==> SourceDeleted(k) in op.journal
    ensures DeletedCount(op.journal, n) == i
  {
    if n == i {
      AllDeletedIsFullCount(op, i);
    } else {
      CountUpTo(op, i, n - 1);
    }
  }

  lemma DeleteEffect(w: World, m: Manifest, i: nat)
    requires Inv(w) && DeletionReached(w, m, i) && i < |m.entries| && !Recorded(w, m.digest, SourceDeleted(i))
    requires DeletionOpen(w, m.entries[i])
    ensures var w' := AfterDeletion(w, m.digest, i);
            && RemoveSealed(w, m.digest, i) == Committed(w', ()) && Inv(w')
            && DeletionReached(w', m, i + 1) && Frame(w, w', m.digest)
            && SameObjectsBut(w, w', Source(m.entries[i].sourceKey))
            && SameMarksBut(w, w', m.digest, SourceDeleted(i))
            && SourceDeletionCommitted(w', m.digest, i)
  {
    DeletePreflight(w, m, i);
    StepKeepsInv(w, DeleteSealed(m.digest, i));
    SourceTellsDeletion(w, m, i);
  }

  method DeleteEntry(store: ArchiveStore, m: Manifest, i: nat, removed: seq<string>) returns (r: Result<(), Error>)
    requires store.Valid() && store.plan == m && DeletionReached(store.View(), m, i) && i < |m.entries|
    requires removed == SourceKeySeq(m)[..i]
    modifies store`objects, store`issued, store`serial, store`operations, store`attempt
    ensures store.Valid() && PlanSealed(store.View(), m)
    ensures Frame(old(store.View()), store.View(), m.digest)
    ensures SameObjectsBut(old(store.View()), store.View(), Source(m.entries[i].sourceKey))
    ensures SameMarksBut(old(store.View()), store.View(), m.digest, SourceDeleted(i))
    ensures r.Ok? <==> old(Recorded(store.View(), m.digest, SourceDeleted(i)) || DeletionOpen(store.View(), m.entries[i]))
    ensures r.Ok? ==> DeletionReached(store.View(), m, i + 1)
  {
    store.Reached();
    SourceTellsDeletion(store.View(), m, i);
    var source := store.Load(Source(m.entries[i].sourceKey));
    if source.Some? {
      ghost var w := store.View();
      DeletePreflight(w, m, i);
      if !EntryDeleteSafe(store.View(), m.digest, i, removed) { return Err(DeleteFenceRefused); }
      DeleteEffect(w, m, i);
      var gone := store.RemoveFenced(m.digest, i);
      assert gone.Ok?;
    }
    var remaining := store.Load(Source(m.entries[i].sourceKey));
    assert remaining.None? && SourceDeletionCommitted(store.View(), m.digest, i);
    r := Ok(());
  }

  // ----- The apply driver -----

  ghost predicate SameMarkAt(w0: World, w: World, d: string, mark: Mark) {
    Recorded(w0, d, mark) <==> Recorded(w, d, mark)
  }

  method CopyAll(store: ArchiveStore, m: Manifest, durableCopyReceiptPresent: bool) returns (r: Result<(), Error>)
    requires store.Valid() && store.plan == m && PlanSealed(store.View(), m)
    requires durableCopyReceiptPresent <==> Receipt(m.digest, Copied) in store.objects
    modifies store`objects, store`issued, store`serial, store`operations, store`attempt
    ensures store.Valid() && PlanSealed(store.View(), m)
    ensures Frame(old(store.View()), store.View(), m.digest)
    ensures forall a: Address :: !a.Copy? ==> SameAt(old(store.View()), store.View(), a)
    ensures forall mark: Mark :: !mark.DestinationVerified? ==> SameMarkAt(old(store.View()), store.View(), m.digest, mark)
    ensures r.Ok? <==> forall i :: 0 <= i < |m.entries| ==> CopyUsable(old(store.View()), m.entries[i])
    ensures r.Ok? ==> AllVerified(store.operations[m.digest])
  {
    ghost var w0 := store.View();
    assert DistinctKeys(m.entries) by { store.Reached(); assert OperationKept(w0, m.digest); }
    for i := 0 to |m.entries|
      invariant store.Valid() && PlanSealed(store.View(), m)
      invariant Frame(w0, store.View(), m.digest)
      invariant forall a: Address :: !a.Copy? ==> SameAt(w0, store.View(), a)
      invariant forall mark: Mark :: !mark.DestinationVerified? ==> SameMarkAt(w0, store.View(), m.digest, mark)
      invariant forall k :: i <= k < |m.entries| ==> SameAt(w0, store.View(), Copy(m.entries[k].destinationKey))
      invariant forall k :: 0 <= k < i ==> CopyUsable(w0, m.entries[k])
      invariant forall k: nat :: k < i ==> Recorded(store.View(), m.digest, DestinationVerified(k))
    {
      assert SameAt(w0, store.View(), Receipt(m.digest, Copied));
      assert SameAt(w0, store.View(), Copy(m.entries[i].destinationKey));
      ghost var w := store.View();
      r := CopyEntry(store, m, i, durableCopyReceiptPresent);
      CopyStep(w0, w, store.View(), m, i);
      if r.Err? { return; }
    }
    r := Ok(());
  }

  lemma CopyStep(w0: World, w: World, w': World, m: Manifest, i: nat)
    requires i < |m.entries| && DistinctKeys(m.entries) && PlanSealed(w, m) && PlanSealed(w', m)
    requires SameObjectsBut(w, w', Copy(m.entries[i].destinationKey))
    requires SameMarksBut(w, w', m.digest, DestinationVerified(i))
    requires forall a: Address :: !a.Copy? ==> SameAt(w0, w, a)
    requires forall mark: Mark :: !mark.DestinationVerified? ==> SameMarkAt(w0, w, m.digest, mark)
    requires forall k :: i <= k < |m.entries| ==> SameAt(w0, w, Copy(m.entries[k].destinationKey))
    requires forall k: nat :: k < i ==> Recorded(w, m.digest, DestinationVerified(k))
    ensures forall a: Address :: !a.Copy? ==> SameAt(w0, w', a)
    ensures forall mark: Mark :: !mark.DestinationVerified? ==> SameMarkAt(w0, w', m.digest, mark)
    ensures forall k :: i < k < |m.entries| ==> SameAt(w0, w', Copy(m.entries[k].destinationKey))
    ensures forall k: nat :: k < i ==> Recorded(w', m.digest, DestinationVerified(k))
  {
    forall a: Address | !a.Copy? ensures SameAt(w0, w', a) {
      assert SameAt(w0, w, a) && SameAt(w, w', a);
    }
    forall mark: Mark | !mark.DestinationVerified? ensures SameMarkAt(w0, w', m.digest, mark) {
      assert SameMarkAt(w0, w, m.digest, mark);
    }
    forall k | i < k < |m.entries| ensures SameAt(w0, w', Copy(m.entries[k].destinationKey)) {
      assert SameAt(w0, w, Copy(m.entries[k].destinationKey));
      assert SameAt(w, w', Copy(m.entries[k].destinationKey));
    }
  }

  method DeleteAll(store: ArchiveStore, m: Manifest) returns (r: Result<(), Error>)
    requires store.Valid() && store.plan == m && DeletionReached(store.View(), m, 0)
    modifies store`objects, store`issued, store`serial, store`operations, store`attempt
    ensures store.Valid() && PlanSealed(store.View(), m)
    ensures Frame(old(store.View()), store.View(), m.digest)
    ensures forall a: Address :: !a.Source? ==> SameAt(old(store.View()), store.View(), a)
    ensures r.Ok? <==> forall i: nat :: i < |m.entries| ==>
                                          || old(Recorded(store.View(), m.digest, SourceDeleted(i)))
                                          || DeletionOpen(old(store.View()), m.entries[i])
    ensures r.Ok? ==> DeletionReached(store.View(), m, |m.entries|)
  {
    ghost var w0 := store.View();
    var removed: seq<string> := [];
    for i := 0 to |m.entries|
      invariant store.Valid() && DeletionReached(store.View(), m, i)
      invariant Frame(w0, store.View(), m.digest)
      invariant removed == SourceKeySeq(m)[..i]
      invariant forall a: Address :: !a.Source? ==> SameAt(w0, store.View(), a)
      invariant forall k: nat :: i <= k ==> SameMarkAt(w0, store.View(), m.digest, SourceDeleted(k))
      invariant forall k: nat :: k < i ==> Recorded(w0, m.digest, SourceDeleted(k)) || DeletionOpen(w0, m.entries[k])
    {
      ghost var w := store.View();
      assert SameMarkAt(w0, w, m.digest, SourceDeleted(i));
      r := DeleteEntry(store, m, i, removed);
      DeleteStep(w0, w, store.View(), m, i);
      if r.Err? { return; }
      removed := removed + [m.entries[i].sourceKey];
    }
    r := Ok(());
  }

  lemma DeleteStep(w0: World, w: World, w': World, m: Manifest, i: nat)
    requires i < |m.entries| && PlanSealed(w, m) && PlanSealed(w', m)
    requires SameObjectsBut(w, w', Source(m.entries[i].sourceKey))
    requires SameMarksBut(w, w', m.digest, SourceDeleted(i))
    requires forall a: Address :: !a.Source? ==> SameAt(w0, w, a)
    requires forall k: nat :: i <= k ==> SameMarkAt(w0, w, m.digest, SourceDeleted(k))
    ensures forall a: Address :: !a.Source? ==> SameAt(w0, w', a)
    ensures forall k: nat :: i < k ==> SameMarkAt(w0, w', m.digest, SourceDeleted(k))
    ensures SourceKeySeq(m)[..i] + [m.entries[i].sourceKey] == SourceKeySeq(m)[..i + 1]
  {
    forall a: Address | !a.Source? ensures SameAt(w0, w', a) {
      assert SameAt(w0, w, a) && SameAt(w, w', a);
    }
    forall k: nat | i < k ensures SameMarkAt(w0, w', m.digest, SourceDeleted(k)) {
      assert SameMarkAt(w0, w, m.digest, SourceDeleted(k));
    }
  }

  // ----- Receipts -----

  lemma ReceiptAccepted(w: World, d: string, phase: Phase)
    requires Inv(w) && d in w.operations && !phase.Final?
    requires Receipt(d, phase) in w.objects && w.objects[Receipt(d, phase)].content.contentType == JSON
    requires AllVerified(w.operations[d]) && (phase.Deleted? ==> AllDeleted(w.operations[d]))
    ensures var loaded := w.objects[Receipt(d, phase)];
            RecordReceipt(w, d, phase, loaded.content.body, loaded, Recorded(w, d, Completed)) ==
            Committed(AppendIfAbsent(w, d, PhaseMark(phase), ObjectSeen(loaded, w.now)), ())
  {
    var op := w.operations[d];
    AllVerifiedIsFullCount(op, |op.manifest.entries|);
    AllDeletedIsFullCount(op, |op.manifest.entries|);
    if Recorded(w, d, PhaseMark(phase)) { RecordedReceiptThere(w, d, phase); }
  }

  /** Acknowledging a stored receipt whose phase has been reached. */
  method AcknowledgeReceipt(store: ArchiveStore, d: string, phase: Phase, receipt: Stored)
    requires store.Valid() && d in store.operations && !phase.Final?
    requires Receipt(d, phase) in store.objects && store.objects[Receipt(d, phase)] == receipt
    requires receipt.content.contentType == JSON
    requires AllVerified(store.operations[d]) && (phase.Deleted? ==> AllDeleted(store.operations[d]))
    modifies store`objects, store`issued, store`serial, store`operations, store`attempt
    ensures store.Valid()
    ensures store.View() == AppendIfAbsent(old(store.View()), d, PhaseMark(phase), ObjectSeen(receipt, old(store.now)))
  {
    store.Reached();
    ReceiptAccepted(store.View(), d, phase);
    assert Observed(store.View(), receipt);
    var recorded := store.RecordReceipt(d, phase, receipt.content.body, receipt);
  }

  function DeletedReceiptContent(m: Manifest, deletedAt: nat): Content {
    Content(DeletedReceipt(m.digest, deletedAt, SourceKeySeq(m)), JSON)
  }

  /** With the sources gone, the targeted snapshot is clean exactly when no reference came back. */
  lemma SnapshotCondition(w: World, m: Manifest)
    requires Inv(w) && PlanSealed(w, m)
    ensures FinalSnapshotClean(w, m.digest) <==> SourcesGone(w, m) && NoReferences(w, m)
    ensures SourcesGone(w, m) ==> AllVerified(w.operations[m.digest]) && AllDeleted(w.operations[m.digest])
    ensures SourcesGone(w, m) ==> forall i :: 0 <= i < |m.entries| ==>
                                               && Source(m.entries[i].sourceKey) !in w.objects
                                               && Copy(m.entries[i].destinationKey) in w.objects
                                               && w.objects[Copy(m.entries[i].destinationKey)].content == m.entries[i].content
  {
    AllDeletedIsFullCount(w.operations[m.digest], |m.entries|);
    forall i | 0 <= i < |m.entries| && SourcesGone(w, m)
      ensures Source(m.entries[i].sourceKey) !in w.objects && Recorded(w, m.digest, DestinationVerified(i))
      ensures Copy(m.entries[i].destinationKey) in w.objects
      ensures w.objects[Copy(m.entries[i].destinationKey)].content == m.entries[i].content
    {
      SourceTellsDeletion(w, m, i);
      VerifiedCopyThere(w, m, i);
    }
  }

  /** The receipt that is answered is the one that is stored. */
  predicate HoldsReceipt(w: World, d: string, phase: Phase, content: Content) {
    Receipt(d, phase) in w.objects && w.objects[Receipt(d, phase)].content == content
  }

  /** Both halves of the deletion receipt: it is stored, then recorded. */
  method AcknowledgeDeletion(store: ArchiveStore, m: Manifest, deletedAt: nat) returns (r: Result<Content, Error>)
    requires store.Valid() && store.plan == m && PlanSealed(store.View(), m) && SourcesGone(store.View(), m)
    requires Receipt(m.digest, Deleted) !in store.objects
    modifies store`objects, store`issued, store`serial, store`operations, store`attempt
    ensures store.Valid()
    ensures r.Ok? <==> NoReferences(old(store.View()), m)
    ensures r.Ok? ==> Recorded(store.View(), m.digest, DeletedVerified)
    ensures r.Ok? ==> HoldsReceipt(store.View(), m.digest, Deleted, r.value) && r.value == DeletedReceiptContent(m, deletedAt)
  {
    store.Reached();
    SnapshotCondition(store.View(), m);
    if !FinalSnapshotClean(store.View(), m.digest) { return Err(FinalSnapshotInvalid); }
    var content := DeletedReceiptContent(m, deletedAt);
    PutNew(store, Receipt(m.digest, Deleted), content);
    var receipt := store.Load(Receipt(m.digest, Deleted));
    AcknowledgeReceipt(store, m.digest, Deleted, receipt.value);
    r := Ok(content);
  }

  /** A deletion receipt found in storage is checked against the sources before it is recorded. */
  method ResumeAcknowledged(store: ArchiveStore, m: Manifest) returns (r: Result<Content, Error>)
    requires store.Valid() && store.plan == m && PlanSealed(store.View(), m) && Receipt(m.digest, Deleted) in store.objects
    modifies store`objects, store`issued, store`serial, store`operations, store`attempt
    ensures store.Valid()
    ensures r.Ok? <==> AcknowledgeReady(old(store.View()), m)
    ensures r.Ok? ==> Recorded(store.View(), m.digest, DeletedVerified)
    ensures r.Ok? ==> HoldsReceipt(store.View(), m.digest, Deleted, r.value) && HoldsReceipt(old(store.View()), m.digest, Deleted, r.value)
  {
    store.Reached();
    SnapshotCondition(store.View(), m);
    var receipt := store.Load(Receipt(m.digest, Deleted));
    if !ParsesAsDeleted(receipt.value.content, m) { return Err(DeletedReceiptInvalid); }
    if !FinalSnapshotClean(store.View(), m.digest) { return Err(FinalSnapshotInvalid); }
    if receipt.value.content.contentType != JSON { return Err(ReceiptFactsInvalid); }
    AcknowledgeReceipt(store, m.digest, Deleted, receipt.value);
    r := Ok(receipt.value.content);
  }

  ghost predicate SourcesAndDeletedReceiptSame(w0: World, w: World, d: string) {
    && (forall a: Address :: a.Source? ==> SameAt(w0, w, a))
    && SameAt(w0, w, Receipt(d, Deleted))
  }

  /** Stores the copy receipt unless it is there, and records it. */
  method AcknowledgeCopies(store: ArchiveStore, m: Manifest) returns (r: Result<(), Error>)
    requires store.Valid() && store.plan == m && PlanSealed(store.View(), m) && AllVerified(store.operations[m.digest])
    modifies store`objects, store`issued, store`serial, store`operations, store`attempt
    ensures store.Valid() && PlanSealed(store.View(), m)
    ensures Frame(old(store.View()), store.View(), m.digest)
    ensures SourcesAndDeletedReceiptSame(old(store.View()), store.View(), m.digest)
    ensures SameMarksBut(old(store.View()), store.View(), m.digest, CopiedVerified)
    ensures r.Ok? <==> (Receipt(m.digest, Copied) in old(store.objects) ==>
                          old(store.objects)[Receipt(m.digest, Copied)].content.contentType == JSON)
    ensures r.Ok? ==> Recorded(store.View(), m.digest, CopiedVerified)
  {
    var existing := store.Load(Receipt(m.digest, Copied));
    ghost var w0 := store.View();
    if existing.None? {
      PutNew(store, Receipt(m.digest, Copied), CopyReceiptContent(m));
      assert SourcesAndDeletedReceiptSame(w0, store.View(), m.digest);
    }
    ghost var w1 := store.View();
    var receipt := store.Load(Receipt(m.digest, Copied));
    if receipt.value.content.contentType != JSON { return Err(ReceiptFactsInvalid); }
    AcknowledgeReceipt(store, m.digest, Copied, receipt.value);
    CopiedEffect(w0, w1, store.View(), m, ObjectSeen(receipt.value, w1.now));
    r := Ok(());
  }

  lemma CopiedEffect(w0: World, w1: World, w2: World, m: Manifest, event: Event)
    requires PlanSealed(w0, m) && w1 == w0.(objects := w1.objects, issued := w1.issued)
    requires SourcesAndDeletedReceiptSame(w0, w1, m.digest)
    requires w2 == AppendIfAbsent(w1, m.digest, CopiedVerified, event)
    ensures PlanSealed(w2, m) && Frame(w0, w2, m.digest) && Recorded(w2, m.digest, CopiedVerified)
    ensures SourcesAndDeletedReceiptSame(w0, w2, m.digest)
    ensures SameMarksBut(w0, w2, m.digest, CopiedVerified)
  {
    assert forall a :: SameAt(w0, w1, a) ==> SameAt(w0, w2, a);
  }

  /** Copies, the copy receipt, and its event: what has to be durable before the first deletion. */
  method CopyPhase(store: ArchiveStore, m: Manifest) returns (r: Result<(), Error>)
    requires store.Valid() && store.plan == m && PlanSealed(store.View(), m)
    modifies store`objects, store`issued, store`serial, store`operations, store`attempt
    ensures store.Valid() && PlanSealed(store.View(), m)
    ensures Frame(old(store.View()), store.View(), m.digest)
    ensures SourcesAndDeletedReceiptSame(old(store.View()), store.View(), m.digest)
    ensures SameMarkAt(old(store.View()), store.View(), m.digest, Authorized)
    ensures forall i: nat :: SameMarkAt(old(store.View()), store.View(), m.digest, SourceDeleted(i))
    ensures r.Ok? <==>
            && (Receipt(m.digest, Copied) in old(store.objects) ==>
                  old(store.objects)[Receipt(m.digest, Copied)].content == CopyReceiptContent(m))
            && (forall i :: 0 <= i < |m.entries| ==> CopyUsable(old(store.View()), m.entries[i]))
    ensures r.Ok? ==> Recorded(store.View(), m.digest, CopiedVerified)
  {
    ghost var w0 := store.View();
    var existing := store.Load(Receipt(m.digest, Copied));
    if existing.Some? && existing.value.content.body != CopyReceiptContent(m).body {
      assert SourcesAndDeletedReceiptSame(w0, store.View(), m.digest);
      return Err(CopyReceiptConflict);
    }
    r := CopyAll(store, m, existing.Some?);
    ghost var w1 := store.View();
    assert SameAt(w0, w1, Receipt(m.digest, Copied)) && SameAt(w0, w1, Receipt(m.digest, Deleted));
    if r.Err? { return; }
    r := AcknowledgeCopies(store, m);
    PhaseCompose(w0, w1, store.View(), m.digest);
  }

  lemma PhaseCompose(w0: World, w1: World, w2: World, d: string)
    requires d in w1.operations && d in w2.operations
    requires SourcesAndDeletedReceiptSame(w0, w1, d) && SourcesAndDeletedReceiptSame(w1, w2, d)
    requires forall mark: Mark :: !mark.DestinationVerified? ==> SameMarkAt(w0, w1, d, mark)
    requires SameMarksBut(w1, w2, d, CopiedVerified)
    ensures SourcesAndDeletedReceiptSame(w0, w2, d)
    ensures SameMarkAt(w0, w2, d, Authorized) && forall i: nat :: SameMarkAt(w0, w2, d, SourceDeleted(i))
  {
    assert SameMarkAt(w0, w1, d, Authorized);
    forall i: nat ensures SameMarkAt(w0, w2, d, SourceDeleted(i)) {
      assert SameMarkAt(w0, w1, d, SourceDeleted(i));
    }
    forall a: Address | a.Source? ensures SameAt(w0, w2, a) {
      assert SameAt(w0, w1, a) && SameAt(w1, w2, a);
    }
  }

  /** Apply succeeds exactly when its condition held at the start, and takes only benign steps. */
  method Apply(store: ArchiveStore, m: Manifest, who: Identity, deletedAt: nat) returns (r: Result<Content, Error>)
    requires store.Valid()
    modifies store`objects, store`issued, store`serial, store`operations, store`history, store`plan, store`since, store`attempt
    ensures store.Valid()
    ensures r.Ok? <==> ApplyReady(old(store.View()), m, who)
    ensures BenignRun(old(store.View()), m, store.attempt) && store.View() == Run(old(store.View()), store.attempt)
    ensures r.Ok? ==> Recorded(store.View(), m.digest, DeletedVerified)
    ensures r.Ok? && !Recorded(old(store.View()), m.digest, DeletedVerified) ==>
              && PlanSealed(old(store.View()), m) && PlanSealed(store.View(), m)
              && MissingEvents(store.View(), m) < MissingEvents(old(store.View()), m)
    ensures r.Ok? ==> HoldsReceipt(store.View(), m.digest, Deleted, r.value)
    ensures r.Ok? && Receipt(m.digest, Deleted) in old(store.objects) ==> HoldsReceipt(old(store.View()), m.digest, Deleted, r.value)
    ensures r.Ok? && Receipt(m.digest, Deleted) !in old(store.objects) ==>
              r.value == Content(DeletedReceipt(m.digest, deletedAt, SourceKeySeq(m)), "application/json")
  {
    store.Begin(m);
    if !store.private { return Err(BucketNotPrivate); }
    if !PlanSealed(store.View(), m) { return Err(PlanNotSealed); }
    ghost var w0 := store.View();
    var authorized := AuthorizeApply(store, m, who);
    if authorized.Err? { return Err(authorized.error); }
    var existing := store.Load(Receipt(m.digest, Deleted));
    if existing.Some? {
      r := ResumeAcknowledged(store, m);
    } else {
      r := CopyThenDelete(store, m, deletedAt);
    }
    if r.Ok? { store.AttemptFalls(DeletedVerified); }
  }

  method AuthorizeApply(store: ArchiveStore, m: Manifest, who: Identity) returns (r: Result<(), Error>)
    requires store.Valid() && store.plan == m && PlanSealed(store.View(), m)
    modifies store`operations, store`attempt
    ensures store.Valid()
    ensures r.Ok? <==> DistinctApplyAuthority(old(store.operations)[m.digest], who)
    ensures r.Ok? ==> AfterAuthorize(old(store.View()), store.View(), m)
  {
    store.Reached();
    r := store.RecordAuthorized(m.digest, who);
  }

  /** Only the authority was added: every condition reads the same before and after. */
  ghost predicate AfterAuthorize(w0: World, w: World, m: Manifest)
    requires PlanSealed(w0, m)
  {
    && PlanSealed(w, m) && Frame(w0, w, m.digest) && w.objects == w0.objects
    && Recorded(w, m.digest, Authorized)
    && (SourcesGone(w0, m) <==> SourcesGone(w, m))
  }

  method CopyThenDelete(store: ArchiveStore, m: Manifest, deletedAt: nat) returns (r: Result<Content, Error>)
    requires store.Valid() && store.plan == m && PlanSealed(store.View(), m) && store.private && Recorded(store.View(), m.digest, Authorized)
    requires Receipt(m.digest, Deleted) !in store.objects
    modifies store`objects, store`issued, store`serial, store`operations, store`attempt
    ensures store.Valid()
    ensures r.Ok? <==> CopyReady(old(store.View()), m)
    ensures r.Ok? ==> Recorded(store.View(), m.digest, DeletedVerified)
    ensures r.Ok? ==> HoldsReceipt(store.View(), m.digest, Deleted, r.value) && r.value == DeletedReceiptContent(m, deletedAt)
  {
    ghost var w0 := store.View();
    var copied := CopyPhase(store, m);
    if copied.Err? { return Err(copied.error); }
    ghost var w1 := store.View();
    var gone := DeleteAll(store, m);
    if gone.Err? { return Err(gone.error); }
    assert SameAt(w1, store.View(), Receipt(m.digest, Deleted));
    r := AcknowledgeDeletion(store, m, deletedAt);
  }

  // ----- The finalize driver -----

  function CompletedReceiptContent(m: Manifest, completedAt: nat, pin: AuditPin): Content {
    Content(CompletedReceipt(m.digest, completedAt, pin, SourceKeySeq(m)), JSON)
  }

  /** With the final audit recorded and the sources gone, only the fences and leases are left to check. */
  lemma BoundaryCondition(w: World, m: Manifest)
    requires Inv(w) && PlanSealed(w, m) && w.private && SourcesGone(w, m) && NoReferences(w, m)
    requires Orphans(w) == {} && Missing(w) == {}
    requires Recorded(w, m.digest, FinalAuditVerified) && !Recorded(w, m.digest, Completed)
    ensures CompletionBoundary(w, m.digest) <==> w.fences && w.workerLeases == 0
  {
    var op := w.operations[m.digest];
    assert OperationKept(w, m.digest);
    SnapshotCondition(w, m);
    RecordedReceiptThere(w, m.digest, Copied);
    RecordedReceiptThere(w, m.digest, Deleted);
    AllVerifiedIsFullCount(op, |m.entries|);
    AllDeletedIsFullCount(op, |m.entries|);
    forall i | 0 <= i < |m.entries|
      ensures ExactObjectEvent(w, op.journal[DestinationVerified(i)], Copy(m.entries[i].destinationKey))
      ensures op.journal[DestinationVerified(i)].seen.content == m.entries[i].content
    {
      VerifiedCopyThere(w, m, i);
    }
  }

  lemma FinalReceiptOutcome(w: World, m: Manifest)
    requires Inv(w) && PlanSealed(w, m) && w.private && SourcesGone(w, m) && NoReferences(w, m)
    requires Orphans(w) == {} && Missing(w) == {} && Recorded(w, m.digest, FinalAuditVerified)
    requires Receipt(m.digest, Final) in w.objects
    ensures var loaded := w.objects[Receipt(m.digest, Final)];
            RecordReceipt(w, m.digest, Final, loaded.content.body, loaded, Recorded(w, m.digest, Completed)).Committed? <==>
            loaded.content.contentType == JSON && (Recorded(w, m.digest, Completed) || (w.fences && w.workerLeases == 0))
  {
    var op := w.operations[m.digest];
    assert OperationKept(w, m.digest);
    SnapshotCondition(w, m);
    AllVerifiedIsFullCount(op, |m.entries|);
    AllDeletedIsFullCount(op, |m.entries|);
    if Recorded(w, m.digest, Completed) {
      RecordedReceiptThere(w, m.digest, Final);
    } else {
      BoundaryCondition(w, m);
    }
  }

  /** Everything but the last receipt has been checked; `completed` may be recorded or replayed. */
  ghost predicate CompletionReached(w: World, m: Manifest) {
    && PlanSealed(w, m) && w.private && SourcesGone(w, m) && NoReferences(w, m)
    && Orphans(w) == {} && Missing(w) == {} && Recorded(w, m.digest, FinalAuditVerified)
  }

  predicate FinalReceiptUsable(w: World, m: Manifest, pin: AuditPin) {
    Receipt(m.digest, Final) in w.objects ==>
      && ParsesAsCompleted(w.objects[Receipt(m.digest, Final)].content, m, pin)
      && w.objects[Receipt(m.digest, Final)].content.contentType == JSON
  }

  /** A final receipt found before is answered as it is; a new one names the digest, the time, the audit and the sources. */
  predicate AnswersFinal(before: World, after: World, m: Manifest, completedAt: nat, pin: AuditPin, content: Content) {
    && HoldsReceipt(after, m.digest, Final, content)
    && if Receipt(m.digest, Final) in before.objects then HoldsReceipt(before, m.digest, Final, content)
       else content == Content(CompletedReceipt(m.digest, completedAt, pin, SourceKeySeq(m)), "application/json")
  }

  method Complete(store: ArchiveStore, m: Manifest, pin: AuditPin, completedAt: nat) returns (r: Result<Content, Error>)
    requires store.Valid() && store.plan == m && CompletionReached(store.View(), m) && RecordedPin(store.View(), m) == Some(pin)
    modifies store`objects, store`issued, store`serial, store`operations, store`attempt
    ensures store.Valid()
    ensures r.Ok? <==>
            && FinalReceiptUsable(old(store.View()), m, pin)
            && (old(Recorded(store.View(), m.digest, Completed)) || (store.fences && store.workerLeases == 0))
    ensures r.Ok? ==> Recorded(store.View(), m.digest, Completed)
    ensures r.Ok? ==> AnswersFinal(old(store.View()), store.View(), m, completedAt, pin, r.value)
    ensures OnlyFinalSteps(m, pin, old(store.attempt), store.attempt)
  {
    var existing := store.Load(Receipt(m.digest, Final));
    if existing.Some? && !ParsesAsCompleted(existing.value.content, m, pin) { return Err(FinalReceiptInvalid); }
    if existing.None? {
      ghost var w0 := store.View();
      PutNew(store, Receipt(m.digest, Final), CompletedReceiptContent(m, completedAt, pin));
      QuarantineBucketOnly(w0, store.View(), Receipt(m.digest, Final));
    }
    ghost var stored := store.attempt;
    r := RecordCompletion(store, m);
    FinalStepsChain(m, pin, old(store.attempt), stored, store.attempt);
  }

  method RecordCompletion(store: ArchiveStore, m: Manifest) returns (r: Result<Content, Error>)
    requires store.Valid() && store.plan == m && CompletionReached(store.View(), m)
    requires Receipt(m.digest, Final) in store.objects
    modifies store`operations, store`attempt
    ensures store.Valid()
    ensures r.Ok? <==>
            && store.objects[Receipt(m.digest, Final)].content.contentType == JSON
            && (old(Recorded(store.View(), m.digest, Completed)) || (store.fences && store.workerLeases == 0))
    ensures r.Ok? ==> Recorded(store.View(), m.digest, Completed)
    ensures r.Ok? ==> HoldsReceipt(store.View(), m.digest, Final, r.value)
    ensures forall pin :: OnlyFinalSteps(m, pin, old(store.attempt), store.attempt)
  {
    var receipt := store.Load(Receipt(m.digest, Final));
    store.Reached();
    FinalReceiptOutcome(store.View(), m);
    var recorded := store.RecordReceipt(m.digest, Final, receipt.value.content.body, receipt.value);
    if recorded.Err? { return Err(recorded.error); }
    r := Ok(receipt.value.content);
  }

  /** Copies and receipts never count as archive objects of the source bucket. */
  lemma QuarantineBucketOnly(w0: World, w: World, a: Address)
    requires SameObjectsBut(w0, w, a) && !a.Source? && w.references == w0.references
    ensures Orphans(w) == Orphans(w0) && Missing(w) == Missing(w0)
  {
    assert forall key :: SameAt(w0, w, Source(key));
  }

  /** The acknowledged deletion is still what storage and the journal show. */
  method CheckDeletion(store: ArchiveStore, m: Manifest) returns (r: Result<(), Error>)
    requires store.Valid() && PlanSealed(store.View(), m)
    ensures r.Ok? <==>
            && Receipt(m.digest, Deleted) in store.objects
            && ParsesAsDeleted(store.objects[Receipt(m.digest, Deleted)].content, m)
            && SourcesGone(store.View(), m) && NoReferences(store.View(), m)
  {
    store.Reached();
    SnapshotCondition(store.View(), m);
    var deleted := store.Load(Receipt(m.digest, Deleted));
    if deleted.None? { return Err(DeletedReceiptMissing); }
    if !ParsesAsDeleted(deleted.value.content, m) { return Err(DeletedReceiptInvalid); }
    if !FinalSnapshotClean(store.View(), m.digest) { return Err(FinalSnapshotInvalid); }
    r := Ok(());
  }

  method RecordEvidence(store: ArchiveStore, m: Manifest, pin: AuditPin) returns (r: Result<(), Error>)
    requires store.Valid() && store.plan == m && PlanSealed(store.View(), m) && store.private
    requires SourcesGone(store.View(), m) && NoReferences(store.View(), m)
    requires RecordedPin(store.View(), m).Some? ==> RecordedPin(store.View(), m).value == pin
    modifies store`operations, store`attempt
    ensures store.Valid()
    ensures r.Ok? <==> CleanFinalAudit(old(store.View()), m.digest, pin)
                       && Orphans(old(store.View())) == {} && Missing(old(store.View())) == {}
    ensures r.Ok? ==> CompletionReached(store.View(), m) && RecordedPin(store.View(), m) == Some(pin)
    ensures r.Ok? ==> SameMarkAt(old(store.View()), store.View(), m.digest, Completed)
    ensures store.View() == old(store.View()).(operations := store.operations)
    ensures OnlyFinalSteps(m, pin, old(store.attempt), store.attempt)
  {
    store.Reached();
    r := store.RecordFinalAudit(m.digest, pin);
  }

  lemma EvidenceIsStored(w: World, m: Manifest, external: Option<AuditPin>)
    requires Inv(w) && PlanSealed(w, m) && FinalEvidence(w, m, external).Some?
    ensures FinalEvidence(w, m, external).value in w.audits
  {
    assert OperationKept(w, m.digest) && FinalAuditKept(w, m.digest);
  }

  /** Finalize succeeds exactly when its condition held at the start. */
  method Finalize(store: ArchiveStore, m: Manifest, external: Option<AuditPin>) returns (r: Result<Content, Error>)
    requires store.Valid()
    modifies store`objects, store`issued, store`serial, store`operations, store`history, store`plan, store`since, store`attempt
    ensures store.Valid()
    ensures r.Ok? <==> FinalizeReady(old(store.View()), m, external)
    ensures BenignRun(old(store.View()), m, store.attempt) && store.View() == Run(old(store.View()), store.attempt)
    ensures r.Ok? ==> Recorded(store.View(), m.digest, Completed)
    ensures r.Ok? ==> OnlyFinalSteps(m, FinalEvidence(old(store.View()), m, external).value, [], store.attempt)
    ensures r.Ok? ==> PlanSealed(store.View(), m) && MissingEvents(store.View(), m) == 0
    ensures r.Ok? ==> AnswersFinal(old(store.View()), store.View(), m, old(store.now), FinalEvidence(old(store.View()), m, external).value, r.value)
  {
    store.Begin(m);
    if !PlanSealed(store.View(), m) { return Err(PlanNotSealed); }
    var evidence := FinalEvidence(store.View(), m, external);
    if evidence.None? { return Err(FinalAuditNotRecorded); }
    assert evidence.value in store.audits by { store.Reached(); EvidenceIsStored(store.View(), m, external); }
    var completedAt := store.now;
    if completedAt < store.audits[evidence.value].auditedAt { return Err(FinalAuditChanged); }
    if !store.private { return Err(BucketNotPrivate); }
    r := FinalizeOn(store, m, evidence.value, completedAt);
    if r.Ok? { store.AttemptFalls(Completed); }
  }

  method FinalizeOn(store: ArchiveStore, m: Manifest, pin: AuditPin, completedAt: nat) returns (r: Result<Content, Error>)
    requires store.Valid() && store.plan == m && PlanSealed(store.View(), m) && store.private
    requires RecordedPin(store.View(), m).Some? ==> RecordedPin(store.View(), m).value == pin
    modifies store`objects, store`issued, store`serial, store`operations, store`attempt
    ensures store.Valid()
    ensures r.Ok? <==> FinalizeReadyOn(old(store.View()), m, pin)
    ensures r.Ok? ==> Recorded(store.View(), m.digest, Completed)
    ensures r.Ok? ==> AnswersFinal(old(store.View()), store.View(), m, completedAt, pin, r.value)
    ensures OnlyFinalSteps(m, pin, old(store.attempt), store.attempt)
  {
    var deleted := CheckDeletion(store, m);
    if deleted.Err? { return Err(deleted.error); }
    var audited := RecordEvidence(store, m, pin);
    if audited.Err? { return Err(audited.error); }
    ghost var recorded := store.attempt;
    r := Complete(store, m, pin, completedAt);
    FinalStepsChain(m, pin, old(store.attempt), recorded, store.attempt);
  }
}
