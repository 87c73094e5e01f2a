/**
 The durable state behind the archive quarantine and every transaction that may change it.

 A transaction either commits a new `World` or is refused and changes nothing. Each one is a
 function from the world and the facts its caller observed earlier, so that crashes, replays and
 interleavings are simply sequences of transactions (module QuarantineSafety).
 */
module QuarantineModel {
  import opened Wrappers

  // ----- Storage -----

  /** The SQL row of a stored object, byte content excluded. */
  datatype Facts = Facts(
    objectId: nat,
    version: Option<string>,
    createdAt: nat,
    updatedAt: nat,
    metadata: string,
    userMetadata: string)

  /** What was deployed, scanned and reported by one byte audit. */
  datatype AuditPin = AuditPin(deploymentId: string, inventoryDigest: string, reportSha256: string)

  /** A document body. Equal bodies stand for equal bytes, hence also for equal SHA-256 digests. */
  datatype Body =
    | Pdf(bytes: seq<bv8>)
    | CopyReceipt(manifestDigest: string, sourceKeys: seq<string>)
    | DeletedReceipt(manifestDigest: string, deletedAt: nat, sourceKeys: seq<string>)
    | CompletedReceipt(manifestDigest: string, completedAt: nat, audit: AuditPin, sourceKeys: seq<string>)
    | OtherBytes(bytes: seq<bv8>)

  datatype Content = Content(body: Body, contentType: string)

  datatype Stored = Stored(facts: Facts, content: Content)

  const PDF := "application/pdf"
  const JSON := "application/json"

  datatype Phase = Copied | Deleted | Final

  /** The source bucket holds `Source` keys; copies and receipts share the quarantine bucket. */
  datatype Address =
    | Source(key: string)
    | Copy(key: string)
    | Receipt(digest: string, phase: Phase)

  // ----- Plans and the journal -----

  datatype Entry = Entry(sourceKey: string, destinationKey: string, facts: Facts, content: Content)

  datatype Manifest = Manifest(
    digest: string,
    release: string,
    database: string,
    snapshot: string,
    audit: AuditPin,
    entries: seq<Entry>)

  /** `stable` stands for the thirteen claims every run of the workflow shares; the token is per run. */
  datatype Identity = Identity(stable: string, token: string)

  /** The unique key (kind, ordinal) of an event of one operation; entries are numbered from 0. */
  datatype Mark =
    | PlanAuthorized
    | Authorized
    | DestinationVerified(entry: nat)
    | CopiedVerified
    | SourceDeleted(entry: nat)
    | DeletedVerified
    | FinalAuditVerified
    | Completed

  datatype Event =
    | Authority(identity: Identity, at: nat)
    | ObjectSeen(seen: Stored, at: nat)
    | AuditSeen(pin: AuditPin, at: nat)

  type Journal = map<Mark, Event>

  datatype Operation = Operation(id: nat, manifest: Manifest, journal: Journal)

  datatype AuditRow = AuditRow(
    release: string,
    database: string,
    snapshot: string,
    auditedAt: nat,
    createdAt: nat,
    ready: bool,
    issueCodes: seq<string>,
    orphans: nat,
    missing: nat,
    p0Issues: nat)

  const AUDIT_FRESHNESS_MS := 30 * 60 * 1_000

  /**
   `issued` remembers which content every facts tuple was created for; nothing reads it back,
   it only lets the model say what an earlier observation was an observation of.
   */
  datatype World = World(
    objects: map<Address, Stored>,
    issued: map<Facts, Content>,
    operations: map<string, Operation>,
    references: set<string>,
    workerLeases: nat,
    fences: bool,
    private: bool,
    audits: map<AuditPin, AuditRow>,
    now: nat)

  datatype Error =
    | ManifestInvalid
    | SealedPlanDivergent
    | AuditEvidenceChanged
    | ArchiveWorkerActive
    | SourceReferenced
    | BucketChanged
    | GlobalArchiveStateChanged
    | SourceFactsChanged
    | DestinationPreexists
    | PlanConflict
    | PlanNotSealed
    | ApplyAuthorityDivergent
    | EventDivergent
    | EntryNotInManifest
    | CopyUnverified
    | VerifiedObjectMissing
    | VerifiedObjectChanged
    | ReceiptFactsInvalid
    | ReceiptPrerequisitesMissing
    | CompletionStateChanged
    | FinalAuditChanged
    | StorageUploadFailed
    | StorageImmutable
    | DeleteFenceRefused
    | DeleteNotCommitted
    | FinalSnapshotInvalid
    | ReferenceFence
    | WorkerClosed
    | BucketFrozen
    | BucketNotPrivate
    | CopyReceiptConflict
    | CopyReceiptUnverified
    | SourceChanged
    | DestinationCollision
    | SourceMissingBeforeReceipt
    | ObjectLost
    | CopyLost
    | DeletedReceiptInvalid
    | DeletedReceiptMissing
    | DeletedReceiptUnverified
    | FinalStateInvalid
    | FinalAuditNotRecorded
    | FinalReceiptInvalid
    | FinalReceiptUnverified

  /** A committed transaction with its result, or a refusal that rolled everything back. */
  datatype Outcome<+T> = Committed(world: World, value: T) | Refused(error: Error)

  // ----- Derived facts -----

  predicate IsEntry(w: World, d: string, i: nat) {
    d in w.operations && i < |w.operations[d].manifest.entries|
  }

  function EntryAt(w: World, d: string, i: nat): Entry
    requires IsEntry(w, d, i)
  {
    w.operations[d].manifest.entries[i]
  }

  predicate Recorded(w: World, d: string, mark: Mark) {
    d in w.operations && mark in w.operations[d].journal
  }

  predicate IsOpen(w: World, d: string) {
    d in w.operations && Completed !in w.operations[d].journal
  }

  predicate HasOpenOperation(w: World) {
    exists d :: d in w.operations && IsOpen(w, d)
  }

  predicate DistinctKeys(entries: seq<Entry>) {
    && (forall i, j :: 0 <= i < j < |entries| ==> entries[i].sourceKey != entries[j].sourceKey)
    && (forall i, j :: 0 <= i < j < |entries| ==> entries[i].destinationKey != entries[j].destinationKey)
  }

  predicate ValidManifest(m: Manifest) {
    && |m.entries| >= 1
    && DistinctKeys(m.entries)
    && (forall i :: 0 <= i < |m.entries| ==> m.entries[i].content.contentType == PDF)
  }

  function SourceKeySeq(m: Manifest): (keys: seq<string>)
    ensures |keys| == |m.entries|
    ensures forall i :: 0 <= i < |keys| ==> keys[i] == m.entries[i].sourceKey
  {
    seq(|m.entries|, i requires 0 <= i < |m.entries| => m.entries[i].sourceKey)
  }

  /** Archive objects no SQL row refers to, and SQL references whose object is gone. */
  function Orphans(w: World): (keys: set<string>)
    ensures forall k :: k in keys <==> Source(k) in w.objects && k !in w.references
  {
    set a | a in w.objects && a.Source? && a.key !in w.references :: a.key
  }

  function Missing(w: World): set<string> {
    set k | k in w.references && Source(k) !in w.objects
  }

  predicate NoReferences(w: World, m: Manifest) {
    forall i :: 0 <= i < |m.entries| ==> m.entries[i].sourceKey !in w.references
  }

  /** count(*) of the `destination_verified` events among the first n entries. */
  function VerifiedCount(j: Journal, n: nat): nat {
    if n == 0 then 0 else VerifiedCount(j, n - 1) + if DestinationVerified(n - 1) in j then 1 else 0
  }

  /** count(*) of the `source_deleted` events among the first n entries. */
  function DeletedCount(j: Journal, n: nat): nat {
    if n == 0 then 0 else DeletedCount(j, n - 1) + if SourceDeleted(n - 1) in j then 1 else 0
  }

  function PhaseMark(phase: Phase): Mark {
    match phase
    case Copied => CopiedVerified
    case Deleted => DeletedVerified
    case Final => Completed
  }

  function CopyReceiptContent(m: Manifest): Content {
    Content(CopyReceipt(m.digest, SourceKeySeq(m)), JSON)
  }

  /** The digest inside a receipt is taken over the canonical key order, so any listing order passes. */
  predicate ParsesAsDeleted(c: Content, m: Manifest) {
    && c.body.DeletedReceipt?
    && c.body.manifestDigest == m.digest
    && multiset(c.body.sourceKeys) == multiset(SourceKeySeq(m))
  }

  predicate ParsesAsCompleted(c: Content, m: Manifest, pin: AuditPin) {
    && c.body.CompletedReceipt?
    && c.body.manifestDigest == m.digest
    && c.body.audit == pin
    && multiset(c.body.sourceKeys) == multiset(SourceKeySeq(m))
  }

  /** A past complete read: these facts were issued for exactly this content. */
  predicate Observed(w: World, s: Stored) {
    s.facts in w.issued && w.issued[s.facts] == s.content
  }

  // ----- Storage transactions and the trigger in front of them -----

  /** A sealed source key, of any operation, completed ones included. */
  predicate SealedSource(w: World, a: Address) {
    a.Source? && exists d, i :: d in w.operations && 0 <= i < |w.operations[d].manifest.entries|
                                && IsEntry(w, d, i) && EntryAt(w, d, i).sourceKey == a.key
  }

  /** A verified copy or receipt. */
  predicate Frozen(w: World, a: Address) {
    match a
    case Source(_) => false
    case Copy(key) =>
      exists d, i :: d in w.operations && 0 <= i < |w.operations[d].manifest.entries|
                     && IsEntry(w, d, i) && EntryAt(w, d, i).destinationKey == key
                     && DestinationVerified(i) in w.operations[d].journal
    case Receipt(d, phase) => Recorded(w, d, PhaseMark(phase))
  }

  predicate MayWrite(w: World, a: Address) {
    !SealedSource(w, a) && !Frozen(w, a)
  }

  /** Upload without overwrite. Storage gives every object it creates facts never used before. */
  function PutImmutable(w: World, a: Address, content: Content, minted: Facts): Outcome<()> {
    if a in w.objects then Refused(StorageUploadFailed)
    else if !MayWrite(w, a) then Refused(StorageImmutable)
    else Committed(w.(objects := w.objects[a := Stored(minted, content)],
                      issued := w.issued[minted := content]), ())
  }

  /** Any other writer: overwrite in place (from == to) or rename; both ends pass the trigger. */
  function Rewrite(w: World, from: Address, to: Address, content: Content, minted: Facts): Outcome<()> {
    if from !in w.objects || (from != to && to in w.objects) then Refused(StorageUploadFailed)
    else if !MayWrite(w, from) || !MayWrite(w, to) then Refused(StorageImmutable)
    else Committed(w.(objects := (w.objects - {from})[to := Stored(minted, content)],
                      issued := w.issued[minted := content]), ())
  }

  function RemoveUnsealed(w: World, a: Address): Outcome<()> {
    if a !in w.objects then Committed(w, ())
    else if !MayWrite(w, a) then Refused(StorageImmutable)
    else Committed(w.(objects := w.objects - {a}), ())
  }

  /** What the storage trigger demands before it lets a sealed source go. */
  predicate TriggerAllowsDelete(w: World, d: string, i: nat)
    requires IsEntry(w, d, i)
  {
    var op := w.operations[d];
    var n := |op.manifest.entries|;
    && Authorized in op.journal
    && CopiedVerified in op.journal
    && VerifiedCount(op.journal, n) == n
    && DestinationVerified(i) in op.journal
    && i == DeletedCount(op.journal, n)
    && (forall k :: 0 <= k < i ==> SourceDeleted(k) in op.journal)
    && w.fences
    && Source(op.manifest.entries[i].sourceKey) in w.objects
    && w.objects[Source(op.manifest.entries[i].sourceKey)].facts == op.manifest.entries[i].facts
    && op.manifest.entries[i].sourceKey !in w.references
  }

  function Append(w: World, d: string, mark: Mark, event: Event): World
    requires d in w.operations
  {
    var op := w.operations[d];
    w.(operations := w.operations[d := op.(journal := op.journal[mark := event])])
  }

  /** INSERT ... ON CONFLICT DO NOTHING. */
  function AppendIfAbsent(w: World, d: string, mark: Mark, event: Event): World
    requires d in w.operations
  {
    if mark in w.operations[d].journal then w else Append(w, d, mark, event)
  }

  /** DELETE of a sealed source: the trigger appends `source_deleted` in the same transaction. */
  function RemoveSealed(w: World, d: string, i: nat): Outcome<()> {
    if !IsEntry(w, d, i) then Refused(EntryNotInManifest)
    else
      var e := EntryAt(w, d, i);
      var a := Source(e.sourceKey);
      if a !in w.objects then Committed(w, ())
      else if !TriggerAllowsDelete(w, d, i) then Refused(StorageImmutable)
      else Committed(
             Append(w.(objects := w.objects - {a}), d, SourceDeleted(i),
                    ObjectSeen(Stored(e.facts, e.content), w.now)), ())
  }

  // ----- Repository transactions -----

  predicate PlanEvidenceFresh(w: World, m: Manifest) {
    && m.audit in w.audits
    && var row := w.audits[m.audit];
       && row.release == m.release
       && row.database == m.database
       && row.snapshot == m.snapshot
       && !row.ready
       && row.auditedAt <= row.createdAt <= w.now
       && w.now - row.createdAt <= AUDIT_FRESHNESS_MS
  }

  predicate SourcesExact(w: World, m: Manifest) {
    forall i :: 0 <= i < |m.entries| ==>
                  && Source(m.entries[i].sourceKey) in w.objects
                  && w.objects[Source(m.entries[i].sourceKey)].facts == m.entries[i].facts
  }

  predicate DestinationsAbsent(w: World, m: Manifest) {
    forall i :: 0 <= i < |m.entries| ==> Copy(m.entries[i].destinationKey) !in w.objects
  }

  /** The UNIQUE constraints of the ledger tables and the single-open-operation trigger. */
  predicate PlanInsertAllowed(w: World, m: Manifest) {
    && !HasOpenOperation(w)
    && (forall d, i :: d in w.operations && 0 <= i < |w.operations[d].manifest.entries| && IsEntry(w, d, i) ==>
                         forall k :: 0 <= k < |m.entries| ==>
                                       && EntryAt(w, d, i).sourceKey != m.entries[k].sourceKey
                                       && EntryAt(w, d, i).destinationKey != m.entries[k].destinationKey)
    && (forall d :: d in w.operations ==>
                      w.operations[d].manifest.audit.deploymentId != m.audit.deploymentId)
  }

  function PlanIdentity(op: Operation): Option<Identity> {
    if PlanAuthorized in op.journal && op.journal[PlanAuthorized].Authority?
    then Some(op.journal[PlanAuthorized].identity) else None
  }

  function SealPlan(w: World, m: Manifest, who: Identity): Outcome<nat> {
    if !ValidManifest(m) then Refused(ManifestInvalid)
    else if m.digest in w.operations then
      var op := w.operations[m.digest];
      var planned := PlanIdentity(op);
      if op.manifest != m || planned.None? || planned.value.stable != who.stable
      then Refused(SealedPlanDivergent)
      else Committed(w, op.id)
    else if !PlanEvidenceFresh(w, m) then Refused(AuditEvidenceChanged)
    else if w.workerLeases != 0 then Refused(ArchiveWorkerActive)
    else if !NoReferences(w, m) then Refused(SourceReferenced)
    else if !w.private then Refused(BucketChanged)
    else if Orphans(w) != (set i | 0 <= i < |m.entries| :: m.entries[i].sourceKey) || Missing(w) != {}
    then Refused(GlobalArchiveStateChanged)
    else if !SourcesExact(w, m) then Refused(SourceFactsChanged)
    else if !DestinationsAbsent(w, m) then Refused(DestinationPreexists)
    else if !PlanInsertAllowed(w, m) then Refused(PlanConflict)
    else
      var op := Operation(|w.operations|, m, map[PlanAuthorized := Authority(who, w.now)]);
      Committed(w.(operations := w.operations[m.digest := op]), op.id)
  }

  /** Same workflow, another proof: the token that planned may not also apply. */
  predicate DistinctApplyAuthority(op: Operation, who: Identity) {
    var planned := PlanIdentity(op);
    planned.Some? && planned.value.stable == who.stable && planned.value.token != who.token
  }

  function RecordAuthorized(w: World, d: string, who: Identity): Outcome<()> {
    if d !in w.operations then Refused(PlanNotSealed)
    else if !DistinctApplyAuthority(w.operations[d], who) then Refused(ApplyAuthorityDivergent)
    else
      var w' := AppendIfAbsent(w, d, Authorized, Authority(who, w.now));
      var saved := w'.operations[d].journal[Authorized];
      if saved.Authority? && saved.identity.stable == who.stable then Committed(w', ()) else Refused(EventDivergent)
  }

  function RecordDestinationVerified(w: World, d: string, i: nat, loaded: Stored): Outcome<()> {
    if d !in w.operations then Refused(PlanNotSealed)
    else if !IsEntry(w, d, i) then Refused(EntryNotInManifest)
    else
      var e := EntryAt(w, d, i);
      if loaded.content != e.content then Refused(CopyUnverified)
      else if Copy(e.destinationKey) !in w.objects then Refused(VerifiedObjectMissing)
      else if w.objects[Copy(e.destinationKey)].facts != loaded.facts then Refused(VerifiedObjectChanged)
      else
        var w' := AppendIfAbsent(w, d, DestinationVerified(i), ObjectSeen(loaded, w.now));
        var saved := w'.operations[d].journal[DestinationVerified(i)];
        if saved.ObjectSeen? && saved.seen == loaded then Committed(w', ()) else Refused(EventDivergent)
  }

  /** Recertification under table locks, just before `completed` releases the fences. */
  predicate CompletionBoundary(w: World, d: string)
    requires d in w.operations
  {
    var op := w.operations[d];
    var n := |op.manifest.entries|;
    && (forall i :: 0 <= i < n ==> Source(op.manifest.entries[i].sourceKey) !in w.objects)
    && (forall i :: 0 <= i < n ==>
                      && DestinationVerified(i) in op.journal
                      && ExactObjectEvent(w, op.journal[DestinationVerified(i)], Copy(op.manifest.entries[i].destinationKey))
                      && op.journal[DestinationVerified(i)].seen.content == op.manifest.entries[i].content)
    && NoReferences(w, op.manifest)
    && CopiedVerified in op.journal && ExactReceiptEvent(w, op.journal[CopiedVerified], Receipt(d, Copied))
    && DeletedVerified in op.journal && ExactReceiptEvent(w, op.journal[DeletedVerified], Receipt(d, Deleted))
    && PlanAuthorized in op.journal
    && Authorized in op.journal
    && VerifiedCount(op.journal, n) == n
    && DeletedCount(op.journal, n) == n
    && FinalAuditVerified in op.journal
    && Completed !in op.journal
    && Orphans(w) == {}
    && Missing(w) == {}
    && w.private
    && w.workerLeases == 0
    && w.fences
  }

  predicate ExactObjectEvent(w: World, event: Event, a: Address) {
    event.ObjectSeen? && a in w.objects && w.objects[a].facts == event.seen.facts
  }

  predicate ExactReceiptEvent(w: World, event: Event, a: Address) {
    ExactObjectEvent(w, event, a) && event.seen.content.contentType == JSON
  }

  predicate ReceiptPrerequisites(op: Operation, phase: Phase) {
    var n := |op.manifest.entries|;
    && VerifiedCount(op.journal, n) == n
    && (phase.Deleted? ==> DeletedCount(op.journal, n) == n)
    && (phase.Final? ==>
          && DeletedCount(op.journal, n) == n
          && DeletedVerified in op.journal
          && FinalAuditVerified in op.journal)
  }

  /**
   `sawCompleted` is what an earlier transaction read about the `completed` event. The read-back
   compares the object id and the bytes only, not the version or the timestamps.
   */
  function RecordReceipt(w: World, d: string, phase: Phase, expected: Body, loaded: Stored, sawCompleted: bool)
    : Outcome<()>
  {
    if d !in w.operations then Refused(PlanNotSealed)
    else if loaded.content.body != expected || loaded.content.contentType != JSON then Refused(ReceiptFactsInvalid)
    else if phase.Final? && !sawCompleted && !CompletionBoundary(w, d) then Refused(CompletionStateChanged)
    else if Receipt(d, phase) !in w.objects then Refused(VerifiedObjectMissing)
    else if w.objects[Receipt(d, phase)].facts != loaded.facts then Refused(VerifiedObjectChanged)
    else if !ReceiptPrerequisites(w.operations[d], phase) then Refused(ReceiptPrerequisitesMissing)
    else
      var w' := AppendIfAbsent(w, d, PhaseMark(phase), ObjectSeen(loaded, w.now));
      var saved := w'.operations[d].journal[PhaseMark(phase)];
      if saved.ObjectSeen? && saved.seen.facts.objectId == loaded.facts.objectId
         && saved.seen.content.body == loaded.content.body
      then Committed(w', ()) else Refused(EventDivergent)
  }

  /** A clean audit of this database and release, taken after the deletions were acknowledged. */
  predicate CleanFinalAudit(w: World, d: string, pin: AuditPin)
    requires d in w.operations
  {
    var op := w.operations[d];
    && pin in w.audits
    && DeletedVerified in op.journal
    && op.journal[DeletedVerified].ObjectSeen?
    && var row := w.audits[pin];
       && row.release == op.manifest.release
       && row.database == op.manifest.database
       && op.journal[DeletedVerified].at <= row.auditedAt <= row.createdAt
       && row.ready && row.issueCodes == []
       && row.orphans == 0 && row.missing == 0 && row.p0Issues == 0
  }

  function RecordFinalAudit(w: World, d: string, pin: AuditPin): Outcome<()> {
    if d !in w.operations then Refused(PlanNotSealed)
    else if !CleanFinalAudit(w, d, pin) || Orphans(w) != {} || Missing(w) != {} then Refused(FinalAuditChanged)
    else
      var w' := AppendIfAbsent(w, d, FinalAuditVerified, AuditSeen(pin, w.now));
      var saved := w'.operations[d].journal[FinalAuditVerified];
      if saved.AuditSeen? && saved.pin == pin then Committed(w', ()) else Refused(EventDivergent)
  }

  // ----- Read-only guards -----

  /** Preflight of one DELETE; `removed` lists the keys this run has acknowledged so far. */
  predicate EntryDeleteSafe(w: World, d: string, i: nat, removed: seq<string>)
    requires IsEntry(w, d, i)
  {
    var op := w.operations[d];
    var n := |op.manifest.entries|;
    var e := op.manifest.entries[i];
    && Source(e.sourceKey) in w.objects && w.objects[Source(e.sourceKey)].facts == e.facts
    && DestinationVerified(i) in op.journal
    && ExactObjectEvent(w, op.journal[DestinationVerified(i)], Copy(e.destinationKey))
    && op.journal[DestinationVerified(i)].seen.content == e.content
    && CopiedVerified in op.journal
    && ExactReceiptEvent(w, op.journal[CopiedVerified], Receipt(d, Copied))
    && e.sourceKey !in w.references
    && VerifiedCount(op.journal, n) == n
    && Authorized in op.journal
    && DeletedCount(op.journal, n) == i
    && w.fences && w.workerLeases == 0 && w.private
    && removed == SourceKeySeq(op.manifest)[..i]
  }

  predicate SourceDeletionCommitted(w: World, d: string, i: nat)
    requires IsEntry(w, d, i)
  {
    Source(EntryAt(w, d, i).sourceKey) !in w.objects && SourceDeleted(i) in w.operations[d].journal
  }

  predicate FinalSnapshotClean(w: World, d: string)
    requires d in w.operations
  {
    var op := w.operations[d];
    var n := |op.manifest.entries|;
    && (forall i :: 0 <= i < n ==> Source(op.manifest.entries[i].sourceKey) !in w.objects)
    && (forall i :: 0 <= i < n ==> Copy(op.manifest.entries[i].destinationKey) in w.objects)
    && DeletedCount(op.journal, n) == n
    && NoReferences(w, op.manifest)
  }

  // ----- Other writers of the same database -----

  function AddReference(w: World, key: string): Outcome<()> {
    if w.fences && SealedSource(w, Source(key)) then Refused(ReferenceFence)
    else Committed(w.(references := w.references + {key}), ())
  }

  function DropReference(w: World, key: string): Outcome<()> {
    Committed(w.(references := w.references - {key}), ())
  }

  function TakeWorkerLease(w: World): Outcome<()> {
    if w.fences && HasOpenOperation(w) then Refused(WorkerClosed)
    else Committed(w.(workerLeases := w.workerLeases + 1), ())
  }

  function ReleaseWorkerLease(w: World): Outcome<()> {
    if w.workerLeases == 0 then Committed(w, ())
    else Committed(w.(workerLeases := w.workerLeases - 1), ())
  }

  /** `private` says that both buckets are; neither may change while an operation is open. */
  function SetBucketPrivacy(w: World, private: bool): Outcome<()> {
    if w.fences && HasOpenOperation(w) then Refused(BucketFrozen)
    else Committed(w.(private := private), ())
  }

  function SetFences(w: World, fences: bool): Outcome<()> {
    Committed(w.(fences := fences), ())
  }

  function StoreAudit(w: World, pin: AuditPin, row: AuditRow): Outcome<()> {
    if pin in w.audits then Refused(AuditEvidenceChanged)
    else Committed(w.(audits := w.audits[pin := row]), ())
  }

  function Tick(w: World): Outcome<()> {
    Committed(w.(now := w.now + 1), ())
  }
}
