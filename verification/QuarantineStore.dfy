/**
 The database and the two buckets as one mutable object. Every method is one transaction of the
 repository or one storage request: it checks, writes, reads back, and rolls back when it refuses.
 */
module QuarantineStore {
  import opened Wrappers
  import opened QuarantineModel
  import opened QuarantineSafety
  import opened QuarantineResume
  import opened QuarantineProgress

  /** The method answered what the transaction says and left the state it says. */
  ghost predicate Settles<T>(w: World, outcome: Outcome<T>, r: Result<T, Error>, w': World) {
    match outcome
    case Committed(world, value) => r == Ok(value) && w' == world
    case Refused(error) => r == Err(error) && w' == w
  }

  class ArchiveStore {
    var objects: map<Address, Stored>
    var issued: map<Facts, Content>
    var operations: map<string, Operation>
    var references: set<string>
    var workerLeases: nat
    var fences: bool
    var private: bool
    var audits: map<AuditPin, AuditRow>
    var now: nat
    /** Object ids are handed out in order. */
    var serial: nat

    function View(): World
      reads this
    {
      World(objects, issued, operations, references, workerLeases, fences, private, audits, now)
    }

    /** The schedule that led to the current attempt, as steps of the state machine. */
    ghost var start: World
    ghost var history: seq<Step>
    /** The steps of the current attempt, all of them benign for the plan it works on. */
    ghost var plan: Manifest
    ghost var since: World
    ghost var attempt: seq<Step>

    ghost predicate Valid()
      reads this
    {
      && Initial(start) && ValidRun(start, history) && since == Run(start, history)
      && BenignRun(since, plan, attempt) && View() == Run(since, attempt)
      && forall f :: f in issued ==> f.objectId < serial
    }

    lemma Reached()
      requires Valid()
      ensures Inv(View())
    {
      RunKeepsInv(start, history);
      BenignIsValid(since, plan, attempt);
      RunKeepsInv(since, attempt);
    }

    /** What the current attempt has added to the journal of its plan. */
    lemma AttemptFalls(mark: Mark)
      requires Valid() && PlanSealed(since, plan) && mark in PlanMarks(plan) && Recorded(View(), plan.digest, mark)
      ensures PlanSealed(View(), plan)
      ensures !Recorded(since, plan.digest, mark) ==> MissingEvents(View(), plan) < MissingEvents(since, plan)
      ensures mark == Completed ==> MissingEvents(View(), plan) == 0
    {
      Reached();
      RunKeepsInv(start, history);
      BenignIsValid(since, plan, attempt);
      MissingFalls(since, plan, attempt);
      NothingMissingIffCompleted(View(), plan);
    }

    constructor (m: Manifest)
      ensures Valid() && plan == m
    {
      var empty := World(map[], map[], map[], {}, 0, true, true, map[], 0);
      objects, issued, operations, references := map[], map[], map[], {};
      workerLeases, fences, private, audits, now, serial := 0, true, true, map[], 0, 0;
      start, history, plan, since, attempt := empty, [], m, empty, [];
    }

    /** A process starts, after whatever happened to the previous ones. */
    ghost method Begin(m: Manifest)
      requires Valid()
      modifies this`history, this`plan, this`since, this`attempt
      ensures Valid() && plan == m && since == View() && attempt == []
    {
      BenignIsValid(since, plan, attempt);
      RunThenRun(start, history, attempt);
      history, plan, since, attempt := history + attempt, m, View(), [];
    }

    /** Opens a transaction; the method that calls it must then do what the step says. */
    ghost method Schedule(step: Step)
      requires Valid() && Possible(View(), step) && Benign(View(), plan, step)
      modifies this`attempt
      ensures attempt == old(attempt) + [step]
      ensures BenignRun(since, plan, attempt) && Run(since, attempt) == Execute(View(), step)
    {
      BenignThenStep(since, plan, attempt, step);
      attempt := attempt + [step];
    }

    /** A complete read between two equal rows (QuarantineTheorems.LoadIsNotTorn). */
    method Load(a: Address) returns (o: Option<Stored>)
      requires Valid()
      ensures o == if a in objects then Some(objects[a]) else None
      ensures o.Some? ==> Observed(View(), o.value)
    {
      Reached();
      o := if a in objects then Some(objects[a]) else None;
    }

    method PutImmutable(a: Address, content: Content) returns (r: Result<(), Error>, ghost minted: Facts)
      requires Valid() && OwnContent(View(), plan, a, content)
      modifies this`objects, this`issued, this`serial, this`attempt
      ensures Valid() && minted !in old(issued)
      ensures attempt == old(attempt) + [Upload(a, content, minted)]
      ensures Settles(old(View()), QuarantineModel.PutImmutable(old(View()), a, content, minted), r, View())
    {
      var facts := Facts(serial, None, now, now, "", "");
      minted := facts;
      Schedule(Upload(a, content, minted));
      if a in objects { return Err(StorageUploadFailed), minted; }
      if !MayWrite(View(), a) { return Err(StorageImmutable), minted; }
      objects := objects[a := Stored(facts, content)];
      issued := issued[facts := content];
      serial := serial + 1;
      r := Ok(());
    }

    /** DELETE of a sealed source; the trigger writes the event in the same transaction. */
    method RemoveFenced(d: string, i: nat) returns (r: Result<(), Error>)
      requires Valid() && IsEntry(View(), d, i)
      modifies this`objects, this`operations, this`attempt
      ensures Valid()
      ensures Settles(old(View()), RemoveSealed(old(View()), d, i), r, View())
    {
      Schedule(DeleteSealed(d, i));
      var entry := operations[d].manifest.entries[i];
      var a := Source(entry.sourceKey);
      if a !in objects { return Ok(()); }
      if !TriggerAllowsDelete(View(), d, i) { return Err(StorageImmutable); }
      objects := objects - {a};
      var op := operations[d];
      var event := ObjectSeen(Stored(entry.facts, entry.content), now);
      operations := operations[d := op.(journal := op.journal[SourceDeleted(i) := event])];
      r := Ok(());
    }

    method RecordAuthorized(d: string, who: Identity) returns (r: Result<(), Error>)
      requires Valid()
      modifies this`operations, this`attempt
      ensures Valid()
      ensures Settles(old(View()), QuarantineModel.RecordAuthorized(old(View()), d, who), r, View())
    {
      Schedule(Authorize(d, who));
      if d !in operations { return Err(PlanNotSealed); }
      if !DistinctApplyAuthority(operations[d], who) { return Err(ApplyAuthorityDivergent); }
      var before := operations;
      InsertIfAbsent(d, Authorized, Authority(who, now));
      var saved := operations[d].journal[Authorized];
      if !saved.Authority? || saved.identity.stable != who.stable {
        operations := before;
        return Err(EventDivergent);
      }
      r := Ok(());
    }

    method InsertIfAbsent(d: string, mark: Mark, event: Event)
      requires d in operations
      modifies this`operations
      ensures View() == AppendIfAbsent(old(View()), d, mark, event)
    {
      var op := operations[d];
      if mark !in op.journal {
        operations := operations[d := op.(journal := op.journal[mark := event])];
      }
    }

    method RecordDestinationVerified(d: string, i: nat, loaded: Stored) returns (r: Result<(), Error>)
      requires Valid() && Observed(View(), loaded)
      modifies this`operations, this`attempt
      ensures Valid()
      ensures Settles(old(View()), QuarantineModel.RecordDestinationVerified(old(View()), d, i, loaded), r, View())
    {
      Schedule(VerifyDestination(d, i, loaded));
      if d !in operations { return Err(PlanNotSealed); }
      if i >= |operations[d].manifest.entries| { return Err(EntryNotInManifest); }
      var entry := operations[d].manifest.entries[i];
      if loaded.content != entry.content { return Err(CopyUnverified); }
      if Copy(entry.destinationKey) !in objects { return Err(VerifiedObjectMissing); }
      if objects[Copy(entry.destinationKey)].facts != loaded.facts { return Err(VerifiedObjectChanged); }
      var before := operations;
      InsertIfAbsent(d, DestinationVerified(i), ObjectSeen(loaded, now));
      var saved := operations[d].journal[DestinationVerified(i)];
      if !saved.ObjectSeen? || saved.seen != loaded {
        operations := before;
        return Err(EventDivergent);
      }
      r := Ok(());
    }

    method RecordReceipt(d: string, phase: Phase, expected: Body, loaded: Stored) returns (r: Result<(), Error>)
      requires Valid() && Observed(View(), loaded)
      modifies this`operations, this`attempt
      ensures Valid()
      ensures attempt == old(attempt) + [Acknowledge(d, phase, expected, loaded, old(Recorded(View(), d, Completed)))]
      ensures Settles(old(View()),
                      QuarantineModel.RecordReceipt(old(View()), d, phase, expected, loaded, old(Recorded(View(), d, Completed))),
                      r, View())
    {
      var completedBefore := Recorded(View(), d, Completed);
      Schedule(Acknowledge(d, phase, expected, loaded, completedBefore));
      r := ReceiptTransaction(d, phase, expected, loaded, completedBefore);
    }

    method ReceiptTransaction(d: string, phase: Phase, expected: Body, loaded: Stored, completedBefore: bool)
      returns (r: Result<(), Error>)
      modifies this`operations
      ensures Settles(old(View()),
                      QuarantineModel.RecordReceipt(old(View()), d, phase, expected, loaded, completedBefore), r, View())
    {
      if d !in operations { return Err(PlanNotSealed); }
      if loaded.content.body != expected || loaded.content.contentType != JSON { return Err(ReceiptFactsInvalid); }
      if phase.Final? && !completedBefore && !CompletionBoundary(View(), d) { return Err(CompletionStateChanged); }
      if Receipt(d, phase) !in objects { return Err(VerifiedObjectMissing); }
      if objects[Receipt(d, phase)].facts != loaded.facts { return Err(VerifiedObjectChanged); }
      if !ReceiptPrerequisites(operations[d], phase) { return Err(ReceiptPrerequisitesMissing); }
      var before := operations;
      InsertIfAbsent(d, PhaseMark(phase), ObjectSeen(loaded, now));
      var saved := operations[d].journal[PhaseMark(phase)];
      if !saved.ObjectSeen? || saved.seen.facts.objectId != loaded.facts.objectId
         || saved.seen.content.body != loaded.content.body {
        operations := before;
        return Err(EventDivergent);
      }
      r := Ok(());
    }

    method RecordFinalAudit(d: string, pin: AuditPin) returns (r: Result<(), Error>)
      requires Valid()
      modifies this`operations, this`attempt
      ensures Valid() && attempt == old(attempt) + [RecordAudit(d, pin)]
      ensures Settles(old(View()), QuarantineModel.RecordFinalAudit(old(View()), d, pin), r, View())
    {
      Schedule(RecordAudit(d, pin));
      if d !in operations { return Err(PlanNotSealed); }
      if !CleanFinalAudit(View(), d, pin) || Orphans(View()) != {} || Missing(View()) != {} {
        return Err(FinalAuditChanged);
      }
      var before := operations;
      InsertIfAbsent(d, FinalAuditVerified, AuditSeen(pin, now));
      var saved := operations[d].journal[FinalAuditVerified];
      if !saved.AuditSeen? || saved.pin != pin {
        operations := before;
        return Err(EventDivergent);
      }
      r := Ok(());
    }

    /** Every source still carries the facts the plan was built from. */
    method CheckSources(m: Manifest) returns (exact: bool)
      ensures exact <==> SourcesExact(View(), m)
    {
      for i := 0 to |m.entries|
        invariant forall k :: 0 <= k < i ==>
                                && Source(m.entries[k].sourceKey) in objects
                                && objects[Source(m.entries[k].sourceKey)].facts == m.entries[k].facts
      {
        var a := Source(m.entries[i].sourceKey);
        if a !in objects || objects[a].facts != m.entries[i].facts { return false; }
      }
      exact := true;
    }

    method SealPlan(m: Manifest, who: Identity) returns (r: Result<nat, Error>)
      requires Valid() && Possible(View(), Seal(m, who))
      modifies this`operations, this`attempt
      ensures Valid()
      ensures Settles(old(View()), QuarantineModel.SealPlan(old(View()), m, who), r, View())
    {
      Schedule(Seal(m, who));
      if !ValidManifest(m) { return Err(ManifestInvalid); }
      if m.digest in operations {
        var planned := PlanIdentity(operations[m.digest]);
        if operations[m.digest].manifest != m || planned.None? || planned.value.stable != who.stable {
          return Err(SealedPlanDivergent);
        }
        return Ok(operations[m.digest].id);
      }
      if !PlanEvidenceFresh(View(), m) { return Err(AuditEvidenceChanged); }
      if workerLeases != 0 { return Err(ArchiveWorkerActive); }
      if !NoReferences(View(), m) { return Err(SourceReferenced); }
      if !private { return Err(BucketChanged); }
      var targets := set i | 0 <= i < |m.entries| :: m.entries[i].sourceKey;
      if Orphans(View()) != targets || Missing(View()) != {} { return Err(GlobalArchiveStateChanged); }
      var exact := CheckSources(m);
      if !exact { return Err(SourceFactsChanged); }
      if !DestinationsAbsent(View(), m) { return Err(DestinationPreexists); }
      if !PlanInsertAllowed(View(), m) { return Err(PlanConflict); }
      var id := |operations|;
      operations := operations[m.digest := Operation(id, m, map[PlanAuthorized := Authority(who, now)])];
      r := Ok(id);
    }
  }
}
