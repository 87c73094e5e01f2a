/**
 The advisory locks that keep the byte audit and the quarantine processes apart. The audit takes
 one lock; sealing, apply and finalize try both, one after the other, in a single statement.
 */
module Leases {
  import opened Wrappers

  /** Sealing does its work inside the transaction that holds its locks; the others only hold it open. */
  datatype Role = ByteAudit | Sealing | Driver

  /** `Detached` is work still going on after the transaction that carried its locks timed out. */
  datatype Activity = Idle | Trying(gotAudit: bool) | Working | Detached

  datatype Process = Process(role: Role, activity: Activity)

  /** `audit` and `quarantine` name the process holding each lock. */
  datatype Locks = Locks(processes: map<nat, Process>, audit: Option<nat>, quarantine: Option<nat>)

  datatype Step =
    | Start(p: nat, role: Role)
    | TryAuditLock(p: nat)
    | TryQuarantineLock(p: nat)
    | End(p: nat)
    | Expire(p: nat)

  predicate In(s: Locks, p: nat, activity: Activity) {
    p in s.processes && s.processes[p].activity == activity
  }

  function Become(s: Locks, p: nat, activity: Activity): Locks
    requires p in s.processes
  {
    s.(processes := s.processes[p := s.processes[p].(activity := activity)])
  }

  /** Transaction-scoped locks go when their transaction does, whatever ended it. */
  function Release(s: Locks, p: nat): Locks {
    s.(audit := if s.audit == Some(p) then None else s.audit,
       quarantine := if s.quarantine == Some(p) then None else s.quarantine)
  }

  function Execute(s: Locks, step: Step): Locks {
    match step
    case Start(p, role) =>
      if p in s.processes then s else s.(processes := s.processes[p := Process(role, Idle)])
    case TryAuditLock(p) =>
      if !In(s, p, Idle) then s
      else
        var got := s.audit.None?;
        var s' := if got then s.(audit := Some(p)) else s;
        if !s.processes[p].role.ByteAudit? then Become(s', p, Trying(got))
        else if got then Become(s', p, Working) else s
    case TryQuarantineLock(p) =>
      if p !in s.processes || !s.processes[p].activity.Trying? then s
      else
        var got := s.quarantine.None?;
        var s' := if got then s.(quarantine := Some(p)) else s;
        if got && s.processes[p].activity.gotAudit then Become(s', p, Working)
        else Release(Become(s', p, Idle), p)
    case End(p) =>
      if p !in s.processes then s else Release(Become(s, p, Idle), p)
    case Expire(p) =>
      if !In(s, p, Working) then s
      else Release(Become(s, p, if s.processes[p].role.Sealing? then Idle else Detached), p)
  }

  function Run(s: Locks, steps: seq<Step>): Locks
    decreases |steps|
  {
    if steps == [] then s else Run(Execute(s, steps[0]), steps[1..])
  }

  predicate Initial(s: Locks) {
    s.processes == map[] && s.audit.None? && s.quarantine.None?
  }

  /** Whoever works holds the audit lock, and all but the audit the other one too. */
  ghost predicate Inv(s: Locks) {
    && (forall p: nat :: In(s, p, Working) ==> s.audit == Some(p))
    && (forall p: nat :: In(s, p, Working) && !s.processes[p].role.ByteAudit? ==> s.quarantine == Some(p))
    && (forall p: nat :: In(s, p, Trying(true)) ==> s.audit == Some(p))
    && (s.audit.Some? ==> In(s, s.audit.value, Working) || In(s, s.audit.value, Trying(true)))
    && (s.quarantine.Some? ==> In(s, s.quarantine.value, Working))
  }

  ghost predicate InSection(s: Locks, p: nat) {
    In(s, p, Working) || In(s, p, Detached)
  }

  ghost predicate Exclusive(s: Locks) {
    forall p: nat, q: nat :: InSection(s, p) && InSection(s, q) ==> p == q
  }

  lemma {:induction false} RunKeepsInv(s: Locks, steps: seq<Step>)
    requires Inv(s)
    ensures Inv(Run(s, steps))
    decreases |steps|
  {
    if steps != [] {
      RunKeepsInv(Execute(s, steps[0]), steps[1..]);
    }
  }

  /** A lease runs out under work that goes on without it. */
  predicate Detaches(s: Locks, step: Step) {
    step.Expire? && In(s, step.p, Working) && !s.processes[step.p].role.Sealing?
  }

  predicate NeverDetaches(s: Locks, steps: seq<Step>)
    decreases |steps|
  {
    steps != [] ==> !Detaches(s, steps[0]) && NeverDetaches(Execute(s, steps[0]), steps[1..])
  }

  lemma {:induction false} NobodyDetached(s: Locks, steps: seq<Step>)
    requires NeverDetaches(s, steps) && forall p: nat :: !In(s, p, Detached)
    ensures forall p: nat :: !In(Run(s, steps), p, Detached)
    decreases |steps|
  {
    if steps != [] {
      forall p: nat ensures !In(Execute(s, steps[0]), p, Detached) {
        assert !In(s, p, Detached);
      }
      NobodyDetached(Execute(s, steps[0]), steps[1..]);
    }
  }

  /** Any number of processes, any interleaving: two live leases never coexist. */
  lemma OneLiveLease(s: Locks, steps: seq<Step>, p: nat, q: nat)
    requires Initial(s) && In(Run(s, steps), p, Working) && In(Run(s, steps), q, Working)
    ensures p == q
  {
    RunKeepsInv(s, steps);
  }

  /** While no lease of the audit, apply or finalize runs out under its work, only one process is in its section. */
  lemma ExclusiveWithoutExpiry(s: Locks, steps: seq<Step>)
    requires Initial(s) && NeverDetaches(s, steps)
    ensures Exclusive(Run(s, steps))
  {
    RunKeepsInv(s, steps);
    NobodyDetached(s, steps);
  }

  /** Acquisition by an idle process while nobody holds a lock: both locks, or the one. */
  function Acquire(role: Role, p: nat): seq<Step> {
    if role.ByteAudit? then [TryAuditLock(p)] else [TryAuditLock(p), TryQuarantineLock(p)]
  }

  lemma FreeLocksAreTaken(s: Locks, p: nat)
    requires In(s, p, Idle) && s.audit.None? && s.quarantine.None?
    ensures In(Run(s, Acquire(s.processes[p].role, p)), p, Working)
    ensures forall q: nat :: q != p && In(s, q, Detached) ==> In(Run(s, Acquire(s.processes[p].role, p)), q, Detached)
  {
    var role := s.processes[p].role;
    var s1 := Execute(s, TryAuditLock(p));
    if !role.ByteAudit? {
      var s2 := Execute(s1, TryQuarantineLock(p));
      assert Acquire(role, p)[1..] == [TryQuarantineLock(p)];
      assert Run(s1, [TryQuarantineLock(p)]) == Run(s2, []);
    } else {
      assert Acquire(role, p)[1..] == [];
    }
  }

  /** The exact limit: whenever a lease runs out under work that goes on, the next process overlaps with it. */
  lemma ExpiryOverlaps(s: Locks, p: nat, q: nat)
    requires Inv(s) && Detaches(s, Expire(p)) && In(s, q, Idle) && p != q
    ensures var s' := Execute(s, Expire(p));
            !Exclusive(Run(s', Acquire(s.processes[q].role, q)))
  {
    var s' := Execute(s, Expire(p));
    assert In(s', q, Idle) && In(s', p, Detached) && s'.audit.None? && s'.quarantine.None?;
    FreeLocksAreTaken(s', q);
    var s'' := Run(s', Acquire(s.processes[q].role, q));
    assert InSection(s'', p) && InSection(s'', q);
  }
}
