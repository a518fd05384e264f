/** Provider reputation, exact-model lockouts and the last-known-good map. */
module Health {
  import opened Options

  datatype FailureKind =
    | InvalidRequest | ContextWindowExceeded | Authentication | Permission
    | RateLimit | Overloaded | Timeout | Upstream | Unavailable

  datatype HealthState = Healthy | Down | Recovery | AuthError

  datatype Mark = Mark(state: HealthState, until: real)

  datatype Lock = Lock(until: real, attempts: nat)

  datatype Tuning = Tuning(downCooldown: real, authCooldown: real, day0Cooldown: real, lockoutBase: real, capacity: nat)

  type NodeKey = (string, string)

  /** `lkgp` is the ordered map of chain identities, oldest use first. */
  datatype Registry = Registry(marks: map<string, Mark>, locks: map<NodeKey, Lock>, lkgp: seq<(string, string)>)

  const MODEL_LOCKOUT_BASE := 60.0
  const MODEL_LOCKOUT_MAX_STEPS := 3
  const DOWN_KINDS := {RateLimit, Overloaded, Timeout, Upstream, Unavailable}
  const LOCK_KINDS := {InvalidRequest, ContextWindowExceeded, Permission}

  function Fresh(): Registry {
    Registry(map[], map[], [])
  }

  function Split(ref: string): NodeKey {
    if ref == "" then ("", "")
    else if ref[0] == '/' then ("", ref[1..])
    else ([ref[0]] + Split(ref[1..]).0, Split(ref[1..]).1)
  }

  lemma {:induction false} ProviderHasNoSlash(ref: string)
    ensures '/' !in Split(ref).0
  {
    if ref != "" && ref[0] != '/' {
      ProviderHasNoSlash(ref[1..]);
    }
  }

  lemma {:induction false} SplitWithoutSlash(ref: string)
    requires '/' !in ref
    ensures Split(ref) == (ref, "")
  {
    if ref != "" {
      SplitWithoutSlash(ref[1..]);
      assert ref == [ref[0]] + ref[1..];
    }
  }

  lemma {:induction false} SplitWithSlash(ref: string)
    requires '/' in ref
    ensures ref == Split(ref).0 + "/" + Split(ref).1
  {
    if ref[0] == '/' {
      assert ref == "" + "/" + ref[1..];
    } else {
      var first, rest := [ref[0]], ref[1..];
      SplitWithSlash(rest);
      assert ref == first + rest;
      assert first + (Split(rest).0 + "/" + Split(rest).1) == (first + Split(rest).0) + "/" + Split(rest).1;
    }
  }

  /** The provider and the model of a reference are the text around its first slash. */
  lemma SplitAtFirstSlash(ref: string)
    ensures '/' !in Split(ref).0
    ensures if '/' in ref then ref == Split(ref).0 + "/" + Split(ref).1 else Split(ref) == (ref, "")
  {
    ProviderHasNoSlash(ref);
    if '/' in ref { SplitWithSlash(ref); } else { SplitWithoutSlash(ref); }
  }

  function Provider(ref: string): string {
    Split(ref).0
  }

  function Doubling(attempts: nat): real {
    match attempts case 0 => 1.0 case 1 => 2.0 case 2 => 4.0 case _ => 8.0
  }

  /** `escalated_until`: it extends the old expiry, whatever the time is now. */
  function Escalated(lock: Lock): real {
    lock.until + MODEL_LOCKOUT_BASE * Doubling(lock.attempts)
  }

  function RecordSuccess(reg: Registry, ref: string): Registry {
    reg.(marks := reg.marks - {Provider(ref)}, locks := reg.locks - {Split(ref)})
  }

  function FailureMark(kind: FailureKind, now: real, tuning: Tuning): Option<Mark> {
    if kind == Authentication then Some(Mark(AuthError, now + tuning.authCooldown))
    else if kind in DOWN_KINDS then Some(Mark(Down, now + tuning.downCooldown))
    else None
  }

  function NextLock(existing: Option<Lock>, now: real, tuning: Tuning): Lock {
    match existing
    case None => Lock(now + tuning.lockoutBase, 1)
    case Some(lock) => Lock(Escalated(lock), lock.attempts + 1)
  }

  function LockOf(reg: Registry, key: NodeKey): Option<Lock> {
    if key in reg.locks then Some(reg.locks[key]) else None
  }

  function RecordFailure(reg: Registry, ref: string, kind: FailureKind, now: real, tuning: Tuning): Registry {
    var mark := FailureMark(kind, now, tuning);
    var key := Split(ref);
    Registry(
      if mark.Some? then reg.marks[key.0 := mark.value] else reg.marks,
      if kind in LOCK_KINDS then reg.locks[key := NextLock(LockOf(reg, key), now, tuning)] else reg.locks,
      reg.lkgp)
  }

  function MarkProviderDown(reg: Registry, provider: string, now: real, tuning: Tuning): Registry {
    reg.(marks := reg.marks[provider := Mark(Down, now + tuning.day0Cooldown)])
  }

  predicate ShouldSkip(reg: Registry, ref: string, now: real) {
    var key := Split(ref);
    || (key.0 in reg.marks && now < reg.marks[key.0].until && reg.marks[key.0].state in {Down, AuthError})
    || (key in reg.locks && now < reg.locks[key].until)
  }

  function EffectiveState(reg: Registry, ref: string, now: real): HealthState {
    var key := Split(ref);
    if key.0 in reg.marks && now < reg.marks[key.0].until then reg.marks[key.0].state
    else if key in reg.locks && now < reg.locks[key].until then Recovery
    else Healthy
  }

  // The last-known-good map.

  function Without(entries: seq<(string, string)>, chain: string): seq<(string, string)> {
    if entries == [] then []
    else if entries[0].0 == chain then Without(entries[1..], chain)
    else [entries[0]] + Without(entries[1..], chain)
  }

  function Newest<T>(s: seq<T>, capacity: nat): seq<T> {
    if |s| <= capacity then s else Newest(s[1..], capacity)
  }

  function Touch(entries: seq<(string, string)>, chain: string, ref: string): seq<(string, string)> {
    Without(entries, chain) + [(chain, ref)]
  }

  function RecordLkgp(reg: Registry, chain: string, ref: string, tuning: Tuning): Registry {
    reg.(lkgp := Newest(Touch(reg.lkgp, chain, ref), tuning.capacity))
  }

  function Lookup(entries: seq<(string, string)>, chain: string): (found: Option<string>)
    ensures found.None? <==> forall k | 0 <= k < |entries| :: entries[k].0 != chain
    ensures found.Some? ==> (chain, found.value) in entries
  {
    if entries == [] then None
    else if entries[0].0 == chain then Some(entries[0].1)
    else Lookup(entries[1..], chain)
  }

  function PreferredPrimary(reg: Registry, chain: string): Option<string> {
    Lookup(reg.lkgp, chain)
  }

  // Histories.

  datatype Op =
    | Success(ref: string)
    | Failure(ref: string, kind: FailureKind, at: real)
    | Served(chain: string, ref: string)
    | ProbeFailed(provider: string, at: real)
    | Reset

  function Apply(reg: Registry, op: Op, tuning: Tuning): Registry {
    match op
    case Success(ref) => RecordSuccess(reg, ref)
    case Failure(ref, kind, at) => RecordFailure(reg, ref, kind, at, tuning)
    case Served(chain, ref) => RecordLkgp(reg, chain, ref, tuning)
    case ProbeFailed(provider, at) => MarkProviderDown(reg, provider, at, tuning)
    case Reset => Fresh()
  }

  function Run(ops: seq<Op>, tuning: Tuning): Registry {
    if ops == [] then Fresh() else Apply(Run(ops[..|ops| - 1], tuning), ops[|ops| - 1], tuning)
  }

  /** The mark an operation leaves on a provider, if it concerns that provider at all. */
  function Verdict(op: Op, provider: string, tuning: Tuning): Option<Option<Mark>> {
    match op
    case Success(ref) => if Provider(ref) == provider then Some(None) else None
    case Failure(ref, kind, at) =>
      var mark := FailureMark(kind, at, tuning);
      if Provider(ref) == provider && mark.Some? then Some(mark) else None
    case Served(_, _) => None
    case ProbeFailed(p, at) => if p == provider then Some(Some(Mark(Down, at + tuning.day0Cooldown))) else None
    case Reset => Some(None)
  }

  /** A provider carries exactly the mark of the last operation that concerned it. */
  lemma {:induction false} LastVerdictStands(ops: seq<Op>, tuning: Tuning, k: nat, provider: string)
    requires k < |ops| && Verdict(ops[k], provider, tuning).Some?
    requires forall j | k < j < |ops| :: Verdict(ops[j], provider, tuning).None?
    ensures var marks := Run(ops, tuning).marks;
      match Verdict(ops[k], provider, tuning).value
      case None => provider !in marks
      case Some(mark) => provider in marks && marks[provider] == mark
  {
    if k < |ops| - 1 {
      var front := ops[..|ops| - 1];
      assert forall j | k < j < |front| :: front[j] == ops[j];
      LastVerdictStands(front, tuning, k, provider);
      assert Verdict(ops[|ops| - 1], provider, tuning).None?;
    }
  }

  lemma {:induction false} Unconcerned(ops: seq<Op>, tuning: Tuning, provider: string)
    requires forall j | 0 <= j < |ops| :: Verdict(ops[j], provider, tuning).None?
    ensures provider !in Run(ops, tuning).marks
  {
    if ops != [] {
      var front := ops[..|ops| - 1];
      assert forall j | 0 <= j < |front| :: front[j] == ops[j];
      Unconcerned(front, tuning, provider);
      assert Verdict(ops[|ops| - 1], provider, tuning).None?;
    }
  }

  ghost predicate MarksOk(reg: Registry) {
    forall p <- reg.marks :: reg.marks[p].state in {Down, AuthError}
  }

  lemma {:induction false} RunMarksOk(ops: seq<Op>, tuning: Tuning)
    ensures MarksOk(Run(ops, tuning))
  {
    if ops != [] {
      RunMarksOk(ops[..|ops| - 1], tuning);
    }
  }

  /** In every reachable registry a node is skipped exactly when it is not reported healthy. */
  lemma SkippedIffNotHealthy(ops: seq<Op>, tuning: Tuning, ref: string, now: real)
    ensures ShouldSkip(Run(ops, tuning), ref, now) <==> EffectiveState(Run(ops, tuning), ref, now) != Healthy
  {
    RunMarksOk(ops, tuning);
  }

  /** While nothing is recorded, a node can only become usable as time passes. */
  lemma SkipOnlyEnds(reg: Registry, ref: string, earlier: real, later: real)
    requires earlier <= later && ShouldSkip(reg, ref, later)
    ensures ShouldSkip(reg, ref, earlier)
  {
  }

  // What one operation changes for any node, seen by the two questions asked of the registry.

  /** The node `ref` itself is locked out at `now`. */
  predicate LockedOut(reg: Registry, ref: string, now: real) {
    Split(ref) in reg.locks && now < reg.locks[Split(ref)].until
  }

  /** Both questions have the same answer in the two registries. */
  predicate SameFor(reg: Registry, after: Registry, ref: string, now: real) {
    ShouldSkip(after, ref, now) == ShouldSkip(reg, ref, now) && EffectiveState(after, ref, now) == EffectiveState(reg, ref, now)
  }

  /** A failed authentication takes every node of the provider out until its own cooldown is
      over, and then lifts whatever the provider was marked with; an availability failure
      does so for the shorter cooldown; a rejected request concerns that one node. Nothing
      else changes, and no failure touches the last-known-good map. */
  lemma FailureReaches(reg: Registry, ref: string, kind: FailureKind, at: real, tuning: Tuning, other: string, now: real)
    ensures RecordFailure(reg, ref, kind, at, tuning).lkgp == reg.lkgp
    ensures Provider(other) != Provider(ref) ==> SameFor(reg, RecordFailure(reg, ref, kind, at, tuning), other, now)
    ensures var after := RecordFailure(reg, ref, kind, at, tuning);
      Provider(other) == Provider(ref) && kind.Authentication?
      ==> if now < at + tuning.authCooldown then ShouldSkip(after, other, now) && EffectiveState(after, other, now) == AuthError
          else ShouldSkip(after, other, now) == LockedOut(reg, other, now)
    ensures var after := RecordFailure(reg, ref, kind, at, tuning);
      Provider(other) == Provider(ref) && (kind.RateLimit? || kind.Overloaded? || kind.Timeout? || kind.Upstream? || kind.Unavailable?)
      ==> if now < at + tuning.downCooldown then ShouldSkip(after, other, now) && EffectiveState(after, other, now) == Down
          else ShouldSkip(after, other, now) == LockedOut(reg, other, now)
    ensures var after := RecordFailure(reg, ref, kind, at, tuning);
      kind.InvalidRequest? || kind.ContextWindowExceeded? || kind.Permission?
      ==> if Split(other) != Split(ref) then SameFor(reg, after, other, now)
          else Split(ref) !in reg.locks && now < at + tuning.lockoutBase ==> ShouldSkip(after, other, now)
  {
  }

  /** A success makes its node usable at once and for good, lifts the mark of the other nodes of
      its provider but no lockout of theirs, and changes nothing for other providers. */
  lemma SuccessReaches(reg: Registry, ref: string, other: string, now: real)
    ensures RecordSuccess(reg, ref).lkgp == reg.lkgp
    ensures !ShouldSkip(RecordSuccess(reg, ref), ref, now) && EffectiveState(RecordSuccess(reg, ref), ref, now) == Healthy
    ensures Provider(other) != Provider(ref) ==> SameFor(reg, RecordSuccess(reg, ref), other, now)
    ensures Provider(other) == Provider(ref) && Split(other) != Split(ref)
      ==> ShouldSkip(RecordSuccess(reg, ref), other, now) == LockedOut(reg, other, now)
          && EffectiveState(RecordSuccess(reg, ref), other, now) == if LockedOut(reg, other, now) then Recovery else Healthy
  {
  }

  /** A provider whose startup probe found nothing is down for the startup cooldown, with all
      its nodes, and no other provider is. */
  lemma ProbeReaches(reg: Registry, provider: string, at: real, tuning: Tuning, other: string, now: real)
    ensures var after := MarkProviderDown(reg, provider, at, tuning);
      if Provider(other) != provider then SameFor(reg, after, other, now)
      else if now < at + tuning.day0Cooldown then ShouldSkip(after, other, now) && EffectiveState(after, other, now) == Down
      else ShouldSkip(after, other, now) == LockedOut(reg, other, now)
  {
  }

  // Lockouts: the escalation runs from the first reject, not from the latest one.

  /** The rejects of one node, with no success in between. */
  function Rejected(reg: Registry, ref: string, kinds: seq<FailureKind>, times: seq<real>, tuning: Tuning): Registry
    requires |kinds| == |times|
  {
    if kinds == [] then reg
    else
      var n := |kinds| - 1;
      RecordFailure(Rejected(reg, ref, kinds[..n], times[..n], tuning), ref, kinds[n], times[n], tuning)
  }

  /** What the rejects after the first one add: 2, 4, and then 8 lockout bases each. */
  function Escalation(rejects: nat): real {
    if rejects <= 1 then 0.0
    else if rejects == 2 then 2.0
    else if rejects == 3 then 6.0
    else 6.0 + 8.0 * (rejects - 3) as real
  }

  /** However late the later rejects come, the expiry depends only on the first one and
      on how many there were. */
  lemma {:induction false} LockRunsFromFirstReject(reg: Registry, ref: string, kinds: seq<FailureKind>,
                                                   times: seq<real>, tuning: Tuning)
    requires |kinds| == |times| && |kinds| > 0 && Split(ref) !in reg.locks
    requires forall k <- kinds :: k in LOCK_KINDS
    ensures LockOf(Rejected(reg, ref, kinds, times, tuning), Split(ref))
         == Some(Lock(times[0] + tuning.lockoutBase + MODEL_LOCKOUT_BASE * Escalation(|kinds|), |kinds|))
  {
    var n := |kinds| - 1;
    if n > 0 {
      LockRunsFromFirstReject(reg, ref, kinds[..n], times[..n], tuning);
      assert Escalation(n + 1) == Escalation(n) + Doubling(n);
    }
  }

  lemma {:induction false} RejectsLeaveMarks(reg: Registry, ref: string, kinds: seq<FailureKind>, times: seq<real>, tuning: Tuning)
    requires |kinds| == |times| && forall k <- kinds :: k in LOCK_KINDS
    ensures Rejected(reg, ref, kinds, times, tuning).marks == reg.marks
  {
    if kinds != [] {
      var n := |kinds| - 1;
      RejectsLeaveMarks(reg, ref, kinds[..n], times[..n], tuning);
    }
  }

  /** Exactly when the latest reject of a node with a healthy provider leaves it locked. */
  lemma RejectLocksIff(reg: Registry, ref: string, kinds: seq<FailureKind>, times: seq<real>, tuning: Tuning, now: real)
    requires |kinds| == |times| && |kinds| > 0 && Split(ref) !in reg.locks && Provider(ref) !in reg.marks
    requires forall k <- kinds :: k in LOCK_KINDS
    ensures ShouldSkip(Rejected(reg, ref, kinds, times, tuning), ref, now)
       <==> now < times[0] + tuning.lockoutBase + MODEL_LOCKOUT_BASE * Escalation(|kinds|)
  {
    LockRunsFromFirstReject(reg, ref, kinds, times, tuning);
    RejectsLeaveMarks(reg, ref, kinds, times, tuning);
  }

  /** A concrete node that its second reject does not lock. */
  lemma LateRejectDoesNotLock(tuning: Tuning)
    requires tuning.lockoutBase == MODEL_LOCKOUT_BASE
    ensures !ShouldSkip(Rejected(Fresh(), "p/m", [Permission, Permission], [0.0, 180.0], tuning), "p/m", 180.0)
  {
    RejectLocksIff(Fresh(), "p/m", [Permission, Permission], [0.0, 180.0], tuning, 180.0);
  }
}
