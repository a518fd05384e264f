/** The provider admission gate: what one lock-protected block of
    `ProviderAdmissionController` does to the controller's fields.

    Every function of this module is the specification of one such block. The class in
    `AdmissionController` performs the blocks on mutable fields and is proved equal to
    them; `AdmissionMachine` interleaves the blocks of many sessions. */
module AdmissionGate {
  import opened Options

  /** A logical execution; it stands for one `ProviderRetrySession` object. */
  type SessionId = nat

  /** An upstream exception, with the delay its Retry-After header asks for. */
  datatype Error = Error(tag: int, retryAfter: Option<real>)

  datatype Config = Config(
    maxAttempts: nat, maxConcurrency: nat,
    baseDelay: real, maxDelay: real, jitter: real, authLatchTtl: real)
  {
    /** The checks of the controller's constructor. */
    predicate Valid() {
      && maxAttempts > 0 && maxConcurrency > 0
      && 0.0 <= baseDelay <= maxDelay && jitter >= 0.0 && authLatchTtl >= 0.0
    }
  }

  /** The fields of one retry session. */
  datatype Budget = Budget(maxAttempts: nat, attemptsStarted: nat, terminalError: Option<Error>) {
    predicate CanAttempt() { attemptsStarted < maxAttempts }
  }

  datatype Permit = Normal | Probe(generation: nat)

  datatype Episode = Episode(
    generation: nat, leader: Option<SessionId>, readyAt: real, lastError: Error,
    waiters: set<SessionId>, probeActive: bool, terminalUntil: Option<real>)

  datatype Latch = Latch(until: real, error: Error)

  datatype Gate = Gate(
    episode: Option<Episode>, nextGeneration: nat, latch: Option<Latch>,
    freeSlots: nat, sessions: map<SessionId, Budget>)

  /** The controller's fields after a block, and whether it called `notify_all`. */
  datatype Effect = Effect(gate: Gate, notify: bool)

  // ---- Delays ----

  function Pow2(n: nat): (p: nat)
    ensures p >= 1
  {
    if n == 0 then 1 else 2 * Pow2(n - 1)
  }

  /** The base delay times two to the power n. */
  function Doubled(base: real, n: nat): real {
    if n == 0 then base else 2.0 * Doubled(base, n - 1)
  }

  lemma {:induction false} DoubledIsPower(base: real, n: nat)
    ensures Doubled(base, n) == base * Pow2(n) as real
  {
    if n > 0 {
      DoubledIsPower(base, n - 1);
      assert Pow2(n) as real == 2.0 * Pow2(n - 1) as real;
    }
  }

  function Max(a: real, b: real): real { if a < b then b else a }

  function Min(a: real, b: real): real { if a < b then a else b }

  function CappedDelay(config: Config, error: Error, backoff: real, jitter: real): real {
    Max(Min(backoff, config.maxDelay) + jitter, if error.retryAfter.Some? then Max(0.0, error.retryAfter.value) else 0.0)
  }

  /** `jitter` is the sample drawn for this failure. */
  function RetryDelay(config: Config, error: Error, attempt: nat, jitter: real): real {
    var exponent := if attempt == 0 then 0 else attempt - 1;
    CappedDelay(config, error, Doubled(config.baseDelay, exponent), jitter)
  }

  predicate JitterSample(config: Config, jitter: real) { 0.0 <= jitter <= config.jitter }

  /** A retry never starts before the header asks nor before the capped back-off is over: the
      base delay doubled with every attempt after the first, and the jitter on top. It starts
      exactly then, so never later than both bounds. */
  lemma RetryDelayBounds(config: Config, error: Error, attempt: nat, jitter: real)
    requires config.Valid() && JitterSample(config, jitter)
    ensures var d := RetryDelay(config, error, attempt, jitter);
            && 0.0 <= d
            && (error.retryAfter.Some? ==> d >= error.retryAfter.value)
            && (d <= config.maxDelay + config.jitter || (error.retryAfter.Some? && d == error.retryAfter.value))
    ensures var d := RetryDelay(config, error, attempt, jitter);
            var backoff := config.baseDelay * Pow2(if attempt <= 1 then 0 else attempt - 1) as real;
            && (d >= backoff + jitter || d >= config.maxDelay + jitter)
            && (d == backoff + jitter || d == config.maxDelay + jitter || (error.retryAfter.Some? && d == error.retryAfter.value))
  {
    DoubledIsPower(config.baseDelay, if attempt <= 1 then 0 else attempt - 1);
    DoubledMonotone(config.baseDelay, 0, if attempt <= 1 then 0 else attempt - 1);
  }

  lemma {:induction false} DoubledMonotone(base: real, m: nat, n: nat)
    requires base >= 0.0 && m <= n
    ensures 0.0 <= Doubled(base, m) <= Doubled(base, n)
    decreases n
  {
    if m < n {
      DoubledMonotone(base, m, n - 1);
    } else if m > 0 {
      DoubledMonotone(base, m - 1, n - 1);
    }
  }

  /** With the same jitter, a later attempt never waits less. */
  lemma RetryDelayMonotone(config: Config, error: Error, attempt: nat, later: nat, jitter: real)
    requires config.Valid() && attempt <= later
    ensures RetryDelay(config, error, attempt, jitter) <= RetryDelay(config, error, later, jitter)
  {
    var e0 := if attempt == 0 then 0 else attempt - 1;
    var e1 := if later == 0 then 0 else later - 1;
    DoubledMonotone(config.baseDelay, e0, e1);
    CapMonotone(config, error, Doubled(config.baseDelay, e0), Doubled(config.baseDelay, e1), jitter);
  }

  lemma CapMonotone(config: Config, error: Error, less: real, more: real, jitter: real)
    requires less <= more
    ensures CappedDelay(config, error, less, jitter) <= CappedDelay(config, error, more, jitter)
  {
  }

  // ---- Permits ----

  predicate MatchingProbe(g: Gate, s: SessionId, p: Permit) {
    && p.Probe?
    && g.episode.Some?
    && g.episode.value.generation == p.generation
    && g.episode.value.leader == Some(s)
    && g.episode.value.probeActive
  }

  predicate PermitIsCurrent(g: Gate, s: SessionId, p: Permit) {
    match p
    case Normal => g.episode.None?
    case Probe(_) => MatchingProbe(g, s, p) && g.episode.value.terminalUntil.None?
  }

  function StartEpisode(g: Gate, leader: Option<SessionId>, readyAt: real, error: Error): Gate {
    g.(episode := Some(Episode(g.nextGeneration, leader, readyAt, error, {}, false, None)),
       nextGeneration := g.nextGeneration + 1)
  }

  // ---- The gate ----

  datatype TopOutcome = Blocked(error: Error) | Proceed

  /** The checks at the top of the gate's loop: the session's own terminal error,
      then the auth quarantine, which an expired look clears. */
  function CheckTop(g: Gate, s: SessionId, now: real): (Gate, TopOutcome)
    requires s in g.sessions
  {
    if g.sessions[s].terminalError.Some? then (g, Blocked(g.sessions[s].terminalError.value))
    else if g.latch.Some? && now < g.latch.value.until then (g, Blocked(g.latch.value.error))
    else (g.(latch := None), Proceed)
  }

  datatype GateOutcome =
    | Granted(permit: Permit)
    | Quarantined(error: Error)
    | AwaitOwnProbe(generation: nat)
    | AwaitEpisode(generation: nat)
    | SleepFor(generation: nat, delay: real)

  /** The locked block of the gate. */
  function EnterEpisode(g: Gate, s: SessionId, now: real): (Gate, GateOutcome) {
    if g.episode.None? then (g, Granted(Normal))
    else
      var e := g.episode.value;
      if e.terminalUntil.Some? && now < e.terminalUntil.value then (g, Quarantined(e.lastError))
      else if e.terminalUntil.Some? then
        JoinEpisode(StartEpisode(g, Some(s), now, e.lastError), s, now)
      else JoinEpisode(g, s, now)
  }

  function JoinEpisode(g: Gate, s: SessionId, now: real): (Gate, GateOutcome)
    requires g.episode.Some?
  {
    var e0 := g.episode.value;
    var e := if e0.leader.None? then e0.(leader := Some(s), waiters := e0.waiters - {s}) else e0;
    if e.leader != Some(s) then
      (g.(episode := Some(e.(waiters := e.waiters + {s}))), AwaitEpisode(e.generation))
    else if e.probeActive then (g.(episode := Some(e)), AwaitOwnProbe(e.generation))
    else if e.readyAt <= now then
      (g.(episode := Some(e.(probeActive := true))), Granted(Probe(e.generation)))
    else (g.(episode := Some(e)), SleepFor(e.generation, e.readyAt - now))
  }

  /** The second locked block, after the leader's sleep: `ready_at` is not read again. */
  function ClaimAfterSleep(g: Gate, s: SessionId, generation: nat): (Gate, bool) {
    if && g.episode.Some?
       && g.episode.value.generation == generation
       && g.episode.value.terminalUntil.None?
       && g.episode.value.leader == Some(s)
       && !g.episode.value.probeActive
    then (g.(episode := Some(g.episode.value.(probeActive := true))), true)
    else (g, false)
  }

  /** A cancelled waiter leaves the episode it was waiting for. */
  function LeaveWaiters(g: Gate, s: SessionId, generation: nat): Gate {
    if g.episode.Some? && g.episode.value.generation == generation
    then g.(episode := Some(g.episode.value.(waiters := g.episode.value.waiters - {s})))
    else g
  }

  function AbandonWaitingLeader(g: Gate, s: SessionId, generation: nat): Effect {
    if && g.episode.Some?
       && g.episode.value.generation == generation
       && g.episode.value.leader == Some(s)
       && !g.episode.value.probeActive
    then Effect(g.(episode := Some(g.episode.value.(leader := None))), true)
    else Effect(g, false)
  }

  // ---- Attempt results ----

  function Succeeded(g: Gate, s: SessionId, p: Permit): Effect {
    if MatchingProbe(g, s, p) then Effect(g.(episode := None, latch := None), true)
    else Effect(g, false)
  }

  function Corrected(g: Gate, s: SessionId, p: Permit, now: real): Effect {
    if MatchingProbe(g, s, p)
    then Effect(g.(episode := Some(g.episode.value.(probeActive := false, readyAt := now))), true)
    else Effect(g, false)
  }

  function Rejected(g: Gate, s: SessionId, p: Permit): Effect {
    if MatchingProbe(g, s, p) then Effect(g.(episode := None), true) else Effect(g, false)
  }

  /** Both `_attempt_abandoned` and `_abandon_probe_permit`. */
  function Abandoned(g: Gate, s: SessionId, p: Permit, now: real): Effect {
    if MatchingProbe(g, s, p)
    then Effect(g.(episode := Some(g.episode.value.(leader := None, probeActive := false, readyAt := now))), true)
    else Effect(g, false)
  }

  function LatchAuth(g: Gate, until: real, error: Error): Effect {
    Effect(g.(latch := Some(Latch(until, error)), episode := None), true)
  }

  function FailSessions(sessions: map<SessionId, Budget>, doomed: set<SessionId>, error: Error): map<SessionId, Budget> {
    map s | s in sessions ::
      if s in doomed then sessions[s].(terminalError := Some(error)) else sessions[s]
  }

  function Failed(g: Gate, s: SessionId, p: Permit, error: Error, delay: real, terminalDelay: real, now: real): Effect
    requires s in g.sessions
  {
    if g.sessions[s].CanAttempt() then
      if g.episode.None? then Effect(StartEpisode(g, Some(s), now + delay, error), true)
      else if MatchingProbe(g, s, p) then
        Effect(g.(episode := Some(g.episode.value.(lastError := error, probeActive := false, readyAt := now + delay))), true)
      else if g.episode.value.terminalUntil.Some? then
        Effect(g.(sessions := FailSessions(g.sessions, {s}, g.episode.value.lastError)), true)
      else
        Effect(g.(episode := Some(g.episode.value.(waiters := g.episode.value.waiters + {s}))), true)
    else if g.episode.None? then Effect(Exhaust(StartEpisode(g, None, now, error), error, now + terminalDelay), true)
    else if MatchingProbe(g, s, p) then Effect(Exhaust(g, error, now + terminalDelay), true)
    else Effect(g, false)
  }

  /** The leader's budget is gone: quarantine, and fail every waiter with its error. */
  function Exhaust(g: Gate, error: Error, until: real): Gate
    requires g.episode.Some?
  {
    var e := g.episode.value;
    g.(episode := Some(e.(lastError := error, leader := None, probeActive := false,
                          terminalUntil := Some(until), waiters := {})),
       sessions := FailSessions(g.sessions, e.waiters, error))
  }
}
