/** The controller itself: the locked blocks on mutable fields, each proved equal to its
    specification in `AdmissionGate`, and the retry loop for one operation. */
module AdmissionController {
  import opened Options
  import opened AdmissionGate

  class RecoveryEpisode {
    const generation: nat
    var leader: Option<SessionId>
    var readyAt: real
    var lastError: Error
    var waiters: set<SessionId>
    var probeActive: bool
    var terminalUntil: Option<real>

    constructor (generation: nat, leader: Option<SessionId>, readyAt: real, lastError: Error)
      ensures View() == Episode(generation, leader, readyAt, lastError, {}, false, None)
    {
      this.generation := generation;
      this.leader, this.readyAt, this.lastError := leader, readyAt, lastError;
      waiters, probeActive, terminalUntil := {}, false, None;
    }

    function View(): Episode
      reads this
    {
      Episode(generation, leader, readyAt, lastError, waiters, probeActive, terminalUntil)
    }
  }

  class ProviderAdmissionController {
    const config: Config
    var episode: RecoveryEpisode?
    var nextGeneration: nat
    var authLatchUntil: Option<real>
    var authLatchError: Option<Error>
    var freeSlots: nat
    var sessions: map<SessionId, Budget>

    constructor (config: Config)
      ensures Valid() && this.config == config
      ensures View() == Gate(None, 1, None, config.maxConcurrency, map[])
    {
      this.config := config;
      episode, nextGeneration := null, 1;
      authLatchUntil, authLatchError := None, None;
      freeSlots, sessions := config.maxConcurrency, map[];
    }

    predicate Valid()
      reads this
    {
      authLatchUntil.Some? == authLatchError.Some?
    }

    function View(): Gate
      reads this, episode
    {
      Gate(if episode == null then None else Some(episode.View()), nextGeneration,
           if authLatchUntil.Some? && authLatchError.Some?
           then Some(Latch(authLatchUntil.value, authLatchError.value)) else None,
           freeSlots, sessions)
    }

    method StartRecoveryEpisode(leader: Option<SessionId>, readyAt: real, lastError: Error)
      modifies this
      ensures View() == StartEpisode(old(View()), leader, readyAt, lastError)
      ensures fresh(episode) && (Valid() <==> old(Valid()))
    {
      episode := new RecoveryEpisode(nextGeneration, leader, readyAt, lastError);
      nextGeneration := nextGeneration + 1;
    }

    method IsMatchingProbe(session: SessionId, permit: Permit) returns (matching: bool)
      ensures matching == MatchingProbe(View(), session, permit)
    {
      matching := !(permit.Normal? || episode == null || episode.generation != permit.generation
                    || episode.leader != Some(session) || !episode.probeActive);
    }

    method IsPermitCurrent(session: SessionId, permit: Permit) returns (current: bool)
      ensures current == PermitIsCurrent(View(), session, permit)
    {
      if permit.Normal? { return episode == null; }
      current := episode != null && episode.generation == permit.generation && episode.terminalUntil.None?
                 && episode.leader == Some(session) && episode.probeActive;
    }

    /** The checks before the lock; the quarantine is cleared once it has expired. */
    method CheckBeforeLock(session: SessionId, now: real) returns (outcome: TopOutcome)
      requires Valid() && session in sessions
      modifies this
      ensures Valid() && (View(), outcome) == CheckTop(old(View()), session, now)
    {
      if sessions[session].terminalError.Some? {
        return Blocked(sessions[session].terminalError.value);
      }
      if authLatchError.Some? && authLatchUntil.Some? {
        if now < authLatchUntil.value { return Blocked(authLatchError.value); }
        authLatchError, authLatchUntil := None, None;
      }
      outcome := Proceed;
    }

    /** The gate's locked block. */
    method WaitForGate(session: SessionId, now: real) returns (outcome: GateOutcome)
      requires Valid()
      modifies this, episode
      ensures Valid() && (View(), outcome) == EnterEpisode(old(View()), session, now)
    {
      if episode == null { return Granted(Normal); }
      if episode.terminalUntil.Some? {
        if now < episode.terminalUntil.value { return Quarantined(episode.lastError); }
        StartRecoveryEpisode(Some(session), now, episode.lastError);
      }
      if episode.leader.None? {
        episode.leader := Some(session);
        episode.waiters := episode.waiters - {session};
      }
      if episode.leader == Some(session) {
        if episode.probeActive { return AwaitOwnProbe(episode.generation); }
        var sleepDelay := Max(0.0, episode.readyAt - now);
        if sleepDelay == 0.0 {
          episode.probeActive := true;
          return Granted(Probe(episode.generation));
        }
        return SleepFor(episode.generation, sleepDelay);
      }
      episode.waiters := episode.waiters + {session};
      outcome := AwaitEpisode(episode.generation);
    }

    /** The locked block after the leader's sleep. */
    method ResumeAfterSleep(session: SessionId, claimedGeneration: nat) returns (granted: bool)
      requires Valid()
      modifies episode
      ensures Valid() && (View(), granted) == ClaimAfterSleep(old(View()), session, claimedGeneration)
    {
      granted := episode != null && episode.generation == claimedGeneration && episode.terminalUntil.None?
                 && episode.leader == Some(session) && !episode.probeActive;
      if granted { episode.probeActive := true; }
    }

    method CancelWaiter(session: SessionId, generation: nat)
      requires Valid()
      modifies episode
      ensures Valid() && View() == LeaveWaiters(old(View()), session, generation)
    {
      if episode != null && episode.generation == generation {
        episode.waiters := episode.waiters - {session};
      }
    }

    method CancelSleepingLeader(session: SessionId, generation: nat) returns (notified: bool)
      requires Valid()
      modifies episode
      ensures Valid() && Effect(View(), notified) == AbandonWaitingLeader(old(View()), session, generation)
    {
      if episode == null || episode.generation != generation || episode.leader != Some(session) || episode.probeActive {
        return false;
      }
      episode.leader := None;
      notified := true;
    }

    method AttemptSucceeded(session: SessionId, permit: Permit) returns (notified: bool)
      requires Valid()
      modifies this
      ensures Valid() && Effect(View(), notified) == Succeeded(old(View()), session, permit)
      ensures episode == null || episode == old(episode)
    {
      notified := IsMatchingProbe(session, permit);
      if notified {
        episode := null;
        authLatchError, authLatchUntil := None, None;
      }
    }

    method AttemptCorrected(session: SessionId, permit: Permit, now: real) returns (notified: bool)
      requires Valid()
      modifies episode
      ensures Valid() && Effect(View(), notified) == Corrected(old(View()), session, permit, now)
    {
      notified := IsMatchingProbe(session, permit);
      if notified {
        episode.probeActive := false;
        episode.readyAt := now;
      }
    }

    method AttemptRejected(session: SessionId, permit: Permit) returns (notified: bool)
      requires Valid()
      modifies this
      ensures Valid() && Effect(View(), notified) == Rejected(old(View()), session, permit)
      ensures episode == null || episode == old(episode)
    {
      notified := IsMatchingProbe(session, permit);
      if notified { episode := null; }
    }

    method AttemptAbandoned(session: SessionId, permit: Permit, now: real) returns (notified: bool)
      requires Valid()
      modifies episode
      ensures Valid() && Effect(View(), notified) == Abandoned(old(View()), session, permit, now)
    {
      notified := IsMatchingProbe(session, permit);
      if notified {
        episode.leader := None;
        episode.probeActive := false;
        episode.readyAt := now;
      }
    }

    method LatchAuthRejection(error: Error, now: real)
      requires Valid()
      modifies this
      ensures Valid() && View() == LatchAuth(old(View()), now + config.authLatchTtl, error).gate
    {
      authLatchUntil := Some(now + config.authLatchTtl);
      authLatchError := Some(error);
      episode := null;
    }

    /** Hand `error` to every session of `doomed`. */
    method FailAll(doomed: set<SessionId>, error: Error)
      requires Valid()
      modifies this`sessions
      ensures Valid() && sessions == FailSessions(old(sessions), doomed, error)
    {
      var rest := doomed;
      while rest != {}
        invariant rest <= doomed
        invariant sessions == FailSessions(old(sessions), doomed - rest, error)
        decreases |rest|
      {
        var waiter :| waiter in rest;
        if waiter in sessions {
          sessions := sessions[waiter := sessions[waiter].(terminalError := Some(error))];
        }
        rest := rest - {waiter};
      }
      assert doomed - rest == doomed;
    }

    /** A retryable failure; `jitter` and `terminalJitter` are the two samples drawn. */
    method AttemptFailed(session: SessionId, permit: Permit, error: Error, jitter: real, terminalJitter: real, now: real)
      returns (canRetry: bool, notified: bool)
      requires Valid() && session in sessions
      modifies this, episode
      ensures Valid() && canRetry == old(sessions[session].CanAttempt())
      ensures episode == old(episode) || fresh(episode)
      ensures var attempt := old(sessions[session].attemptsStarted);
              Effect(View(), notified) ==
              Failed(old(View()), session, permit, error,
                     RetryDelay(config, error, attempt, jitter), RetryDelay(config, error, attempt, terminalJitter), now)
    {
      canRetry := sessions[session].CanAttempt();
      var attempt := sessions[session].attemptsStarted;
      var delay := RetryDelay(config, error, attempt, jitter);
      var matching := IsMatchingProbe(session, permit);
      notified := canRetry || episode == null || matching;
      if canRetry {
        if episode == null {
          StartRecoveryEpisode(Some(session), now + delay, error);
        } else if matching {
          episode.lastError := error;
          episode.probeActive := false;
          episode.readyAt := now + delay;
        } else if episode.terminalUntil.Some? {
          FailAll({session}, episode.lastError);
        } else {
          episode.waiters := episode.waiters + {session};
        }
      } else if episode == null || matching {
        if episode == null { StartRecoveryEpisode(None, now, error); }
        QuarantineWith(error, now + RetryDelay(config, error, attempt, terminalJitter));
      }
    }

    method QuarantineWith(error: Error, until: real)
      requires Valid() && episode != null
      modifies this`sessions, episode
      ensures Valid() && View() == Exhaust(old(View()), error, until)
    {
      episode.lastError := error;
      episode.leader := None;
      episode.probeActive := false;
      episode.terminalUntil := Some(until);
      FailAll(episode.waiters, error);
      episode.waiters := {};
    }

    // ---- One operation under retries ----

    /** Whatever the other tasks did to the gate during an await of `session`: anything,
        except that only the session itself spends its budget. */
    method Meanwhile(session: SessionId, gate: Gate, doomed: Option<Error>)
      requires Valid() && session in sessions
      modifies this
      ensures Valid() && (episode == null || fresh(episode))
      ensures View() == gate.(sessions := gate.sessions[session := old(sessions[session]).(terminalError := doomed)])
    {
      var mine := sessions[session].(terminalError := doomed);
      episode := null;
      if gate.episode.Some? {
        var e := gate.episode.value;
        episode := new RecoveryEpisode(e.generation, e.leader, e.readyAt, e.lastError);
        episode.waiters, episode.probeActive, episode.terminalUntil := e.waiters, e.probeActive, e.terminalUntil;
      }
      nextGeneration, freeSlots := gate.nextGeneration, gate.freeSlots;
      authLatchUntil := if gate.latch.Some? then Some(gate.latch.value.until) else None;
      authLatchError := if gate.latch.Some? then Some(gate.latch.value.error) else None;
      sessions := gate.sessions[session := mine];
    }

    method ClaimAttempt(session: SessionId) returns (ok: bool)
      requires Valid() && session in sessions
      modifies this`sessions
      ensures Valid() && ok == old(sessions[session].CanAttempt())
      ensures sessions == if ok then old(sessions)[session := old(sessions[session]).(
                                       attemptsStarted := old(sessions[session].attemptsStarted) + 1)]
                          else old(sessions)
    {
      ok := sessions[session].CanAttempt();
      if ok {
        sessions := sessions[session := sessions[session].(attemptsStarted := sessions[session].attemptsStarted + 1)];
      }
    }

    /** `ProviderAttempt.retry`: a failure is reported as a rejection, after the latch if it
        is an auth lockout, or as a retryable failure. */
    method Retry(session: SessionId, permit: Permit, failure: CallResult, jitter: real, terminalJitter: real, now: real)
      returns (shouldRetry: bool)
      requires Valid() && session in sessions && failure.Raises?
      modifies this, episode
      ensures Valid() && session in sessions && (episode == null || episode == old(episode) || fresh(episode))
      ensures sessions[session].attemptsStarted == old(sessions[session].attemptsStarted)
      ensures sessions[session].maxAttempts == old(sessions[session].maxAttempts)
      ensures shouldRetry == (failure.retryable && old(sessions[session].CanAttempt()))
      ensures View() == RetryReport(config, old(View()), session, permit, failure, jitter, terminalJitter, now)
    {
      if !failure.retryable {
        if failure.lockout { LatchAuthRejection(failure.error, now); }
        var _ := AttemptRejected(session, permit);
        return false;
      }
      var notified;
      ghost var before := View();
      shouldRetry, notified := AttemptFailed(session, permit, failure.error, jitter, terminalJitter, now);
      FailedKeepsBudget(before, session, permit, failure.error,
                        RetryDelay(config, failure.error, before.sessions[session].attemptsStarted, jitter),
                        RetryDelay(config, failure.error, before.sessions[session].attemptsStarted, terminalJitter), now, session);
      assert sessions == View().sessions;
    }

    /** One turn of the retry loop: open an attempt, run the operation, report its result.
        `None` means another turn. */
    method OneRound(session: SessionId, round: Round) returns (outcome: Option<RunOutcome>)
      requires Valid() && session in sessions
      modifies this, episode
      ensures Valid() && session in sessions && (episode == null || episode == old(episode) || fresh(episode))
      ensures sessions[session].maxAttempts == old(sessions[session].maxAttempts)
      ensures sessions[session].attemptsStarted
           == old(sessions[session].attemptsStarted) + if round.admitted && old(sessions[session].CanAttempt()) then 1 else 0
      ensures outcome == if !old(sessions[session].CanAttempt()) then Some(ExhaustedSessionError)
                         else if !round.admitted then Some(NotAdmitted)
                         else match round.call
                           case Returns => Some(Result)
                           case IsCancelled => Some(Cancelled)
                           case Raises(retryable, _, _) =>
                             if retryable && sessions[session].CanAttempt() then None else Some(Failure(retryable))
      ensures round.admitted && old(sessions[session].CanAttempt())
              ==> View() == Report(config, AtResult(round, session, old(sessions[session])), session, round)
    {
      if !sessions[session].CanAttempt() { return Some(ExhaustedSessionError); }
      Meanwhile(session, round.atClaim, round.doomed);
      if !round.admitted { return Some(NotAdmitted); }
      var claimed := ClaimAttempt(session);
      Meanwhile(session, round.atResult, round.doomed);
      match round.call {
        case IsCancelled =>
          var _ := AttemptAbandoned(session, round.permit, round.now);
          return Some(Cancelled);
        case Returns =>
          var _ := AttemptSucceeded(session, round.permit);
          return Some(Result);
        case Raises(retryable, _, _) =>
          var shouldRetry := Retry(session, round.permit, round.call, round.jitter, round.terminalJitter, round.now);
          outcome := if shouldRetry then None else Some(Failure(retryable));
      }
    }

    /** Run one operation through coordinated retries, on this gate. Round `k` of `world`
        says whether the gate admitted the k-th attempt, with which permit, what the
        operation did, and what the other tasks had done to the gate by then. */
    method RunWithRetry(session: SessionId, world: nat -> Round) returns (calls: nat, outcome: RunOutcome)
      requires Valid() && config.Valid() && session !in sessions
      modifies this, episode
      ensures Valid() && session in sessions
      ensures sessions[session].attemptsStarted == calls <= sessions[session].maxAttempts == config.maxAttempts
      ensures outcome != ExhaustedSessionError
      ensures forall k: nat | k < calls :: world(k).admitted
      ensures forall k: nat | k + 1 < calls :: Retryable(world(k).call)
      ensures match outcome
              case NotAdmitted => !world(calls).admitted && (calls > 0 ==> Retryable(world(calls - 1).call))
              case Result => calls > 0 && world(calls - 1).call == Returns
              case Cancelled => calls > 0 && world(calls - 1).call == IsCancelled
              case Failure(retryable) =>
                calls > 0 && world(calls - 1).call.Raises? && world(calls - 1).call.retryable == retryable
                && (retryable ==> calls == config.maxAttempts)
              case ExhaustedSessionError => false
    {
      calls := 0;
      sessions := sessions[session := Budget(config.maxAttempts, 0, None)];
      while true
        invariant Valid() && session in sessions && (episode == null || episode == old(episode) || fresh(episode))
        invariant calls == sessions[session].attemptsStarted < sessions[session].maxAttempts == config.maxAttempts
        invariant forall k: nat | k < calls :: world(k).admitted && Retryable(world(k).call)
        decreases config.maxAttempts - calls
      {
        var over := OneRound(session, world(calls));
        if world(calls).admitted { calls := calls + 1; }
        if over.Some? { return calls, over.value; }
      }
    }
  }

  /** The gate when a round's operation ends: whatever the others made of it, with this session's
      attempt counted. */
  function AtResult(round: Round, session: SessionId, before: Budget): Gate {
    round.atResult.(sessions := round.atResult.sessions[
      session := Budget(before.maxAttempts, before.attemptsStarted + 1, round.doomed)])
  }

  /** How a failure is reported to the gate. */
  function RetryReport(config: Config, g: Gate, session: SessionId, permit: Permit, failure: CallResult,
                       jitter: real, terminalJitter: real, now: real): Gate
    requires session in g.sessions && failure.Raises?
  {
    if !failure.retryable then
      Rejected(if failure.lockout then LatchAuth(g, now + config.authLatchTtl, failure.error).gate else g, session, permit).gate
    else
      var attempt := g.sessions[session].attemptsStarted;
      Failed(g, session, permit, failure.error, RetryDelay(config, failure.error, attempt, jitter),
             RetryDelay(config, failure.error, attempt, terminalJitter), now).gate
  }

  /** How the end of a round is reported: exactly once, whichever way the operation ended. */
  function Report(config: Config, g: Gate, session: SessionId, round: Round): Gate
    requires session in g.sessions
  {
    match round.call
    case Returns => Succeeded(g, session, round.permit).gate
    case IsCancelled => Abandoned(g, session, round.permit, round.now).gate
    case Raises(_, _, _) => RetryReport(config, g, session, round.permit, round.call, round.jitter, round.terminalJitter, round.now)
  }

  predicate Retryable(call: CallResult) { call.Raises? && call.retryable }

  /** Whoever fails, nobody's spending changes. */
  lemma FailedKeepsBudget(g: Gate, s: SessionId, p: Permit, error: Error, delay: real, terminalDelay: real, now: real, t: SessionId)
    requires s in g.sessions && t in g.sessions
    ensures var after := Failed(g, s, p, error, delay, terminalDelay, now).gate.sessions;
      t in after && after[t].attemptsStarted == g.sessions[t].attemptsStarted && after[t].maxAttempts == g.sessions[t].maxAttempts
  {
  }

  datatype CallResult = Returns | Raises(retryable: bool, lockout: bool, error: Error) | IsCancelled

  datatype Round = Round(admitted: bool, permit: Permit, call: CallResult, jitter: real, terminalJitter: real, now: real,
                         atClaim: Gate, atResult: Gate, doomed: Option<Error>)

  datatype RunOutcome = NotAdmitted | Result | Cancelled | Failure(retryable: bool) | ExhaustedSessionError
}
