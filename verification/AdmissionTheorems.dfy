/** What the admission gate guarantees in every run. */
module AdmissionTheorems {
  import opened Options
  import opened AdmissionGate
  import opened AdmissionMachine
  import opened AdmissionInvariant
  import opened AdmissionHistory
  import opened AdmissionLedger

  // ---- One probe at a time ----

  /** `probeActive` says exactly that somebody is answerable for an unresolved probe of
      the open episode; there is only one such session, it is the leader, and it is
      answerable once: at an await of its own or through a detached abandon. */
  lemma SingleProbe(config: Config, moves: seq<Move>)
    requires config.Valid()
    ensures var st := Execute(Init(config), moves);
      st.gate.episode.Some? ==>
        var e := st.gate.episode.value;
        && (e.probeActive <==> exists s: SessionId :: Holds(st, s, e.generation))
        && (forall s: SessionId :: Holds(st, s, e.generation) ==>
              && e.leader == Some(s)
              && !(s in st.pcs && st.pcs[s].Held() == Some(e.generation) && (s, e.generation) in st.detached))
  {
    RunInv(config, moves);
    var st := Execute(Init(config), moves);
    if st.gate.episode.Some? {
      var e := st.gate.episode.value;
      forall s: SessionId | Holds(st, s, e.generation)
        ensures e.leader == Some(s) && e.probeActive
        ensures !(s in st.pcs && st.pcs[s].Held() == Some(e.generation) && (s, e.generation) in st.detached)
      {
        if (s, e.generation) in st.detached {
          assert DetachedOk(st, s, e.generation);
        } else {
          assert SessionOk(st.gate, s, st.pcs[s]);
        }
      }
      assert e.probeActive ==> Holds(st, e.leader.value, e.generation);
    }
  }

  /** An attempt that starts while an episode is open is that episode's probe, started by
      its leader, and the budget check before it never fails. */
  lemma ClaimIsTheProbe(st: State, step: Step)
    requires Reachable(st) && NewEvent(st, Act(st, step)).Some? && NewEvent(st, Act(st, step)).value.Claim?
    ensures var claim := NewEvent(st, Act(st, step)).value;
      && claim.session == step.s && claim.at == st.now
      && match st.gate.episode
         case None => claim.permit == Normal
         case Some(e) => claim.permit == Probe(e.generation) && e.leader == Some(claim.session) && e.probeActive
                         && e.terminalUntil.None?
  {
    ReachableInv(st);
    if step.s in st.pcs {
      assert BudgetOk(st, step.s) && SessionOk(st.gate, step.s, st.pcs[step.s]);
      StepBooks(st, step, step.s, 0.0);
    }
  }

  // ---- Waiting ----

  /** Nobody sleeps on the condition without somebody to wake it: a session in
      `condition.wait()` that was not notified waits for an open episode with a leader,
      as one of its waiters or for its own probe. */
  lemma NoLostWakeup(config: Config, moves: seq<Move>, s: SessionId)
    requires config.Valid()
    ensures var st := Execute(Init(config), moves);
      s in st.pcs && st.pcs[s].Waiting? && !st.pcs[s].notified ==>
        StillAwaited(st.gate.episode, s, st.pcs[s].generation, st.pcs[s].asWaiter)
  {
    RunInv(config, moves);
    var st := Execute(Init(config), moves);
    assert s in st.pcs ==> SessionOk(st.gate, s, st.pcs[s]);
  }

  // ---- Budgets and slots ----

  /** Free slots and unclosed attempts always add up to the bulkhead's size; no session
      starts more attempts than its budget; and whoever is inside open_attempt has budget
      left, so the exhausted-session error cannot be raised there. */
  lemma Conservation(config: Config, moves: seq<Move>)
    requires config.Valid()
    ensures var st := Execute(Init(config), moves);
      && st.gate.freeSlots + |SlotHolders(st.pcs)| == config.maxConcurrency
      && forall s | s in st.pcs ::
           && s in st.gate.sessions
           && st.gate.sessions[s].attemptsStarted <= config.maxAttempts
           && (st.pcs[s].Entering() ==> st.gate.sessions[s].CanAttempt())
  {
    RunInv(config, moves);
    var st := Execute(Init(config), moves);
    forall s | s in st.pcs
      ensures BudgetOk(st, s)
    {
    }
    ConfigKept(config, moves);
  }

  lemma {:induction false} ConfigKept(config: Config, moves: seq<Move>)
    requires config.Valid()
    ensures Execute(Init(config), moves).config == config
  {
    if moves != [] {
      ConfigKept(config, moves[..|moves| - 1]);
      RunInv(config, moves[..|moves| - 1]);
      NextFrame(Execute(Init(config), moves[..|moves| - 1]), moves[|moves| - 1]);
    }
  }

  /** However many sessions wait, an episode whose leadership was never abandoned makes at
      most one budget's worth of probes. */
  lemma ProbesWithinOneBudget(config: Config, moves: seq<Move>, g: nat)
    requires config.Valid()
    ensures var st := Execute(Init(config), moves);
      Dropped(g) !in st.log ==> ProbeCount(st.log, g) <= config.maxAttempts
  {
    RunInv(config, moves);
    ConfigKept(config, moves);
    assert CountOk(Execute(Init(config), moves), g);
  }

  // ---- What a later state keeps of an earlier one ----

  predicate FrameKept(st: State, after: State) {
    && after.config == st.config && st.now <= after.now
    && st.gate.nextGeneration <= after.gate.nextGeneration
    && st.log <= after.log
    && (after.gate.episode.Some? ==>
          IsOpen(st.gate.episode, after.gate.episode.value.generation)
          || after.gate.episode.value.generation >= st.gate.nextGeneration)
  }

  lemma StepKept(st: State, step: Step)
    requires Inv(st)
    ensures FrameKept(st, Act(st, step))
  {
    var s := step.s;
    if s in st.pcs {
      assert BudgetOk(st, s) && SessionOk(st.gate, s, st.pcs[s]);
      StepBooks(st, step, s, 0.0);
    } else {
      assert Act(st, step) == if step.NewSession? then DoNewSession(st, s) else st;
    }
  }

  lemma NextFrame(st: State, move: Move)
    requires Inv(st)
    ensures FrameKept(st, Next(st, move))
  {
    if move.Take? { StepKept(st, move.step); }
  }

  lemma {:induction false} ExecuteFrame(st: State, moves: seq<Move>)
    requires Inv(st)
    ensures Inv(Execute(st, moves)) && FrameKept(st, Execute(st, moves))
  {
    if moves != [] {
      var before := Execute(st, moves[..|moves| - 1]);
      ExecuteFrame(st, moves[..|moves| - 1]);
      NextInv(before, moves[|moves| - 1]);
      NextFrame(before, moves[|moves| - 1]);
    }
  }

  // ---- Stale attempts ----

  /** The episode as far as a stale attempt may not touch it. */
  predicate Untouched(before: Episode, after: Episode, s: SessionId) {
    && after == before.(waiters := after.waiters)
    && before.waiters <= after.waiters <= before.waiters + {s}
  }

  /** The permit whose result a session is about to report, or to drop for good. */
  function Reported(pc: Pc): Option<Permit> {
    match pc
    case DroppingPermit(p, false) => Some(p)
    case Running(p, _) => Some(p)
    case Closing(p) => Some(p)
    case _ => None
  }

  lemma StaleFailure(st: State, s: SessionId, p: Permit, error: Error, j0: real, j1: real)
    requires Inv(st) && s in st.pcs && s in st.gate.sessions && st.pcs[s] == Running(p, false) && st.gate.episode.Some?
    requires !MatchingProbe(st.gate, s, p)
    ensures var after := DoFail(st, s, p, error, j0, j1).gate;
      after.episode.Some? && Untouched(st.gate.episode.value, after.episode.value, s)
  {
  }

  /** Dropping a permit that is not the matching probe changes nothing; the session then
      leaves, or enters the gate like anybody else. */
  lemma StaleDrop(st: State, s: SessionId)
    requires s in st.pcs && s in st.gate.sessions && st.pcs[s].DroppingPermit?
    requires !MatchingProbe(st.gate, s, st.pcs[s].permit)
    ensures Act(st, DropPermit(s)) == if st.pcs[s].again then AtTop(st, s) else Goto(st, s, Idle)
  {
    assert DoAbandon(st, s, st.pcs[s].permit) == st;
  }

  lemma StaleReportIntoEpisode(st: State, step: Step)
    requires Inv(st) && step.s in st.pcs && Reported(st.pcs[step.s]).Some? && st.gate.episode.Some?
    requires !MatchingProbe(st.gate, step.s, Reported(st.pcs[step.s]).value)
    requires !step.LatchOn? && !step.FinishDetached?
    ensures var after := Act(st, step).gate;
      after.episode.Some? && Untouched(st.gate.episode.value, after.episode.value, step.s)
  {
    if step.Fail? && st.pcs[step.s].Running? && !st.pcs[step.s].latched {
      StaleFailure(st, step.s, st.pcs[step.s].permit, step.error, step.jitter, step.terminalJitter);
    }
  }

  lemma StaleReportAlone(st: State, step: Step)
    requires Inv(st) && step.s in st.pcs && Reported(st.pcs[step.s]).Some? && st.gate.episode.None?
    requires !step.LatchOn? && !step.FinishDetached?
    ensures var after := Act(st, step).gate;
      after.episode.Some? ==> step.Fail? && after.episode.value.generation == st.gate.nextGeneration
  {
  }

  /** Whatever a stale attempt reports, except an auth lockout, the open episode keeps its
      generation, leader, probe, probe time, error and quarantine; the attempt's session
      may join the waiters. With no episode open, a retryable or exhausting failure opens
      one with a fresh generation; nothing else does. */
  lemma StaleReport(st: State, step: Step)
    requires Reachable(st) && step.s in st.pcs && Reported(st.pcs[step.s]).Some?
    requires !MatchingProbe(st.gate, step.s, Reported(st.pcs[step.s]).value)
    requires !step.LatchOn? && !step.FinishDetached?
    ensures var after := Act(st, step).gate;
      match st.gate.episode
      case Some(e) => after.episode.Some? && Untouched(e, after.episode.value, step.s)
      case None => after.episode.Some? ==> step.Fail? && after.episode.value.generation == st.gate.nextGeneration
  {
    ReachableInv(st);
    if st.gate.episode.Some? { StaleReportIntoEpisode(st, step); } else { StaleReportAlone(st, step); }
  }

  lemma StaleDetached(st: State, step: Step)
    requires Reachable(st) && step.FinishDetached?
    requires !MatchingProbe(st.gate, step.s, Probe(step.generation))
    ensures Act(st, step).gate == st.gate
  {
    ReachableInv(st);
    assert (step.s, step.generation) in st.detached ==> DetachedOk(st, step.s, step.generation);
  }

  /** A probe that does not match now never matches again. */
  lemma StaleForever(st: State, s: SessionId, g: nat, moves: seq<Move>)
    requires Reachable(st) && Holds(st, s, g) && !MatchingProbe(st.gate, s, Probe(g))
    ensures !IsOpen(Execute(st, moves).gate.episode, g)
    ensures !MatchingProbe(Execute(st, moves).gate, s, Probe(g))
  {
    ReachableInv(st);
    ExecuteFrame(st, moves);
    if (s, g) in st.detached {
      assert DetachedOk(st, s, g);
    } else {
      assert SessionOk(st.gate, s, st.pcs[s]);
    }
  }

  // ---- Probe times ----

  /** The failure's probe time is on record. */
  lemma FailureRecorded(st: State, s: SessionId, error: Error, j0: real, j1: real)
    requires s in st.pcs && s in st.gate.sessions && st.pcs[s].Running? && !st.pcs[s].latched
    requires JitterSample(st.config, j0) && JitterSample(st.config, j1)
    requires st.gate.sessions[s].CanAttempt()
    requires st.gate.episode.None? || MatchingProbe(st.gate, s, st.pcs[s].permit)
    ensures var failed := Act(st, Fail(s, error, j0, j1));
      && failed.gate.episode.Some?
      && var delay := RetryDelay(st.config, error, st.gate.sessions[s].attemptsStarted, j0);
      && failed.log == st.log + [Backoff(failed.gate.episode.value.generation, st.now + delay)]
  {
    assert Act(st, Fail(s, error, j0, j1)) == DoFail(st, s, st.pcs[s].permit, error, j0, j1);
  }

  /** After a retryable failure that opened or was the probe of an episode, no attempt of
      that episode starts before the computed delay has passed, which is at least what the
      failure's Retry-After header asked for. */
  lemma NoEarlyProbe(st: State, failed: State, s: SessionId, error: Error, j0: real, j1: real, moves: seq<Move>, i: nat)
    requires Reachable(st) && s in st.pcs && s in st.gate.sessions && st.pcs[s].Running? && !st.pcs[s].latched
    requires JitterSample(st.config, j0) && JitterSample(st.config, j1)
    requires st.gate.sessions[s].CanAttempt()
    requires st.gate.episode.None? || MatchingProbe(st.gate, s, st.pcs[s].permit)
    requires failed == Act(st, Fail(s, error, j0, j1))
    ensures failed.gate.episode.Some?
    ensures var last := Execute(failed, moves);
      var delay := RetryDelay(st.config, error, st.gate.sessions[s].attemptsStarted, j0);
      && (error.retryAfter.Some? ==> delay >= error.retryAfter.value)
      && (|failed.log| <= i < |last.log| && IsProbeClaim(last.log[i], failed.gate.episode.value.generation)
          ==> last.log[i].at >= st.now + delay)
  {
    ReachableInv(st);
    FailureRecorded(st, s, error, j0, j1);
    StepInv(st, Fail(s, error, j0, j1));
    ExecuteFrame(failed, moves);
    RetryDelayBounds(st.config, error, st.gate.sessions[s].attemptsStarted, j0);
    if |failed.log| <= i < |Execute(failed, moves).log| {
      OnTime(failed, Execute(failed, moves), |st.log|, i);
    }
  }

  lemma OnTime(st: State, last: State, k: nat, i: nat)
    requires Inv(last) && st.log <= last.log && k < |st.log| <= i < |last.log| && st.log[k].Backoff?
    ensures IsProbeClaim(last.log[i], st.log[k].generation) ==> last.log[i].at >= st.log[k].until
  {
    assert last.log[k] == st.log[k];
  }

  // ---- Shared exhaustion ----

  /** A quarantined episode is empty: nobody leads it, probes it or waits for it. */
  lemma QuarantineIsEmpty(config: Config, moves: seq<Move>)
    requires config.Valid()
    ensures var episode := Execute(Init(config), moves).gate.episode;
      episode.Some? && episode.value.terminalUntil.Some? ==>
        episode.value.leader.None? && !episode.value.probeActive && episode.value.waiters == {}
  {
    RunInv(config, moves);
  }

  /** Marked with a terminal error, and due to look at it before any further attempt. */
  predicate Barred(st: State, w: SessionId) {
    && w in st.pcs && w in st.gate.sessions
    && st.gate.sessions[w].terminalError.Some?
    && !st.pcs[w].PastChecks()
  }

  /** A doomed session that is not past the checks stays so, and spends nothing. */
  predicate BarredKept(st: State, after: State, w: SessionId) {
    Barred(st, w) ==>
      Barred(after, w) && after.gate.sessions[w].attemptsStarted == st.gate.sessions[w].attemptsStarted
  }

  lemma RunningBarred(st: State, step: Step, w: SessionId)
    requires Barred(st, w) && step.s in st.pcs && step.s in st.gate.sessions && st.pcs[step.s].Running?
    ensures BarredKept(st, ActRunning(st, step.s, step, st.pcs[step.s].permit, st.pcs[step.s].latched), w)
  {
  }

  lemma DropBarred(st: State, s: SessionId, w: SessionId)
    requires Barred(st, w) && s in st.pcs && s in st.gate.sessions && st.pcs[s].DroppingPermit?
    ensures BarredKept(st, DoDropPermit(st, s, st.pcs[s].permit, st.pcs[s].again), w)
  {
  }

  lemma EnteringBarred(st: State, s: SessionId, w: SessionId)
    requires Barred(st, w) && s in st.pcs && s in st.gate.sessions
    ensures BarredKept(st, AtTop(st, s), w)
    ensures st.pcs[s].Sleeping? ==> BarredKept(st, DoEndSleep(st, s, st.pcs[s].generation), w)
  {
  }

  lemma LeavingBarred(st: State, s: SessionId, g: nat, w: SessionId)
    requires Barred(st, w) && s in st.pcs && s in st.gate.sessions
    ensures BarredKept(st, DoLeaveLead(st, s, g), w)
  {
  }

  lemma ClosingBarred(st: State, s: SessionId, step: Step, p: Permit, w: SessionId)
    requires Barred(st, w) && s in st.pcs && s in st.gate.sessions && st.pcs[s].Closing?
    ensures BarredKept(st, ActClosing(st, s, step, p), w)
  {
  }

  lemma CancelBarred(st: State, s: SessionId, w: SessionId)
    requires Barred(st, w) && s in st.pcs && s in st.gate.sessions
    ensures BarredKept(st, DoCancel(st, s), w)
  {
  }

  lemma KnownBarred(st: State, s: SessionId, step: Step, w: SessionId)
    requires Barred(st, w) && s == step.s && s in st.pcs && s in st.gate.sessions
    ensures BarredKept(st, ActKnown(st, s, step), w)
  {
    if step.Cancel? {
      CancelBarred(st, s, w);
    } else {
      EnteringBarred(st, s, w);
      match st.pcs[s]
      case Running(_, _) => RunningBarred(st, step, w);
      case DroppingPermit(_, _) => DropBarred(st, s, w);
      case LeavingLead(g) => LeavingBarred(st, s, g, w);
      case Closing(p) => ClosingBarred(st, s, step, p, w);
      case _ =>
    }
  }

  lemma StepBarred(st: State, step: Step, w: SessionId)
    requires Barred(st, w)
    ensures BarredKept(st, Act(st, step), w)
  {
    if step.s in st.pcs && step.s in st.gate.sessions {
      KnownBarred(st, step.s, step, w);
    }
  }

  lemma NextBarred(st: State, move: Move, w: SessionId)
    requires Barred(st, w)
    ensures BarredKept(st, Next(st, move), w)
  {
    if move.Take? { StepBarred(st, move.step, w); }
  }

  /** However the run goes on, a barred session never starts another attempt. */
  lemma {:induction false} BarredForever(st: State, w: SessionId, moves: seq<Move>)
    requires Barred(st, w)
    ensures var last := Execute(st, moves);
      Barred(last, w) && last.gate.sessions[w].attemptsStarted == st.gate.sessions[w].attemptsStarted
  {
    if moves != [] {
      BarredForever(st, w, moves[..|moves| - 1]);
      NextBarred(Execute(st, moves[..|moves| - 1]), moves[|moves| - 1], w);
    }
  }

  /** A probe that fails with the leader's budget gone quarantines the provider: nobody
      leads or waits any more, and every waiter carries the leader's error. */
  lemma ExhaustionBars(st: State, s: SessionId, error: Error, j0: real, j1: real, w: SessionId)
    requires Inv(st) && s in st.pcs && s in st.gate.sessions && st.pcs[s].Running? && !st.pcs[s].latched
    requires JitterSample(st.config, j0) && JitterSample(st.config, j1)
    requires !st.gate.sessions[s].CanAttempt() && MatchingProbe(st.gate, s, st.pcs[s].permit)
    requires w in st.gate.episode.value.waiters
    ensures var after := Act(st, Fail(s, error, j0, j1));
      && after.gate.episode.Some?
      && var e := after.gate.episode.value;
      && e.generation == st.gate.episode.value.generation
      && e.terminalUntil.Some? && e.leader.None? && !e.probeActive && e.waiters == {} && e.lastError == error
      && w in after.gate.sessions && after.gate.sessions[w].terminalError == Some(error)
      && Barred(after, w)
  {
    assert SessionOk(st.gate, s, st.pcs[s]);
    assert w in st.pcs && SessionOk(st.gate, w, st.pcs[w]);
    assert Act(st, Fail(s, error, j0, j1)) == DoFail(st, s, st.pcs[s].permit, error, j0, j1);
  }

  predicate ClaimedBy(e: Event, w: SessionId) { e.Claim? && e.session == w }

  /** The log has grown, without a claim by `w`. */
  ghost predicate SilentSince(log: seq<Event>, later: seq<Event>, w: SessionId) {
    |log| <= |later| && forall i | |log| <= i < |later| :: !ClaimedBy(later[i], w)
  }

  lemma SilentStep(st: State, move: Move, w: SessionId)
    requires Inv(st) && Barred(st, w)
    ensures var after := Next(st, move);
      Inv(after) && Barred(after, w) && st.log <= after.log && SilentSince(st.log, after.log, w)
  {
    NextInv(st, move);
    NextBarred(st, move, w);
    if move.Take? && move.step.s in st.pcs {
      assert BudgetOk(st, move.step.s) && SessionOk(st.gate, move.step.s, st.pcs[move.step.s]);
      StepBooks(st, move.step, move.step.s, 0.0);
    }
  }

  lemma SilentFurther(log: seq<Event>, mid: seq<Event>, later: seq<Event>, w: SessionId)
    requires SilentSince(log, mid, w) && mid <= later && SilentSince(mid, later, w)
    ensures SilentSince(log, later, w)
  {
  }

  /** However the run goes on, a barred session never appears among the claims again. */
  lemma {:induction false} NeverClaims(st: State, w: SessionId, moves: seq<Move>)
    requires Inv(st) && Barred(st, w)
    ensures Inv(Execute(st, moves)) && Barred(Execute(st, moves), w) && SilentSince(st.log, Execute(st, moves).log, w)
  {
    if moves != [] {
      var before := Execute(st, moves[..|moves| - 1]);
      NeverClaims(st, w, moves[..|moves| - 1]);
      SilentStep(before, moves[|moves| - 1], w);
      SilentFurther(st.log, before.log, Next(before, moves[|moves| - 1]).log, w);
    }
  }

  /** Shared exhaustion: when the leader's budget runs out the episode is terminal and empty,
      every session that was waiting carries the leader's error, and however the run goes on
      none of them ever starts another attempt. */
  lemma SharedExhaustion(st: State, failed: State, s: SessionId, error: Error, j0: real, j1: real, w: SessionId, moves: seq<Move>)
    requires Reachable(st) && s in st.pcs && s in st.gate.sessions && st.pcs[s].Running? && !st.pcs[s].latched
    requires JitterSample(st.config, j0) && JitterSample(st.config, j1)
    requires !st.gate.sessions[s].CanAttempt() && MatchingProbe(st.gate, s, st.pcs[s].permit)
    requires w in st.gate.episode.value.waiters && failed == Act(st, Fail(s, error, j0, j1))
    ensures failed.gate.episode.Some?
    ensures var e := failed.gate.episode.value;
      && e.generation == st.gate.episode.value.generation
      && e.terminalUntil.Some? && e.leader.None? && !e.probeActive && e.waiters == {} && e.lastError == error
    ensures w in failed.gate.sessions && failed.gate.sessions[w].terminalError == Some(error)
    ensures var last := Execute(failed, moves);
      && w in last.gate.sessions && last.gate.sessions[w].terminalError.Some?
      && last.gate.sessions[w].attemptsStarted == failed.gate.sessions[w].attemptsStarted
      && SilentSince(failed.log, last.log, w)
  {
    ReachableInv(st);
    ExhaustionBars(st, s, error, j0, j1, w);
    StepInv(st, Fail(s, error, j0, j1));
    BarredForever(failed, w, moves);
    NeverClaims(failed, w, moves);
  }
}
