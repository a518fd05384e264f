/** What a session that comes to the gate is told, during and after a lockout or a
    quarantine, and how soon the next probe follows. */
module AdmissionAnswers {
  import opened Options
  import opened AdmissionGate
  import opened AdmissionMachine
  import opened AdmissionInvariant
  import opened AdmissionHistory
  import opened AdmissionLedger
  import opened AdmissionTheorems

  /** The step brings its session to the top of the gate's loop. */
  predicate Enters(st: State, step: Step) {
    && step.s in st.pcs && step.s in st.gate.sessions
    && match step
       case OpenAttempt(s) => st.pcs[s].Idle? && st.gate.sessions[s].CanAttempt()
       case Wake(s) => st.pcs[s].Waiting? && st.pcs[s].notified
       case EndSleep(s) => st.pcs[s].Sleeping? && st.now >= st.pcs[s].wakeAt
       case DropPermit(s) => st.pcs[s].DroppingPermit? && st.pcs[s].again
       case _ => false
  }

  // ---- The answer ----

  predicate LockedOut(g: Gate, now: real) { g.latch.Some? && now < g.latch.value.until }

  predicate InQuarantine(g: Gate, now: real) {
    g.episode.Some? && g.episode.value.terminalUntil.Some? && now < g.episode.value.terminalUntil.value
  }

  /** What the gate raises, if it raises. */
  function Refusal(g: Gate, s: SessionId, now: real): Option<Error>
    requires s in g.sessions
  {
    var (checked, top) := CheckTop(g, s, now);
    if top.Blocked? then Some(top.error)
    else match EnterEpisode(checked, s, now).1
      case Quarantined(error) => Some(error)
      case _ => None
  }

  /** A session is refused with its own error, with the lockout's while that lasts, or with
      the quarantined episode's while that lasts; nobody else is refused. */
  lemma RefusedExactly(g: Gate, s: SessionId, now: real)
    requires s in g.sessions
    ensures Refusal(g, s, now) ==
            if g.sessions[s].terminalError.Some? then g.sessions[s].terminalError
            else if LockedOut(g, now) then Some(g.latch.value.error)
            else if InQuarantine(g, now) then Some(g.episode.value.lastError)
            else None
  {
  }

  /** A refused session is outside the gate, any other one inside. */
  lemma RefusedIsOutside(st: State, s: SessionId)
    requires s in st.pcs && s in st.gate.sessions
    ensures s in AtTop(st, s).pcs && (AtTop(st, s).pcs[s].Idle? <==> Refusal(st.gate, s, st.now).Some?)
  {
  }

  /** The answer to a session that enters by opening an attempt, by waking up, or after its
      sleep was in vain. A dropped permit may free the episode first, but no lockout and no
      quarantine. */
  lemma EnteringAnswer(st: State, step: Step)
    requires Inv(st) && Enters(st, step)
    requires step.EndSleep? ==> !ClaimAfterSleep(st.gate, step.s, st.pcs[step.s].generation).1
    ensures var s := step.s; var after := Act(st, step);
      && s in after.pcs
      && (after.pcs[s].Idle? <==>
            st.gate.sessions[s].terminalError.Some? || LockedOut(st.gate, st.now) || InQuarantine(st.gate, st.now))
  {
    var s := step.s;
    if step.DropPermit? {
      var left := DoAbandon(st, s, st.pcs[s].permit);
      assert left.gate.sessions == st.gate.sessions && left.gate.latch == st.gate.latch;
      assert InQuarantine(left.gate, st.now) == InQuarantine(st.gate, st.now);
      assert Act(st, step) == AtTop(left, s);
      RefusedIsOutside(left, s);
      RefusedExactly(left.gate, s, st.now);
    } else {
      assert Act(st, step) == AtTop(st, s);
      RefusedIsOutside(st, s);
      RefusedExactly(st.gate, s, st.now);
    }
  }

  // ---- The auth lockout ----

  /** Not a success of the matching probe and not another lockout: nothing else may lift or
      replace a lockout. */
  predicate LeavesLockout(st: State, move: Move) {
    !(move.Take? &&
      (move.step.LatchOn?
       || (move.step.Succeed? && move.step.s in st.pcs && st.pcs[move.step.s].Running?
           && MatchingProbe(st.gate, move.step.s, st.pcs[move.step.s].permit))))
  }

  ghost predicate LockoutRun(st: State, moves: seq<Move>) {
    moves == [] || (LockoutRun(st, moves[..|moves| - 1])
                    && LeavesLockout(Execute(st, moves[..|moves| - 1]), moves[|moves| - 1]))
  }

  /** The lockout is in force, or its time is over. */
  predicate Stands(g: Gate, now: real, lockout: Latch) {
    g.latch == Some(lockout) || (g.latch == None && now >= lockout.until)
  }

  lemma TopStands(st: State, s: SessionId, lockout: Latch)
    requires s in st.gate.sessions && Stands(st.gate, st.now, lockout)
    ensures Stands(AtTop(st, s).gate, st.now, lockout) && AtTop(st, s).now == st.now
  {
  }

  lemma RunningStands(st: State, step: Step, lockout: Latch)
    requires step.s in st.pcs && step.s in st.gate.sessions && st.pcs[step.s].Running?
    requires LeavesLockout(st, Take(step)) && Stands(st.gate, st.now, lockout)
    ensures var after := ActRunning(st, step.s, step, st.pcs[step.s].permit, st.pcs[step.s].latched);
      Stands(after.gate, after.now, lockout)
  {
  }

  lemma KnownStands(st: State, s: SessionId, step: Step, lockout: Latch)
    requires s == step.s && s in st.pcs && s in st.gate.sessions
    requires LeavesLockout(st, Take(step)) && Stands(st.gate, st.now, lockout)
    ensures Stands(ActKnown(st, s, step).gate, ActKnown(st, s, step).now, lockout)
  {
    if step.Cancel? || st.pcs[s].Closing? || st.pcs[s].LeavingLead? {
      OutsideStands(st, s, step, lockout);
    } else {
      match st.pcs[s]
      case Running(_, _) => RunningStands(st, step, lockout);
      case DroppingPermit(p, _) => TopStands(DoAbandon(st, s, p), s, lockout);
      case _ => TopStands(st, s, lockout);
    }
  }

  lemma OutsideStands(st: State, s: SessionId, step: Step, lockout: Latch)
    requires s == step.s && s in st.pcs && s in st.gate.sessions && Stands(st.gate, st.now, lockout)
    requires step.Cancel? || st.pcs[s].Closing? || st.pcs[s].LeavingLead?
    ensures Stands(ActKnown(st, s, step).gate, ActKnown(st, s, step).now, lockout)
  {
  }

  lemma MoveStands(st: State, move: Move, lockout: Latch)
    requires LeavesLockout(st, move) && Stands(st.gate, st.now, lockout)
    ensures Stands(Next(st, move).gate, Next(st, move).now, lockout)
  {
    if move.Take? && move.step.s in st.pcs && move.step.s in st.gate.sessions && !move.step.FinishDetached? {
      KnownStands(st, move.step.s, move.step, lockout);
    }
  }

  lemma {:induction false} LockoutStands(st: State, moves: seq<Move>, lockout: Latch)
    requires LockoutRun(st, moves) && Stands(st.gate, st.now, lockout)
    ensures Stands(Execute(st, moves).gate, Execute(st, moves).now, lockout)
  {
    if moves != [] {
      LockoutStands(st, moves[..|moves| - 1], lockout);
      MoveStands(Execute(st, moves[..|moves| - 1]), moves[|moves| - 1], lockout);
    }
  }

  /** The answer while a lockout stands or after it. */
  lemma LockoutAnswer(st: State, step: Step, lockout: Latch)
    requires Inv(st) && Enters(st, step) && Stands(st.gate, st.now, lockout)
    requires step.EndSleep? && st.now < lockout.until ==> !ClaimAfterSleep(st.gate, step.s, st.pcs[step.s].generation).1
    ensures step.s in Act(st, step).pcs
    ensures st.now < lockout.until ==> Act(st, step).pcs[step.s].Idle?
    ensures var own := st.gate.sessions[step.s].terminalError;
      st.now < lockout.until ==> Refusal(st.gate, step.s, st.now) == if own.Some? then own else Some(lockout.error)
    ensures st.now >= lockout.until && st.gate.sessions[step.s].terminalError.None? && !InQuarantine(st.gate, st.now)
      ==> !Act(st, step).pcs[step.s].Idle?
  {
    RefusedExactly(st.gate, step.s, st.now);
    if step.EndSleep? && ClaimAfterSleep(st.gate, step.s, st.pcs[step.s].generation).1 {
      assert Act(st, step) == DoEndSleep(st, step.s, st.pcs[step.s].generation);
    } else {
      EnteringAnswer(st, step);
    }
  }

  // A leader that was asleep when the lockout came wakes up to an episode that is gone.

  /** If session `w` sleeps, it fell asleep in an episode before generation `g`. */
  predicate AsleepBefore(st: State, w: SessionId, g: nat) {
    w in st.pcs && st.pcs[w].Sleeping? ==> st.pcs[w].generation < g
  }

  lemma StepAsleep(st: State, step: Step, g: nat, lockout: Latch)
    requires Inv(st) && st.gate.latch == Some(lockout) && st.now < lockout.until && AsleepBefore(st, step.s, g)
    requires step.s in st.pcs && step.s in st.gate.sessions
    ensures AsleepBefore(Act(st, step), step.s, g)
  {
    if Enters(st, step) {
      if step.EndSleep? && ClaimAfterSleep(st.gate, step.s, st.pcs[step.s].generation).1 {
        assert Act(st, step) == DoEndSleep(st, step.s, st.pcs[step.s].generation);
      } else {
        EnteringAnswer(st, step);
      }
    } else {
      InsideAsleep(st, step, g);
    }
  }

  lemma InsideAsleep(st: State, step: Step, g: nat)
    requires step.s in st.pcs && step.s in st.gate.sessions && AsleepBefore(st, step.s, g) && !Enters(st, step)
    ensures AsleepBefore(Act(st, step), step.s, g)
  {
  }

  lemma MoveAsleep(st: State, move: Move, w: SessionId, g: nat, lockout: Latch)
    requires Inv(st) && st.gate.latch == Some(lockout) && st.now < lockout.until && AsleepBefore(st, w, g)
    ensures AsleepBefore(Next(st, move), w, g)
  {
    if move.Take? && move.step.s in st.pcs {
      var s := move.step.s;
      assert BudgetOk(st, s) && SessionOk(st.gate, s, st.pcs[s]);
      if w == s {
        StepAsleep(st, move.step, g, lockout);
      } else if w in st.pcs {
        StepBooks(st, move.step, w, 0.0);
      } else {
        StepBooks(st, move.step, s, 0.0);
      }
    }
  }

  lemma {:induction false} LockoutAsleep(st: State, moves: seq<Move>, w: SessionId, g: nat, lockout: Latch)
    requires Inv(st) && LockoutRun(st, moves) && st.gate.latch == Some(lockout) && AsleepBefore(st, w, g)
    requires Execute(st, moves).now < lockout.until
    ensures Inv(Execute(st, moves)) && AsleepBefore(Execute(st, moves), w, g)
  {
    if moves != [] {
      var before := Execute(st, moves[..|moves| - 1]);
      ExecuteFrame(st, moves[..|moves| - 1]);
      NextFrame(before, moves[|moves| - 1]);
      LockoutAsleep(st, moves[..|moves| - 1], w, g, lockout);
      LockoutStands(st, moves[..|moves| - 1], lockout);
      MoveAsleep(before, moves[|moves| - 1], w, g, lockout);
      NextInv(before, moves[|moves| - 1]);
    }
  }

  lemma LockoutSet(st: State, s: SessionId, error: Error)
    requires Inv(st) && s in st.pcs && s in st.gate.sessions && st.pcs[s].Running? && !st.pcs[s].latched
    ensures var locked := Act(st, LatchOn(s, error));
      && Inv(locked) && locked.gate.episode.None?
      && locked.gate.latch == Some(Latch(st.now + st.config.authLatchTtl, error)) && locked.now == st.now
  {
    StepInv(st, LatchOn(s, error));
    assert Act(st, LatchOn(s, error))
        == Run(st, s, LatchAuth(st.gate, st.now + st.config.authLatchTtl, error), Running(st.pcs[s].permit, true));
  }

  /** Nobody asleep since before the lockout finds its episode again. */
  lemma NoClaimWhileLocked(locked: State, moves: seq<Move>, w: SessionId, lockout: Latch)
    requires Inv(locked) && LockoutRun(locked, moves) && locked.gate.episode.None? && locked.gate.latch == Some(lockout)
    requires var last := Execute(locked, moves); last.now < lockout.until && w in last.pcs && last.pcs[w].Sleeping?
    ensures var last := Execute(locked, moves); !ClaimAfterSleep(last.gate, w, last.pcs[w].generation).1
  {
    assert w in locked.pcs ==> SessionOk(locked.gate, w, locked.pcs[w]);
    LockoutAsleep(locked, moves, w, locked.gate.nextGeneration, lockout);
    ExecuteFrame(locked, moves);
  }

  /** An auth lockout at time t drops the episode, and until t plus its time to live, in every
      continuation in which it is neither lifted by a matching probe's success nor set anew,
      whoever comes to the gate is refused with its error, or with an earlier error of its
      own. From then on it refuses nobody: a session without an error of its own gets in
      unless a quarantine is running. */
  lemma Lockout(st: State, locked: State, s: SessionId, error: Error, moves: seq<Move>, step: Step)
    requires Reachable(st) && s in st.pcs && s in st.gate.sessions && st.pcs[s].Running? && !st.pcs[s].latched
    requires locked == Act(st, LatchOn(s, error)) && LockoutRun(locked, moves) && Enters(Execute(locked, moves), step)
    ensures locked.gate.episode.None?
    ensures var last, w := Execute(locked, moves), step.s;
      w in Act(last, step).pcs
      && (last.now < st.now + st.config.authLatchTtl ==> Act(last, step).pcs[w].Idle?)
    ensures var last := Execute(locked, moves); var own := last.gate.sessions[step.s].terminalError;
      last.now < st.now + st.config.authLatchTtl
      ==> Refusal(last.gate, step.s, last.now) == if own.Some? then own else Some(error)
    ensures var last, w := Execute(locked, moves), step.s;
      last.now >= st.now + st.config.authLatchTtl && last.gate.sessions[w].terminalError.None? && !InQuarantine(last.gate, last.now)
      ==> !Act(last, step).pcs[w].Idle?
  {
    ReachableInv(st);
    var last, lockout := Execute(locked, moves), Latch(st.now + st.config.authLatchTtl, error);
    LockoutSet(st, s, error);
    ExecuteFrame(locked, moves);
    LockoutStands(locked, moves, lockout);
    if step.EndSleep? && last.now < lockout.until { NoClaimWhileLocked(locked, moves, step.s, lockout); }
    LockoutAnswer(last, step, lockout);
  }

  // ---- The quarantine after an exhausted budget ----

  /** Generation `g` is quarantined until `until` with `error`. */
  predicate Quarantined(gate: Gate, g: nat, until: real, error: Error) {
    IsOpen(gate.episode, g) && gate.episode.value.terminalUntil == Some(until) && gate.episode.value.lastError == error
  }

  predicate IsLockout(move: Move) { move.Take? && move.step.LatchOn? }

  lemma TopQuarantined(st: State, s: SessionId, g: nat, until: real, error: Error)
    requires s in st.gate.sessions && Quarantined(st.gate, g, until, error) && g < st.gate.nextGeneration
    ensures Quarantined(AtTop(st, s).gate, g, until, error)
            || (st.now >= until && !IsOpen(AtTop(st, s).gate.episode, g))
  {
  }

  lemma RunningQuarantined(st: State, step: Step, g: nat, until: real, error: Error)
    requires step.s in st.pcs && step.s in st.gate.sessions && st.pcs[step.s].Running? && GateOk(st.gate)
    requires Quarantined(st.gate, g, until, error)
    ensures var after := ActRunning(st, step.s, step, st.pcs[step.s].permit, st.pcs[step.s].latched).gate;
      Quarantined(after, g, until, error) || (step.LatchOn? && after.episode.None?)
  {
  }

  lemma KnownQuarantined(st: State, s: SessionId, step: Step, g: nat, until: real, error: Error)
    requires s == step.s && s in st.pcs && s in st.gate.sessions && GateOk(st.gate)
    requires Quarantined(st.gate, g, until, error)
    ensures var after := ActKnown(st, s, step).gate;
      Quarantined(after, g, until, error) || ((step.LatchOn? || st.now >= until) && !IsOpen(after.episode, g))
  {
    if step.Cancel? || st.pcs[s].Closing? || st.pcs[s].LeavingLead? {
      OutsideQuarantined(st, s, step, g, until, error);
    } else {
      match st.pcs[s]
      case Running(_, _) => RunningQuarantined(st, step, g, until, error);
      case DroppingPermit(p, _) => TopQuarantined(DoAbandon(st, s, p), s, g, until, error);
      case _ => TopQuarantined(st, s, g, until, error);
    }
  }

  lemma OutsideQuarantined(st: State, s: SessionId, step: Step, g: nat, until: real, error: Error)
    requires s == step.s && s in st.pcs && s in st.gate.sessions && GateOk(st.gate)
    requires step.Cancel? || st.pcs[s].Closing? || st.pcs[s].LeavingLead?
    requires Quarantined(st.gate, g, until, error)
    ensures Quarantined(ActKnown(st, s, step).gate, g, until, error)
  {
  }

  /** The quarantine ends only by a lockout, or once its time is over. */
  lemma MoveQuarantined(st: State, move: Move, g: nat, until: real, error: Error)
    requires GateOk(st.gate) && Quarantined(st.gate, g, until, error)
    ensures var after := Next(st, move).gate;
      Quarantined(after, g, until, error) || ((IsLockout(move) || st.now >= until) && !IsOpen(after.episode, g))
  {
    if move.Take? && move.step.s in st.pcs && move.step.s in st.gate.sessions && !move.step.FinishDetached? {
      KnownQuarantined(st, move.step.s, move.step, g, until, error);
    }
  }

  /** While the episode stands it is the same quarantine; and it stands until its time is
      over, unless a lockout drops it. */
  lemma {:induction false} QuarantineRun(st: State, moves: seq<Move>, g: nat, until: real, error: Error)
    requires Inv(st) && Quarantined(st.gate, g, until, error)
    ensures var last := Execute(st, moves);
      && Inv(last)
      && (IsOpen(last.gate.episode, g) ==> Quarantined(last.gate, g, until, error))
      && (!IsOpen(last.gate.episode, g) ==> g < last.gate.nextGeneration)
      && (!IsOpen(last.gate.episode, g) && last.now < until ==> exists i :: 0 <= i < |moves| && IsLockout(moves[i]))
  {
    if moves != [] {
      var front := moves[..|moves| - 1];
      var before, move := Execute(st, front), moves[|moves| - 1];
      QuarantineRun(st, front, g, until, error);
      NextInv(before, move);
      NextFrame(before, move);
      if IsOpen(before.gate.episode, g) {
        MoveQuarantined(before, move, g, until, error);
        assert IsLockout(move) ==> IsLockout(moves[|moves| - 1]);
      } else if before.now < until {
        var i :| 0 <= i < |front| && IsLockout(front[i]);
        assert moves[i] == front[i];
      }
    }
  }

  /** The answer during a quarantine, and after its time. */
  lemma QuarantineAnswer(st: State, step: Step, g: nat, until: real, error: Error)
    requires Inv(st) && Enters(st, step) && Quarantined(st.gate, g, until, error)
    ensures step.s in Act(st, step).pcs
    ensures st.now < until ==> Act(st, step).pcs[step.s].Idle?
    ensures var own := st.gate.sessions[step.s].terminalError;
      st.now < until && !LockedOut(st.gate, st.now) ==> Refusal(st.gate, step.s, st.now) == if own.Some? then own else Some(error)
  {
    EnteringAnswer(st, step);
    RefusedExactly(st.gate, step.s, st.now);
  }

  /** Whoever comes first after the quarantine leads a fresh episode and probes at once. */
  lemma QuarantineOver(st: State, step: Step, g: nat, until: real, error: Error)
    requires Inv(st) && Enters(st, step) && Quarantined(st.gate, g, until, error) && st.now >= until
    requires st.gate.sessions[step.s].terminalError.None? && !LockedOut(st.gate, st.now)
    ensures var after := Act(st, step); var fresh' := st.gate.nextGeneration;
      && IsOpen(after.gate.episode, fresh') && fresh' > g
      && after.gate.episode.value.leader == Some(step.s) && after.gate.episode.value.probeActive
      && after.gate.episode.value.terminalUntil.None? && after.gate.episode.value.lastError == error
      && step.s in after.pcs && after.pcs[step.s] == AtLimiter(Probe(fresh'))
  {
    if step.DropPermit? {
      assert DoAbandon(st, step.s, st.pcs[step.s].permit) == st;
    }
    assert Act(st, step) == AtTop(st, step.s);
  }

  lemma ExhaustionQuarantines(st: State, s: SessionId, error: Error, j0: real, j1: real)
    requires Inv(st) && s in st.pcs && s in st.gate.sessions && st.pcs[s].Running? && !st.pcs[s].latched
    requires JitterSample(st.config, j0) && JitterSample(st.config, j1)
    requires !st.gate.sessions[s].CanAttempt() && (st.gate.episode.None? || MatchingProbe(st.gate, s, st.pcs[s].permit))
    ensures var failed := Act(st, Fail(s, error, j0, j1));
      && Inv(failed) && failed.gate.episode.Some?
      && Quarantined(failed.gate, failed.gate.episode.value.generation,
                     st.now + RetryDelay(st.config, error, st.gate.sessions[s].attemptsStarted, j1), error)
      && (st.gate.episode.None? ==> failed.gate.episode.value.readyAt == st.now)
  {
    StepInv(st, Fail(s, error, j0, j1));
    assert Act(st, Fail(s, error, j0, j1)) == DoFail(st, s, st.pcs[s].permit, error, j0, j1);
  }

  /** Whoever comes in a continuation of a quarantine, while its episode stands. */
  lemma QuarantineKept(st: State, moves: seq<Move>, step: Step, g: nat, until: real, error: Error)
    requires Inv(st) && Quarantined(st.gate, g, until, error) && Enters(Execute(st, moves), step)
    requires IsOpen(Execute(st, moves).gate.episode, g)
    ensures var last, w := Execute(st, moves), step.s; var own := last.gate.sessions[w].terminalError;
      last.now < until
      ==> && w in Act(last, step).pcs && Act(last, step).pcs[w].Idle?
          && (!LockedOut(last.gate, last.now) ==> Refusal(last.gate, w, last.now) == if own.Some? then own else Some(error))
    ensures var last, w := Execute(st, moves), step.s; var after := Act(last, step);
      last.now >= until && last.gate.sessions[w].terminalError.None? && !LockedOut(last.gate, last.now)
      ==> && IsOpen(after.gate.episode, last.gate.nextGeneration) && after.gate.episode.value.leader == Some(w)
          && w in after.pcs && after.pcs[w] == AtLimiter(Probe(last.gate.nextGeneration))
  {
    var last := Execute(st, moves);
    QuarantineRun(st, moves, g, until, error);
    if last.now < until {
      QuarantineAnswer(last, step, g, until, error);
    } else if last.gate.sessions[step.s].terminalError.None? && !LockedOut(last.gate, last.now) {
      QuarantineOver(last, step, g, until, error);
    }
  }

  /** A failure at time t that uses up the budget, of the probe or with no episode open,
      quarantines the provider for the delay computed for it, which is at least its Retry-After
      value: in every continuation the episode stands until t plus that delay unless a lockout
      drops it, and while it stands and that time is not over, whoever comes to the gate is
      refused, with its own error, a lockout's, or this one. Then the first to come, if it has no
      error of its own and no lockout stands, leads a fresh episode and probes at once. */
  lemma ExhaustionQuarantine(st: State, failed: State, s: SessionId, error: Error, j0: real, j1: real,
                             until: real, moves: seq<Move>, step: Step)
    requires Reachable(st) && s in st.pcs && s in st.gate.sessions && st.pcs[s].Running? && !st.pcs[s].latched
    requires JitterSample(st.config, j0) && JitterSample(st.config, j1)
    requires !st.gate.sessions[s].CanAttempt() && (st.gate.episode.None? || MatchingProbe(st.gate, s, st.pcs[s].permit))
    requires failed == Act(st, Fail(s, error, j0, j1)) && Enters(Execute(failed, moves), step)
    requires until == st.now + RetryDelay(st.config, error, st.gate.sessions[s].attemptsStarted, j1)
    ensures failed.gate.episode.Some?
    ensures error.retryAfter.Some? ==> until >= st.now + error.retryAfter.value
    ensures var last := Execute(failed, moves);
      last.now < until && (forall i | 0 <= i < |moves| :: !IsLockout(moves[i]))
      ==> IsOpen(last.gate.episode, failed.gate.episode.value.generation)
    ensures var last, w := Execute(failed, moves), step.s; var own := last.gate.sessions[w].terminalError;
      IsOpen(last.gate.episode, failed.gate.episode.value.generation) && last.now < until
      ==> && w in Act(last, step).pcs && Act(last, step).pcs[w].Idle?
          && (!LockedOut(last.gate, last.now) ==> Refusal(last.gate, w, last.now) == if own.Some? then own else Some(error))
    ensures var last, w := Execute(failed, moves), step.s; var after := Act(last, step);
      && IsOpen(last.gate.episode, failed.gate.episode.value.generation) && last.now >= until
      && last.gate.sessions[w].terminalError.None? && !LockedOut(last.gate, last.now)
      ==> && IsOpen(after.gate.episode, last.gate.nextGeneration) && after.gate.episode.value.leader == Some(w)
          && w in after.pcs && after.pcs[w] == AtLimiter(Probe(last.gate.nextGeneration))
  {
    ReachableInv(st);
    QuarantineLength(st, failed, s, error, j0, j1, until);
    var g := failed.gate.episode.value.generation;
    QuarantineRun(failed, moves, g, until, error);
    if IsOpen(Execute(failed, moves).gate.episode, g) { QuarantineKept(failed, moves, step, g, until, error); }
  }

  lemma QuarantineLength(st: State, failed: State, s: SessionId, error: Error, j0: real, j1: real, until: real)
    requires Inv(st) && s in st.pcs && s in st.gate.sessions && st.pcs[s].Running? && !st.pcs[s].latched
    requires JitterSample(st.config, j0) && JitterSample(st.config, j1)
    requires !st.gate.sessions[s].CanAttempt() && (st.gate.episode.None? || MatchingProbe(st.gate, s, st.pcs[s].permit))
    requires failed == Act(st, Fail(s, error, j0, j1))
    requires until == st.now + RetryDelay(st.config, error, st.gate.sessions[s].attemptsStarted, j1)
    ensures error.retryAfter.Some? ==> until >= st.now + error.retryAfter.value
    ensures Inv(failed) && failed.gate.episode.Some?
    ensures Quarantined(failed.gate, failed.gate.episode.value.generation, until, error)
  {
    ExhaustionQuarantines(st, s, error, j0, j1);
    RetryDelayBounds(st.config, error, st.gate.sessions[s].attemptsStarted, j1);
  }

  /** And no attempt starts while an episode is quarantined, not even by a session that was
      already past the gate. */
  lemma NoAttemptInQuarantine(st: State, step: Step, g: nat, until: real, error: Error)
    requires Reachable(st) && Quarantined(st.gate, g, until, error)
    ensures NewEvent(st, Act(st, step)).Some? ==> !NewEvent(st, Act(st, step)).value.Claim?
  {
    var event := NewEvent(st, Act(st, step));
    if event.Some? && event.value.Claim? {
      ClaimIsTheProbe(st, step);
      assert false;
    }
  }
}
