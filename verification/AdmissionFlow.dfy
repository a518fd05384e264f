/** How an episode ends, changes hands and goes on: what the steps of one session open up
    for whoever comes to the gate next. */
module AdmissionFlow {
  import opened Options
  import opened AdmissionGate
  import opened AdmissionMachine
  import opened AdmissionInvariant
  import opened AdmissionLedger
  import opened AdmissionAnswers

  predicate AllNotified(st: State) {
    forall t <- st.pcs :: st.pcs[t].Waiting? ==> st.pcs[t].notified
  }

  /** The step brings a session to the gate that nothing keeps out. */
  predicate Admits(st: State, step: Step) {
    && Enters(st, step)
    && st.gate.sessions[step.s].terminalError.None?
    && !LockedOut(st.gate, st.now) && !InQuarantine(st.gate, st.now)
  }

  predicate HoldsProbe(st: State, s: SessionId) {
    s in st.pcs && s in st.gate.sessions && st.pcs[s].Running? && MatchingProbe(st.gate, s, st.pcs[s].permit)
  }

  // ---- What a session meets at the gate ----

  /** With no episode open a session gets an ordinary permit, and an expired lockout is
      forgotten. */
  lemma OpenGate(st: State, step: Step)
    requires Admits(st, step) && st.gate.episode.None?
    ensures var after := Act(st, step);
      && step.s in after.pcs && after.pcs[step.s] == AtLimiter(Normal)
      && after.gate.episode.None? && after.gate.latch.None?
  {
    if step.DropPermit? {
      assert DoAbandon(st, step.s, st.pcs[step.s].permit) == st;
    }
    assert Act(st, step) == AtTop(st, step.s);
  }

  /** With an episode without a leader the session leads it: it probes if the probe is due,
      otherwise it sleeps exactly until then. */
  lemma LeaderlessGate(st: State, step: Step)
    requires Admits(st, step) && GateOk(st.gate)
    requires st.gate.episode.Some? && st.gate.episode.value.leader.None? && st.gate.episode.value.terminalUntil.None?
    ensures var after, e := Act(st, step), st.gate.episode.value;
      && IsOpen(after.gate.episode, e.generation) && after.gate.episode.value.leader == Some(step.s)
      && step.s in after.pcs
      && after.pcs[step.s] == if e.readyAt <= st.now then AtLimiter(Probe(e.generation)) else Sleeping(e.generation, e.readyAt)
  {
    if step.DropPermit? {
      assert DoAbandon(st, step.s, st.pcs[step.s].permit) == st;
    }
    assert Act(st, step) == AtTop(st, step.s);
  }

  /** The leader that comes back probes if the probe is due, otherwise it sleeps until then. */
  lemma LeaderReturns(st: State, s: SessionId)
    requires Admits(st, OpenAttempt(s))
    requires st.gate.episode.Some? && st.gate.episode.value.leader == Some(s)
    requires !st.gate.episode.value.probeActive && st.gate.episode.value.terminalUntil.None?
    ensures var after, e := Act(st, OpenAttempt(s)), st.gate.episode.value;
      && s in after.pcs
      && after.pcs[s] == if e.readyAt <= st.now then AtLimiter(Probe(e.generation)) else Sleeping(e.generation, e.readyAt)
  {
    assert Act(st, OpenAttempt(s)) == AtTop(st, s);
  }

  /** Anybody else waits, and the episode counts it. */
  lemma OthersWait(st: State, s: SessionId)
    requires Admits(st, OpenAttempt(s))
    requires st.gate.episode.Some? && st.gate.episode.value.leader.Some? && st.gate.episode.value.leader != Some(s)
    requires st.gate.episode.value.terminalUntil.None?
    ensures var after, e := Act(st, OpenAttempt(s)), st.gate.episode.value;
      && s in after.pcs && after.pcs[s] == Waiting(e.generation, false, true)
      && after.gate.episode == Some(e.(waiters := e.waiters + {s}))
  {
    assert Act(st, OpenAttempt(s)) == AtTop(st, s);
  }

  // ---- The episode ends ----

  /** A successful probe ends the episode and lifts a lockout: everyone waiting is notified,
      and whoever comes next, in whatever way, gets an ordinary permit unless it has failed
      with the error of an episode before. */
  lemma SuccessReopens(st: State, done: State, s: SessionId, step: Step)
    requires HoldsProbe(st, s) && !st.pcs[s].latched && done == Act(st, Succeed(s))
    ensures done.gate.episode.None? && done.gate.latch.None? && AllNotified(done)
    ensures Enters(done, step) && done.gate.sessions[step.s].terminalError.None?
      ==> step.s in Act(done, step).pcs && Act(done, step).pcs[step.s] == AtLimiter(Normal)
  {
    assert done == Run(st, s, Succeeded(st.gate, s, st.pcs[s].permit), Resolved);
    if Enters(done, step) && done.gate.sessions[step.s].terminalError.None? { OpenGate(done, step); }
  }

  /** A rejected probe ends the episode too, but a lockout stays in force. */
  lemma RejectionReopens(st: State, done: State, s: SessionId, step: Step)
    requires HoldsProbe(st, s) && done == Act(st, Reject(s))
    ensures done.gate.episode.None? && done.gate.latch == st.gate.latch && AllNotified(done)
    ensures Enters(done, step) && done.gate.sessions[step.s].terminalError.None? && !LockedOut(st.gate, st.now)
      ==> step.s in Act(done, step).pcs && Act(done, step).pcs[step.s] == AtLimiter(Normal) && Act(done, step).gate.latch.None?
  {
    assert done == Run(st, s, Rejected(st.gate, s, st.pcs[s].permit), Resolved);
    if Enters(done, step) && done.gate.sessions[step.s].terminalError.None? && !LockedOut(st.gate, st.now) { OpenGate(done, step); }
  }

  // ---- The episode goes on ----

  lemma ClosedAfterReport(st: State, s: SessionId, e: Effect)
    requires s in st.pcs && s in st.gate.sessions && s in e.gate.sessions
    ensures var closed := Act(Run(st, s, e, Resolved), Close(s));
      && closed.gate.episode == e.gate.episode && closed.gate.latch == e.gate.latch
      && closed.gate.sessions == e.gate.sessions && closed.now == st.now
      && s in closed.pcs && closed.pcs[s].Idle?
  {
  }

  /** After a correction the same leader may probe again at once. */
  lemma CorrectionProbesAgain(st: State, corrected: State, s: SessionId)
    requires GateOk(st.gate) && HoldsProbe(st, s) && !st.pcs[s].latched && corrected == Act(st, Correct(s))
    ensures AllNotified(corrected) && IsOpen(corrected.gate.episode, st.pcs[s].permit.generation)
    ensures var e := corrected.gate.episode.value;
      e.leader == Some(s) && !e.probeActive && e.readyAt == st.now && e.lastError == st.gate.episode.value.lastError
    ensures var b := st.gate.sessions[s]; var closed := Act(corrected, Close(s));
      b.CanAttempt() && b.terminalError.None? && !LockedOut(st.gate, st.now)
      ==> && s in Act(closed, OpenAttempt(s)).pcs
          && Act(closed, OpenAttempt(s)).pcs[s] == AtLimiter(Probe(st.pcs[s].permit.generation))
  {
    var e := Corrected(st.gate, s, st.pcs[s].permit, st.now);
    assert corrected == Run(st, s, e, Resolved);
    ClosedAfterReport(st, s, e);
    var b := st.gate.sessions[s];
    if b.CanAttempt() && b.terminalError.None? && !LockedOut(st.gate, st.now) {
      LeaderReturns(Act(corrected, Close(s)), s);
    }
  }

  /** The step gives up a probe for good without a report: by closing the attempt, by an
      abandon left running, or by leaving before the attempt started. */
  predicate GivesUpProbe(st: State, step: Step) {
    && step.s in st.pcs && step.s in st.gate.sessions
    && match step
       case FinishClose(s) => st.pcs[s].Closing? && MatchingProbe(st.gate, s, st.pcs[s].permit)
       case DropPermit(s) => st.pcs[s].DroppingPermit? && !st.pcs[s].again && MatchingProbe(st.gate, s, st.pcs[s].permit)
       case FinishDetached(s, g) => (s, g) in st.detached && MatchingProbe(st.gate, s, Probe(g))
       case _ => false
  }

  /** An abandoned probe hands its episode over: everyone waiting is notified, and whoever
      comes first, in whatever way, leads the episode and may probe at once. */
  lemma AbandonmentHandsOver(st: State, left: State, step: Step, next: Step)
    requires GateOk(st.gate) && GivesUpProbe(st, step) && left == Act(st, step)
    ensures AllNotified(left) && left.gate.latch == st.gate.latch
    ensures left.gate.episode == Some(st.gate.episode.value.(leader := None, probeActive := false, readyAt := st.now))
    ensures Admits(left, next)
      ==> && next.s in Act(left, next).pcs
          && Act(left, next).pcs[next.s] == AtLimiter(Probe(st.gate.episode.value.generation))
  {
    GivenUp(st, left, step);
    if Admits(left, next) { LeaderlessGate(left, next); }
  }

  lemma GivenUp(st: State, left: State, step: Step)
    requires GateOk(st.gate) && GivesUpProbe(st, step) && left == Act(st, step)
    ensures AllNotified(left) && left.gate.latch == st.gate.latch && left.now == st.now && GateOk(left.gate)
    ensures left.gate.episode == Some(st.gate.episode.value.(leader := None, probeActive := false, readyAt := st.now))
  {
  }

  /** A leader cancelled in its sleep hands the episode over as well; its probe time stays. */
  lemma LeaderGivesUp(st: State, left: State, s: SessionId, next: Step)
    requires Reachable(st) && s in st.pcs && s in st.gate.sessions && st.pcs[s].LeavingLead?
    requires IsOpen(st.gate.episode, st.pcs[s].generation) && left == Act(st, LeaveLead(s))
    ensures AllNotified(left) && left.gate == st.gate.(episode := Some(st.gate.episode.value.(leader := None)))
    ensures var e := st.gate.episode.value;
      Admits(left, next)
      ==> && next.s in Act(left, next).pcs
          && Act(left, next).pcs[next.s]
             == if e.readyAt <= st.now then AtLimiter(Probe(e.generation)) else Sleeping(e.generation, e.readyAt)
  {
    ReachableInv(st);
    assert left == DoLeaveLead(st, s, st.pcs[s].generation);
    if Admits(left, next) { LeaderlessGate(left, next); }
  }

  /** And it is due to do so as soon as it is cancelled. */
  lemma CancelledSleeper(st: State, s: SessionId)
    requires Reachable(st) && s in st.pcs && s in st.gate.sessions && st.pcs[s].Sleeping?
    requires IsOpen(st.gate.episode, st.pcs[s].generation)
    ensures var left := Act(Act(st, Cancel(s)), LeaveLead(s));
      && AllNotified(left) && left.gate == st.gate.(episode := Some(st.gate.episode.value.(leader := None)))
      && s in left.pcs && left.pcs[s].Idle?
  {
    ReachableInv(st);
    assert SessionOk(st.gate, s, st.pcs[s]);
    var g := st.pcs[s].generation;
    var cancelled := Goto(st, s, LeavingLead(g));
    assert Act(st, Cancel(s)) == cancelled;
    assert Act(cancelled, LeaveLead(s)) == DoLeaveLead(cancelled, s, g);
  }

  /** A waiter that is cancelled no longer counts in the episode it waited for. */
  lemma CancelledWaiter(st: State, s: SessionId)
    requires s in st.pcs && s in st.gate.sessions && st.pcs[s].Waiting? && st.pcs[s].asWaiter
    requires IsOpen(st.gate.episode, st.pcs[s].generation)
    ensures var e := st.gate.episode.value;
      Act(st, Cancel(s)).gate == st.gate.(episode := Some(e.(waiters := e.waiters - {s})))
  {
    assert Act(st, Cancel(s)) == DoCancel(st, s);
  }

  /** A leader whose sleep ends while its episode is open holds the probe. */
  lemma SleepEndsInProbe(st: State, s: SessionId)
    requires Reachable(st) && s in st.pcs && s in st.gate.sessions && st.pcs[s].Sleeping?
    requires st.now >= st.pcs[s].wakeAt && IsOpen(st.gate.episode, st.pcs[s].generation)
    ensures var after, g := Act(st, EndSleep(s)), st.pcs[s].generation;
      && s in after.pcs && after.pcs[s] == AtLimiter(Probe(g))
      && after.gate.episode == Some(st.gate.episode.value.(probeActive := true))
  {
    ReachableInv(st);
    assert SessionOk(st.gate, s, st.pcs[s]);
    assert Act(st, EndSleep(s)) == DoEndSleep(st, s, st.pcs[s].generation);
  }

  // ---- Failures ----

  /** A retryable failure of the probe, or one with no episode open, makes its session the
      leader until the computed delay is over: coming back it sleeps exactly that long, or
      probes at once if the delay is zero, and whoever else comes waits. */
  lemma FailureLeads(st: State, failed: State, s: SessionId, error: Error, j0: real, j1: real, w: SessionId)
    requires GateOk(st.gate) && s in st.pcs && s in st.gate.sessions && st.pcs[s].Running? && !st.pcs[s].latched
    requires st.config.Valid() && JitterSample(st.config, j0) && JitterSample(st.config, j1)
    requires st.gate.sessions[s].CanAttempt() && (st.gate.episode.None? || MatchingProbe(st.gate, s, st.pcs[s].permit))
    requires failed == Act(st, Fail(s, error, j0, j1))
    ensures AllNotified(failed) && failed.gate.episode.Some?
    ensures var e := failed.gate.episode.value;
      && e.generation == (if st.gate.episode.Some? then st.gate.episode.value.generation else st.gate.nextGeneration)
      && e.leader == Some(s) && e.lastError == error && !e.probeActive && e.terminalUntil.None?
      && e.readyAt == st.now + RetryDelay(st.config, error, st.gate.sessions[s].attemptsStarted, j0)
    ensures var e := failed.gate.episode.value; var back := Act(Act(failed, Close(s)), OpenAttempt(s));
      st.gate.sessions[s].terminalError.None? && !LockedOut(st.gate, st.now)
      ==> && s in back.pcs
          && back.pcs[s] == if e.readyAt <= st.now then AtLimiter(Probe(e.generation)) else Sleeping(e.generation, e.readyAt)
    ensures w != s && Admits(failed, OpenAttempt(w))
      ==> && w in Act(failed, OpenAttempt(w)).pcs
          && Act(failed, OpenAttempt(w)).pcs[w] == Waiting(failed.gate.episode.value.generation, false, true)
  {
    var attempt := st.gate.sessions[s].attemptsStarted;
    var e := Failed(st.gate, s, st.pcs[s].permit, error, RetryDelay(st.config, error, attempt, j0),
                    RetryDelay(st.config, error, attempt, j1), st.now);
    FailureReported(st, failed, s, error, j0, j1, e);
    if st.gate.sessions[s].terminalError.None? && !LockedOut(st.gate, st.now) {
      LeaderReturns(Act(failed, Close(s)), s);
    }
    if w != s && Admits(failed, OpenAttempt(w)) { OthersWait(failed, w); }
  }

  lemma FailureReported(st: State, failed: State, s: SessionId, error: Error, j0: real, j1: real, e: Effect)
    requires GateOk(st.gate) && s in st.pcs && s in st.gate.sessions && st.pcs[s].Running? && !st.pcs[s].latched
    requires JitterSample(st.config, j0) && JitterSample(st.config, j1)
    requires st.gate.sessions[s].CanAttempt() && (st.gate.episode.None? || MatchingProbe(st.gate, s, st.pcs[s].permit))
    requires failed == Act(st, Fail(s, error, j0, j1))
    requires e == Failed(st.gate, s, st.pcs[s].permit, error,
                         RetryDelay(st.config, error, st.gate.sessions[s].attemptsStarted, j0),
                         RetryDelay(st.config, error, st.gate.sessions[s].attemptsStarted, j1), st.now)
    ensures failed.gate == e.gate && failed.now == st.now && AllNotified(failed) && e.gate.episode.Some?
    ensures e.gate.sessions == st.gate.sessions && e.gate.latch == st.gate.latch
    ensures var open := e.gate.episode.value;
      && open.generation == (if st.gate.episode.Some? then st.gate.episode.value.generation else st.gate.nextGeneration)
      && open.leader == Some(s) && open.lastError == error && !open.probeActive && open.terminalUntil.None?
      && open.readyAt == st.now + RetryDelay(st.config, error, st.gate.sessions[s].attemptsStarted, j0)
    ensures var closed := Act(failed, Close(s));
      && closed.gate == failed.gate.(freeSlots := failed.gate.freeSlots + 1) && closed.now == st.now
      && s in closed.pcs && closed.pcs[s].Idle?
  {
    assert failed == DoFail(st, s, st.pcs[s].permit, error, j0, j1);
  }

  /** A failure that comes too late for its episode: with budget left its session shares the
      quarantine's error, or joins the waiters of the episode now open; without, it changes
      nothing. */
  lemma LateFailure(st: State, failed: State, s: SessionId, error: Error, j0: real, j1: real)
    requires s in st.pcs && s in st.gate.sessions && st.pcs[s].Running? && !st.pcs[s].latched
    requires JitterSample(st.config, j0) && JitterSample(st.config, j1)
    requires st.gate.episode.Some? && !MatchingProbe(st.gate, s, st.pcs[s].permit)
    requires failed == Act(st, Fail(s, error, j0, j1))
    ensures !st.gate.sessions[s].CanAttempt() ==> failed.gate == st.gate
    ensures var e := st.gate.episode.value;
      st.gate.sessions[s].CanAttempt() && e.terminalUntil.Some?
      ==> && failed.gate.episode == st.gate.episode && s in failed.gate.sessions
          && failed.gate.sessions[s].terminalError == Some(e.lastError)
    ensures var e := st.gate.episode.value;
      st.gate.sessions[s].CanAttempt() && e.terminalUntil.None?
      ==> failed.gate == st.gate.(episode := Some(e.(waiters := e.waiters + {s})))
  {
    assert failed == DoFail(st, s, st.pcs[s].permit, error, j0, j1);
  }

  // ---- From the permit to the attempt ----

  /** The episode is the one the permit was granted for, or there still is none. */
  predicate Undisturbed(gate: Gate, p: Permit) {
    if p.Probe? then IsOpen(gate.episode, p.generation) else gate.episode.None?
  }

  /** A permit that was granted is good exactly as long as nothing happens to its episode: then
      the session passes the limiter, and takes a free slot, which starts and counts one
      attempt; otherwise it drops the permit, without a slot, and comes to the gate again. */
  lemma PermitIsGood(st: State, s: SessionId)
    requires Reachable(st) && s in st.pcs && s in st.gate.sessions && (st.pcs[s].AtLimiter? || st.pcs[s].AtSemaphore?)
    ensures var p := st.pcs[s].permit;
      st.pcs[s].AtLimiter?
      ==> Act(st, PassLimiter(s)) == Goto(st, s, if Undisturbed(st.gate, p) then AtSemaphore(p) else DroppingPermit(p, true))
    ensures st.pcs[s].AtSemaphore? && st.gate.freeSlots > 0 && !Undisturbed(st.gate, st.pcs[s].permit)
      ==> Act(st, TakeSlot(s)) == Goto(st, s, DroppingPermit(st.pcs[s].permit, true))
    ensures var after := Act(st, TakeSlot(s));
      st.pcs[s].AtSemaphore? && st.gate.freeSlots > 0 && Undisturbed(st.gate, st.pcs[s].permit) && st.gate.sessions[s].CanAttempt()
      ==> && s in after.pcs && after.pcs[s] == Running(st.pcs[s].permit, false)
          && after.gate.freeSlots == st.gate.freeSlots - 1
          && s in after.gate.sessions && after.gate.sessions[s].attemptsStarted == st.gate.sessions[s].attemptsStarted + 1
  {
    ReachableInv(st);
    assert SessionOk(st.gate, s, st.pcs[s]);
    assert PermitIsCurrent(st.gate, s, st.pcs[s].permit) <==> Undisturbed(st.gate, st.pcs[s].permit);
    if st.pcs[s].AtLimiter? {
      assert Act(st, PassLimiter(s)) == DoPassLimiter(st, s, st.pcs[s].permit);
    } else if st.gate.freeSlots > 0 {
      assert Act(st, TakeSlot(s)) == DoTakeSlot(st, s, st.pcs[s].permit);
    }
  }
}
