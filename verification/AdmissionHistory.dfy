/** Budgets, concurrency slots and the history of a run. */
module AdmissionHistory {
  import opened Options
  import opened AdmissionGate
  import opened AdmissionMachine
  import opened AdmissionInvariant

  // ---- What one step does to the books ----

  /** The event a step recorded. */
  function NewEvent(st: State, after: State): Option<Event> {
    if |after.log| == |st.log| + 1 then Some(after.log[|st.log|]) else None
  }

  predicate LogFits(st: State, after: State) {
    after.log == match NewEvent(st, after) case None => st.log case Some(e) => st.log + [e]
  }

  predicate EventFits(st: State, after: State, s: SessionId) {
    match NewEvent(st, after)
    case None => true
    case Some(Claim(c, p, at)) =>
      && c == s && c in st.pcs && st.pcs[c] == AtSemaphore(p) && PermitIsCurrent(st.gate, c, p) && at == st.now
      && after.gate.episode == st.gate.episode
    case Some(Backoff(g, until)) =>
      && IsOpen(after.gate.episode, g)
      && !after.gate.episode.value.probeActive && after.gate.episode.value.readyAt == until
    case Some(Dropped(g)) => IsOpen(st.gate.episode, g) && IsOpen(after.gate.episode, g)
  }

  /** Only a claim spends budget, and only the claimant's. */
  predicate BudgetFits(st: State, after: State, s: SessionId, t: SessionId) {
    && t in st.gate.sessions && t in after.gate.sessions
    && after.gate.sessions[t].maxAttempts == st.gate.sessions[t].maxAttempts
    && after.gate.sessions[t].attemptsStarted
       == st.gate.sessions[t].attemptsStarted
          + (if t == s && NewEvent(st, after).Some? && NewEvent(st, after).value.Claim? then 1 else 0)
  }

  /** A slot is taken by the step that starts to hold one and given back by the one that stops. */
  predicate SlotFits(st: State, after: State, s: SessionId) {
    && s in st.pcs && s in after.pcs && s in after.gate.sessions
    && after.gate.freeSlots + (if after.pcs[s].HoldsSlot() then 1 else 0)
       == st.gate.freeSlots + (if st.pcs[s].HoldsSlot() then 1 else 0)
    && (after.pcs[s].Entering() ==> after.gate.sessions[s].CanAttempt())
  }

  predicate OtherFits(st: State, after: State, s: SessionId, t: SessionId) {
    t in st.pcs && t in after.pcs && (t != s ==> after.pcs[t] == st.pcs[t] || after.pcs[t] == Notified(st.pcs[t], true))
  }

  /** The probe time is past, or it is still ahead and no probe is out. */
  predicate NotBefore(st: State, until: real) {
    st.gate.episode.Some? ==>
      st.now >= until || (!st.gate.episode.value.probeActive && st.gate.episode.value.readyAt >= until)
  }

  /** Within one episode, a probe time once set is honoured. */
  predicate TimeFits(st: State, after: State, until: real) {
    st.gate.episode.Some? && IsOpen(after.gate.episode, st.gate.episode.value.generation) && NotBefore(st, until)
    ==> NotBefore(after, until)
  }

  predicate Unended(episode: Episode) { episode.leader.Some? || episode.terminalUntil.Some? }

  /** A leader is replaced by nobody, unless an abandon is recorded. */
  predicate LeaderFits(st: State, after: State) {
    after.gate.episode.Some? ==>
      var e := after.gate.episode.value;
      if IsOpen(st.gate.episode, e.generation) then
        || NewEvent(st, after) == Some(Dropped(e.generation))
        || !Unended(st.gate.episode.value)
        || (Unended(e) && (e.leader.Some? ==> e.leader == st.gate.episode.value.leader))
      else e.generation >= st.gate.nextGeneration && Unended(e)
  }

  predicate FrameFits(st: State, after: State) {
    && after.config == st.config && after.now == st.now
    && after.pcs.Keys == st.pcs.Keys == after.gate.sessions.Keys
    && st.gate.nextGeneration <= after.gate.nextGeneration
    && LogFits(st, after)
  }

  /** One block of session `s`, seen by the books, at session `t` and probe time `until`. */
  predicate Books(st: State, after: State, s: SessionId, t: SessionId, until: real) {
    && FrameFits(st, after) && EventFits(st, after, s) && SlotFits(st, after, s)
    && BudgetFits(st, after, s, t) && OtherFits(st, after, s, t)
    && TimeFits(st, after, until) && LeaderFits(st, after)
  }

  /** What a block may assume of its own session. */
  predicate Ready(st: State, s: SessionId, t: SessionId) {
    && WellFormed(st) && GateOk(st.gate)
    && s in st.pcs && t in st.pcs
    && SessionOk(st.gate, s, st.pcs[s])
    && (st.pcs[s].Entering() ==> st.gate.sessions[s].CanAttempt())
  }

  /** The gate's locked block, once the checks may have cleared the latch. */
  lemma EnterBooks(st: State, checked: State, s: SessionId, t: SessionId, until: real)
    requires Ready(st, s, t) && !st.pcs[s].HoldsSlot() && st.gate.sessions[s].CanAttempt()
    requires checked == st.(gate := st.gate.(latch := checked.gate.latch))
    ensures Books(st, TakeGate(checked, s), s, t, until)
  {
  }

  lemma TopBooks(st: State, s: SessionId, t: SessionId, until: real)
    requires Ready(st, s, t) && !st.pcs[s].HoldsSlot() && st.gate.sessions[s].CanAttempt()
    ensures Books(st, AtTop(st, s), s, t, until)
  {
    if CheckTop(st.gate, s, st.now).1.Proceed? {
      EnterBooks(st, st.(gate := CheckTop(st.gate, s, st.now).0), s, t, until);
    }
  }

  lemma ClaimBooks(st: State, s: SessionId, t: SessionId, until: real)
    requires Ready(st, s, t) && st.pcs[s].Sleeping? && st.now >= st.pcs[s].wakeAt
    requires ClaimAfterSleep(st.gate, s, st.pcs[s].generation).1
    ensures var gate := ClaimAfterSleep(st.gate, s, st.pcs[s].generation).0;
      Books(st, Goto(st.(gate := gate), s, AtLimiter(Probe(st.pcs[s].generation))), s, t, until)
  {
  }

  lemma EndSleepBooks(st: State, s: SessionId, t: SessionId, until: real)
    requires Ready(st, s, t) && st.pcs[s].Sleeping? && st.now >= st.pcs[s].wakeAt
    ensures Books(st, DoEndSleep(st, s, st.pcs[s].generation), s, t, until)
  {
    if ClaimAfterSleep(st.gate, s, st.pcs[s].generation).1 {
      ClaimBooks(st, s, t, until);
    } else {
      TopBooks(st, s, t, until);
    }
  }

  lemma LeaveLeadBooks(st: State, s: SessionId, t: SessionId, until: real)
    requires Ready(st, s, t) && st.pcs[s].LeavingLead?
    ensures Books(st, DoLeaveLead(st, s, st.pcs[s].generation), s, t, until)
  {
  }

  lemma AbandonBooks(st: State, s: SessionId, t: SessionId, until: real)
    requires Ready(st, s, t) && st.pcs[s].DroppingPermit?
    ensures var left := Goto(DoAbandon(st, s, st.pcs[s].permit), s, Idle);
      && Books(st, left, s, t, until)
      && WellFormed(left) && GateOk(left.gate) && left.gate.sessions == st.gate.sessions
      && SessionOk(left.gate, s, Idle)
      && (NewEvent(st, left).Some? ==> left.gate.episode.value.terminalUntil.None?)
  {
  }

  /** A block that records nothing, run in the same stretch after another one. */
  lemma BooksThen(st: State, mid: State, after: State, s: SessionId, t: SessionId, until: real)
    requires GateOk(st.gate) && Books(st, mid, s, t, until) && Books(mid, after, s, t, until)
    requires after.log == mid.log && EventFits(st, after, s)
    ensures Books(st, after, s, t, until)
  {
  }

  /** After an abandon that was recorded, the next iteration joins the same episode. */
  lemma TopStays(st: State, s: SessionId, g: nat)
    requires s in st.gate.sessions && IsOpen(st.gate.episode, g) && st.gate.episode.value.terminalUntil.None?
    ensures IsOpen(AtTop(st, s).gate.episode, g) && AtTop(st, s).log == st.log
  {
  }

  lemma TopRecordsNothing(st: State, s: SessionId)
    requires s in st.gate.sessions
    ensures AtTop(st, s).log == st.log
  {
  }

  lemma DropPermitBooks(st: State, s: SessionId, t: SessionId, until: real)
    requires Ready(st, s, t) && st.pcs[s].DroppingPermit?
    ensures Books(st, DoDropPermit(st, s, st.pcs[s].permit, st.pcs[s].again), s, t, until)
  {
    var left := DoAbandon(st, s, st.pcs[s].permit);
    var idle := Goto(left, s, Idle);
    AbandonBooks(st, s, t, until);
    if st.pcs[s].again {
      var after := AtTop(left, s);
      TopForgetsPc(left, s);
      TopBooks(idle, s, t, until);
      TopRecordsNothing(idle, s);
      if NewEvent(st, idle).Some? { TopStays(idle, s, NewEvent(st, idle).value.generation); }
      BooksThen(st, idle, after, s, t, until);
    }
  }

  lemma TopForgetsPc(st: State, s: SessionId)
    requires s in st.gate.sessions
    ensures AtTop(st, s) == AtTop(Goto(st, s, Idle), s)
  {
    var pc := AtTop(st, s).pcs[s];
    assert st.pcs[s := Idle][s := pc] == st.pcs[s := pc];
  }

  lemma PassLimiterBooks(st: State, s: SessionId, t: SessionId, until: real)
    requires Ready(st, s, t) && st.pcs[s].AtLimiter?
    ensures Books(st, DoPassLimiter(st, s, st.pcs[s].permit), s, t, until)
  {
  }

  lemma TakeSlotBooks(st: State, s: SessionId, t: SessionId, until: real)
    requires Ready(st, s, t) && st.pcs[s].AtSemaphore? && st.gate.freeSlots > 0
    ensures Books(st, DoTakeSlot(st, s, st.pcs[s].permit), s, t, until)
  {
  }

  lemma FailBooks(st: State, s: SessionId, error: Error, j0: real, j1: real, t: SessionId, until: real)
    requires Ready(st, s, t) && st.pcs[s].Running?
    ensures Books(st, DoFail(st, s, st.pcs[s].permit, error, j0, j1), s, t, until)
  {
  }

  lemma RunningBooks(st: State, s: SessionId, step: Step, t: SessionId, until: real)
    requires Ready(st, s, t) && st.pcs[s].Running?
    ensures Books(st, ActRunning(st, s, step, st.pcs[s].permit, st.pcs[s].latched), s, t, until)
  {
    if step.Fail? {
      FailBooks(st, s, step.error, step.jitter, step.terminalJitter, t, until);
    }
  }

  lemma ClosingBooks(st: State, s: SessionId, step: Step, t: SessionId, until: real)
    requires Ready(st, s, t) && st.pcs[s].Closing?
    ensures Books(st, ActClosing(st, s, step, st.pcs[s].permit), s, t, until)
  {
  }

  lemma CancelBooks(st: State, s: SessionId, t: SessionId, until: real)
    requires Ready(st, s, t)
    ensures Books(st, DoCancel(st, s), s, t, until)
  {
  }

  lemma FinishDetachedBooks(st: State, s: SessionId, g: nat, t: SessionId, until: real)
    requires Ready(st, s, t)
    ensures Books(st, DoFinishDetached(st, s, g), s, t, until)
  {
  }

  lemma StutterBooks(st: State, s: SessionId, t: SessionId, until: real)
    requires Ready(st, s, t)
    ensures Books(st, st, s, t, until)
    ensures st.pcs[s].Resolved? ==> Books(st, Goto(ReleaseSlot(st), s, Idle), s, t, until)
  {
  }

  lemma KnownBooks(st: State, s: SessionId, step: Step, t: SessionId, until: real)
    requires Ready(st, s, t)
    ensures Books(st, ActKnown(st, s, step), s, t, until)
  {
    StutterBooks(st, s, t, until);
    if step.Cancel? {
      CancelBooks(st, s, t, until);
    } else {
      match st.pcs[s]
      case Idle => if st.gate.sessions[s].CanAttempt() { TopBooks(st, s, t, until); }
      case Waiting(_, _, _) => TopBooks(st, s, t, until);
      case Sleeping(_, wakeAt) => if st.now >= wakeAt { EndSleepBooks(st, s, t, until); }
      case LeavingLead(_) => LeaveLeadBooks(st, s, t, until);
      case AtLimiter(_) => PassLimiterBooks(st, s, t, until);
      case AtSemaphore(_) => if st.gate.freeSlots > 0 { TakeSlotBooks(st, s, t, until); }
      case DroppingPermit(_, _) => DropPermitBooks(st, s, t, until);
      case Running(_, _) => RunningBooks(st, s, step, t, until);
      case Resolved =>
      case Closing(_) => ClosingBooks(st, s, step, t, until);
    }
  }

  lemma StepBooks(st: State, step: Step, t: SessionId, until: real)
    requires Ready(st, step.s, t)
    ensures Books(st, Act(st, step), step.s, t, until)
  {
    StutterBooks(st, step.s, t, until);
    if step.FinishDetached? {
      FinishDetachedBooks(st, step.s, step.generation, t, until);
    } else {
      KnownBooks(st, step.s, step, t, until);
    }
  }
}
