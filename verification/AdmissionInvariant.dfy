/** The invariant that ties the suspended sessions to the gate, proved by rely and
    guarantee: a block run by one session keeps `Rely`, and `Rely` keeps what every
    other suspended session depends on. */
module AdmissionInvariant {
  import opened Options
  import opened AdmissionGate
  import opened AdmissionMachine

  predicate IsOpen(episode: Option<Episode>, g: nat) {
    episode.Some? && episode.value.generation == g
  }

  /** What holds of the gate's own fields. A terminal episode has nobody in it. */
  predicate GateOk(gate: Gate) {
    && gate.nextGeneration >= 1
    && (gate.episode.Some? ==>
          var e := gate.episode.value;
          && 1 <= e.generation < gate.nextGeneration
          && (e.probeActive ==> e.leader.Some?)
          && (e.terminalUntil.Some? ==> e.leader.None? && !e.probeActive && e.waiters == {}))
  }

  /** An unresolved probe of the open episode is the leader's, and the episode knows it. */
  predicate ProbeOk(gate: Gate, s: SessionId, g: nat) {
    && 1 <= g < gate.nextGeneration
    && (IsOpen(gate.episode, g) ==> gate.episode.value.leader == Some(s) && gate.episode.value.probeActive)
  }

  /** An episode that session `s` may sleep on without having been notified: it is open,
      and somebody leads it. */
  predicate StillAwaited(episode: Option<Episode>, s: SessionId, g: nat, asWaiter: bool) {
    && IsOpen(episode, g)
    && episode.value.terminalUntil.None?
    && episode.value.leader.Some?
    && (if asWaiter then s in episode.value.waiters
        else episode.value.leader == Some(s) && episode.value.probeActive)
  }

  /** The back-off of the leader `s` is undisturbed. */
  predicate StillLeads(episode: Option<Episode>, s: SessionId, g: nat) {
    IsOpen(episode, g) ==> episode.value.leader == Some(s) && !episode.value.probeActive
  }

  /** What session `s`, suspended at `pc`, relies on whatever the others do. */
  predicate SessionOk(gate: Gate, s: SessionId, pc: Pc) {
    && (pc.Held().Some? ==> ProbeOk(gate, s, pc.Held().value))
    && (gate.episode.Some? && s in gate.episode.value.waiters ==>
          gate.episode.value.leader != Some(s) && !pc.Sleeping? && !pc.AtLimiter? && !pc.AtSemaphore?)
    && (gate.episode.Some? && gate.episode.value.leader == Some(s) && pc.Running? ==>
          pc.permit == Probe(gate.episode.value.generation))
    && (pc.Waiting? || pc.Sleeping? || pc.LeavingLead? ==> pc.generation < gate.nextGeneration)
    && (pc.Waiting? && !pc.notified ==> StillAwaited(gate.episode, s, pc.generation, pc.asWaiter))
    && (pc.LeavingLead? || pc.Sleeping? ==> StillLeads(gate.episode, s, pc.generation))
    && (pc.Sleeping? && IsOpen(gate.episode, pc.generation) ==> gate.episode.value.readyAt == pc.wakeAt)
  }

  function Notified(pc: Pc, notify: bool): Pc {
    if notify && pc.Waiting? then pc.(notified := true) else pc
  }

  /** What a block run by session `s` may do to the episode, seen by the others. */
  predicate Rely(before: Gate, after: Gate, s: SessionId, notify: bool) {
    && before.nextGeneration <= after.nextGeneration
    && before.sessions.Keys == after.sessions.Keys
    && match after.episode
       case None => before.episode.None? || notify
       case Some(e) =>
         if IsOpen(before.episode, e.generation) then SameEpisode(before.episode.value, e, s, notify)
         else
           && before.nextGeneration <= e.generation
           && e.waiters <= {s} && e.leader in {None, Some(s)}
           && (before.episode.None? || notify || before.episode.value.terminalUntil.Some?)
  }

  predicate SameEpisode(before: Episode, e: Episode, s: SessionId, notify: bool) {
    && (before.leader == e.leader || (before.leader in {None, Some(s)} && e.leader in {None, Some(s)}))
    && e.waiters - {s} <= before.waiters
    && (notify || before.waiters - {s} <= e.waiters)
    && (before.leader in {None, Some(s)} || (before.probeActive == e.probeActive && before.readyAt == e.readyAt))
    && (before.leader.Some? ==> notify || (e.leader.Some? && e.terminalUntil == before.terminalUntil))
    && (before.terminalUntil.Some? ==> e.terminalUntil.Some?)
  }

  /** If `s` leads an active probe afterwards, then it holds that probe, or it led the
      same probe before without holding it (a detached abandon does). */
  predicate LeaderKept(before: Gate, pc: Pc, after: Gate, s: SessionId, pc': Pc) {
    LeadsProbe(after, s) ==>
      || pc'.Held() == Some(after.episode.value.generation)
      || (&& LeadsProbe(before, s)
          && before.episode.value.generation == after.episode.value.generation
          && pc.Held() != Some(after.episode.value.generation))
  }

  predicate LeadsProbe(g: Gate, s: SessionId) {
    g.episode.Some? && g.episode.value.leader == Some(s) && g.episode.value.probeActive
  }

  /** A probe of `s` that is in the hands of a detached abandon stays there. */
  predicate ApartKept(before: Gate, pc: Pc, after: Gate, s: SessionId, pc': Pc, g: nat) {
    ProbeOk(before, s, g) && pc.Held() != Some(g) ==> ProbeOk(after, s, g) && pc'.Held() != Some(g)
  }

  /** A block that takes session `s` from `pc` to `pc'` is fit to run among the others. */
  predicate Fits(before: Gate, pc: Pc, after: Gate, s: SessionId, pc': Pc, notify: bool) {
    GateOk(after) && Rely(before, after, s, notify) && SessionOk(after, s, pc') && LeaderKept(before, pc, after, s, pc')
  }

  ghost predicate Guarantee(before: Gate, pc: Pc, after: Gate, s: SessionId, pc': Pc, notify: bool) {
    Fits(before, pc, after, s, pc', notify) && forall g: nat :: ApartKept(before, pc, after, s, pc', g)
  }

  lemma RelyKeeps(before: Gate, after: Gate, s: SessionId, notify: bool, t: SessionId, pc: Pc)
    requires GateOk(before) && Rely(before, after, s, notify) && t != s && SessionOk(before, t, pc)
    ensures SessionOk(after, t, Notified(pc, notify))
  {
  }

  // ---- The guarantee of each block ----

  /** The checks leave the session out, or clear an expired latch, which nobody relies on. */
  lemma TopGuarantee(g: Gate, s: SessionId, now: real, pc: Pc)
    requires s in g.sessions && GateOk(g) && SessionOk(g, s, pc) && pc.Held().None?
    ensures var (g', o) := CheckTop(g, s, now); o.Blocked? ==> Guarantee(g, pc, g', s, Idle, false)
    ensures var g' := CheckTop(g, s, now).0; GateOk(g') && SessionOk(g', s, pc) && g == g'.(latch := g.latch)
  {
  }

  /** The locked block when the session starts a new episode after a quarantine. */
  lemma RestartGuarantee(before: Gate, g: Gate, s: SessionId, now: real, pc: Pc)
    requires GateOk(g) && SessionOk(g, s, pc) && pc.Held().None? && before == g.(latch := before.latch)
    requires g.episode.Some? && g.episode.value.terminalUntil.Some? && g.episode.value.terminalUntil.value <= now
    ensures var (g', o) := EnterEpisode(g, s, now);
            Guarantee(before, pc, g', s, GatePc(o, now), false)
  {
  }

  lemma JoinGuarantee(before: Gate, g: Gate, s: SessionId, now: real, pc: Pc)
    requires GateOk(g) && SessionOk(g, s, pc) && pc.Held().None? && before == g.(latch := before.latch)
    requires g.episode.Some? && g.episode.value.terminalUntil.None?
    ensures var (g', o) := JoinEpisode(g, s, now);
            Guarantee(before, pc, g', s, GatePc(o, now), false)
  {
  }

  lemma EnterGuarantee(before: Gate, g: Gate, s: SessionId, now: real, pc: Pc)
    requires GateOk(g) && SessionOk(g, s, pc) && pc.Held().None? && before == g.(latch := before.latch)
    ensures var (g', o) := EnterEpisode(g, s, now);
            Guarantee(before, pc, g', s, GatePc(o, now), false)
  {
    if g.episode.Some? {
      if g.episode.value.terminalUntil.None? {
        JoinGuarantee(before, g, s, now, pc);
      } else if g.episode.value.terminalUntil.value <= now {
        RestartGuarantee(before, g, s, now, pc);
      }
    }
  }

  lemma SleepGuarantee(g: Gate, s: SessionId, generation: nat, wakeAt: real)
    requires GateOk(g) && SessionOk(g, s, Sleeping(generation, wakeAt))
    ensures var (g', granted) := ClaimAfterSleep(g, s, generation);
            granted ==> Guarantee(g, Sleeping(generation, wakeAt), g', s, AtLimiter(Probe(generation)), false)
  {
  }

  lemma LeaveLeadGuarantee(g: Gate, s: SessionId, generation: nat)
    requires GateOk(g) && SessionOk(g, s, LeavingLead(generation))
    ensures var e := AbandonWaitingLeader(g, s, generation);
            Guarantee(g, LeavingLead(generation), e.gate, s, Idle, e.notify)
  {
  }

  lemma LeaveWaitersGuarantee(g: Gate, s: SessionId, pc: Pc)
    requires GateOk(g) && SessionOk(g, s, pc) && pc.Waiting?
    ensures Guarantee(g, pc, if pc.asWaiter then LeaveWaiters(g, s, pc.generation) else g, s, Idle, false)
  {
  }

  lemma AbandonGuarantee(g: Gate, s: SessionId, p: Permit, now: real, pc: Pc)
    requires GateOk(g) && SessionOk(g, s, pc) && pc in {DroppingPermit(p, false), DroppingPermit(p, true), Closing(p)}
    ensures var e := Abandoned(g, s, p, now);
            Guarantee(g, pc, e.gate, s, Idle, e.notify)
  {
  }

  /** The abandon of a detached probe leaves the session where it is. */
  lemma DetachedGuarantee(g: Gate, s: SessionId, generation: nat, now: real, pc: Pc)
    requires GateOk(g) && SessionOk(g, s, pc) && ProbeOk(g, s, generation) && pc.Held() != Some(generation)
    ensures var e := Abandoned(g, s, Probe(generation), now);
            && Fits(g, pc, e.gate, s, Notified(pc, e.notify), e.notify)
            && forall h: nat | h != generation :: ApartKept(g, pc, e.gate, s, Notified(pc, e.notify), h)
  {
  }

  lemma ResolveGuarantee(g: Gate, s: SessionId, p: Permit, latched: bool, now: real)
    requires GateOk(g) && SessionOk(g, s, Running(p, latched))
    ensures var pc := Running(p, latched);
            && Guarantee(g, pc, Succeeded(g, s, p).gate, s, Resolved, Succeeded(g, s, p).notify)
            && Guarantee(g, pc, Corrected(g, s, p, now).gate, s, Resolved, Corrected(g, s, p, now).notify)
            && Guarantee(g, pc, Rejected(g, s, p).gate, s, Resolved, Rejected(g, s, p).notify)
  {
  }

  lemma LatchGuarantee(g: Gate, s: SessionId, p: Permit, until: real, error: Error)
    requires GateOk(g) && SessionOk(g, s, Running(p, false))
    ensures Guarantee(g, Running(p, false), LatchAuth(g, until, error).gate, s, Running(p, true), true)
  {
  }

  lemma FailGuarantee(g: Gate, s: SessionId, p: Permit, error: Error, delay: real, terminalDelay: real, now: real)
    requires s in g.sessions && GateOk(g) && SessionOk(g, s, Running(p, false))
    ensures var e := Failed(g, s, p, error, delay, terminalDelay, now);
            Guarantee(g, Running(p, false), e.gate, s, Resolved, e.notify)
  {
    var e := Failed(g, s, p, error, delay, terminalDelay, now);
    assert e.gate.sessions.Keys == g.sessions.Keys;
  }

  // ---- All sessions together ----

  /** Session `s` is answerable for an unresolved probe of generation `g`. */
  predicate Holds(st: State, s: SessionId, g: nat) {
    (s in st.pcs && st.pcs[s].Held() == Some(g)) || (s, g) in st.detached
  }

  predicate DetachedOk(st: State, s: SessionId, g: nat) {
    s in st.pcs && ProbeOk(st.gate, s, g) && st.pcs[s].Held() != Some(g)
  }

  /** The episode knows only sessions of this gate, and an active probe has its holder. */
  predicate MembersOk(st: State) {
    st.gate.episode.Some? ==>
      var e := st.gate.episode.value;
      && e.waiters <= st.pcs.Keys
      && (e.leader.Some? ==> e.leader.value in st.pcs)
      && (e.leader.Some? && e.probeActive ==> Holds(st, e.leader.value, e.generation))
  }

  ghost predicate Core(st: State) {
    && WellFormed(st)
    && GateOk(st.gate)
    && MembersOk(st)
    && (forall s | s in st.pcs :: SessionOk(st.gate, s, st.pcs[s]))
    && (forall s: SessionId, g: nat | (s, g) in st.detached :: DetachedOk(st, s, g))
  }

  /** `after` is `st` with one block of session `s` run. */
  ghost predicate BlockOf(st: State, after: State, s: SessionId, notify: bool) {
    && WellFormed(st) && WellFormed(after)
    && s in st.pcs
    && after.pcs.Keys == st.pcs.Keys
    && (forall t | t in st.pcs && t != s :: after.pcs[t] == Notified(st.pcs[t], notify))
  }

  lemma OthersKept(st: State, after: State, s: SessionId, notify: bool)
    requires Core(st) && BlockOf(st, after, s, notify)
    requires Rely(st.gate, after.gate, s, notify) && SessionOk(after.gate, s, after.pcs[s])
    ensures forall t | t in after.pcs :: SessionOk(after.gate, t, after.pcs[t])
  {
    forall t | t in after.pcs && t != s
      ensures SessionOk(after.gate, t, after.pcs[t])
    {
      RelyKeeps(st.gate, after.gate, s, notify, t, st.pcs[t]);
    }
  }

  /** Detached abandons of other sessions, and the holder of an active probe, survive. */
  lemma MembersKept(st: State, after: State, s: SessionId, notify: bool)
    requires Core(st) && BlockOf(st, after, s, notify)
    requires Fits(st.gate, st.pcs[s], after.gate, s, after.pcs[s], notify)
    requires st.detached <= after.detached
    ensures MembersOk(after)
  {
  }

  lemma DetachedKept(st: State, after: State, s: SessionId, notify: bool, t: SessionId, g: nat)
    requires Core(st) && BlockOf(st, after, s, notify) && Rely(st.gate, after.gate, s, notify)
    requires (t, g) in st.detached && t != s
    ensures DetachedOk(after, t, g)
  {
    assert DetachedOk(st, t, g);
    RelyKeeps(st.gate, after.gate, s, notify, t, DroppingPermit(Probe(g), false));
  }

  /** One block that detaches nothing and finishes no detached abandon. */
  lemma BlockCore(st: State, after: State, s: SessionId, notify: bool)
    requires Core(st) && BlockOf(st, after, s, notify)
    requires Guarantee(st.gate, st.pcs[s], after.gate, s, after.pcs[s], notify)
    requires after.detached == st.detached
    ensures Core(after)
  {
    OthersKept(st, after, s, notify);
    MembersKept(st, after, s, notify);
    forall t: SessionId, g: nat | (t, g) in after.detached
      ensures DetachedOk(after, t, g)
    {
      assert DetachedOk(st, t, g);
      if t == s {
        assert ApartKept(st.gate, st.pcs[s], after.gate, s, after.pcs[s], g);
      } else {
        DetachedKept(st, after, s, notify, t, g);
      }
    }
  }

  // ---- Every step ----

  lemma TopCore(st: State, s: SessionId)
    requires Core(st) && s in st.pcs && st.pcs[s].Held().None?
    ensures Core(AtTop(st, s))
  {
    TopGuarantee(st.gate, s, st.now, st.pcs[s]);
    EnterGuarantee(st.gate, CheckTop(st.gate, s, st.now).0, s, st.now, st.pcs[s]);
    BlockCore(st, AtTop(st, s), s, false);
  }

  lemma EndSleepCore(st: State, s: SessionId)
    requires Core(st) && s in st.pcs && st.pcs[s].Sleeping?
    ensures Core(DoEndSleep(st, s, st.pcs[s].generation))
  {
    SleepGuarantee(st.gate, s, st.pcs[s].generation, st.pcs[s].wakeAt);
    if ClaimAfterSleep(st.gate, s, st.pcs[s].generation).1 {
      BlockCore(st, DoEndSleep(st, s, st.pcs[s].generation), s, false);
    } else {
      TopCore(st, s);
    }
  }

  lemma LeaveLeadCore(st: State, s: SessionId)
    requires Core(st) && s in st.pcs && st.pcs[s].LeavingLead?
    ensures Core(DoLeaveLead(st, s, st.pcs[s].generation))
  {
    LeaveLeadGuarantee(st.gate, s, st.pcs[s].generation);
    BlockCore(st, DoLeaveLead(st, s, st.pcs[s].generation), s,
              AbandonWaitingLeader(st.gate, s, st.pcs[s].generation).notify);
  }

  lemma AbandonCore(st: State, s: SessionId, p: Permit)
    requires Core(st) && s in st.pcs
    requires st.pcs[s] in {DroppingPermit(p, false), DroppingPermit(p, true), Closing(p)}
    ensures Core(Goto(DoAbandon(st, s, p), s, Idle))
  {
    AbandonGuarantee(st.gate, s, p, st.now, st.pcs[s]);
    BlockCore(st, Goto(DoAbandon(st, s, p), s, Idle), s, Abandoned(st.gate, s, p, st.now).notify);
  }

  lemma DropPermitCore(st: State, s: SessionId)
    requires Core(st) && s in st.pcs && st.pcs[s].DroppingPermit?
    ensures Core(DoDropPermit(st, s, st.pcs[s].permit, st.pcs[s].again))
  {
    var left := DoAbandon(st, s, st.pcs[s].permit);
    AbandonCore(st, s, st.pcs[s].permit);
    if st.pcs[s].again {
      TopCore(Goto(left, s, Idle), s);
      var pc := AtTop(left, s).pcs[s];
      assert left.pcs[s := Idle][s := pc] == left.pcs[s := pc];
      assert AtTop(Goto(left, s, Idle), s) == AtTop(left, s);
    }
  }

  lemma PassLimiterCore(st: State, s: SessionId, pc: Pc)
    requires Core(st) && s in st.pcs && (st.pcs[s].AtLimiter? || st.pcs[s].AtSemaphore?)
    requires var p := st.pcs[s].permit;
             pc in {AtSemaphore(p), DroppingPermit(p, true), DroppingPermit(p, false)}
             || (pc == Running(p, false) && PermitIsCurrent(st.gate, s, p))
    ensures Guarantee(st.gate, st.pcs[s], st.gate, s, pc, false)
    ensures Core(Goto(st, s, pc))
  {
    BlockCore(st, Goto(st, s, pc), s, false);
  }

  lemma TakeSlotCore(st: State, s: SessionId)
    requires Core(st) && s in st.pcs && st.pcs[s].AtSemaphore? && st.gate.freeSlots > 0
    ensures Core(DoTakeSlot(st, s, st.pcs[s].permit))
  {
    var after := DoTakeSlot(st, s, st.pcs[s].permit);
    PassLimiterCore(st, s, after.pcs[s]);
    BlockCore(st, after, s, false);
  }

  lemma ResolveCore(st: State, s: SessionId, e: Effect, pc: Pc)
    requires Core(st) && s in st.pcs && Guarantee(st.gate, st.pcs[s], e.gate, s, pc, e.notify)
    ensures Core(Run(st, s, e, pc))
  {
    BlockCore(st, Run(st, s, e, pc), s, e.notify);
  }

  lemma SuccessCore(st: State, s: SessionId, p: Permit, latched: bool)
    requires Core(st) && s in st.pcs && st.pcs[s] == Running(p, latched)
    ensures Core(Run(st, s, Succeeded(st.gate, s, p), Resolved))
    ensures Core(Run(st, s, Corrected(st.gate, s, p, st.now), Resolved))
    ensures Core(Run(st, s, Rejected(st.gate, s, p), Resolved))
  {
    ResolveGuarantee(st.gate, s, p, latched, st.now);
    ResolveCore(st, s, Succeeded(st.gate, s, p), Resolved);
    ResolveCore(st, s, Corrected(st.gate, s, p, st.now), Resolved);
    ResolveCore(st, s, Rejected(st.gate, s, p), Resolved);
  }

  lemma LatchCore(st: State, s: SessionId, p: Permit, error: Error)
    requires Core(st) && s in st.pcs && st.pcs[s] == Running(p, false)
    ensures Core(Run(st, s, LatchAuth(st.gate, st.now + st.config.authLatchTtl, error), Running(p, true)))
  {
    var until := st.now + st.config.authLatchTtl;
    LatchGuarantee(st.gate, s, p, until, error);
    ResolveCore(st, s, LatchAuth(st.gate, until, error), Running(p, true));
  }

  lemma FailCore(st: State, s: SessionId, error: Error, j0: real, j1: real)
    requires Core(st) && s in st.pcs && st.pcs[s].Running? && !st.pcs[s].latched
    ensures Core(DoFail(st, s, st.pcs[s].permit, error, j0, j1))
  {
    var p, attempt := st.pcs[s].permit, st.gate.sessions[s].attemptsStarted;
    var d0, d1 := RetryDelay(st.config, error, attempt, j0), RetryDelay(st.config, error, attempt, j1);
    FailGuarantee(st.gate, s, p, error, d0, d1, st.now);
    BlockCore(st, DoFail(st, s, p, error, j0, j1), s, Failed(st.gate, s, p, error, d0, d1, st.now).notify);
  }

  lemma CancelCore(st: State, s: SessionId)
    requires Core(st) && s in st.pcs
    ensures Core(DoCancel(st, s))
  {
    match st.pcs[s]
    case Waiting(_, _, _) =>
      LeaveWaitersGuarantee(st.gate, s, st.pcs[s]);
      BlockCore(st, DoCancel(st, s), s, false);
    case Sleeping(_, _) => BlockCore(st, DoCancel(st, s), s, false);
    case AtLimiter(p) => PassLimiterCore(st, s, DroppingPermit(p, false));
    case AtSemaphore(p) => PassLimiterCore(st, s, DroppingPermit(p, false));
    case _ =>
  }

  /** A cancelled aclose hands the unresolved probe over to the detached abandon. */
  lemma CancelCloseCore(st: State, s: SessionId)
    requires Core(st) && s in st.pcs && st.pcs[s].Closing?
    ensures Core(ActClosing(st, s, CancelClose(s), st.pcs[s].permit))
  {
    var after := ActClosing(st, s, CancelClose(s), st.pcs[s].permit);
    OthersKept(st, after, s, false);
    forall t: SessionId, g: nat | (t, g) in after.detached
      ensures DetachedOk(after, t, g)
    {
      if t != s {
        DetachedKept(st, after, s, false, t, g);
      } else if (s, g) in st.detached {
        assert DetachedOk(st, s, g);
      }
    }
  }

  lemma FinishDetachedCore(st: State, s: SessionId, generation: nat)
    requires Core(st) && s in st.pcs && (s, generation) in st.detached
    ensures Core(DoFinishDetached(st, s, generation))
  {
    var after := DoFinishDetached(st, s, generation);
    assert DetachedOk(st, s, generation);
    var notify := Abandoned(st.gate, s, Probe(generation), st.now).notify;
    DetachedGuarantee(st.gate, s, generation, st.now, st.pcs[s]);
    OthersKept(st, after, s, notify);
    forall t: SessionId, g: nat | (t, g) in after.detached
      ensures DetachedOk(after, t, g)
    {
      if t != s {
        DetachedKept(st, after, s, notify, t, g);
      } else {
        assert DetachedOk(st, s, g);
        assert ApartKept(st.gate, st.pcs[s], after.gate, s, after.pcs[s], g);
      }
    }
  }

  lemma NewSessionCore(st: State, s: SessionId)
    requires Core(st) && s !in st.pcs
    ensures Core(DoNewSession(st, s))
  {
    var after := DoNewSession(st, s);
    forall t | t in after.pcs
      ensures SessionOk(after.gate, t, after.pcs[t])
    {
      assert t != s ==> SessionOk(st.gate, t, st.pcs[t]);
    }
    forall t: SessionId, g: nat | (t, g) in after.detached
      ensures DetachedOk(after, t, g)
    {
      assert DetachedOk(st, t, g);
    }
  }

  lemma CloseCore(st: State, s: SessionId)
    requires Core(st) && s in st.pcs && (st.pcs[s].Resolved? || st.pcs[s].Closing?)
    ensures st.pcs[s].Resolved? ==> Core(Goto(ReleaseSlot(st), s, Idle))
    ensures st.pcs[s].Closing? ==> Core(Goto(ReleaseSlot(DoAbandon(st, s, st.pcs[s].permit)), s, Idle))
  {
    if st.pcs[s].Resolved? {
      BlockCore(st, Goto(ReleaseSlot(st), s, Idle), s, false);
    } else {
      var p := st.pcs[s].permit;
      AbandonGuarantee(st.gate, s, p, st.now, st.pcs[s]);
      BlockCore(st, Goto(ReleaseSlot(DoAbandon(st, s, p)), s, Idle), s, Abandoned(st.gate, s, p, st.now).notify);
    }
  }

  lemma ActRunningCore(st: State, s: SessionId, step: Step, p: Permit, latched: bool)
    requires Core(st) && s in st.pcs && st.pcs[s] == Running(p, latched)
    ensures Core(ActRunning(st, s, step, p, latched))
  {
    if step.Close? {
      BeginCloseCore(st, s, p, latched);
    } else if step.LatchOn? && !latched {
      LatchCore(st, s, p, step.error);
    } else if step.Fail? && !latched {
      FailCore(st, s, step.error, step.jitter, step.terminalJitter);
    } else {
      SuccessCore(st, s, p, latched);
    }
  }

  lemma BeginCloseCore(st: State, s: SessionId, p: Permit, latched: bool)
    requires Core(st) && s in st.pcs && st.pcs[s] == Running(p, latched)
    ensures Core(Goto(st, s, Closing(p)))
  {
    BlockCore(st, Goto(st, s, Closing(p)), s, false);
  }

  /** The steps of a session that holds no attempt. */
  lemma ActEnteringCore(st: State, s: SessionId, step: Step)
    requires Core(st) && s in st.pcs && !st.pcs[s].HoldsSlot() && !step.Cancel?
    ensures Core(ActKnown(st, s, step))
  {
    match st.pcs[s]
    case Idle => TopCore(st, s);
    case Waiting(_, _, _) => TopCore(st, s);
    case Sleeping(_, _) => EndSleepCore(st, s);
    case LeavingLead(_) => LeaveLeadCore(st, s);
    case AtLimiter(p) => PassLimiterCore(st, s, DoPassLimiter(st, s, p).pcs[s]);
    case AtSemaphore(_) => if st.gate.freeSlots > 0 { TakeSlotCore(st, s); }
    case DroppingPermit(_, _) => DropPermitCore(st, s);
    case _ =>
  }

  lemma ActClosingCore(st: State, s: SessionId, step: Step)
    requires Core(st) && s in st.pcs && (st.pcs[s].Resolved? || st.pcs[s].Closing?) && !step.Cancel?
    ensures Core(ActKnown(st, s, step))
  {
    CloseCore(st, s);
    if st.pcs[s].Closing? { CancelCloseCore(st, s); }
  }

  lemma ActKnownCore(st: State, s: SessionId, step: Step)
    requires Core(st) && s in st.pcs
    ensures Core(ActKnown(st, s, step))
  {
    if step.Cancel? {
      CancelCore(st, s);
    } else if !st.pcs[s].HoldsSlot() {
      ActEnteringCore(st, s, step);
    } else if st.pcs[s].Running? {
      ActRunningCore(st, s, step, st.pcs[s].permit, st.pcs[s].latched);
    } else {
      ActClosingCore(st, s, step);
    }
  }

  lemma StepCore(st: State, step: Step)
    requires Core(st)
    ensures Core(Act(st, step))
  {
    if step.s !in st.pcs {
      NewSessionCore(st, step.s);
    } else if step.FinishDetached? {
      if (step.s, step.generation) in st.detached { FinishDetachedCore(st, step.s, step.generation); }
    } else {
      ActKnownCore(st, step.s, step);
    }
  }
}
