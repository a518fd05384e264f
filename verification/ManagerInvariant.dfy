/** The invariant of the provider runtime manager. */
module ManagerInvariant {
  import opened Options
  import opened Generations
  import opened ManagerMachine

  function HoldersOf(holders: map<HolderId, GenerationId>, g: GenerationId): set<HolderId> {
    set h | h in holders && holders[h] == g
  }

  /** Generation `g`, with `count` holders: current or retired, cleaned up only when idle,
      and not forgotten by a shutdown in progress. */
  predicate GenOk(m: Manager, pc: ShutdownPc, g: GenerationId, x: Generation, count: nat) {
    && g < m.nextId
    && GenerationOk(x)
    && x.leases == count
    && (g != m.current ==> x.retired)
    && (g == m.current && x.retired ==> m.closing)
    && (g in m.retired <==> x.retired && !x.closed)
    && match pc
       case Draining(all, pending) => x.retired && (!x.closed ==> g in all) && (g in all && g !in pending ==> x.leases == 0)
       case Cleaning(todo, waiting, ok) => x.retired && x.leases == 0 && (ok && !x.closed ==> g in todo || g in waiting)
       case Unpublishing(_, _, allOk) => x.retired && x.leases == 0 && (allOk ==> x.closed)
       case _ => m.closed ==> x.closed
  }

  predicate GenInv(st: State, g: GenerationId)
    requires g in st.m.generations
  {
    GenOk(st.m, st.shutdown, g, st.m.generations[g], |HoldersOf(st.holders, g)|)
  }

  lemma LeasedOk(m: Manager, pc: ShutdownPc, g: GenerationId, x: Generation, count: nat)
    requires GenOk(m, pc, g, x, count) && g == m.current && !m.closing && !m.closed && pc == Idle
    ensures GenOk(m, pc, g, Leased(x), count + 1)
  {
  }

  lemma ReturnedOk(m: Manager, pc: ShutdownPc, g: GenerationId, x: Generation, count: nat)
    requires GenOk(m, pc, g, x, count) && count > 0
    ensures GenOk(m, pc, g, Returned(x, m.closing), count - 1)
  {
  }

  /** A background refresh that may still start is the one on record, on the current
      generation, and nobody is about to retire that generation. */
  predicate TaskInv(st: State, t: HolderId)
    requires t in st.tasks
  {
    var x := st.tasks[t];
    && t < st.nextHolder
    && x.generation in st.m.generations
    && (x.started ==> t in st.holders && st.holders[t] == x.generation)
    && (!x.started ==> t !in st.holders)
    && (!x.started && !x.cancelled ==> st.m.refresh == Some(t) && x.generation == st.m.current && !st.m.closing)
    && st.lock != Refreshing(t)
  }

  predicate HolderInv(st: State, h: HolderId)
    requires h in st.holders
  {
    h < st.nextHolder && st.holders[h] in st.m.generations
  }

  /** The owner of the replace lock is past the point where it forgot the refresh. */
  predicate ForgotRefresh(pc: LockPc) { !pc.Free? && !pc.ReplaceClosing? }

  predicate ReplacesOrRefreshes(pc: LockPc) { !pc.Free? && !pc.CloseAwait? }

  predicate Globals(st: State) {
    && st.m.current in st.m.generations
    && (ForgotRefresh(st.lock) || st.m.closing ==> st.m.refresh.None?)
    && (st.m.refresh.Some? ==> st.m.refresh.value < st.nextHolder)
    && (ReplacesOrRefreshes(st.lock) ==> !st.m.closing && !st.m.closed && st.shutdown == Idle)
    && (st.lock.CloseAwait? <==> st.shutdown == Locked)
    && (st.shutdown != Idle ==> st.m.closing && !st.m.closed)
    && (st.lock.Refreshing? ==> st.lock.holder in st.holders && st.holders[st.lock.holder] == st.m.current)
    && (st.m.closed ==> st.m.unpublished == {} && st.m.closing)
    && (st.shutdown.Unpublishing? && st.shutdown.allOk ==> st.m.unpublished <= st.shutdown.rest)
    && (st.shutdown.Unpublishing? && st.shutdown.busy.Some? ==> st.shutdown.busy.value in st.shutdown.rest)
  }

  ghost predicate Inv(st: State) {
    && Globals(st)
    && (forall g | g in st.m.generations :: GenInv(st, g))
    && (forall t | t in st.tasks :: TaskInv(st, t))
    && (forall h | h in st.holders :: HolderInv(st, h))
    && (forall g | g in st.m.retired :: g in st.m.generations)
  }

  /** `start_model_list_refresh` is called at startup only; any call is harmless while
      nobody under the replace lock is about to retire the current generation. */
  predicate Disciplined(st: State, step: Step) { step.StartRefresh? ==> !ForgotRefresh(st.lock) }

  lemma HoldCount(holders: map<HolderId, GenerationId>, h: HolderId, id: GenerationId, g: GenerationId)
    requires h !in holders
    ensures |HoldersOf(holders[h := id], g)| == |HoldersOf(holders, g)| + if g == id then 1 else 0
    ensures g != id ==> HoldersOf(holders[h := id], g) == HoldersOf(holders, g)
  {
    assert HoldersOf(holders[h := id], g) == HoldersOf(holders, g) + if g == id then {h} else {};
  }

  lemma DropCount(holders: map<HolderId, GenerationId>, h: HolderId, g: GenerationId)
    requires h in holders
    ensures |HoldersOf(holders - {h}, g)| == |HoldersOf(holders, g)| - if g == holders[h] then 1 else 0
    ensures g != holders[h] ==> HoldersOf(holders - {h}, g) == HoldersOf(holders, g)
  {
    assert HoldersOf(holders - {h}, g) == HoldersOf(holders, g) - if g == holders[h] then {h} else {};
  }

  /** The generations are as in `st`, except that `id` is now `x` with `count` holders. */
  lemma OneGenInv(st: State, after: State, id: GenerationId)
    requires Inv(st) && id in st.m.generations && id in after.m.generations
    requires after.m == st.m.(generations := st.m.generations[id := after.m.generations[id]])
    requires after.shutdown == st.shutdown && GenInv(after, id)
    requires forall g | g != id :: HoldersOf(after.holders, g) == HoldersOf(st.holders, g)
    ensures forall g | g in after.m.generations :: GenInv(after, g)
  {
    forall g | g in after.m.generations && g != id
      ensures GenInv(after, g)
    {
      assert GenInv(st, g);
    }
  }

  /** A lease, or a refresh that starts, on the current generation. */
  lemma HoldInv(st: State, h: HolderId, id: GenerationId)
    requires Inv(st) && id == st.m.current && !st.m.closing && h !in st.holders && h < st.nextHolder
    requires h !in st.tasks && st.lock != Refreshing(h)
    ensures Inv(Hold(st, h, id))
  {
    var after := Hold(st, h, id);
    assert GenInv(st, id);
    LeasedOk(st.m, st.shutdown, id, st.m.generations[id], |HoldersOf(st.holders, id)|);
    forall g { HoldCount(st.holders, h, id, g); }
    OneGenInv(st, after, id);
    forall t | t in after.tasks ensures TaskInv(after, t) { assert TaskInv(st, t); }
    forall k | k in after.holders ensures HolderInv(after, k) { assert k != h ==> HolderInv(st, k); }
  }

  lemma DropInv(st: State, h: HolderId)
    requires Inv(st) && h in st.holders && h !in st.tasks && st.lock != Refreshing(h)
    ensures Inv(Drop(st, h))
  {
    var after, id := Drop(st, h), st.holders[h];
    assert HolderInv(st, h) && GenInv(st, id);
    assert h in HoldersOf(st.holders, id);
    ReturnedOk(st.m, st.shutdown, id, st.m.generations[id], |HoldersOf(st.holders, id)|);
    forall g { DropCount(st.holders, h, g); }
    OneGenInv(st, after, id);
    forall t | t in after.tasks ensures TaskInv(after, t) { assert TaskInv(st, t); }
    forall k | k in after.holders ensures HolderInv(after, k) { assert HolderInv(st, k); }
  }

  /** A fresh holder number that nobody uses yet. */
  lemma NumberInv(st: State)
    requires Inv(st)
    ensures Inv(st.(nextHolder := st.nextHolder + 1))
    ensures st.nextHolder !in st.holders && st.nextHolder !in st.tasks && st.lock != Refreshing(st.nextHolder)
  {
    var after := st.(nextHolder := st.nextHolder + 1);
    if st.lock.Refreshing? { assert HolderInv(st, st.lock.holder); }
    forall g | g in after.m.generations ensures GenInv(after, g) { assert GenInv(st, g); }
    forall t | t in after.tasks ensures TaskInv(after, t) { assert TaskInv(st, t); }
    forall h | h in after.holders ensures HolderInv(after, h) { assert HolderInv(st, h); }
  }

  lemma AcquireInv(st: State)
    requires Inv(st)
    ensures Inv(Act(st, Acquire))
  {
    if !st.m.closing && !st.m.closed {
      NumberInv(st);
      HoldInv(st.(nextHolder := st.nextHolder + 1), st.nextHolder, st.m.current);
    }
  }

  /** Only the lock owner, the shutdown or the unpublished set moved. */
  lemma OwnersInv(st: State, after: State)
    requires Inv(st) && Globals(after)
    requires after.m == st.m.(unpublished := after.m.unpublished, closed := after.m.closed)
    requires after.holders == st.holders && after.tasks == st.tasks
    requires st.nextHolder <= after.nextHolder
    requires forall t | t in st.tasks :: after.lock != Refreshing(t)
    requires forall g | g in st.m.generations :: GenInv(st, g) ==> GenInv(after, g)
    ensures Inv(after)
  {
    forall t | t in after.tasks ensures TaskInv(after, t) { assert TaskInv(st, t); }
    forall h | h in after.holders ensures HolderInv(after, h) { assert HolderInv(st, h); }
  }

  lemma LockCleanedInv(st: State, ok: bool)
    requires Inv(st)
    ensures Inv(DoLockCleaned(st, ok))
  {
    OwnersInv(st, DoLockCleaned(st, ok));
  }

  lemma ShutdownCleanedInv(st: State, ok: bool)
    requires Inv(st)
    ensures Inv(DoShutdownCleaned(st, ok))
  {
    OwnersInv(st, DoShutdownCleaned(st, ok));
  }

  lemma ForgetTaskInv(st: State, t: HolderId)
    requires Inv(st)
    ensures Inv(st.(tasks := st.tasks - {t}))
  {
    var after := st.(tasks := st.tasks - {t});
    forall g | g in after.m.generations ensures GenInv(after, g) { assert GenInv(st, g); }
    forall u | u in after.tasks ensures TaskInv(after, u) { assert TaskInv(st, u); }
    forall h | h in after.holders ensures HolderInv(after, h) { assert HolderInv(st, h); }
  }

  lemma RememberTaskInv(st: State, t: HolderId, x: Task)
    requires Inv(st) && t !in st.tasks && TaskInv(st.(tasks := st.tasks[t := x]), t)
    ensures Inv(st.(tasks := st.tasks[t := x]))
  {
    var after := st.(tasks := st.tasks[t := x]);
    forall g | g in after.m.generations ensures GenInv(after, g) { assert GenInv(st, g); }
    forall u | u in after.tasks ensures TaskInv(after, u) { assert u != t ==> TaskInv(st, u); }
    forall h | h in after.holders ensures HolderInv(after, h) { assert HolderInv(st, h); }
  }

  lemma RunTaskInv(st: State, t: HolderId)
    requires Inv(st)
    ensures Inv(DoRunTask(st, t))
  {
    if t in st.tasks && !st.tasks[t].started {
      assert TaskInv(st, t);
      var x := st.tasks[t];
      var without := st.(tasks := st.tasks - {t});
      ForgetTaskInv(st, t);
      assert GenInv(st, st.m.current);
      if !x.cancelled && !st.m.generations[x.generation].closed {
        HoldInv(without, t, x.generation);
        var held := Hold(without, t, x.generation);
        RememberTaskInv(held, t, x.(started := true));
        assert held.tasks[t := x.(started := true)] == st.tasks[t := x.(started := true)];
      }
    }
  }

  lemma FinishTaskInv(st: State, t: HolderId)
    requires Inv(st) && t in st.tasks && st.tasks[t].started && HolderKnown(st, t)
    ensures Inv(Drop(st, t).(tasks := st.tasks - {t}))
  {
    assert TaskInv(st, t);
    ForgetTaskInv(st, t);
    DropInv(st.(tasks := st.tasks - {t}), t);
  }

  lemma NewTaskInv(st: State)
    requires Inv(st) && !ForgotRefresh(st.lock) && !st.m.closing
    requires st.m.refresh.None? || st.m.refresh.value !in st.tasks
    ensures Inv(NewTask(st, st.m.current))
  {
    var after := NewTask(st, st.m.current);
    NumberInv(st);
    forall g | g in after.m.generations ensures GenInv(after, g) { assert GenInv(st, g); }
    forall u | u in after.tasks ensures TaskInv(after, u) { assert u != st.nextHolder ==> TaskInv(st, u); }
    forall h | h in after.holders ensures HolderInv(after, h) { assert HolderInv(st, h); }
  }

  lemma StartCleanupInv(st: State, g: GenerationId)
    requires Inv(st) && g in st.m.generations && st.m.generations[g].cleanup == Scheduled
    ensures Inv(SetGeneration(st, g, st.m.generations[g].(cleanup := Started)))
  {
    var after := SetGeneration(st, g, st.m.generations[g].(cleanup := Started));
    assert GenInv(st, g);
    OneGenInv(st, after, g);
    forall t | t in after.tasks ensures TaskInv(after, t) { assert TaskInv(st, t); }
    forall k | k in after.holders ensures HolderInv(after, k) { assert HolderInv(st, k); }
  }

  lemma FinishGenInv(st: State, id: GenerationId, ok: bool, g: GenerationId)
    requires Inv(st) && id in st.m.generations && st.m.generations[id].cleanup == Started && g in st.m.generations
    ensures GenInv(DoFinishCleanup(st, id, ok), g)
  {
    assert GenInv(st, g);
    assert GenInv(st, id);
  }

  lemma FinishCleanupInv(st: State, id: GenerationId, ok: bool)
    requires Inv(st) && id in st.m.generations && st.m.generations[id].cleanup == Started
    ensures Inv(DoFinishCleanup(st, id, ok))
  {
    var after := DoFinishCleanup(st, id, ok);
    forall g | g in after.m.generations ensures GenInv(after, g) { FinishGenInv(st, id, ok, g); }
    forall t | t in after.tasks ensures TaskInv(after, t) { assert TaskInv(st, t); }
    forall k | k in after.holders ensures HolderInv(after, k) { assert HolderInv(st, k); }
  }

  lemma CancelRefreshInv(st: State)
    requires Inv(st)
    ensures var (after, task) := CancelRefresh(st);
      Inv(after) && after.m.refresh.None? && after.lock == st.lock && after.shutdown == st.shutdown
      && after.m == st.m.(refresh := None)
  {
    var after := CancelRefresh(st).0;
    forall g | g in after.m.generations ensures GenInv(after, g) { assert GenInv(st, g); }
    forall t | t in after.tasks ensures TaskInv(after, t) { assert TaskInv(st, t); }
    forall k | k in after.holders ensures HolderInv(after, k) { assert HolderInv(st, k); }
  }

  lemma BeginCloseInv(st: State, task: Option<HolderId>)
    requires Inv(st) && st.m.refresh.None? && st.lock == Free && st.shutdown == Idle && !st.m.closed
    ensures Inv(st.(m := st.m.(closing := true), lock := CloseAwait(task), shutdown := Locked))
  {
    var after := st.(m := st.m.(closing := true), lock := CloseAwait(task), shutdown := Locked);
    forall g | g in after.m.generations ensures GenInv(after, g) { assert GenInv(st, g); }
    forall t | t in after.tasks ensures TaskInv(after, t) { assert TaskInv(st, t); }
    forall k | k in after.holders ensures HolderInv(after, k) { assert HolderInv(st, k); }
  }

  lemma BeginInv(st: State, step: Step)
    requires Inv(st) && st.lock == Free && st.shutdown == Idle && !st.m.closed
    requires step.BeginClose? || (!st.m.closing && (step.BeginReplace? || step.BeginRefresh?))
    ensures Inv(DoBegin(st, step))
  {
    CancelRefreshInv(st);
    var (cancelled, task) := CancelRefresh(st);
    if step.BeginClose? {
      BeginCloseInv(cancelled, task);
    } else {
      OwnersInv(cancelled, DoBegin(st, step));
    }
  }

  lemma CloseLockedInv(st: State)
    requires Inv(st) && st.lock.CloseAwait?
    ensures Inv(DoCloseLocked(st))
  {
    var after := DoCloseLocked(st);
    assert GenInv(st, st.m.current);
    forall g | g in after.m.generations ensures GenInv(after, g) { assert GenInv(st, g); }
    forall t | t in after.tasks ensures TaskInv(after, t) { assert TaskInv(st, t); }
    forall k | k in after.holders ensures HolderInv(after, k) { assert HolderInv(st, k); }
  }

  lemma RefreshingInv(st: State)
    requires Inv(st) && st.lock.Refreshing?
    ensures HolderKnown(st, st.lock.holder) && Inv(Drop(st, st.lock.holder).(lock := Free))
  {
    var h, free := st.lock.holder, st.(lock := Free);
    assert HolderInv(st, h);
    assert h in st.tasks ==> TaskInv(st, h);
    OwnersInv(st, free);
    DropInv(free, h);
  }

  lemma CloseResumeInv(st: State, t: Option<HolderId>)
    requires Inv(st) && st.lock == CloseAwait(t)
    ensures Inv(DoLockResume(st))
  {
    if Gone(st, t) { CloseLockedInv(st); }
  }

  lemma RefreshResumeInv(st: State, t: Option<HolderId>)
    requires Inv(st) && st.lock == RefreshAwait(t)
    ensures Inv(DoLockResume(st))
  {
    if Gone(st, t) { StartRefreshingInv(st); }
  }

  lemma RefreshedInv(st: State, h: HolderId)
    requires Inv(st) && st.lock == Refreshing(h) && HolderKnown(st, h)
    ensures Inv(DoLockResume(st))
  {
    RefreshingInv(st);
  }

  lemma LockResumeInv(st: State)
    requires Inv(st) && (st.lock.Refreshing? ==> HolderKnown(st, st.lock.holder))
    ensures Inv(DoLockResume(st))
  {
    match st.lock
    case CloseAwait(t) => CloseResumeInv(st, t);
    case Refreshing(h) => RefreshedInv(st, h);
    case RefreshAwait(t) => RefreshResumeInv(st, t);
    case _ => WaiterResumeInv(st);
  }

  lemma WaiterResumeInv(st: State)
    requires Inv(st) && !st.lock.CloseAwait? && !st.lock.Refreshing? && !st.lock.RefreshAwait?
    ensures Inv(DoLockResume(st))
  {
    OwnersInv(st, DoLockResume(st));
  }

  lemma StartRefreshingInv(st: State)
    requires Inv(st) && st.lock.RefreshAwait?
    ensures Inv(Hold(st, st.nextHolder, st.m.current).(nextHolder := st.nextHolder + 1, lock := Refreshing(st.nextHolder)))
  {
    NumberInv(st);
    var held := Hold(st.(nextHolder := st.nextHolder + 1), st.nextHolder, st.m.current);
    HoldInv(st.(nextHolder := st.nextHolder + 1), st.nextHolder, st.m.current);
    OwnersInv(held, held.(lock := Refreshing(st.nextHolder)));
  }

  lemma LockCancelInv(st: State)
    requires Inv(st) && (st.lock.Refreshing? ==> HolderKnown(st, st.lock.holder))
    ensures Inv(DoLockCancel(st))
  {
    if st.lock.Refreshing? { RefreshingInv(st); } else { OwnersInv(st, DoLockCancel(st)); }
  }

  lemma PublishInv(st: State)
    requires Inv(st) && st.lock.ReplaceRetry?
    ensures Inv(Publish(st))
  {
    var after, previous := Publish(st), st.m.current;
    assert GenInv(st, previous);
    NumberInv(st);
    forall g | g in after.m.generations
      ensures GenInv(after, g)
    {
      if g in st.m.generations { assert GenInv(st, g); }
    }
    forall t | t in after.tasks ensures TaskInv(after, t) { assert t != st.nextHolder ==> TaskInv(st, t); }
    forall k | k in after.holders ensures HolderInv(after, k) { assert HolderInv(st, k); }
  }

  lemma BuildInv(st: State, built: Built)
    requires Inv(st) && st.lock.ReplaceRetry?
    ensures Inv(DoBuild(st, built))
  {
    if built.Commits? { PublishInv(st); } else { OwnersInv(st, DoBuild(st, built)); }
  }

  lemma CloseOneInv(st: State, id: GenerationId)
    requires Inv(st) && st.shutdown.Cleaning? && id in st.shutdown.todo && id in st.m.generations
    ensures Inv(DoCloseOne(st, id))
  {
    var after := DoCloseOne(st, id);
    forall g | g in after.m.generations ensures GenInv(after, g) { assert GenInv(st, g); }
    forall t | t in after.tasks ensures TaskInv(after, t) { assert TaskInv(st, t); }
    forall k | k in after.holders ensures HolderInv(after, k) { assert HolderInv(st, k); }
  }

  lemma ShutdownResumeInv(st: State)
    requires Inv(st)
    ensures Inv(DoShutdownResume(st))
  {
    OwnersInv(st, DoShutdownResume(st));
  }

  lemma ShutdownStepInv(st: State, step: Step)
    requires Inv(st) && OfShutdown(step)
    ensures Inv(ActShutdown(st, step))
  {
    match step
    case CloseOne(g) =>
      if st.shutdown.Cleaning? && g in st.shutdown.todo && g in st.m.generations { CloseOneInv(st, g); }
    case ShutdownResume => ShutdownResumeInv(st);
    case ShutdownCleaned(ok) => ShutdownCleanedInv(st, ok);
    case SeeDrained(g) => if g in st.m.generations && st.m.generations[g].drained { SeeDrainedInv(st, g); }
    case ShutdownCleans(r) => ShutdownCleansInv(st, r);
    case ShutdownCancel => ShutdownCancelInv(st);
  }

  lemma ShutdownCleansInv(st: State, r: RuntimeId)
    requires Inv(st)
    ensures Inv(DoShutdownCleans(st, r))
  {
    OwnersInv(st, DoShutdownCleans(st, r));
  }

  lemma ShutdownCancelInv(st: State)
    requires Inv(st)
    ensures Inv(DoShutdownCancel(st))
  {
    OwnersInv(st, DoShutdownCancel(st));
  }

  lemma SeeDrainedInv(st: State, id: GenerationId)
    requires Inv(st) && id in st.m.generations && st.m.generations[id].drained
    ensures Inv(DoSeeDrained(st, id))
  {
    assert GenInv(st, id);
    OwnersInv(st, DoSeeDrained(st, id));
  }

  lemma LockStepInv(st: State, step: Step)
    requires Inv(st)
    ensures Inv(ActLock(st, step))
  {
    match step
    case LockResume => LockKnown(st); LockResumeInv(st);
    case LockCleaned(ok) => LockCleanedInv(st, ok);
    case Build(built) => if st.lock.ReplaceRetry? { BuildInv(st, built); }
    case LockCancel => LockKnown(st); LockCancelInv(st);
    case LockCleans(r) => LockCleansInv(st, r);
    case _ => BeginStepInv(st, step);
  }

  lemma LockCleansInv(st: State, r: RuntimeId)
    requires Inv(st)
    ensures Inv(ActLock(st, LockCleans(r)))
  {
    OwnersInv(st, ActLock(st, LockCleans(r)));
  }

  lemma BeginStepInv(st: State, step: Step)
    requires Inv(st)
    requires !step.LockResume? && !step.LockCleaned? && !step.Build? && !step.LockCancel? && !step.LockCleans?
    ensures Inv(ActLock(st, step))
  {
    match step
    case BeginReplace => if st.lock == Free && !st.m.closing && !st.m.closed { BeginInv(st, step); }
    case BeginRefresh => if st.lock == Free && !st.m.closing && !st.m.closed { BeginInv(st, step); }
    case BeginClose => if st.lock == Free && st.shutdown == Idle && !st.m.closed { BeginInv(st, step); }
    case _ =>
  }

  lemma LockKnown(st: State)
    requires Inv(st)
    ensures st.lock.Refreshing? ==> HolderKnown(st, st.lock.holder)
  {
    if st.lock.Refreshing? { assert HolderInv(st, st.lock.holder); }
  }

  lemma StepInv(st: State, step: Step)
    requires Inv(st) && Disciplined(st, step)
    ensures Inv(Act(st, step))
  {
    match step
    case Acquire => AcquireInv(st);
    case Release(h) => if HolderKnown(st, h) && IsLease(st, h) { DropInv(st, h); }
    case StartRefresh =>
      if !st.m.closing && (st.m.refresh.None? || st.m.refresh.value !in st.tasks) { NewTaskInv(st); }
    case RunTask(t) => RunTaskInv(st, t);
    case FinishTask(t) =>
      if t in st.tasks && st.tasks[t].started && HolderKnown(st, t) { FinishTaskInv(st, t); }
    case StartCleanup(g) =>
      if g in st.m.generations && st.m.generations[g].cleanup == Scheduled { StartCleanupInv(st, g); }
    case FinishCleanup(g, ok) =>
      if g in st.m.generations && st.m.generations[g].cleanup == Started { FinishCleanupInv(st, g, ok); }
    case _ =>
      if OfShutdown(step) { ShutdownStepInv(st, step); } else { LockStepInv(st, step); }
  }
}
