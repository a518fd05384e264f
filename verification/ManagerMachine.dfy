/** Every interleaving of lease holders, background refreshes, replacements, explicit
    refreshes, shutdowns and cleanups over one provider runtime manager.

    The replace lock has at most one owner; `lock` says at which await that owner is
    suspended. `shutdown` says the same of the owner of the close lock, once it has given
    the replace lock back. */
module ManagerMachine {
  import opened Options
  import opened Generations

  type GenerationId = nat
  type RuntimeId = nat
  type HolderId = nat   // a lease, or a refresh

  /** A background refresh task. While `started` it holds its generation. */
  datatype Task = Task(generation: GenerationId, started: bool, cancelled: bool)

  datatype LockPc =
    | Free
    | ReplaceAwait(task: Option<HolderId>)            // awaiting the cancelled refresh
    | ReplaceRetry(todo: set<RuntimeId>, busy: Option<RuntimeId>)   // cleaning unpublished runtimes
    | ReplaceFailing(runtime: RuntimeId)              // cleaning the failed candidate
    | ReplaceClosing(generation: GenerationId)        // awaiting the previous generation's cleanup
    | RefreshAwait(task: Option<HolderId>)
    | Refreshing(holder: HolderId)
    | CloseAwait(task: Option<HolderId>)

  datatype ShutdownPc =
    | Idle
    | Locked                                          // inside the replace lock: see CloseAwait
    | Draining(all: set<GenerationId>, pending: set<GenerationId>)
    | Cleaning(todo: set<GenerationId>, waiting: set<GenerationId>, ok: bool)
    | Unpublishing(rest: set<RuntimeId>, busy: Option<RuntimeId>, allOk: bool)

  datatype Manager = Manager(
    generations: map<GenerationId, Generation>, current: GenerationId, nextId: GenerationId,
    retired: set<GenerationId>, unpublished: set<RuntimeId>, closing: bool, closed: bool,
    refresh: Option<HolderId>)

  datatype State = State(
    m: Manager, holders: map<HolderId, GenerationId>, tasks: map<HolderId, Task>,
    nextHolder: HolderId, nextRuntime: RuntimeId, lock: LockPc, shutdown: ShutdownPc)

  datatype Built = FactoryFails | CommitFails | Commits

  datatype Step =
    | Acquire
    | Release(holder: HolderId)
    | StartRefresh
    | RunTask(task: HolderId)
    | FinishTask(task: HolderId)
    | StartCleanup(generation: GenerationId)
    | FinishCleanup(generation: GenerationId, ok: bool)
    | BeginReplace
    | BeginRefresh
    | BeginClose
    | LockResume                       // the lock owner's await is over
    | LockCleans(runtime: RuntimeId)   // the owner starts to clean an unpublished runtime
    | LockCleaned(ok: bool)            // that cleanup, or the failed candidate's, ends
    | Build(built: Built)
    | LockCancel
    | SeeDrained(generation: GenerationId)
    | CloseOne(generation: GenerationId)
    | ShutdownResume
    | ShutdownCleans(runtime: RuntimeId)
    | ShutdownCleaned(ok: bool)
    | ShutdownCancel

  function Init(): State {
    State(Manager(map[1 := NewGeneration()], 1, 2, {}, {}, false, false, None), map[], map[], 0, 0, Free, Idle)
  }

  // ---- What one block does to the manager's own fields ----

  function File(m: Manager, id: GenerationId, g: Generation): Manager {
    m.(generations := m.generations[id := g])
  }

  /** The committed part of a replacement: the next generation becomes current. */
  function PublishIn(m: Manager): Manager
    requires m.current in m.generations
  {
    var previous, id := m.current, m.nextId;
    m.(generations := m.generations[id := NewGeneration()][previous := CloseRequested(Retired(m.generations[previous]))],
       current := id, nextId := id + 1, retired := m.retired + {previous})
  }

  /** The part of `close` after its refresh is gone: retire the current generation. */
  function RetireIn(m: Manager): Manager
    requires m.current in m.generations
  {
    if m.generations[m.current].retired then m
    else File(m, m.current, Retired(m.generations[m.current])).(retired := m.retired + {m.current})
  }

  /** The end of a generation's cleanup. */
  function CleanIn(m: Manager, id: GenerationId, ok: bool): Manager
    requires id in m.generations
  {
    var filed := File(m, id, Cleaned(m.generations[id], ok));
    if ok then filed.(retired := m.retired - {id}) else filed
  }

  // ---- The steps ----

  function SetGeneration(st: State, id: GenerationId, g: Generation): State {
    st.(m := File(st.m, id, g))
  }

  /** A new lease or started refresh on `id`. */
  function Hold(st: State, h: HolderId, id: GenerationId): State
    requires id in st.m.generations
  {
    SetGeneration(st, id, Leased(st.m.generations[id])).(holders := st.holders[h := id])
  }

  function Drop(st: State, h: HolderId): State
    requires h in st.holders && st.holders[h] in st.m.generations
  {
    var id := st.holders[h];
    SetGeneration(st, id, Returned(st.m.generations[id], st.m.closing)).(holders := st.holders - {h})
  }

  /** `_cancel_refresh` up to its await: the task to wait for, if it is not done. */
  function CancelRefresh(st: State): (State, Option<HolderId>) {
    match st.m.refresh
    case None => (st, None)
    case Some(t) =>
      var forgotten := st.(m := st.m.(refresh := None));
      if t in st.tasks then (forgotten.(tasks := st.tasks[t := st.tasks[t].(cancelled := true)]), Some(t))
      else (forgotten, None)
  }

  function NewTask(st: State, id: GenerationId): State {
    st.(tasks := st.tasks[st.nextHolder := Task(id, false, false)],
        m := st.m.(refresh := Some(st.nextHolder)), nextHolder := st.nextHolder + 1)
  }

  function Publish(st: State): State
    requires st.m.current in st.m.generations
  {
    var idle := st.m.generations[st.m.current].leases == 0;
    NewTask(st.(m := PublishIn(st.m)), st.m.nextId).(lock := if idle then ReplaceClosing(st.m.current) else Free)
  }

  function DoBuild(st: State, built: Built): State
    requires st.m.current in st.m.generations
  {
    match built
    case FactoryFails => st.(lock := Free)
    case CommitFails =>
      st.(m := st.m.(unpublished := st.m.unpublished + {st.nextRuntime}), nextRuntime := st.nextRuntime + 1,
          lock := ReplaceFailing(st.nextRuntime))
    case Commits => Publish(st)
  }

  function DoCloseLocked(st: State): State
    requires st.m.current in st.m.generations
  {
    var m := RetireIn(st.m);
    st.(m := m, lock := Free, shutdown := Draining(m.retired, m.retired))
  }

  function Gone(st: State, task: Option<HolderId>): bool { task.None? || task.value !in st.tasks }

  function DoLockResume(st: State): State
    requires st.m.current in st.m.generations
    requires st.lock.Refreshing? ==> st.lock.holder in st.holders && st.holders[st.lock.holder] in st.m.generations
  {
    match st.lock
    case ReplaceAwait(t) => if Gone(st, t) then st.(lock := ReplaceRetry(st.m.unpublished, None)) else st
    case RefreshAwait(t) =>
      if Gone(st, t) then Hold(st, st.nextHolder, st.m.current).(nextHolder := st.nextHolder + 1, lock := Refreshing(st.nextHolder))
      else st
    case CloseAwait(t) => if Gone(st, t) then DoCloseLocked(st) else st
    case Refreshing(h) => Drop(st, h).(lock := Free)
    case ReplaceClosing(g) =>
      if g in st.m.generations && st.m.generations[g].cleanup in {Scheduled, Started} then st else st.(lock := Free)
    case _ => st
  }

  function DoLockCancel(st: State): State
    requires st.lock.Refreshing? ==> st.lock.holder in st.holders && st.holders[st.lock.holder] in st.m.generations
  {
    match st.lock
    case Refreshing(h) => Drop(st, h).(lock := Free)
    case CloseAwait(_) => st.(lock := Free, shutdown := Idle)
    case _ => st.(lock := Free)
  }

  function DoFinishCleanup(st: State, id: GenerationId, ok: bool): State
    requires id in st.m.generations
  {
    var out := st.(m := CleanIn(st.m, id, ok));
    if st.shutdown.Cleaning? && id in st.shutdown.waiting
    then out.(shutdown := Cleaning(st.shutdown.todo, st.shutdown.waiting - {id}, st.shutdown.ok && ok))
    else out
  }

  /** One `_close_generation` of the shutdown's gather, up to its await. */
  function DoCloseOne(st: State, id: GenerationId): State
    requires st.shutdown.Cleaning? && id in st.m.generations
  {
    var g, pc := st.m.generations[id], st.shutdown;
    if g.closed then st.(shutdown := pc.(todo := pc.todo - {id}))
    else if g.leases != 0 then st.(shutdown := pc.(todo := pc.todo - {id}, ok := false))
    else SetGeneration(st, id, CloseRequested(g)).(shutdown := pc.(todo := pc.todo - {id}, waiting := pc.waiting + {id}))
  }

  function DoShutdownResume(st: State): State {
    match st.shutdown
    case Draining(all, pending) => if pending == {} then st.(shutdown := Cleaning(all, {}, true)) else st
    case Cleaning(todo, waiting, ok) =>
      if todo == {} && waiting == {} then st.(shutdown := Unpublishing(st.m.unpublished, None, ok)) else st
    case Unpublishing(rest, busy, allOk) =>
      if rest != {} || busy.Some? then st
      else if allOk then st.(m := st.m.(closed := true), shutdown := Idle)
      else st.(shutdown := Idle)
    case _ => st
  }

  function DoSeeDrained(st: State, id: GenerationId): State {
    if st.shutdown.Draining? then st.(shutdown := st.shutdown.(pending := st.shutdown.pending - {id})) else st
  }

  function DoShutdownCleans(st: State, r: RuntimeId): State {
    if st.shutdown.Unpublishing? && st.shutdown.busy.None? && r in st.shutdown.rest
    then st.(shutdown := st.shutdown.(busy := Some(r))) else st
  }

  function DoShutdownCancel(st: State): State {
    if st.shutdown.Draining? || st.shutdown.Cleaning? || st.shutdown.Unpublishing? then st.(shutdown := Idle) else st
  }

  predicate HolderKnown(st: State, h: HolderId) { h in st.holders && st.holders[h] in st.m.generations }

  /** A lease, as opposed to a refresh. */
  predicate IsLease(st: State, h: HolderId) { h !in st.tasks && st.lock != Refreshing(h) }

  /** One step. A step that is not due changes nothing. */
  function Act(st: State, step: Step): State {
    if st.m.current !in st.m.generations then st
    else
      match step
      case Acquire =>
        if st.m.closing || st.m.closed then st
        else Hold(st, st.nextHolder, st.m.current).(nextHolder := st.nextHolder + 1)
      case Release(h) => if HolderKnown(st, h) && IsLease(st, h) then Drop(st, h) else st
      case StartRefresh =>
        if st.m.closing || st.m.closed || (st.m.refresh.Some? && st.m.refresh.value in st.tasks) then st
        else NewTask(st, st.m.current)
      case RunTask(t) => DoRunTask(st, t)
      case FinishTask(t) =>
        if t in st.tasks && st.tasks[t].started && HolderKnown(st, t) then Drop(st, t).(tasks := st.tasks - {t}) else st
      case StartCleanup(g) =>
        if g in st.m.generations && st.m.generations[g].cleanup == Scheduled
        then SetGeneration(st, g, st.m.generations[g].(cleanup := Started)) else st
      case FinishCleanup(g, ok) =>
        if g in st.m.generations && st.m.generations[g].cleanup == Started then DoFinishCleanup(st, g, ok) else st
      case _ => if OfShutdown(step) then ActShutdown(st, step) else ActLock(st, step)
  }

  /** The steps of the owner of the close lock, outside the replace lock. */
  predicate OfShutdown(step: Step) {
    step.SeeDrained? || step.CloseOne? || step.ShutdownResume? || step.ShutdownCleans? || step.ShutdownCleaned? || step.ShutdownCancel?
  }

  function ActShutdown(st: State, step: Step): State {
    match step
    case SeeDrained(g) => if g in st.m.generations && st.m.generations[g].drained then DoSeeDrained(st, g) else st
    case CloseOne(g) =>
      if st.shutdown.Cleaning? && g in st.shutdown.todo && g in st.m.generations then DoCloseOne(st, g) else st
    case ShutdownResume => DoShutdownResume(st)
    case ShutdownCleans(r) => DoShutdownCleans(st, r)
    case ShutdownCleaned(ok) => DoShutdownCleaned(st, ok)
    case ShutdownCancel => DoShutdownCancel(st)
    case _ => st
  }

  function ActLock(st: State, step: Step): State
    requires st.m.current in st.m.generations
  {
    match step
    case BeginReplace => if st.lock != Free || st.m.closing || st.m.closed then st else DoBegin(st, step)
    case BeginRefresh => if st.lock != Free || st.m.closing || st.m.closed then st else DoBegin(st, step)
    case BeginClose => if st.lock != Free || st.shutdown != Idle || st.m.closed then st else DoBegin(st, step)
    case LockResume => if st.lock.Refreshing? && !HolderKnown(st, st.lock.holder) then st else DoLockResume(st)
    case LockCleans(r) =>
      if st.lock.ReplaceRetry? && st.lock.busy.None? && r in st.lock.todo
      then st.(lock := st.lock.(busy := Some(r))) else st
    case LockCleaned(ok) => DoLockCleaned(st, ok)
    case Build(built) => if st.lock == ReplaceRetry({}, None) then DoBuild(st, built) else st
    case LockCancel => if st.lock.Refreshing? && !HolderKnown(st, st.lock.holder) then st else DoLockCancel(st)
    case _ => st
  }

  /** A background refresh gets to run: a task cancelled before it started never does. */
  function DoRunTask(st: State, t: HolderId): State {
    if t !in st.tasks || st.tasks[t].started || st.tasks[t].generation !in st.m.generations then st
    else if st.tasks[t].cancelled || st.m.generations[st.tasks[t].generation].closed then st.(tasks := st.tasks - {t})
    else Hold(st, t, st.tasks[t].generation).(tasks := st.tasks[t := st.tasks[t].(started := true)])
  }

  /** The start of `replace`, of an explicit refresh or of `close` under the replace lock. */
  function DoBegin(st: State, step: Step): State {
    var (cancelled, task) := CancelRefresh(st);
    match step
    case BeginReplace => cancelled.(lock := ReplaceAwait(task))
    case BeginRefresh => cancelled.(lock := RefreshAwait(task))
    case _ => cancelled.(m := cancelled.m.(closing := true), lock := CloseAwait(task), shutdown := Locked)
  }

  function DoLockCleaned(st: State, ok: bool): State {
    match st.lock
    case ReplaceRetry(todo, Some(r)) =>
      st.(m := if ok then st.m.(unpublished := st.m.unpublished - {r}) else st.m, lock := ReplaceRetry(todo - {r}, None))
    case ReplaceFailing(r) =>
      st.(m := if ok then st.m.(unpublished := st.m.unpublished - {r}) else st.m, lock := Free)
    case _ => st
  }

  function DoShutdownCleaned(st: State, ok: bool): State {
    match st.shutdown
    case Unpublishing(rest, Some(r), allOk) =>
      st.(m := if ok then st.m.(unpublished := st.m.unpublished - {r}) else st.m,
          shutdown := Unpublishing(rest - {r}, None, allOk && ok))
    case _ => st
  }

  function Execute(st: State, steps: seq<Step>): State {
    if steps == [] then st else Act(Execute(st, steps[..|steps| - 1]), steps[|steps| - 1])
  }
}
