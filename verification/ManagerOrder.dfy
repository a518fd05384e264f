/** The order of things under the replace lock: the running refresh is over first, and what an
    earlier replacement could not clean up is tried again before anything new is built. */
module ManagerOrder {
  import opened Options
  import opened Generations
  import opened ManagerMachine
  import opened ManagerInvariant
  import opened ManagerTheorems
  import opened ManagerReplace

  // ---- The refresh ends first ----

  /** The owner of the lock is waiting for task `t`. */
  predicate Awaiting(pc: LockPc, t: HolderId) {
    pc == ReplaceAwait(Some(t)) || pc == RefreshAwait(Some(t)) || pc == CloseAwait(Some(t))
  }

  /** Task `t` was started before, and either the lock's owner still waits for it or it is over. */
  predicate WaitsOrOver(st: State, t: HolderId) {
    t < st.nextHolder && (Awaiting(st.lock, t) || t !in st.tasks)
  }

  lemma HoldersWait(st: State, step: Step, t: HolderId)
    requires st.m.current in st.m.generations && OfHolders(step) && WaitsOrOver(st, t)
    ensures WaitsOrOver(Act(st, step), t)
  {
  }

  lemma LockWaits(st: State, step: Step, t: HolderId)
    requires st.m.current in st.m.generations && !OfHolders(step) && !OfShutdown(step)
    requires WaitsOrOver(st, t) && st.lock != Free && step != LockCancel
    ensures WaitsOrOver(ActLock(st, step), t)
  {
  }

  lemma StepWaits(st: State, step: Step, t: HolderId)
    requires WaitsOrOver(st, t) && st.lock != Free && step != LockCancel
    ensures WaitsOrOver(Act(st, step), t)
  {
    if st.m.current in st.m.generations {
      if OfHolders(step) {
        HoldersWait(st, step, t);
      } else if !OfShutdown(step) {
        LockWaits(st, step, t);
      }
    }
  }

  /** A run during which the lock keeps its owner, who is not cancelled. */
  ghost predicate OwnedRun(st: State, steps: seq<Step>) {
    steps == [] || (OwnedRun(st, steps[..|steps| - 1])
                    && Execute(st, steps[..|steps| - 1]).lock != Free && steps[|steps| - 1] != LockCancel)
  }

  lemma {:induction false} OwnedWaits(st: State, steps: seq<Step>, t: HolderId)
    requires WaitsOrOver(st, t) && OwnedRun(st, steps)
    ensures WaitsOrOver(Execute(st, steps), t)
  {
    if steps != [] {
      OwnedWaits(st, steps[..|steps| - 1], t);
      StepWaits(Execute(st, steps[..|steps| - 1]), steps[|steps| - 1], t);
    }
  }

  lemma BeginWaits(st: State, begin: Step, t: HolderId)
    requires Inv(st) && st.lock == Free && st.m.refresh == Some(t)
    requires begin in {BeginReplace, BeginRefresh, BeginClose} && Act(st, begin).lock != Free
    ensures WaitsOrOver(Act(st, begin), t)
    ensures var begun := Act(st, begin);
      begun.m.refresh.None? && (t in st.tasks ==> t in begun.tasks && begun.tasks[t].cancelled && Awaiting(begun.lock, t))
  {
  }

  /** A replacement, an explicit refresh and a shutdown all begin by cancelling the refresh on
      record, and do not move on before it is over. */
  lemma RefreshEndsFirst(prefix: seq<Step>, begin: Step, steps: seq<Step>, t: HolderId)
    requires DisciplinedRun(Init(), prefix) && begin in {BeginReplace, BeginRefresh, BeginClose}
    requires var st := Execute(Init(), prefix);
      st.lock == Free && st.m.refresh == Some(t) && Act(st, begin).lock != Free && OwnedRun(Act(st, begin), steps)
    ensures var st := Execute(Init(), prefix); var begun := Act(st, begin);
      t in st.tasks ==> t in begun.tasks && begun.tasks[t].cancelled && Awaiting(begun.lock, t)
    ensures var end := Execute(Act(Execute(Init(), prefix), begin), steps);
      Awaiting(end.lock, t) || t !in end.tasks
  {
    InitInv();
    RunInv(Init(), prefix);
    BeginWaits(Execute(Init(), prefix), begin, t);
    OwnedWaits(Act(Execute(Init(), prefix), begin), steps, t);
  }

  // ---- Earlier failures are retried first ----

  /** The step ends a cleanup of runtime `r` that the replacement has tried. */
  predicate Tries(st: State, step: Step, r: RuntimeId) {
    step.LockCleaned? && st.lock.ReplaceRetry? && st.lock.busy == Some(r)
  }

  ghost predicate TriedIn(st: State, steps: seq<Step>, r: RuntimeId) {
    steps != [] && (TriedIn(st, steps[..|steps| - 1], r)
                    || Tries(Execute(st, steps[..|steps| - 1]), steps[|steps| - 1], r))
  }

  /** Runtime `r` is still to be tried by the replacement that owns the lock. */
  predicate ToTry(st: State, r: RuntimeId) {
    match st.lock
    case ReplaceAwait(_) => r in st.m.unpublished
    case ReplaceRetry(todo, _) => r in todo
    case _ => false
  }

  lemma LockTries(st: State, step: Step, r: RuntimeId)
    requires st.m.current in st.m.generations && ToTry(st, r) && !OfHolders(step) && !OfShutdown(step)
    ensures ToTry(ActLock(st, step), r) || Tries(st, step, r) || ActLock(st, step).lock == Free
  {
  }

  lemma StepTries(st: State, step: Step, r: RuntimeId)
    requires Inv(st) && ToTry(st, r)
    ensures ToTry(Act(st, step), r) || Tries(st, step, r) || Act(st, step).lock == Free
  {
    if OfHolders(step) {
      HoldersLeaveRuntimes(st, step);
      LockLeftAlone(st, step);
    } else if OfShutdown(step) {
      LockLeftAlone(st, step);
      assert Act(st, step).m.unpublished == st.m.unpublished;
    } else {
      LockTries(st, step, r);
    }
  }

  lemma {:induction false} TriedOrToTry(st: State, steps: seq<Step>, r: RuntimeId)
    requires Inv(st) && Replacing(st.lock) && UncommittedRun(st, steps) && ToTry(st, r)
    ensures var end := Execute(st, steps);
      Inv(end) && (ToTry(end, r) || TriedIn(st, steps, r) || end.lock == Free)
  {
    if steps != [] {
      var before := Execute(st, steps[..|steps| - 1]);
      TriedOrToTry(st, steps[..|steps| - 1], r);
      UncommittedUnmoved(st, steps[..|steps| - 1]);
      StepInv(before, steps[|steps| - 1]);
      if ToTry(before, r) { StepTries(before, steps[|steps| - 1], r); }
    }
  }

  /** A replacement builds its runtime only after it has tried every runtime that was waiting for
      its cleanup when it began. */
  lemma RetriesBeforeBuilding(prefix: seq<Step>, steps: seq<Step>, r: RuntimeId, built: Built)
    requires DisciplinedRun(Init(), prefix)
    requires var st := Execute(Init(), prefix);
      st.lock == Free && !st.m.closing && !st.m.closed && r in st.m.unpublished
    requires var begun := Act(Execute(Init(), prefix), BeginReplace);
      UncommittedRun(begun, steps) && Act(Execute(begun, steps), Build(built)) != Execute(begun, steps)
    ensures TriedIn(Act(Execute(Init(), prefix), BeginReplace), steps, r)
  {
    var st := Execute(Init(), prefix);
    InitInv();
    RunInv(Init(), prefix);
    StepInv(st, BeginReplace);
    BeginsTrying(st, r);
    TriedOrToTry(Act(st, BeginReplace), steps, r);
    BuildIsLast(Execute(Act(st, BeginReplace), steps), r, built);
  }

  lemma BeginsTrying(st: State, r: RuntimeId)
    requires Inv(st) && st.lock == Free && !st.m.closing && !st.m.closed && r in st.m.unpublished
    ensures var begun := Act(st, BeginReplace); begun.lock.ReplaceAwait? && ToTry(begun, r)
  {
  }

  lemma BuildIsLast(st: State, r: RuntimeId, built: Built)
    requires Act(st, Build(built)) != st
    ensures !ToTry(st, r) && st.lock != Free
  {
  }
}
