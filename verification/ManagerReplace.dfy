/** What a replacement that does not commit leaves behind, whatever runs beside it. */
module ManagerReplace {
  import opened Options
  import opened Generations
  import opened ManagerMachine
  import opened ManagerInvariant
  import opened ManagerTheorems

  // ---- The replacement as a whole ----

  /** A replacement owns the lock and has not committed. */
  predicate Replacing(pc: LockPc) { pc.ReplaceAwait? || pc.ReplaceRetry? || pc.ReplaceFailing? }

  /** A run of any tasks in which the replacement that owns the lock at its start still owns
      it before every step, and never commits. */
  ghost predicate UncommittedRun(st: State, steps: seq<Step>) {
    steps == [] || (var before := Execute(st, steps[..|steps| - 1]);
      UncommittedRun(st, steps[..|steps| - 1]) && Replacing(before.lock)
      && Disciplined(before, steps[|steps| - 1]) && steps[|steps| - 1] != Build(Commits))
  }

  /** Same current generation, same numbering, same generations, and nothing newly retired. */
  predicate Unmoved(st: State, after: State) {
    && after.m.current == st.m.current && after.m.nextId == st.m.nextId
    && after.m.generations.Keys == st.m.generations.Keys
    && after.m.retired <= st.m.retired
    && after.m.closing == st.m.closing
  }

  lemma FinishUnmoved(st: State, id: GenerationId, ok: bool)
    requires id in st.m.generations
    ensures Unmoved(st, DoFinishCleanup(st, id, ok))
  {
  }

  lemma HoldersUnmoved(st: State, step: Step)
    requires st.m.current in st.m.generations && OfHolders(step)
    ensures Unmoved(st, Act(st, step))
  {
    match step
    case FinishCleanup(id, ok) => if id in st.m.generations { FinishUnmoved(st, id, ok); }
    case _ =>
  }

  lemma ShutdownUnmoved(st: State, step: Step)
    requires OfShutdown(step)
    ensures Unmoved(st, ActShutdown(st, step))
  {
  }

  lemma LockUnmoved(st: State, step: Step)
    requires st.m.current in st.m.generations && Replacing(st.lock) && step != Build(Commits)
    requires !OfHolders(step) && !OfShutdown(step)
    ensures Unmoved(st, ActLock(st, step))
    ensures var lock := ActLock(st, step).lock; Replacing(lock) || lock == Free
  {
  }

  lemma LockLeftAlone(st: State, step: Step)
    requires st.m.current in st.m.generations && (OfHolders(step) || OfShutdown(step))
    ensures Act(st, step).lock == st.lock
  {
  }

  lemma UncommittedStep(st: State, step: Step)
    requires st.m.current in st.m.generations && Replacing(st.lock) && step != Build(Commits)
    ensures Unmoved(st, Act(st, step))
    ensures Replacing(Act(st, step).lock) || Act(st, step).lock == Free
  {
    if OfHolders(step) {
      HoldersUnmoved(st, step);
      LockLeftAlone(st, step);
    } else if OfShutdown(step) {
      ShutdownUnmoved(st, step);
      LockLeftAlone(st, step);
    } else {
      LockUnmoved(st, step);
    }
  }

  lemma {:induction false} UncommittedUnmoved(st: State, steps: seq<Step>)
    requires Inv(st) && Replacing(st.lock) && UncommittedRun(st, steps)
    ensures Inv(Execute(st, steps)) && Unmoved(st, Execute(st, steps))
    ensures Replacing(Execute(st, steps).lock) || Execute(st, steps).lock == Free
  {
    if steps != [] {
      var before := Execute(st, steps[..|steps| - 1]);
      UncommittedUnmoved(st, steps[..|steps| - 1]);
      UncommittedStep(before, steps[|steps| - 1]);
      StepInv(before, steps[|steps| - 1]);
    }
  }

  lemma BeginUnmoved(st: State)
    requires Inv(st) && st.lock == Free && !st.m.closing && !st.m.closed
    ensures var begun := Act(st, BeginReplace); Unmoved(st, begun) && begun.lock.ReplaceAwait?
  {
  }

  /** However its refresh, its retried cleanups, its factory, its commit or a cancellation
      turn out, and whatever runs beside it, a replacement that does not commit leaves the
      current generation and the numbering alone; the retired table has lost only
      generations whose own cleanup succeeded meanwhile. */
  lemma FailedReplace(prefix: seq<Step>, steps: seq<Step>, g: GenerationId)
    requires DisciplinedRun(Init(), prefix)
    requires var st := Execute(Init(), prefix); st.lock == Free && !st.m.closing && !st.m.closed
    requires UncommittedRun(Act(Execute(Init(), prefix), BeginReplace), steps)
    ensures var st := Execute(Init(), prefix); var end := Execute(Act(st, BeginReplace), steps);
      && end.m.current == st.m.current && end.m.nextId == st.m.nextId
      && end.m.generations.Keys == st.m.generations.Keys && end.m.retired <= st.m.retired
      && (Replacing(end.lock) || end.lock == Free)
      && (g in st.m.retired && g !in end.m.retired ==> ClosedFor(end, g))
  {
    var st := Execute(Init(), prefix);
    InitInv();
    RunInv(Init(), prefix);
    BeginUnmoved(st);
    StepInv(st, BeginReplace);
    UncommittedUnmoved(Act(st, BeginReplace), steps);
    LeftRetired(st, Execute(Act(st, BeginReplace), steps), g);
  }

  lemma LeftRetired(st: State, end: State, g: GenerationId)
    requires Inv(st) && Inv(end) && Unmoved(st, end) && !st.m.closing
    ensures g in st.m.retired && g !in end.m.retired ==> ClosedFor(end, g)
  {
    if g in st.m.retired {
      assert GenInv(st, g) && GenInv(end, g);
    }
  }

  // ---- Unpublished runtimes ----

  /** This step ends a successful cleanup of runtime `r`. */
  predicate CleansRuntime(st: State, step: Step, r: RuntimeId) {
    || (step == LockCleaned(true) && ((st.lock.ReplaceRetry? && st.lock.busy == Some(r)) || st.lock == ReplaceFailing(r)))
    || (step == ShutdownCleaned(true) && st.shutdown.Unpublishing? && st.shutdown.busy == Some(r))
  }

  /** A cleanup of `r` succeeds somewhere in this run. */
  ghost predicate CleanedIn(st: State, steps: seq<Step>, r: RuntimeId) {
    steps != [] && (CleanedIn(st, steps[..|steps| - 1], r)
                    || CleansRuntime(Execute(st, steps[..|steps| - 1]), steps[|steps| - 1], r))
  }

  lemma HoldersLeaveRuntimes(st: State, step: Step)
    requires st.m.current in st.m.generations && OfHolders(step)
    ensures Act(st, step).m.unpublished == st.m.unpublished && Act(st, step).nextRuntime == st.nextRuntime
  {
  }

  lemma ShutdownRuntimes(st: State, step: Step, r: RuntimeId)
    requires OfShutdown(step)
    ensures ActShutdown(st, step).nextRuntime == st.nextRuntime
    ensures var after := ActShutdown(st, step);
      (r in after.m.unpublished <==> r in st.m.unpublished && !CleansRuntime(st, step, r))
  {
  }

  lemma LockRuntimes(st: State, step: Step, r: RuntimeId)
    requires st.m.current in st.m.generations && r < st.nextRuntime && !OfHolders(step) && !OfShutdown(step)
    ensures st.nextRuntime <= ActLock(st, step).nextRuntime
    ensures var after := ActLock(st, step);
      (r in after.m.unpublished <==> r in st.m.unpublished && !CleansRuntime(st, step, r))
  {
  }

  lemma StepRuntimes(st: State, step: Step, r: RuntimeId)
    requires st.m.current in st.m.generations && r < st.nextRuntime
    ensures st.nextRuntime <= Act(st, step).nextRuntime
    ensures var after := Act(st, step);
      (r in after.m.unpublished <==> r in st.m.unpublished && !CleansRuntime(st, step, r))
  {
    if OfHolders(step) {
      HoldersLeaveRuntimes(st, step);
    } else if OfShutdown(step) {
      ShutdownRuntimes(st, step, r);
    } else {
      LockRuntimes(st, step, r);
    }
  }

  lemma {:induction false} ListedUntilCleaned(st: State, steps: seq<Step>, r: RuntimeId)
    requires Inv(st) && DisciplinedRun(st, steps) && r < st.nextRuntime && r in st.m.unpublished
    ensures var end := Execute(st, steps);
      Inv(end) && r < end.nextRuntime && (r in end.m.unpublished <==> !CleanedIn(st, steps, r))
  {
    if steps != [] {
      var before := Execute(st, steps[..|steps| - 1]);
      ListedUntilCleaned(st, steps[..|steps| - 1], r);
      StepRuntimes(before, steps[|steps| - 1], r);
      StepInv(before, steps[|steps| - 1]);
    }
  }

  predicate Numbered(st: State) { forall r <- st.m.unpublished :: r < st.nextRuntime }

  lemma NumberedStep(st: State, step: Step)
    requires st.m.current in st.m.generations && Numbered(st)
    ensures Numbered(Act(st, step))
  {
    if OfHolders(step) {
      HoldersLeaveRuntimes(st, step);
    } else if OfShutdown(step) {
      forall r | r in ActShutdown(st, step).m.unpublished ensures r < st.nextRuntime { ShutdownRuntimes(st, step, r); }
      ShutdownRuntimes(st, step, 0);
    } else {
      NumberedLock(st, step);
    }
  }

  lemma NumberedLock(st: State, step: Step)
    requires st.m.current in st.m.generations && Numbered(st)
    ensures Numbered(ActLock(st, step))
  {
  }

  lemma {:induction false} RunNumbered(steps: seq<Step>)
    requires DisciplinedRun(Init(), steps)
    ensures Numbered(Execute(Init(), steps))
  {
    if steps != [] {
      RunNumbered(steps[..|steps| - 1]);
      InitInv();
      RunInv(Init(), steps[..|steps| - 1]);
      NumberedStep(Execute(Init(), steps[..|steps| - 1]), steps[|steps| - 1]);
    }
  }

  /** A runtime that could not be published stays on the unpublished list exactly until a
      cleanup of it succeeds, over any replacements, shutdowns and cancellations. */
  lemma FailedCandidate(prefix: seq<Step>, steps: seq<Step>, r: RuntimeId)
    requires DisciplinedRun(Init(), prefix) && DisciplinedRun(Execute(Init(), prefix), steps)
    requires r in Execute(Init(), prefix).m.unpublished
    ensures var st := Execute(Init(), prefix);
      r in Execute(st, steps).m.unpublished <==> !CleanedIn(st, steps, r)
  {
    InitInv();
    RunInv(Init(), prefix);
    RunNumbered(prefix);
    ListedUntilCleaned(Execute(Init(), prefix), steps, r);
  }

  /** A candidate whose commit failed is put on that list, under a number nobody else has;
      one the factory could not build is nowhere. */
  lemma CandidateListed(st: State, built: Built)
    requires Inv(st) && Numbered(st) && st.lock == ReplaceRetry({}, None) && !built.Commits?
    ensures var failed := Act(st, Build(built));
      && (built.CommitFails? ==> st.nextRuntime !in st.m.unpublished && failed.lock == ReplaceFailing(st.nextRuntime))
      && (built.FactoryFails? ==> failed == st.(lock := Free))
      && failed.m.unpublished == st.m.unpublished + if built.CommitFails? then {st.nextRuntime} else {}
  {
    assert Act(st, Build(built)) == DoBuild(st, built);
  }
}
