/** The cleanup of one generation over a whole run: when it runs, and that a failure is retried. */
module ManagerCleanup {
  import opened Options
  import opened Generations
  import opened ManagerMachine
  import opened ManagerInvariant
  import opened ManagerTheorems
  import opened ManagerReplace

  predicate HasCleanup(st: State, g: GenerationId, cleanup: Cleanup) {
    g in st.m.generations && st.m.generations[g].cleanup == cleanup
  }

  /** The step starts `runtime.cleanup()` of generation `g`. */
  predicate Starts(st: State, step: Step, g: GenerationId) {
    step == StartCleanup(g) && HasCleanup(st, g, Scheduled)
  }

  /** The step is the end of a running cleanup of generation `g`. */
  predicate Finishes(st: State, step: Step, g: GenerationId) {
    step.FinishCleanup? && step.generation == g && HasCleanup(st, g, Started)
  }

  /** In this run the last start of a cleanup of `g` has not been followed by its end. */
  ghost predicate RunsCleanup(st: State, steps: seq<Step>, g: GenerationId) {
    steps != [] &&
    var before, last := Execute(st, steps[..|steps| - 1]), steps[|steps| - 1];
    Starts(before, last, g) || (!Finishes(before, last, g) && RunsCleanup(st, steps[..|steps| - 1], g))
  }

  // ---- One step ----

  lemma HolderCleanup(st: State, step: Step, g: GenerationId)
    requires st.m.current in st.m.generations && g in st.m.generations && OfHolders(step) && g < st.m.nextId
    requires !Starts(st, step, g) && !Finishes(st, step, g)
    ensures var after := Act(st, step);
      g in after.m.generations && (HasCleanup(after, g, Started) <==> HasCleanup(st, g, Started))
      && (HasCleanup(after, g, Ended) <==> HasCleanup(st, g, Ended))
  {
    match step
    case Release(h) => if HolderKnown(st, h) { DropCleanup(st, h, g); }
    case FinishTask(t) => if HolderKnown(st, t) { DropCleanup(st, t, g); }
    case FinishCleanup(other, ok) => FinishOther(st, other, ok, g);
    case _ =>
  }

  lemma DropCleanup(st: State, h: HolderId, g: GenerationId)
    requires HolderKnown(st, h) && g in st.m.generations
    ensures g in Drop(st, h).m.generations
    ensures HasCleanup(Drop(st, h), g, Started) <==> HasCleanup(st, g, Started)
    ensures HasCleanup(Drop(st, h), g, Ended) <==> HasCleanup(st, g, Ended)
  {
  }

  lemma FinishOther(st: State, other: GenerationId, ok: bool, g: GenerationId)
    requires g in st.m.generations && !Finishes(st, FinishCleanup(other, ok), g)
    ensures var after := Act(st, FinishCleanup(other, ok));
      g in after.m.generations && after.m.generations[g] == st.m.generations[g]
  {
  }

  /** The cleanup of `g` has neither begun nor ended between these states. */
  predicate SameProgress(st: State, after: State, g: GenerationId) {
    && g in after.m.generations
    && (HasCleanup(after, g, Started) <==> HasCleanup(st, g, Started))
    && (HasCleanup(after, g, Ended) <==> HasCleanup(st, g, Ended))
  }

  lemma LockCleanup(st: State, step: Step, g: GenerationId)
    requires st.m.current in st.m.generations && g in st.m.generations && g < st.m.nextId
    ensures SameProgress(st, ActLock(st, step), g)
  {
    if st.lock.Refreshing? {
      if HolderKnown(st, st.lock.holder) { DropCleanup(st, st.lock.holder, g); }
    } else if step.Build? {
      BuildCleanup(st, step.built, g);
    } else if step.LockResume? {
      ResumeCleanup(st, g);
    }
  }

  lemma BuildCleanup(st: State, built: Built, g: GenerationId)
    requires st.m.current in st.m.generations && g in st.m.generations && g < st.m.nextId
    ensures SameProgress(st, DoBuild(st, built), g)
  {
  }

  lemma ResumeCleanup(st: State, g: GenerationId)
    requires st.m.current in st.m.generations && g in st.m.generations && !st.lock.Refreshing?
    ensures SameProgress(st, DoLockResume(st), g)
  {
  }

  lemma ShutdownCleanup(st: State, step: Step, g: GenerationId)
    requires g in st.m.generations
    ensures var after := ActShutdown(st, step);
      g in after.m.generations && (HasCleanup(after, g, Started) <==> HasCleanup(st, g, Started))
      && (HasCleanup(after, g, Ended) <==> HasCleanup(st, g, Ended))
  {
  }

  /** Only its start makes a cleanup run, only its end stops it, and only a success is final. */
  lemma StepCleanup(st: State, step: Step, g: GenerationId)
    requires Inv(st) && g in st.m.generations
    ensures var after := Act(st, step);
      && g in after.m.generations
      && (HasCleanup(after, g, Started) <==> Starts(st, step, g) || (!Finishes(st, step, g) && HasCleanup(st, g, Started)))
      && (HasCleanup(after, g, Ended) <==> (Finishes(st, step, g) && step.ok) || HasCleanup(st, g, Ended))
  {
    assert GenInv(st, g);
    if Starts(st, step, g) || Finishes(st, step, g) {
    } else if OfHolders(step) {
      HolderCleanup(st, step, g);
    } else if OfShutdown(step) {
      ShutdownCleanup(st, step, g);
    } else {
      LockCleanup(st, step, g);
    }
  }

  /** A generation that a step publishes is not being cleaned up. */
  lemma PublishedIdle(st: State, step: Step, g: GenerationId)
    requires Inv(st) && g !in st.m.generations && g in Act(st, step).m.generations
    ensures HasCleanup(Act(st, step), g, NoTask)
  {
    if OfHolders(step) {
      HoldersUnmoved(st, step);
      assert false;
    } else if OfShutdown(step) {
      ShutdownUnmoved(st, step);
      assert false;
    } else {
      PublishedByLock(st, step, g);
    }
  }

  lemma PublishedByLock(st: State, step: Step, g: GenerationId)
    requires Inv(st) && g !in st.m.generations && g in ActLock(st, step).m.generations
    ensures HasCleanup(ActLock(st, step), g, NoTask)
  {
    if st.lock.Refreshing? { LockKnown(st); }
  }

  // ---- Runs ----

  /** A cleanup of a generation is running exactly when the last one started has not ended:
      one at a time, and none before it was started. */
  lemma {:induction false} CleanupRuns(steps: seq<Step>, g: GenerationId)
    requires DisciplinedRun(Init(), steps)
    ensures HasCleanup(Execute(Init(), steps), g, Started) <==> RunsCleanup(Init(), steps, g)
  {
    if steps != [] {
      var front, last := steps[..|steps| - 1], steps[|steps| - 1];
      var before := Execute(Init(), front);
      InitInv();
      RunInv(Init(), front);
      CleanupRuns(front, g);
      if g in before.m.generations {
        StepCleanup(before, last, g);
      } else if g in Act(before, last).m.generations {
        PublishedIdle(before, last, g);
      }
    }
  }

  /** No cleanup of `g` starts in this run. */
  ghost predicate NoneStarts(st: State, steps: seq<Step>, g: GenerationId) {
    steps == [] || (NoneStarts(st, steps[..|steps| - 1], g)
                    && !Starts(Execute(st, steps[..|steps| - 1]), steps[|steps| - 1], g))
  }

  lemma {:induction false} StaysIdle(st: State, steps: seq<Step>, g: GenerationId)
    requires Inv(st) && DisciplinedRun(st, steps) && NoneStarts(st, steps, g)
    requires HasCleanup(st, g, NoTask) || HasCleanup(st, g, Scheduled)
    ensures var end := Execute(st, steps);
      Inv(end) && (HasCleanup(end, g, NoTask) || HasCleanup(end, g, Scheduled))
  {
    if steps != [] {
      var before := Execute(st, steps[..|steps| - 1]);
      StaysIdle(st, steps[..|steps| - 1], g);
      StepCleanup(before, steps[|steps| - 1], g);
      StepInv(before, steps[|steps| - 1]);
    }
  }

  /** A close request for an idle generation schedules its cleanup, which can then start. */
  lemma CloseSchedules(st: State, g: GenerationId)
    requires Inv(st) && st.shutdown.Cleaning? && g in st.shutdown.todo
    requires HasCleanup(st, g, NoTask) || HasCleanup(st, g, Scheduled)
    ensures HasCleanup(Act(st, CloseOne(g)), g, Scheduled)
    ensures HasCleanup(Act(Act(st, CloseOne(g)), StartCleanup(g)), g, Started)
  {
    assert GenInv(st, g);
    assert Act(st, CloseOne(g)) == DoCloseOne(st, g);
  }

  lemma FinishFails(st: State, g: GenerationId)
    requires Inv(st) && HasCleanup(st, g, Started)
    ensures var failed := Act(st, FinishCleanup(g, false));
      Inv(failed) && HasCleanup(failed, g, NoTask) && g in failed.m.retired && !failed.m.generations[g].closed
  {
    assert GenInv(st, g);
    StepInv(st, FinishCleanup(g, false));
    assert GenInv(Act(st, FinishCleanup(g, false)), g);
  }

  /** A cleanup that failed leaves its generation retired, open and without a task. However the
      run goes on, as long as no new cleanup of it has started, the next shutdown that comes
      to close it schedules one, and that one can start. */
  lemma FailedCleanupIsRetried(prefix: seq<Step>, steps: seq<Step>, g: GenerationId)
    requires DisciplinedRun(Init(), prefix) && HasCleanup(Execute(Init(), prefix), g, Started)
    requires var failed := Act(Execute(Init(), prefix), FinishCleanup(g, false));
      DisciplinedRun(failed, steps) && NoneStarts(failed, steps, g)
    ensures var failed := Act(Execute(Init(), prefix), FinishCleanup(g, false));
      HasCleanup(failed, g, NoTask) && g in failed.m.retired && !failed.m.generations[g].closed
    ensures var end := Execute(Act(Execute(Init(), prefix), FinishCleanup(g, false)), steps);
      end.shutdown.Cleaning? && g in end.shutdown.todo
      ==> && HasCleanup(Act(end, CloseOne(g)), g, Scheduled)
          && HasCleanup(Act(Act(end, CloseOne(g)), StartCleanup(g)), g, Started)
  {
    var st := Execute(Init(), prefix);
    var failed := Act(st, FinishCleanup(g, false));
    InitInv();
    RunInv(Init(), prefix);
    FinishFails(st, g);
    StaysIdle(failed, steps, g);
    var end := Execute(failed, steps);
    if end.shutdown.Cleaning? && g in end.shutdown.todo { CloseSchedules(end, g); }
  }

  // ---- Nothing idle is forgotten ----

  /** Unless a shutdown will do it, an idle retired generation has its cleanup under way, or done. */
  predicate Reclaimed(st: State, g: GenerationId) {
    g in st.m.generations && st.m.generations[g].retired && st.m.generations[g].leases == 0 && !st.m.closing
    ==> st.m.generations[g].cleanup != NoTask
  }

  lemma DropReclaims(st: State, h: HolderId, g: GenerationId)
    requires HolderKnown(st, h) && g in st.m.generations && GenerationOk(st.m.generations[g]) && Reclaimed(st, g)
    ensures Reclaimed(Drop(st, h), g)
  {
  }

  lemma HolderReclaims(st: State, step: Step, g: GenerationId)
    requires st.m.current in st.m.generations && g in st.m.generations && GenerationOk(st.m.generations[g])
    requires Reclaimed(st, g) && OfHolders(step) && !(Finishes(st, step, g) && !step.ok)
    ensures Reclaimed(Act(st, step), g)
  {
    match step
    case Release(h) => if HolderKnown(st, h) { DropReclaims(st, h, g); }
    case FinishTask(t) => if HolderKnown(st, t) { DropReclaims(st, t, g); }
    case FinishCleanup(other, ok) => if !Finishes(st, step, g) { FinishOther(st, other, ok, g); }
    case _ =>
  }

  lemma LockReclaims(st: State, step: Step, g: GenerationId)
    requires Globals(st) && g in st.m.generations && GenerationOk(st.m.generations[g]) && g < st.m.nextId
    requires Reclaimed(st, g) && (st.lock.Refreshing? ==> HolderKnown(st, st.lock.holder))
    ensures Reclaimed(ActLock(st, step), g)
  {
    if st.lock.Refreshing? { DropReclaims(st, st.lock.holder, g); }
  }

  lemma ShutdownReclaims(st: State, step: Step, g: GenerationId)
    requires Globals(st) && g in st.m.generations && Reclaimed(st, g)
    ensures Reclaimed(ActShutdown(st, step), g)
  {
  }

  lemma StepReclaims(st: State, step: Step, g: GenerationId)
    requires Inv(st) && Reclaimed(st, g) && !(Finishes(st, step, g) && !step.ok)
    ensures Reclaimed(Act(st, step), g)
  {
    if g in st.m.generations {
      assert GenInv(st, g);
      if OfHolders(step) {
        HolderReclaims(st, step, g);
      } else if OfShutdown(step) {
        ShutdownReclaims(st, step, g);
      } else {
        LockKnown(st);
        LockReclaims(st, step, g);
      }
    } else if g in Act(st, step).m.generations {
      PublishedIdle(st, step, g);
    }
  }

  /** A cleanup of `g` fails somewhere in this run. */
  ghost predicate FailsIn(st: State, steps: seq<Step>, g: GenerationId) {
    steps != [] &&
    var last := steps[|steps| - 1];
    FailsIn(st, steps[..|steps| - 1], g) || (Finishes(Execute(st, steps[..|steps| - 1]), last, g) && !last.ok)
  }

  /** In every run, until a shutdown begins: a retired generation that nobody holds has its
      cleanup scheduled, running or done, unless a cleanup of it has failed; so whoever lets it
      go last has asked for it. */
  lemma {:induction false} IdleIsReclaimed(steps: seq<Step>, g: GenerationId)
    requires DisciplinedRun(Init(), steps) && !FailsIn(Init(), steps, g)
    ensures Reclaimed(Execute(Init(), steps), g)
  {
    if steps != [] {
      InitInv();
      RunInv(Init(), steps[..|steps| - 1]);
      IdleIsReclaimed(steps[..|steps| - 1], g);
      StepReclaims(Execute(Init(), steps[..|steps| - 1]), steps[|steps| - 1], g);
    }
  }

  /** Once a shutdown has begun, only its own close request schedules a cleanup. */
  lemma ShutdownSchedules(st: State, step: Step, g: GenerationId)
    requires Inv(st) && st.m.closing && g in st.m.generations && st.m.generations[g].cleanup == NoTask
    requires HasCleanup(Act(st, step), g, Scheduled)
    ensures step == CloseOne(g) && st.shutdown.Cleaning? && g in st.shutdown.todo
  {
    assert GenInv(st, g);
    if OfHolders(step) {
      HolderSchedulesNothing(st, step, g);
    } else if OfShutdown(step) {
    } else {
      LockSchedulesNothing(st, step, g);
    }
  }

  lemma HolderSchedulesNothing(st: State, step: Step, g: GenerationId)
    requires st.m.current in st.m.generations && st.m.closing && OfHolders(step)
    requires g in st.m.generations && st.m.generations[g].cleanup == NoTask
    ensures HasCleanup(Act(st, step), g, NoTask)
  {
  }

  lemma LockSchedulesNothing(st: State, step: Step, g: GenerationId)
    requires Globals(st) && st.m.closing && g in st.m.generations && st.m.generations[g].cleanup == NoTask
    ensures HasCleanup(ActLock(st, step), g, NoTask)
  {
  }
}
