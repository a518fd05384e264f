/** What the provider runtime manager guarantees in every run. */
module ManagerTheorems {
  import opened Options
  import opened Generations
  import opened ManagerMachine
  import opened ManagerInvariant

  /** Refreshes are started at startup, or while nobody is about to retire the current
      generation under the replace lock. */
  ghost predicate DisciplinedRun(st: State, steps: seq<Step>) {
    steps == [] || (DisciplinedRun(st, steps[..|steps| - 1])
                    && Disciplined(Execute(st, steps[..|steps| - 1]), steps[|steps| - 1]))
  }

  lemma InitInv()
    ensures Inv(Init())
  {
    assert HoldersOf(Init().holders, 1) == {};
  }

  lemma {:induction false} RunInv(st: State, steps: seq<Step>)
    requires Inv(st) && DisciplinedRun(st, steps)
    ensures Inv(Execute(st, steps))
  {
    if steps != [] {
      RunInv(st, steps[..|steps| - 1]);
      StepInv(Execute(st, steps[..|steps| - 1]), steps[|steps| - 1]);
    }
  }

  /** In every run: a generation's count is the number of leases and refreshes that hold
      it, `drained` says whether that is zero, and a generation that is being cleaned up,
      or was, is held by nobody. */
  lemma ReclamationSafety(steps: seq<Step>, g: GenerationId)
    requires DisciplinedRun(Init(), steps) && g in Execute(Init(), steps).m.generations
    ensures var st := Execute(Init(), steps); var x := st.m.generations[g];
      && x.leases == |HoldersOf(st.holders, g)|
      && (x.drained <==> HoldersOf(st.holders, g) == {})
      && (x.cleanup != NoTask ==> HoldersOf(st.holders, g) == {})
      && (g == st.m.current && x.retired ==> st.m.closing)
  {
    InitInv();
    RunInv(Init(), steps);
    assert GenInv(Execute(Init(), steps), g);
  }

  /** Seen by a lease or a refresh: what it holds is not closed and not being closed. */
  lemma HolderIsServed(steps: seq<Step>, h: HolderId)
    requires DisciplinedRun(Init(), steps) && h in Execute(Init(), steps).holders
    ensures var st := Execute(Init(), steps);
      && st.holders[h] in st.m.generations
      && !st.m.generations[st.holders[h]].closed && st.m.generations[st.holders[h]].cleanup == NoTask
  {
    InitInv();
    RunInv(Init(), steps);
    var st := Execute(Init(), steps);
    assert HolderInv(st, h) && GenInv(st, st.holders[h]);
    assert h in HoldersOf(st.holders, st.holders[h]);
  }

  /** As long as no shutdown has begun, a lease is always given, on the current generation, under
      a number nobody holds; giving it back at once leaves the manager as it was. Afterwards
      none is given. */
  lemma LeaseServed(steps: seq<Step>)
    requires DisciplinedRun(Init(), steps)
    ensures var st := Execute(Init(), steps);
      st.m.closing || st.m.closed ==> Act(st, Acquire) == st
    ensures var st := Execute(Init(), steps); var leased := Act(st, Acquire);
      !st.m.closing && !st.m.closed
      ==> && st.nextHolder !in st.holders && leased.holders == st.holders[st.nextHolder := st.m.current]
          && Act(leased, Release(st.nextHolder)).m == st.m
          && Act(leased, Release(st.nextHolder)).holders == st.holders
  {
    var st := Execute(Init(), steps);
    InitInv();
    RunInv(Init(), steps);
    if !st.m.closing && !st.m.closed { LeaseReturned(st); }
  }

  lemma LeaseReturned(st: State)
    requires Inv(st) && !st.m.closing && !st.m.closed
    ensures var leased := Act(st, Acquire);
      && st.nextHolder !in st.holders && leased.holders == st.holders[st.nextHolder := st.m.current]
      && Act(leased, Release(st.nextHolder)).m == st.m
      && Act(leased, Release(st.nextHolder)).holders == st.holders
  {
    var h, id := st.nextHolder, st.m.current;
    assert GenInv(st, id);
    assert h in st.holders ==> HolderInv(st, h);
    assert h in st.tasks ==> TaskInv(st, h);
    assert Returned(Leased(st.m.generations[id]), false) == st.m.generations[id];
    var leased := Act(st, Acquire);
    assert Act(leased, Release(h)) == Drop(leased, h);
    assert Drop(leased, h).m.generations == st.m.generations;
    assert Drop(leased, h).holders == st.holders;
  }

  /** Every published generation is exactly one of: current and in use, retired and still
      to be cleaned up, or closed; and it is closed exactly when its cleanup succeeded. */
  lemma Lifecycle(steps: seq<Step>, g: GenerationId)
    requires DisciplinedRun(Init(), steps) && g in Execute(Init(), steps).m.generations
    ensures var st := Execute(Init(), steps); var x := st.m.generations[g];
      && (if x.closed then x.retired && g !in st.m.retired && x.cleanup == Ended
          else if x.retired then g in st.m.retired
          else g == st.m.current && g !in st.m.retired && x.cleanup == NoTask)
      && (x.closed <==> x.cleanup == Ended)
  {
    InitInv();
    RunInv(Init(), steps);
    assert GenInv(Execute(Init(), steps), g);
  }

  /** Generation `g` is closed and its cleanup is over. */
  ghost predicate ClosedFor(st: State, g: GenerationId) {
    g in st.m.generations && st.m.generations[g].closed && st.m.generations[g].cleanup == Ended
  }

  lemma ClosedStep(st: State, step: Step, g: GenerationId)
    requires Inv(st) && Disciplined(st, step) && ClosedFor(st, g)
    ensures Inv(Act(st, step)) && ClosedFor(Act(st, step), g)
  {
    assert GenInv(st, g);
    StepKeepsClosed(st, step, g);
    StepInv(st, step);
    assert GenInv(Act(st, step), g);
  }

  /** A cleanup that succeeded is never followed by another. */
  lemma {:induction false} ClosedForever(st: State, steps: seq<Step>, g: GenerationId)
    requires Inv(st) && DisciplinedRun(st, steps) && ClosedFor(st, g)
    ensures Inv(Execute(st, steps)) && ClosedFor(Execute(st, steps), g)
  {
    if steps != [] {
      ClosedForever(st, steps[..|steps| - 1], g);
      ClosedStep(Execute(st, steps[..|steps| - 1]), steps[|steps| - 1], g);
    }
  }

  lemma StepKeepsClosed(st: State, step: Step, g: GenerationId)
    requires g in st.m.generations && st.m.generations[g].closed && st.m.generations[g].cleanup == Ended
    requires g < st.m.nextId
    ensures g in Act(st, step).m.generations && Act(st, step).m.generations[g].closed
  {
    if st.m.current in st.m.generations {
      if OfHolders(step) {
        HoldersKeepClosed(st, step, g);
      } else if OfShutdown(step) {
        ShutdownKeepsClosed(st, step, g);
      } else {
        LockKeepsClosed(st, step, g);
      }
    }
  }

  /** The steps that belong neither to the replace lock nor to the shutdown. */
  predicate OfHolders(step: Step) {
    step.Acquire? || step.Release? || step.StartRefresh? || step.RunTask? || step.FinishTask? || step.StartCleanup? || step.FinishCleanup?
  }

  lemma HoldersKeepClosed(st: State, step: Step, g: GenerationId)
    requires g in st.m.generations && st.m.generations[g].closed && st.m.generations[g].cleanup == Ended && OfHolders(step)
    ensures g in Act(st, step).m.generations && Act(st, step).m.generations[g].closed
  {
    match step
    case FinishCleanup(other, ok) => FinishKeepsClosed(st, other, ok, g);
    case Release(h) => if HolderKnown(st, h) { DropKeepsClosed(st, h, g); }
    case FinishTask(t) => if HolderKnown(st, t) { DropKeepsClosed(st, t, g); }
    case RunTask(t) =>
    case _ =>
  }

  lemma FinishKeepsClosed(st: State, other: GenerationId, ok: bool, g: GenerationId)
    requires g in st.m.generations && st.m.generations[g].closed && st.m.generations[g].cleanup == Ended
    ensures var after := Act(st, FinishCleanup(other, ok)); g in after.m.generations && after.m.generations[g].closed
  {
  }

  lemma DropKeepsClosed(st: State, h: HolderId, g: GenerationId)
    requires HolderKnown(st, h) && g in st.m.generations && st.m.generations[g].closed
    ensures g in Drop(st, h).m.generations && Drop(st, h).m.generations[g].closed
  {
  }

  lemma LockKeepsClosed(st: State, step: Step, g: GenerationId)
    requires g in st.m.generations && st.m.generations[g].closed && st.m.current in st.m.generations && g < st.m.nextId
    ensures g in ActLock(st, step).m.generations && ActLock(st, step).m.generations[g].closed
  {
    if st.lock.Refreshing? ==> HolderKnown(st, st.lock.holder) {
      ResumeKeepsClosed(st, g);
    }
  }

  lemma ResumeKeepsClosed(st: State, g: GenerationId)
    requires g in st.m.generations && st.m.generations[g].closed && st.m.current in st.m.generations
    requires st.lock.Refreshing? ==> HolderKnown(st, st.lock.holder)
    ensures g in DoLockResume(st).m.generations && DoLockResume(st).m.generations[g].closed
    ensures g in DoLockCancel(st).m.generations && DoLockCancel(st).m.generations[g].closed
  {
  }

  lemma ShutdownKeepsClosed(st: State, step: Step, g: GenerationId)
    requires g in st.m.generations && st.m.generations[g].closed
    ensures g in ActShutdown(st, step).m.generations && ActShutdown(st, step).m.generations[g].closed
  {
  }

  /** A shutdown that returns normally has closed everything, whatever shutdowns failed or
      were cancelled before it. */
  lemma CloseIsComplete(steps: seq<Step>, g: GenerationId)
    requires DisciplinedRun(Init(), steps) && Execute(Init(), steps).shutdown == Unpublishing({}, None, true)
    ensures var done := Act(Execute(Init(), steps), ShutdownResume);
      && done.m.closed && done.m.retired == {} && done.m.unpublished == {}
      && (g in done.m.generations ==> done.m.generations[g].closed)
  {
    InitInv();
    RunInv(Init(), steps);
    CompleteState(Execute(Init(), steps), g);
  }

  lemma CompleteState(st: State, g: GenerationId)
    requires Inv(st) && st.shutdown == Unpublishing({}, None, true)
    ensures var done := Act(st, ShutdownResume);
      && done.m.closed && done.m.retired == {} && done.m.unpublished == {}
      && (g in done.m.generations ==> done.m.generations[g].closed)
  {
    StepInv(st, ShutdownResume);
    assert forall k | k in st.m.retired :: k in st.m.generations && GenInv(st, k);
    if g in st.m.generations { assert GenInv(st, g); }
  }

  /** That is the only step by which the manager becomes closed. */
  lemma ClosedOnlyByShutdown(st: State, step: Step)
    requires !st.m.closed && Act(st, step).m.closed
    ensures step.ShutdownResume? && st.shutdown == Unpublishing({}, None, true)
  {
    if st.m.current in st.m.generations {
      if OfShutdown(step) {
        ShutdownCloses(st, step);
      } else if OfHolders(step) {
        HoldersKeepOpen(st, step);
      } else {
        LockKeepsOpen(st, step);
      }
    }
  }

  lemma ShutdownCloses(st: State, step: Step)
    requires !st.m.closed && ActShutdown(st, step).m.closed
    ensures step.ShutdownResume? && st.shutdown == Unpublishing({}, None, true)
  {
  }

  lemma HoldersKeepOpen(st: State, step: Step)
    requires st.m.current in st.m.generations && OfHolders(step)
    ensures Act(st, step).m.closed == st.m.closed
  {
  }

  lemma LockKeepsOpen(st: State, step: Step)
    requires st.m.current in st.m.generations
    ensures ActLock(st, step).m.closed == st.m.closed
  {
  }

  // ---- Why refreshes are started at startup only ----

  /** A refresh of generation 1 is winding down while a replacement waits for it. */
  function WindingDown(): State {
    State(Manager(map[1 := Leased(NewGeneration())], 1, 2, {}, {}, false, false, None),
          map[0 := 1], map[0 := Task(1, true, true)], 1, 0, ReplaceAwait(Some(0)), Idle)
  }

  lemma WindingDownReached()
    ensures Execute(Init(), [StartRefresh, RunTask(0), BeginReplace]) == WindingDown()
  {
    var one := [StartRefresh, RunTask(0), BeginReplace];
    assert one[..2] == [StartRefresh, RunTask(0)] && one[..2][..1] == [StartRefresh] && one[..2][..1][..0] == [];
    var st1 := Act(Init(), StartRefresh);
    var st2 := Act(st1, RunTask(0));
    assert Execute(Init(), []) == Init();
    assert Execute(Init(), [StartRefresh]) == st1 by { assert [StartRefresh][..0] == []; }
    assert Execute(Init(), [StartRefresh, RunTask(0)]) == st2;
    assert Execute(Init(), one) == Act(st2, BeginReplace);
  }

  /** Another refresh was started at that moment; the replacement has retired generation 1
      and asked for its cleanup, and that refresh has yet to run. */
  function Overtaken(): State {
    State(Manager(map[1 := Generation(0, true, true, false, Scheduled), 2 := NewGeneration()], 2, 3, {1}, {}, false, false, Some(2)),
          map[], map[1 := Task(1, false, false), 2 := Task(2, false, false)], 3, 0, ReplaceClosing(1), Idle)
  }

  function BothPending(): State {
    WindingDown().(m := WindingDown().m.(generations := map[1 := NewGeneration()], refresh := Some(1)),
                   holders := map[], tasks := map[1 := Task(1, false, false)], nextHolder := 2)
  }

  lemma OvertakenReached()
    ensures !Disciplined(WindingDown(), StartRefresh)
    ensures Act(Act(WindingDown(), StartRefresh), FinishTask(0)) == BothPending()
    ensures Act(Act(BothPending(), LockResume), Build(Commits)) == Overtaken()
  {
    var b := Act(Act(WindingDown(), StartRefresh), FinishTask(0));
    assert b.m.generations == map[1 := NewGeneration()] && b.holders == map[] && b.tasks == map[1 := Task(1, false, false)];
    RetiresFirst();
  }

  lemma RetiresFirst()
    ensures Act(Act(BothPending(), LockResume), Build(Commits)) == Overtaken()
  {
    assert Act(BothPending(), LockResume).lock == ReplaceRetry({}, None);
  }

  /** It runs on generation 1 while that generation is being cleaned up. */
  lemma LateRefreshBreaksSafety()
    ensures var st := Act(Act(Overtaken(), StartCleanup(1)), RunTask(1));
      1 in st.m.generations && st.m.generations[1].cleanup == Started && HoldersOf(st.holders, 1) == {1}
  {
    assert Act(Act(Overtaken(), StartCleanup(1)), RunTask(1)).holders == map[1 := 1];
  }
}
