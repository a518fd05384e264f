/** Who holds a generation: exactly the leases handed out and not given back, and the refreshes
    that run. */
module ManagerHolders {
  import opened Options
  import opened Generations
  import opened ManagerMachine
  import opened ManagerInvariant
  import opened ManagerTheorems

  /** The step hands out lease `h`. */
  predicate Gives(st: State, step: Step, h: HolderId) {
    step == Acquire && h == st.nextHolder && !st.m.closing && !st.m.closed
  }

  /** The generation that was current when lease `h` was handed out, if it was handed out in this
      run and has not been released since. */
  ghost function LeaseOf(steps: seq<Step>, h: HolderId): Option<GenerationId> {
    if steps == [] then None
    else After(Execute(Init(), steps[..|steps| - 1]), steps[|steps| - 1], h, LeaseOf(steps[..|steps| - 1], h))
  }

  function After(before: State, step: Step, h: HolderId, lease: Option<GenerationId>): Option<GenerationId> {
    if Gives(before, step, h) then Some(before.m.current) else if step == Release(h) then None else lease
  }

  /** Holder `h` holds a generation exactly for one of three reasons: it is a lease that is out, a
      background refresh that runs, or the explicit refresh that owns the lock. */
  predicate HoldsBecause(st: State, h: HolderId, lease: Option<GenerationId>) {
    && (h in st.holders <==> lease.Some? || (h in st.tasks && st.tasks[h].started) || st.lock == Refreshing(h))
    && (lease.Some? ==> IsLease(st, h) && h in st.holders && st.holders[h] == lease.value)
  }

  lemma NobodyYet(st: State)
    requires Inv(st)
    ensures st.nextHolder !in st.holders && st.nextHolder !in st.tasks && st.lock != Refreshing(st.nextHolder)
  {
    assert st.nextHolder in st.holders ==> HolderInv(st, st.nextHolder);
    assert st.nextHolder in st.tasks ==> TaskInv(st, st.nextHolder);
  }

  lemma DropBecause(st: State, k: HolderId)
    requires HolderKnown(st, k)
    ensures Drop(st, k).holders == st.holders - {k} && Drop(st, k).tasks == st.tasks && Drop(st, k).lock == st.lock
  {
  }

  lemma AcquireBecause(st: State, h: HolderId, lease: Option<GenerationId>)
    requires Inv(st) && HoldsBecause(st, h, lease)
    ensures HoldsBecause(Act(st, Acquire), h, After(st, Acquire, h, lease))
  {
    NobodyYet(st);
  }

  lemma ReturnBecause(st: State, step: Step, h: HolderId, lease: Option<GenerationId>)
    requires Inv(st) && HoldsBecause(st, h, lease) && (step.Release? || step.FinishTask?)
    ensures HoldsBecause(Act(st, step), h, After(st, step, h, lease))
  {
    var k := if step.Release? then step.holder else step.task;
    assert k in st.holders ==> HolderInv(st, k);
    assert h in st.tasks ==> TaskInv(st, h);
    assert k in st.tasks ==> TaskInv(st, k);
    if HolderKnown(st, k) { DropBecause(st, k); }
  }

  lemma TaskBecause(st: State, step: Step, h: HolderId, lease: Option<GenerationId>)
    requires Inv(st) && HoldsBecause(st, h, lease)
    requires step.StartRefresh? || step.RunTask? || step.StartCleanup? || step.FinishCleanup?
    ensures HoldsBecause(Act(st, step), h, lease)
  {
    NobodyYet(st);
    assert h in st.tasks ==> TaskInv(st, h);
  }

  lemma LockEndBecause(st: State, step: Step, h: HolderId, lease: Option<GenerationId>)
    requires Inv(st) && HoldsBecause(st, h, lease) && step in {LockResume, LockCancel}
    ensures HoldsBecause(ActLock(st, step), h, lease)
  {
    NobodyYet(st);
    LockKnown(st);
    if st.lock.Refreshing? {
      assert st.lock.holder in st.tasks ==> TaskInv(st, st.lock.holder);
      DropBecause(st, st.lock.holder);
    }
  }

  lemma BeginBecause(st: State, step: Step, h: HolderId, lease: Option<GenerationId>)
    requires HoldsBecause(st, h, lease) && st.lock == Free && (step.BeginReplace? || step.BeginRefresh? || step.BeginClose?)
    ensures HoldsBecause(DoBegin(st, step), h, lease)
  {
  }

  lemma BuildBecause(st: State, built: Built, h: HolderId, lease: Option<GenerationId>)
    requires Inv(st) && HoldsBecause(st, h, lease) && !st.lock.Refreshing?
    ensures HoldsBecause(DoBuild(st, built), h, lease)
  {
    NobodyYet(st);
  }

  lemma LockBecause(st: State, step: Step, h: HolderId, lease: Option<GenerationId>)
    requires Inv(st) && HoldsBecause(st, h, lease) && !OfHolders(step) && !OfShutdown(step) && step !in {LockResume, LockCancel}
    ensures HoldsBecause(ActLock(st, step), h, lease)
  {
    if step.BeginReplace? || step.BeginRefresh? || step.BeginClose? {
      if st.lock == Free { BeginBecause(st, step, h, lease); }
    } else if step.Build? {
      if !st.lock.Refreshing? { BuildBecause(st, step.built, h, lease); }
    }
  }

  lemma StepBecause(st: State, step: Step, h: HolderId, lease: Option<GenerationId>)
    requires Inv(st) && HoldsBecause(st, h, lease)
    ensures HoldsBecause(Act(st, step), h, After(st, step, h, lease))
  {
    if step.Acquire? {
      AcquireBecause(st, h, lease);
    } else if step.Release? || step.FinishTask? {
      ReturnBecause(st, step, h, lease);
    } else if OfHolders(step) {
      TaskBecause(st, step, h, lease);
    } else if OfShutdown(step) {
      ShutdownBecause(st, step, h, lease);
    } else if step in {LockResume, LockCancel} {
      LockEndBecause(st, step, h, lease);
    } else {
      LockBecause(st, step, h, lease);
    }
  }

  lemma ShutdownBecause(st: State, step: Step, h: HolderId, lease: Option<GenerationId>)
    requires HoldsBecause(st, h, lease) && OfShutdown(step)
    ensures HoldsBecause(ActShutdown(st, step), h, lease)
  {
  }

  /** In every run a generation is held by exactly these: the leases given out while it was current
      and not given back, the background refreshes that run, and the explicit refresh that owns
      the lock. The count a generation keeps is theirs, so none of them leaks. */
  lemma {:induction false} HeldBecause(steps: seq<Step>, h: HolderId)
    requires DisciplinedRun(Init(), steps)
    ensures HoldsBecause(Execute(Init(), steps), h, LeaseOf(steps, h))
  {
    if steps != [] {
      InitInv();
      RunInv(Init(), steps[..|steps| - 1]);
      HeldBecause(steps[..|steps| - 1], h);
      StepBecause(Execute(Init(), steps[..|steps| - 1]), steps[|steps| - 1], h, LeaseOf(steps[..|steps| - 1], h));
    }
  }
}
