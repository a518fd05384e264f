/** The manager's objects: the stretches between two awaits of `ProviderRuntimeManager`,
    `_ProviderGeneration` and `ProviderGenerationLease`, proved equal to what the steps of
    `ManagerMachine` do to the manager. */
module ProviderManager {
  import opened Options
  import opened Generations
  import opened ManagerMachine

  class ProviderGeneration {
    const generationId: nat
    var activeLeases: nat
    var retired: bool
    var closed: bool
    var drained: bool
    var cleanup: Cleanup

    constructor (generationId: nat)
      ensures this.generationId == generationId && View() == NewGeneration()
    {
      this.generationId := generationId;
      activeLeases, retired, closed, drained, cleanup := 0, false, false, true, NoTask;
    }

    function View(): Generation
      reads this
    {
      Generation(activeLeases, drained, retired, closed, cleanup)
    }

    method RequestClose() returns (done: Option<bool>)
      modifies this`cleanup
      ensures View() == CloseRequested(old(View()))
      ensures done == if closed then Some(true) else if activeLeases != 0 then Some(false) else None
    {
      if closed { return Some(true); }
      if activeLeases != 0 { return Some(false); }
      if cleanup == NoTask { cleanup := Scheduled; }
      done := None;
    }

    method Return(closing: bool)
      modifies this
      ensures View() == Returned(old(View()), closing)
    {
      if activeLeases <= 0 { return; }
      activeLeases := activeLeases - 1;
      if activeLeases != 0 { return; }
      drained := true;
      if retired && !closing {
        var _ := RequestClose();
      }
    }
  }

  /** A lease may be released any number of times; only the first counts. */
  class ProviderGenerationLease {
    const manager: ProviderRuntimeManager
    const generation: ProviderGeneration
    var released: bool

    constructor (manager: ProviderRuntimeManager, generation: ProviderGeneration)
      ensures this.manager == manager && this.generation == generation && !released
    {
      this.manager, this.generation, released := manager, generation, false;
    }

    method Release()
      requires manager.Valid() && manager.Knows(generation)
      modifies this, generation
      ensures released && manager.Valid()
      ensures manager.View() == if old(released) then old(manager.View())
                                else manager.With(old(manager.View()), generation, Returned(old(generation.View()), manager.closing))
    {
      if released { return; }
      released := true;
      manager.ReleaseGeneration(generation);
    }
  }

  class ProviderRuntimeManager {
    var current: ProviderGeneration
    var nextGenerationId: nat
    var retired: map<nat, ProviderGeneration>
    var unpublished: set<nat>
    var closing: bool
    var closed: bool
    var refreshTask: Option<nat>
    /** Every generation ever published. */
    ghost var published: map<nat, ProviderGeneration>

    constructor ()
      ensures Valid() && fresh(current) && View() == ManagerMachine.Init().m
    {
      current := new ProviderGeneration(1);
      nextGenerationId, retired, unpublished, closing, closed, refreshTask := 2, map[], {}, false, false, None;
      new;
      published := map[1 := current];
    }

    /** Ids name the generations they are filed under, and the next one is free. */
    ghost predicate Valid()
      reads this
    {
      && Knows(current)
      && (forall id | id in retired :: id in published && published[id] == retired[id])
      && (forall id | id in published :: published[id].generationId == id < nextGenerationId)
    }

    ghost predicate Knows(generation: ProviderGeneration)
      reads this
    {
      generation.generationId in published && published[generation.generationId] == generation
    }

    ghost function Views(): map<nat, Generation>
      reads this, published.Values
    {
      map id | id in published :: published[id].View()
    }

    /** The manager of the state machine that these objects stand for. */
    ghost function View(): Manager
      reads this, published.Values
    {
      Manager(Views(), current.generationId, nextGenerationId, retired.Keys, unpublished, closing, closed, refreshTask)
    }

    /** Only `generation` has changed. */
    twostate lemma OnlyOne(generation: ProviderGeneration)
      requires old(Valid()) && Valid() && published == old(published) && Knows(generation)
      requires forall id | id in published && id != generation.generationId :: published[id].View() == old(published[id].View())
      ensures Views() == old(Views())[generation.generationId := generation.View()]
    {
    }

    ghost function With(m: Manager, generation: ProviderGeneration, g: Generation): Manager {
      File(m, generation.generationId, g)
    }

    method Acquire() returns (lease: Option<ProviderGenerationLease>)
      requires Valid()
      modifies current
      ensures Valid() && (lease.None? <==> closing || closed)
      ensures lease.Some? ==> fresh(lease.value) && lease.value.manager == this && lease.value.generation == current
                              && !lease.value.released
      ensures View() == if lease.Some? then With(old(View()), current, Leased(old(current.View()))) else old(View())
    {
      if closing || closed { return None; }
      current.activeLeases := current.activeLeases + 1;
      current.drained := false;
      OnlyOne(current);
      var handed := new ProviderGenerationLease(this, current);
      lease := Some(handed);
    }

    method ReleaseGeneration(generation: ProviderGeneration)
      requires Valid() && Knows(generation)
      modifies generation
      ensures Valid() && View() == With(old(View()), generation, Returned(old(generation.View()), closing))
    {
      generation.Return(closing);
      OnlyOne(generation);
    }

    /** `_close_generation` up to its await; `None` when the caller awaits the task. */
    method CloseGeneration(generation: ProviderGeneration) returns (done: Option<bool>)
      requires Valid() && Knows(generation)
      modifies generation
      ensures Valid() && View() == With(old(View()), generation, CloseRequested(old(generation.View())))
      ensures done == if old(generation.closed) then Some(true)
                      else if old(generation.activeLeases) != 0 then Some(false) else None
    {
      done := generation.RequestClose();
      OnlyOne(generation);
    }

    /** The end of a cleanup task. */
    method FinishCleanup(generation: ProviderGeneration, succeeds: bool) returns (ok: bool)
      requires Valid() && Knows(generation)
      modifies this`retired, generation
      ensures Valid() && ok == succeeds && View() == CleanIn(old(View()), generation.generationId, succeeds)
    {
      if !succeeds {
        generation.cleanup := NoTask;
        OnlyOne(generation);
        return false;
      }
      generation.closed := true;
      generation.cleanup := Ended;
      retired := retired - {generation.generationId};
      ok := true;
      OnlyOne(generation);
    }

    /** `_cancel_refresh` up to its await: forget the task, and cancel and await it unless
        it is done. */
    method CancelRefresh(done: bool) returns (awaited: Option<nat>)
      requires Valid()
      modifies this`refreshTask
      ensures Valid() && View() == old(View()).(refresh := None)
      ensures awaited == if done then None else old(refreshTask)
    {
      awaited := if done then None else refreshTask;
      refreshTask := None;
    }

    /** Make the next generation current. */
    method Install()
      requires Valid()
      modifies this
      ensures Valid() && fresh(current) && published == old(published)[old(nextGenerationId) := current]
      ensures View() == old(View()).(generations := old(Views())[old(nextGenerationId) := NewGeneration()],
                                     current := old(nextGenerationId), nextId := old(nextGenerationId) + 1)
      ensures retired == old(retired)
    {
      current := new ProviderGeneration(nextGenerationId);
      published := published[nextGenerationId := current];
      nextGenerationId := nextGenerationId + 1;
    }

    method Retire(generation: ProviderGeneration)
      requires Valid() && Knows(generation)
      modifies this`retired, generation`retired
      ensures Valid() && retired == old(retired)[generation.generationId := generation]
      ensures View() == With(old(View()), generation, Retired(old(generation.View()))).(
                          retired := old(retired).Keys + {generation.generationId})
    {
      generation.retired := true;
      retired := retired[generation.generationId := generation];
      OnlyOne(generation);
    }

    method StartRefresh(task: nat)
      requires Valid()
      modifies this`refreshTask
      ensures Valid() && View() == old(View()).(refresh := Some(task))
    {
      refreshTask := Some(task);
    }

    method CloseIfIdle(generation: ProviderGeneration)
      requires Valid() && Knows(generation)
      modifies generation
      ensures Valid() && View() == With(old(View()), generation, CloseRequested(old(generation.View())))
    {
      if generation.activeLeases == 0 {
        var _ := CloseGeneration(generation);
      } else {
        OnlyOne(generation);
      }
    }

    /** The new generation in, the old one retired. */
    method Swap() returns (previous: ProviderGeneration)
      requires Valid()
      modifies this, current`retired
      ensures Valid() && previous == old(current) && Knows(previous) && fresh(current)
      ensures View() == SwapIn(old(View())) && previous.View() == Retired(old(current.View()))
    {
      previous := current;
      ghost var before := View();
      assert before.generations[before.current] == previous.View();
      Install();
      ghost var installed := View();
      Retire(previous);
      assert View().generations == installed.generations[before.current := Retired(before.generations[before.current])];
      assert View() == SwapIn(before) && View().generations[before.current] == previous.View();
    }

    /** The committed part of a replacement, up to the await on the old generation; `task` is
        the background refresh started for the new one. */
    method Publish(task: nat) returns (previous: ProviderGeneration)
      requires Valid()
      modifies this, current
      ensures Valid() && previous == old(current) && fresh(current)
      ensures View() == PublishIn(old(View())).(refresh := Some(task))
    {
      ghost var before := View();
      assert before.generations[before.current] == current.View();
      previous := Swap();
      StartRefresh(task);
      CloseIfIdle(previous);
      SwapThenClose(before, task);
    }

    /** The start of a shutdown: no more leases, and the refresh is cancelled. */
    method BeginShutdown(done: bool) returns (awaited: Option<nat>)
      requires Valid()
      modifies this`closing, this`refreshTask
      ensures Valid() && View() == old(View()).(closing := true, refresh := None)
      ensures awaited == if done then None else old(refreshTask)
    {
      closing := true;
      awaited := CancelRefresh(done);
    }

    /** Once the refresh is gone: the current generation retires, and every retired one is
        to be drained. */
    method RetireCurrent() returns (generations: map<nat, ProviderGeneration>)
      requires Valid()
      modifies this`retired, current
      ensures Valid() && View() == RetireIn(old(View())) && generations == retired
    {
      if !current.retired { Retire(current); }
      generations := retired;
    }

    /** Clean every unpublished runtime; `succeeds` tells which cleanups work. Exactly the
        runtimes whose cleanup failed stay on the list. */
    method RetryUnpublishedCleanup(succeeds: nat -> bool) returns (allClosed: bool)
      modifies this`unpublished
      ensures unpublished == set r | r in old(unpublished) && !succeeds(r)
      ensures allClosed <==> unpublished == {}
    {
      allClosed := true;
      var rest := unpublished;
      while rest != {}
        invariant rest <= unpublished
        invariant forall r :: r in unpublished <==> r in old(unpublished) && (r in rest || !succeeds(r))
        invariant allClosed <==> unpublished <= rest
        decreases |rest|
      {
        var runtime :| runtime in rest;
        if succeeds(runtime) {
          unpublished := unpublished - {runtime};
        } else {
          allClosed := false;
        }
        rest := rest - {runtime};
      }
    }
  }

  function SwapIn(m: Manager): Manager
    requires m.current in m.generations
  {
    var outgoing := Retired(m.generations[m.current]);
    m.(generations := m.generations[m.nextId := NewGeneration()][m.current := outgoing],
       current := m.nextId, nextId := m.nextId + 1, retired := m.retired + {m.current})
  }

  lemma SwapThenClose(m: Manager, task: nat)
    requires m.current in m.generations
    ensures File(SwapIn(m).(refresh := Some(task)), m.current, CloseRequested(Retired(m.generations[m.current])))
         == PublishIn(m).(refresh := Some(task))
  {
    var close := CloseRequested(Retired(m.generations[m.current]));
    assert SwapIn(m).generations[m.current := close] == PublishIn(m).generations;
  }

  /** A lease taken and given back leaves a generation in use as it was, and hands one that
      was retired meanwhile to its cleanup exactly when it was the last. */
  lemma LeaseRoundTrip(g: Generation, closing: bool)
    requires GenerationOk(g) && !g.retired
    ensures Returned(Leased(g), closing) == g
    ensures var late := Returned(Retired(Leased(g)), closing);
      late == Retired(g).(cleanup := if g.leases == 0 && !closing then Scheduled else NoTask)
  {
  }
}
