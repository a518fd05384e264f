/** What a run of the delivery queue guarantees its callers. */
module DeliveryTheorems {
  import opened DeliveryQueue
  import opened DeliveryMachine

  /** A waiter that is not done is in exactly one list, the active one or the one queued for
      its own key, and only once in it. */
  lemma OneOwner(st: State, f: nat)
    requires Reachable(st) && f in st.futures && st.futures[f].Pending?
    ensures f in st.requests && (f in st.active <==> !Queued(st.queue, f, st.requests[f].key))
    ensures forall k <- st.queue.table :: f in st.queue.table[k].waiters ==> k == st.requests[f].key
    ensures forall i, j | 0 <= i < j < |st.active| :: st.active[i] != st.active[j]
    ensures forall k <- st.queue.table :: NoRepeats(st.queue.table[k].waiters)
  {
    ReachableInv(st);
    assert forall k <- st.queue.table :: WorkOk(st.requests, st.placed, k, st.queue.table[k]);
  }

  ghost predicate NoRepeats(waiters: seq<nat>) {
    forall i, j | 0 <= i < j < |waiters| :: waiters[i] != waiters[j]
  }

  /** However the work ends, the whole batch is settled alike and nobody else is, with the
      function of the last waiter merged into it. */
  lemma BatchSharesOutcome(st: State, outcome: Outcome, f: nat)
    requires Reachable(st) && st.worker.Holding? && f in st.futures
    ensures var work, after := st.worker.work, Next(st, Finish(outcome)).futures;
      f in after
      && after[f] == if f !in work.waiters || !st.futures[f].Pending? then st.futures[f]
                     else match outcome
                       case Succeeded => Result(work.func)
                       case Raised(_) => Failed(work.func)
                       case CancelledInside(_) => Cancelled
    ensures var last := Latest(st.worker.work);
      last in st.worker.work.waiters && last in st.requests && st.requests[last].func == st.worker.work.func
  {
    ReachableInv(st);
  }

  /** An outcome always comes from a function asked for with the same key, by a request
      placed no earlier. */
  lemma OutcomeIsOwnOrNewer(st: State, f: nat) returns (last: nat)
    requires Reachable(st) && f in st.futures && (st.futures[f].Result? || st.futures[f].Failed?)
    ensures ServedBy(st.requests, st.placed, f, last, st.futures[f])
  {
    ReachableInv(st);
    last := st.servedBy[f];
  }

  /** What is queued for a key is the newest request ever placed for it. */
  ghost predicate Newest(st: State, k: string) {
    k in st.queue.table ==> NewestIs(st, k, Latest(st.queue.table[k]))
  }

  ghost predicate NewestIs(st: State, k: string, newest: nat) {
    && newest in st.placed
    && forall g <- st.placed :: g in st.requests && st.requests[g].key == k ==> st.placed[g] <= st.placed[newest]
  }

  lemma NewestPlaced(st: State, f: nat, r: Request, k: string)
    requires Inv(st) && Newest(st, k) && f !in st.requests
    ensures Newest(DoPlace(st, f, r), k)
  {
    if k == r.key {
      assert Latest(DoPlace(st, f, r).queue.table[k]) == f;
    }
  }

  lemma NewestTaken(st: State, k: string)
    requires Newest(st, k)
    ensures Newest(DoTake(st), k)
  {
  }

  lemma NewestFinished(st: State, outcome: Outcome, k: string)
    requires Newest(st, k) && st.worker.Holding?
    ensures Newest(DoFinish(st, outcome), k)
  {
  }

  lemma NewestStep(st: State, step: Step, k: string)
    requires Inv(st) && Newest(st, k)
    ensures Newest(Next(st, step), k)
  {
    if Enabled(st, step) {
      match step
      case Place(f, r) => NewestPlaced(st, f, r, k);
      case TakeWork => NewestTaken(st, k);
      case Finish(outcome) => NewestFinished(st, outcome, k);
      case _ =>
    }
  }

  lemma {:induction false} RunNewest(steps: seq<Step>, k: string)
    ensures Newest(Execute(Init(), steps), k)
  {
    if steps != [] {
      RunNewest(steps[..|steps| - 1], k);
      RunInv(steps[..|steps| - 1]);
      NewestStep(Execute(Init(), steps[..|steps| - 1]), steps[|steps| - 1], k);
    }
  }

  /** The latest function runs: taking a key runs the function of the newest request ever
      placed for it, whatever was merged in between. */
  lemma LatestFunctionRuns(steps: seq<Step>) returns (newest: nat)
    requires Enabled(Execute(Init(), steps), TakeWork) && !Execute(Init(), steps).closed
    ensures var st := Execute(Init(), steps); var worker := Next(st, TakeWork).worker;
      && worker.Holding? && worker.key == st.queue.order[0] && newest in st.requests
      && st.requests[newest].key == worker.key && st.requests[newest].func == worker.work.func
      && NewestIs(st, worker.key, newest)
  {
    RunInv(steps);
    var st := Execute(Init(), steps);
    RunNewest(steps, st.queue.order[0]);
    newest := HeadIsNewest(st, st.queue.order[0]);
  }

  lemma HeadIsNewest(st: State, key: string) returns (newest: nat)
    requires Inv(st) && st.queue.order != [] && key == st.queue.order[0] && Newest(st, key)
    ensures key in st.queue.table && newest in st.requests && NewestIs(st, key, newest)
    ensures st.requests[newest].key == key && st.requests[newest].func == st.queue.table[key].func
  {
    assert key in st.queue.order;
    newest := Latest(st.queue.table[key]);
    assert newest in st.queue.table[key].waiters;
  }

  // First come, first served.

  /** No request of this run jumps the queue. */
  predicate AllAtBack(st: State) {
    forall f <- st.requests :: !st.requests[f].front
  }

  /** The position at which the oldest waiter of a queued key was placed. */
  function Oldest(table: map<string, Work>, placed: map<nat, nat>, key: string): nat {
    if key in table && table[key].waiters != [] && table[key].waiters[0] in placed
    then placed[table[key].waiters[0]] else 0
  }

  /** The keys stand in the order in which their oldest waiters came. */
  ghost predicate OrderedBy(q: Queue, placed: map<nat, nat>) {
    forall i, j | 0 <= i < j < |q.order| :: Oldest(q.table, placed, q.order[i]) < Oldest(q.table, placed, q.order[j])
  }

  ghost predicate InOrder(st: State) {
    OrderedBy(st.queue, st.placed)
  }

  lemma OldestKept(st: State, f: nat, r: Request, key: string)
    requires Inv(st) && f !in st.requests && key in st.queue.table
    ensures var after := DoPlace(st, f, r);
      && Oldest(after.queue.table, after.placed, key) == Oldest(st.queue.table, st.placed, key)
      && Oldest(st.queue.table, st.placed, key) < |st.placed|
  {
    var work := st.queue.table[key];
    assert WorkOk(st.requests, st.placed, key, work);
    assert work.waiters[0] in work.waiters;
  }

  lemma PlaceInOrder(st: State, f: nat, r: Request)
    requires Inv(st) && InOrder(st) && f !in st.requests && !r.front
    ensures InOrder(DoPlace(st, f, r))
  {
    var after := DoPlace(st, f, r);
    forall i | 0 <= i < |st.queue.order|
      ensures Oldest(after.queue.table, after.placed, st.queue.order[i]) == Oldest(st.queue.table, st.placed, st.queue.order[i])
              && Oldest(st.queue.table, st.placed, st.queue.order[i]) < |st.placed|
    {
      assert st.queue.order[i] in st.queue.order;
      OldestKept(st, f, r, st.queue.order[i]);
    }
    if r.key !in st.queue.table {
      assert Oldest(after.queue.table, after.placed, r.key) == |st.placed|;
    }
  }

  lemma RestInOrder(q: Queue, placed: map<nat, nat>)
    requires QueueOk(q) && q.order != [] && OrderedBy(q, placed)
    ensures OrderedBy(Rest(q), placed)
  {
    forall i, j | 0 <= i < j < |Rest(q).order|
      ensures Oldest(Rest(q).table, placed, Rest(q).order[i]) < Oldest(Rest(q).table, placed, Rest(q).order[j])
    {
      OldestInRest(q, placed, i + 1);
      OldestInRest(q, placed, j + 1);
    }
  }

  lemma OldestInRest(q: Queue, placed: map<nat, nat>, i: nat)
    requires QueueOk(q) && 0 < i < |q.order|
    ensures Oldest(q.table - {q.order[0]}, placed, q.order[i]) == Oldest(q.table, placed, q.order[i])
  {
    assert q.order[i] in q.order && q.order[0] != q.order[i];
  }

  lemma StepInOrder(st: State, step: Step)
    requires Inv(st) && InOrder(st) && AllAtBack(Next(st, step))
    ensures InOrder(Next(st, step)) && AllAtBack(st)
  {
    if Enabled(st, step) {
      match step
      case Place(f, r) =>
        assert !Next(st, step).requests[f].front;
        assert forall g <- st.requests :: g in Next(st, step).requests && st.requests[g] == Next(st, step).requests[g];
        PlaceInOrder(st, f, r);
      case TakeWork => if !st.closed { RestInOrder(st.queue, st.placed); }
      case Finish(outcome) => FinishKeepsQueue(st, outcome);
      case _ =>
    }
  }

  lemma FinishKeepsQueue(st: State, outcome: Outcome)
    requires st.worker.Holding?
    ensures var after := DoFinish(st, outcome);
      after.queue == st.queue && after.requests == st.requests && after.placed == st.placed
  {
  }

  lemma {:induction false} RunInOrder(steps: seq<Step>)
    requires AllAtBack(Execute(Init(), steps))
    ensures InOrder(Execute(Init(), steps))
  {
    if steps != [] {
      var before := Execute(Init(), steps[..|steps| - 1]);
      RunInv(steps[..|steps| - 1]);
      StillAtBack(before, steps[|steps| - 1]);
      RunInOrder(steps[..|steps| - 1]);
      StepInOrder(before, steps[|steps| - 1]);
    }
  }

  lemma StillAtBack(st: State, step: Step)
    requires Inv(st) && AllAtBack(Next(st, step))
    ensures AllAtBack(st)
  {
    forall f | f in st.requests ensures !st.requests[f].front {
      assert f in Next(st, step).requests && Next(st, step).requests[f] == st.requests[f];
    }
  }

  /** With every request placed at the back, the worker takes the work whose oldest waiter came
      before everybody else who is queued, and hands it over with its waiters in the order they
      came. */
  lemma FirstComeFirstServed(steps: seq<Step>, f: nat)
    requires AllAtBack(Execute(Init(), steps)) && Enabled(Execute(Init(), steps), TakeWork) && !Execute(Init(), steps).closed
    requires var st := Execute(Init(), steps); f in st.requests && Queued(st.queue, f, st.requests[f].key)
    ensures var st := Execute(Init(), steps); var worker := Next(st, TakeWork).worker;
      && worker.Holding? && worker.work.waiters != [] && worker.work.waiters[0] in st.placed && f in st.placed
      && st.placed[worker.work.waiters[0]] <= st.placed[f]
      && (st.requests[f].key != worker.key ==> st.placed[worker.work.waiters[0]] < st.placed[f])
  {
    var st := Execute(Init(), steps);
    RunInv(steps);
    RunInOrder(steps);
    TakesOldest(st, f);
  }

  lemma TakesOldest(st: State, f: nat)
    requires Inv(st) && InOrder(st) && st.queue.order != [] && f in st.requests && Queued(st.queue, f, st.requests[f].key)
    ensures var key := st.queue.order[0];
      && key in st.queue.table && st.queue.table[key].waiters != [] && st.queue.table[key].waiters[0] in st.placed && f in st.placed
      && st.placed[st.queue.table[key].waiters[0]] <= st.placed[f]
      && (st.requests[f].key != key ==> st.placed[st.queue.table[key].waiters[0]] < st.placed[f])
  {
    var order, key := st.queue.order, st.requests[f].key;
    assert order[0] in order && key in order;
    assert WorkOk(st.requests, st.placed, order[0], st.queue.table[order[0]]);
    var work := st.queue.table[key];
    assert WorkOk(st.requests, st.placed, key, work);
    var i :| 0 <= i < |work.waiters| && work.waiters[i] == f;
    assert work.waiters[0] in work.waiters && (i > 0 ==> st.placed[work.waiters[0]] < st.placed[work.waiters[i]]);
    var j :| 0 <= j < |order| && order[j] == key;
    assert st.queue.table[order[0]].waiters[0] in st.queue.table[order[0]].waiters;
    if j > 0 {
      assert Oldest(st.queue.table, st.placed, order[0]) < Oldest(st.queue.table, st.placed, order[j]);
    }
  }

  /** A request placed at the front, unless its key is already queued, is taken next. */
  lemma FrontIsNext(st: State, f: nat, r: Request)
    requires Reachable(st) && Enabled(st, Place(f, r)) && r.front && r.key !in st.queue.table && st.worker.AtTop?
    ensures Next(Next(st, Place(f, r)), TakeWork).worker == Holding(r.key, Work(r.func, [f]))
  {
    var placed := Next(st, Place(f, r));
    assert placed.queue.order[0] == r.key && placed.queue.table[r.key] == Work(r.func, [f]);
  }

  // Settled futures and shutdown.

  ghost predicate Settled(st: State, f: nat, outcome: Future) {
    f in st.futures && st.futures[f] == outcome && !outcome.Pending?
  }

  lemma SettledPlain(st: State, step: Step, f: nat, outcome: Future)
    requires NumbersOk(st) && Settled(st, f, outcome) && Enabled(st, step)
    requires !step.Finish?
    ensures Settled(Act(st, step), f, outcome)
  {
  }

  lemma SettledFinish(st: State, how: Outcome, f: nat, outcome: Future)
    requires Settled(st, f, outcome) && st.worker.Holding?
    ensures Settled(DoFinish(st, how), f, outcome)
  {
  }

  lemma SettledStep(st: State, step: Step, f: nat, outcome: Future)
    requires Inv(st) && Settled(st, f, outcome)
    ensures Settled(Next(st, step), f, outcome)
  {
    if Enabled(st, step) {
      match step
      case Finish(how) => SettledFinish(st, how, f, outcome);
      case _ => SettledPlain(st, step, f, outcome);
    }
  }

  lemma {:induction false} SettledStays(st: State, steps: seq<Step>, f: nat, outcome: Future)
    requires Inv(st) && Settled(st, f, outcome)
    ensures Inv(Execute(st, steps)) && Settled(Execute(st, steps), f, outcome)
  {
    if steps != [] {
      SettledStays(st, steps[..|steps| - 1], f, outcome);
      SettledStep(Execute(st, steps[..|steps| - 1]), steps[|steps| - 1], f, outcome);
      StepInv(Execute(st, steps[..|steps| - 1]), steps[|steps| - 1]);
    }
  }

  /** A settled future never changes again. */
  lemma OutcomesAreFinal(st: State, steps: seq<Step>, f: nat, outcome: Future)
    requires Reachable(st) && Settled(st, f, outcome)
    ensures Settled(Execute(st, steps), f, outcome)
  {
    ReachableInv(st);
    SettledStays(st, steps, f, outcome);
  }

  lemma ClosedStep(st: State, step: Step)
    requires st.closed
    ensures Next(st, step).closed
  {
  }

  lemma {:induction false} ClosedStays(st: State, steps: seq<Step>)
    requires Inv(st) && st.closed
    ensures Inv(Execute(st, steps)) && Execute(st, steps).closed
  {
    if steps != [] {
      ClosedStays(st, steps[..|steps| - 1]);
      StepInv(Execute(st, steps[..|steps| - 1]), steps[|steps| - 1]);
      ClosedStep(Execute(st, steps[..|steps| - 1]), steps[|steps| - 1]);
    }
  }

  lemma ClosedMeansDone(st: State)
    requires Inv(st) && st.closed
    ensures forall f <- st.futures :: !st.futures[f].Pending?
  {
  }

  /** From shutdown's locked section on, at every moment every future ever handed out is done. */
  lemma ShutdownSettlesAll(st: State, steps: seq<Step>, f: nat)
    requires Reachable(st) && f in Execute(Next(st, Shutdown), steps).futures
    ensures !Execute(Next(st, Shutdown), steps).futures[f].Pending?
  {
    ReachableInv(st);
    StepInv(st, Shutdown);
    ClosedStays(Next(st, Shutdown), steps);
    ClosedMeansDone(Execute(Next(st, Shutdown), steps));
  }

  lemma IdleStep(st: State, step: Step)
    requires st.closed && !st.worker.Holding?
    ensures Next(st, step).closed && !Next(st, step).worker.Holding?
    ensures st.worker.Ended? ==> Next(st, step).worker.Ended?
  {
  }

  lemma {:induction false} IdleStays(st: State, steps: seq<Step>)
    requires st.closed && !st.worker.Holding?
    ensures Execute(st, steps).closed && !Execute(st, steps).worker.Holding?
    ensures st.worker.Ended? ==> Execute(st, steps).worker.Ended?
  {
    if steps != [] {
      IdleStays(st, steps[..|steps| - 1]);
      IdleStep(Execute(st, steps[..|steps| - 1]), steps[|steps| - 1]);
    }
  }

  /** After shutdown no work is started, whatever else happens: a worker that is not inside a
      function then never enters one again, its next look at the queue ends it, and it is never
      started anew. */
  lemma NoWorkAfterShutdown(st: State, steps: seq<Step>)
    requires !st.worker.Holding?
    ensures var end := Execute(Next(st, Shutdown), steps);
      && !end.worker.Holding?
      && (end.worker.AtTop? ==> Next(end, TakeWork).worker.Ended?)
      && (st.worker.Ended? ==> end.worker.Ended?)
  {
    IdleStays(Next(st, Shutdown), steps);
  }
}
