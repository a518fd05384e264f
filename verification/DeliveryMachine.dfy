/** The delivery worker, the enqueueing callers and shutdown, interleaved in any order.

    The condition's lock is only ever given up inside `wait()`, never held across another
    await, so taking it does not suspend: a caller's check, its new future and its place in
    the queue are one step, and so are shutdown's flags and its locked section. */
module DeliveryMachine {
  import opened Options
  import opened DeliveryQueue

  /** The state of one waiter's future; an outcome names the function that produced it. */
  datatype Future = Pending | Result(func: nat) | Failed(func: nat) | Cancelled

  datatype Request = Request(func: nat, key: string, front: bool)

  datatype Worker = NotStarted | AtTop | Holding(key: string, work: Work) | Recovering | Ended

  /** `placed` numbers the futures in the order they entered the queue; `servedBy` remembers
      whose function settled a future. */
  datatype State = State(
    queue: Queue, requests: map<nat, Request>, futures: map<nat, Future>, placed: map<nat, nat>,
    servedBy: map<nat, nat>, active: seq<nat>, worker: Worker, closed: bool)

  datatype Outcome = Succeeded | Raised(unreadablePause: bool) | CancelledInside(cancelling: bool)

  datatype Step =
    | Start
    | Place(f: nat, request: Request)
    | CallerCancels(f: nat)
    | TakeWork
    | Finish(outcome: Outcome)
    | CancelWorker
    | Resume
    | Shutdown

  function Init(): State {
    State(Queue([], map[]), map[], map[], map[], map[], [], NotStarted, false)
  }

  predicate Running(st: State) {
    st.worker.AtTop? || st.worker.Holding? || st.worker.Recovering?
  }

  /** Give every waiter that is not done yet the same outcome. */
  function Settle(futures: map<nat, Future>, waiters: seq<nat>, outcome: Future): map<nat, Future> {
    map f | f in futures :: if f in waiters && futures[f].Pending? then outcome else futures[f]
  }

  predicate Queued(q: Queue, f: nat, key: string) {
    key in q.table && f in q.table[key].waiters
  }

  predicate Waiting(table: map<string, Work>, active: seq<nat>, f: nat) {
    f in active || exists k <- table :: f in table[k].waiters
  }

  /** Cancel every waiter of the queue and of the active work. */
  function CancelOwned(futures: map<nat, Future>, table: map<string, Work>, active: seq<nat>): map<nat, Future> {
    map f | f in futures :: if Waiting(table, active, f) && futures[f].Pending? then Cancelled else futures[f]
  }

  predicate Enabled(st: State, step: Step) {
    match step
    case Start => !st.closed && !Running(st)
    case Place(f, _) => f !in st.requests && !st.closed && Running(st)
    case CallerCancels(f) => f in st.futures && st.futures[f].Pending?
    case TakeWork => st.worker.AtTop? && (st.closed || st.queue.order != [])
    case Finish(_) => st.worker.Holding?
    case CancelWorker => Running(st)
    case Resume => st.worker.Recovering?
    case Shutdown => true
  }

  /** `enqueue` from its checks to the await on its new future. */
  function DoPlace(st: State, f: nat, r: Request): State {
    st.(requests := st.requests[f := r], futures := st.futures[f := Pending], placed := st.placed[f := |st.placed|],
        queue := Enqueue(st.queue, r.func, [f], r.key, r.front))
  }

  function DoTake(st: State): State {
    if st.closed then st.(worker := Ended)
    else if st.queue.order == [] || st.queue.order[0] !in st.queue.table then st
    else
      var key := st.queue.order[0];
      var work := st.queue.table[key];
      st.(queue := Rest(st.queue), worker := Holding(key, work), active := work.waiters)
  }

  /** The future whose function ran: the last one merged into the work. */
  function Latest(work: Work): nat {
    if work.waiters == [] then 0 else work.waiters[|work.waiters| - 1]
  }

  /** What a waiter learns when work with this function ends so. */
  function Told(outcome: Outcome, func: nat): Future {
    match outcome
    case Succeeded => Result(func)
    case Raised(_) => Failed(func)
    case CancelledInside(_) => Cancelled
  }

  function DoFinish(st: State, outcome: Outcome): State
    requires st.worker.Holding?
  {
    var work := st.worker.work;
    var served := st.servedBy + map f | f in work.waiters && f in st.futures && st.futures[f].Pending? :: Latest(work);
    match outcome
    case Succeeded =>
      st.(futures := Settle(st.futures, work.waiters, Result(work.func)), servedBy := served, active := [], worker := AtTop)
    case Raised(unreadablePause) =>
      st.(futures := Settle(st.futures, work.waiters, Failed(work.func)), servedBy := served, active := [],
          worker := if unreadablePause then Recovering else AtTop)
    case CancelledInside(cancelling) =>
      st.(futures := Settle(st.futures, work.waiters, Cancelled), active := [],
          worker := if st.closed || cancelling then Ended else AtTop)
  }

  function Act(st: State, step: Step): State
    requires Enabled(st, step)
  {
    match step
    case Start => st.(worker := AtTop)
    case Place(f, request) => DoPlace(st, f, request)
    case CallerCancels(f) => st.(futures := st.futures[f := Cancelled])
    case TakeWork => DoTake(st)
    case Finish(outcome) => DoFinish(st, outcome)
    case CancelWorker => st.(futures := Settle(st.futures, st.active, Cancelled), active := [], worker := Ended)
    case Resume => st.(worker := AtTop)
    case Shutdown =>
      st.(closed := true, futures := CancelOwned(st.futures, st.queue.table, st.active), queue := Queue([], map[]))
  }

  function Next(st: State, step: Step): State {
    if Enabled(st, step) then Act(st, step) else st
  }

  function Execute(st: State, steps: seq<Step>): State {
    if steps == [] then st else Next(Execute(st, steps[..|steps| - 1]), steps[|steps| - 1])
  }

  // The invariant.

  type Requests = map<nat, Request>

  /** The waiters of one piece of work: all for its key, in the order they were placed, and
      the function is the one the last of them brought. */
  ghost predicate WorkOk(requests: Requests, placed: map<nat, nat>, key: string, work: Work) {
    && work.waiters != []
    && (forall f <- work.waiters :: f in requests && requests[f].key == key && f in placed)
    && (forall i, j | 0 <= i < j < |work.waiters| :: placed[work.waiters[i]] < placed[work.waiters[j]])
    && requests[Latest(work)].func == work.func
  }

  ghost predicate TableOk(q: Queue, requests: Requests, placed: map<nat, nat>) {
    forall k <- q.table :: WorkOk(requests, placed, k, q.table[k])
  }

  ghost predicate HeldOk(st: State) {
    if st.worker.Holding?
    then st.active == st.worker.work.waiters && WorkOk(st.requests, st.placed, st.worker.key, st.worker.work)
    else st.active == []
  }

  /** No active waiter is also queued. */
  ghost predicate Apart(st: State) {
    forall f <- st.active :: f in st.requests && !Queued(st.queue, f, st.requests[f].key)
  }

  ghost predicate NumbersOk(st: State) {
    && st.futures.Keys == st.requests.Keys == st.placed.Keys
    && (forall f <- st.placed :: st.placed[f] < |st.placed|)
  }

  /** Every future that is not done is owned by the active work, or by the one queued work
      for its key. */
  ghost predicate Owned(st: State, f: nat) {
    f in st.active || (f in st.requests && Queued(st.queue, f, st.requests[f].key))
  }

  ghost predicate NoneLost(st: State) {
    forall f <- st.futures :: st.futures[f].Pending? ==> Owned(st, f)
  }

  ghost predicate ClosedOk(st: State) {
    st.closed ==> st.queue.table == map[] && forall f <- st.active :: f in st.futures && !st.futures[f].Pending?
  }

  /** An outcome comes from the function of a request for the same key, placed no earlier. */
  ghost predicate ServedBy(requests: Requests, placed: map<nat, nat>, f: nat, last: nat, outcome: Future) {
    && f in requests && last in requests && f in placed && last in placed
    && requests[last].key == requests[f].key && placed[f] <= placed[last]
    && (outcome == Result(requests[last].func) || outcome == Failed(requests[last].func))
  }

  ghost predicate ServedOk(st: State) {
    forall f <- st.futures :: st.futures[f].Result? || st.futures[f].Failed?
      ==> f in st.servedBy && ServedBy(st.requests, st.placed, f, st.servedBy[f], st.futures[f])
  }

  ghost predicate Inv(st: State) {
    && QueueOk(st.queue) && TableOk(st.queue, st.requests, st.placed) && HeldOk(st) && Apart(st)
    && NumbersOk(st) && NoneLost(st) && ClosedOk(st) && ServedOk(st)
  }

  // Placing a future.

  lemma PlacedWork(requests: Requests, placed: map<nat, nat>, work: Option<Work>, f: nat)
    requires f in requests && f !in placed && forall g <- placed :: placed[g] < |placed|
    requires work.Some? ==> WorkOk(requests, placed, requests[f].key, work.value)
    ensures WorkOk(requests, placed[f := |placed|], requests[f].key,
                   if work.Some? then Merge(work.value, requests[f].func, [f]) else Work(requests[f].func, [f]))
  {
    if work.Some? {
      assert forall g <- work.value.waiters + [f] :: g == f || g in work.value.waiters;
    }
  }

  lemma WorkKept(requests: Requests, placed: map<nat, nat>, f: nat, key: string, work: Work)
    requires WorkOk(requests, placed, key, work) && f !in placed
    ensures WorkOk(requests, placed[f := |placed|], key, work)
  {
  }

  lemma PlacedTable(q: Queue, requests: Requests, placed: map<nat, nat>, f: nat)
    requires TableOk(q, requests, placed)
    requires f in requests && f !in placed && forall g <- placed :: placed[g] < |placed|
    ensures TableOk(Enqueue(q, requests[f].func, [f], requests[f].key, requests[f].front), requests, placed[f := |placed|])
  {
    var key := requests[f].key;
    var after := Enqueue(q, requests[f].func, [f], key, requests[f].front);
    PlacedWork(requests, placed, if key in q.table then Some(q.table[key]) else None, f);
    forall k | k in after.table ensures WorkOk(requests, placed[f := |placed|], k, after.table[k]) {
      if k != key { WorkKept(requests, placed, f, k, q.table[k]); }
    }
  }

  lemma QueueKept(q: Queue, func: nat, waiters: seq<nat>, key: string, front: bool)
    requires QueueOk(q)
    ensures QueueOk(Enqueue(q, func, waiters, key, front))
  {
    if key !in q.table { EnqueueNewOk(q, func, waiters, key, front); }
  }

  lemma WorkArrived(requests: Requests, placed: map<nat, nat>, f: nat, r: Request, key: string, work: Work)
    requires WorkOk(requests, placed, key, work) && f !in requests
    ensures WorkOk(requests[f := r], placed, key, work)
  {
    assert Latest(work) in work.waiters;
  }

  lemma TableArrived(q: Queue, requests: Requests, placed: map<nat, nat>, f: nat, r: Request)
    requires TableOk(q, requests, placed) && f !in requests
    ensures TableOk(q, requests[f := r], placed)
  {
    forall k | k in q.table ensures WorkOk(requests[f := r], placed, k, q.table[k]) {
      WorkArrived(requests, placed, f, r, k, q.table[k]);
    }
  }

  lemma PlaceQueue(st: State, f: nat, r: Request)
    requires Inv(st) && f !in st.requests
    ensures var st' := DoPlace(st, f, r);
      QueueOk(st'.queue) && TableOk(st'.queue, st'.requests, st'.placed) && NumbersOk(st')
  {
    TableArrived(st.queue, st.requests, st.placed, f, r);
    PlacedTable(st.queue, st.requests[f := r], st.placed, f);
    QueueKept(st.queue, r.func, [f], r.key, r.front);
  }

  lemma PlaceHeld(st: State, f: nat, r: Request)
    requires Inv(st) && f !in st.requests
    ensures HeldOk(DoPlace(st, f, r)) && f !in st.active
  {
    if st.worker.Holding? {
      WorkArrived(st.requests, st.placed, f, r, st.worker.key, st.worker.work);
      WorkKept(st.requests[f := r], st.placed, f, st.worker.key, st.worker.work);
    }
  }

  lemma QueuedAfter(q: Queue, func: nat, f: nat, key: string, front: bool, g: nat, k: string)
    ensures Queued(Enqueue(q, func, [f], key, front), g, k) <==> Queued(q, g, k) || (g == f && k == key)
  {
  }

  lemma PlaceOwners(st: State, f: nat, r: Request)
    requires Inv(st) && f !in st.requests && f !in st.active
    ensures Apart(DoPlace(st, f, r)) && NoneLost(DoPlace(st, f, r))
  {
    var st' := DoPlace(st, f, r);
    forall g | g in st.active ensures g in st'.requests && !Queued(st'.queue, g, st'.requests[g].key) {
      QueuedAfter(st.queue, r.func, f, r.key, r.front, g, st'.requests[g].key);
    }
    forall g | g in st'.futures && st'.futures[g].Pending? ensures Owned(st', g) {
      QueuedAfter(st.queue, r.func, f, r.key, r.front, g, st'.requests[g].key);
      assert g == f || Owned(st, g);
    }
  }

  lemma PlaceServed(st: State, f: nat, r: Request)
    requires Inv(st) && f !in st.requests && !st.closed
    ensures ClosedOk(DoPlace(st, f, r)) && ServedOk(DoPlace(st, f, r))
  {
    forall g | g in st.futures && (st.futures[g].Result? || st.futures[g].Failed?)
      ensures ServedBy(st.requests[f := r], st.placed[f := |st.placed|], g, st.servedBy[g], st.futures[g])
    {
      assert ServedBy(st.requests, st.placed, g, st.servedBy[g], st.futures[g]);
    }
  }

  lemma PlaceInv(st: State, f: nat, r: Request)
    requires Inv(st) && f !in st.requests && !st.closed
    ensures Inv(DoPlace(st, f, r))
  {
    PlaceQueue(st, f, r);
    PlaceHeld(st, f, r);
    PlaceOwners(st, f, r);
    PlaceServed(st, f, r);
  }

  // The worker.

  lemma TakeInv(st: State)
    requires Inv(st) && Enabled(st, TakeWork)
    ensures Inv(DoTake(st))
  {
    if !st.closed {
      var key := st.queue.order[0];
      assert key in st.queue.order;
      var work := st.queue.table[key];
      assert WorkOk(st.requests, st.placed, key, work);
      RestOk(st.queue);
      var st' := DoTake(st);
      assert st'.queue.table == st.queue.table - {key};
      assert NoneLost(st');
    }
  }

  /** The waiters of finished work are served by the function of the last of them. */
  lemma FinishServed(st: State, outcome: Future)
    requires Inv(st) && st.worker.Holding?
    requires outcome == Result(st.worker.work.func) || outcome == Failed(st.worker.work.func)
    ensures var work := st.worker.work;
      ServedOk(st.(futures := Settle(st.futures, work.waiters, outcome),
                   servedBy := st.servedBy + map f | f in work.waiters && f in st.futures && st.futures[f].Pending? :: Latest(work)))
  {
    var work := st.worker.work;
    assert Latest(work) in work.waiters;
    forall f | f in work.waiters ensures ServedBy(st.requests, st.placed, f, Latest(work), outcome) {
      var i :| 0 <= i < |work.waiters| && work.waiters[i] == f;
      assert i < |work.waiters| - 1 ==> st.placed[work.waiters[i]] < st.placed[work.waiters[|work.waiters| - 1]];
    }
  }

  /** Once the held work's waiters are settled, the worker owns nobody. */
  lemma SettledOwners(st: State, after: State, outcome: Future)
    requires Inv(st) && st.worker.Holding? && !outcome.Pending?
    requires after.futures == Settle(st.futures, st.worker.work.waiters, outcome) && after.active == [] && !after.worker.Holding?
    requires after.queue == st.queue && after.requests == st.requests && after.placed == st.placed && after.closed == st.closed
    ensures NoneLost(after) && ClosedOk(after) && HeldOk(after) && Apart(after) && NumbersOk(after)
  {
    forall f | f in after.futures && after.futures[f].Pending? ensures Owned(after, f) {
      assert Owned(st, f);
    }
  }

  lemma FinishInv(st: State, outcome: Outcome)
    requires Inv(st) && st.worker.Holding?
    ensures Inv(DoFinish(st, outcome))
  {
    SettledOwners(st, DoFinish(st, outcome), Told(outcome, st.worker.work.func));
    match outcome
    case Succeeded => FinishServed(st, Result(st.worker.work.func));
    case Raised(_) => FinishServed(st, Failed(st.worker.work.func));
    case CancelledInside(_) => CancelledServed(st, DoFinish(st, outcome));
  }

  /** Cancelling some waiters disturbs no outcome. */
  lemma CancelledServed(st: State, after: State)
    requires ServedOk(st) && after.futures.Keys == st.futures.Keys
    requires after.requests == st.requests && after.placed == st.placed && after.servedBy == st.servedBy
    requires forall f <- st.futures :: after.futures[f] == st.futures[f] || after.futures[f] == Cancelled
    ensures ServedOk(after)
  {
  }

  lemma CancelWorkerOwners(st: State)
    requires Inv(st) && Running(st)
    ensures var after := Act(st, CancelWorker); NoneLost(after) && ClosedOk(after) && HeldOk(after) && Apart(after)
  {
  }

  lemma CancelWorkerInv(st: State)
    requires Inv(st) && Running(st)
    ensures Inv(Act(st, CancelWorker))
  {
    CancelWorkerOwners(st);
    CancelledServed(st, Act(st, CancelWorker));
  }

  lemma ShutdownInv(st: State)
    requires Inv(st)
    ensures Inv(Act(st, Shutdown))
  {
    CancelOwnedLeaves(st);
    CancelledServed(st, Act(st, Shutdown));
  }

  /** Cancelling everything owned leaves nobody waiting. */
  lemma CancelOwnedLeaves(st: State)
    requires NumbersOk(st) && NoneLost(st)
    ensures var after := CancelOwned(st.futures, st.queue.table, st.active);
      && after.Keys == st.futures.Keys
      && (forall f <- st.futures :: after[f] == st.futures[f] || after[f] == Cancelled)
      && (forall f <- st.futures :: !after[f].Pending?)
  {
  }

  lemma StepInv(st: State, step: Step)
    requires Inv(st)
    ensures Inv(Next(st, step))
  {
    if Enabled(st, step) {
      match step
      case Place(f, r) => PlaceInv(st, f, r);
      case TakeWork => TakeInv(st);
      case Finish(outcome) => FinishInv(st, outcome);
      case CancelWorker => CancelWorkerInv(st);
      case Shutdown => ShutdownInv(st);
      case _ => PlainInv(st, step);
    }
  }

  /** The steps that touch neither the queue nor the active work. */
  lemma PlainInv(st: State, step: Step)
    requires Inv(st) && Enabled(st, step) && (step.Start? || step.CallerCancels? || step.Resume?)
    ensures Inv(Act(st, step))
  {
  }

  /** Every state of every run from the start satisfies the invariant. */
  lemma {:induction false} RunInv(steps: seq<Step>)
    ensures Inv(Execute(Init(), steps))
  {
    if steps != [] {
      RunInv(steps[..|steps| - 1]);
      StepInv(Execute(Init(), steps[..|steps| - 1]), steps[|steps| - 1]);
    }
  }

  /** `st` occurs in some run. */
  ghost predicate Reachable(st: State) {
    exists steps :: Execute(Init(), steps) == st
  }

  lemma ReachableInv(st: State)
    requires Reachable(st)
    ensures Inv(st)
  {
    var steps :| Execute(Init(), steps) == st;
    RunInv(steps);
  }
}
