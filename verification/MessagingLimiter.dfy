/** The locked blocks of `MessagingRateLimiter` on its mutable list, table and futures. */
module MessagingLimiter {
  import opened Options
  import opened DeliveryQueue
  import opened DeliveryMachine

  datatype Admission = Accepted | ClosedError | NotStartedError

  /** What the worker does after one piece of work: loop, sleep a second first, or end. */
  datatype AfterWork = Loops | Recovers | Ends

  class MessagingRateLimiter {
    var queueList: seq<string>
    var queueMap: map<string, Work>
    var activeFutures: seq<nat>
    var futures: map<nat, Future>
    var closed: bool
    var running: bool
    var pausedUntil: real
    /** The ordered map that the list and the table stand for. */
    ghost var contents: Entries

    constructor ()
      ensures Valid() && contents == [] && futures == map[] && !closed && !running && activeFutures == []
      ensures pausedUntil == 0.0
    {
      queueList, queueMap, activeFutures, futures, closed, running, pausedUntil, contents := [], map[], [], map[], false, false, 0.0, [];
    }

    function View(): Queue
      reads this
    {
      Queue(queueList, queueMap)
    }

    ghost predicate Valid()
      reads this
    {
      QueueOk(View()) && Represents(View(), contents)
    }

    method Start() returns (ok: bool)
      requires Valid()
      modifies this`running
      ensures ok == !closed && running == (old(running) || ok)
    {
      if closed { return false; }
      running := true;
      ok := true;
    }

    /** A key already queued keeps its place; the queue is `Put` on the ordered map. */
    method EnqueueInternalMulti(func: nat, waiters: seq<nat>, key: string, front: bool) returns (admission: Admission)
      requires Valid()
      modifies this`queueList, this`queueMap, this`contents
      ensures Valid()
      ensures admission == if closed then ClosedError else if !running then NotStartedError else Accepted
      ensures contents == if admission.Accepted? then Put(old(contents), func, waiters, key, front) else old(contents)
      ensures View() == if admission.Accepted? then DeliveryQueue.Enqueue(old(View()), func, waiters, key, front) else old(View())
    {
      if closed { return ClosedError; }
      if !running { return NotStartedError; }
      EnqueueRefines(View(), contents, func, waiters, key, front);
      contents := Put(contents, func, waiters, key, front);
      if key in queueMap {
        queueMap := queueMap[key := Merge(queueMap[key], func, waiters)];
      } else {
        queueMap := queueMap[key := Work(func, waiters)];
        queueList := if front then [key] + queueList else queueList + [key];
      }
      admission := Accepted;
    }

    /** `enqueue` from the new future on: one refused at the lock is cancelled before the
        error is raised. */
    method Enqueue(func: nat, f: nat, key: string) returns (admission: Admission)
      requires Valid() && f !in futures
      modifies this`queueList, this`queueMap, this`contents, this`futures
      ensures Valid() && admission == if closed then ClosedError else if !running then NotStartedError else Accepted
      ensures futures == old(futures)[f := if admission.Accepted? then Pending else Cancelled]
      ensures contents == if admission.Accepted? then Put(old(contents), func, [f], key, false) else old(contents)
    {
      futures := futures[f := Pending];
      admission := EnqueueInternalMulti(func, [f], key, false);
      if !admission.Accepted? { futures := futures[f := Cancelled]; }
    }

    /** The worker takes the first entry of the ordered map. */
    method TakeWork() returns (key: string, work: Work)
      requires Valid() && queueList != []
      modifies this`queueList, this`queueMap, this`contents, this`activeFutures
      ensures Valid() && View() == Rest(old(View()))
      ensures old(contents) == [(key, work)] + contents && activeFutures == work.waiters
    {
      RestRefines(View(), contents);
      key := queueList[0];
      work := queueMap[key];
      queueList, queueMap := queueList[1..], queueMap - {key};
      activeFutures := work.waiters;
      contents := contents[1..];
    }

    method SettleWaiters(waiters: seq<nat>, outcome: Future)
      requires !outcome.Pending?
      modifies this`futures
      ensures futures == Settle(old(futures), waiters, outcome)
    {
      for i := 0 to |waiters|
        invariant futures == Settle(old(futures), waiters[..i], outcome)
      {
        assert waiters[..i + 1] == waiters[..i] + [waiters[i]];
        if waiters[i] in futures && futures[waiters[i]].Pending? {
          futures := futures[waiters[i] := outcome];
        }
      }
      assert waiters[..|waiters|] == waiters;
    }

    /** How long the worker still has to wait out a flood pause before its next work. */
    method PauseLeft(now: real) returns (wait: real)
      ensures 0.0 <= wait && (now < pausedUntil ==> now + wait == pausedUntil) && (now >= pausedUntil ==> wait == 0.0)
    {
      wait := if pausedUntil > now then pausedUntil - now else 0.0;
    }

    /** What the worker does with the waiters once the function has returned or raised.
        `flood` is the pause an error asked for, and `now` when it is set. */
    method FinishWork(work: Work, outcome: Outcome, flood: Option<real>, now: real) returns (next: AfterWork)
      requires Valid() && activeFutures == work.waiters
      modifies this`futures, this`activeFutures, this`pausedUntil
      ensures activeFutures == [] && futures == Settle(old(futures), work.waiters, Told(outcome, work.func))
      ensures next.Ends? <==> outcome.CancelledInside? && (closed || outcome.cancelling)
      ensures next.Recovers? <==> outcome.Raised? && outcome.unreadablePause
      ensures pausedUntil == if outcome == Raised(false) && flood.Some? then now + flood.value else old(pausedUntil)
    {
      next := Loops;
      match outcome {
        case Succeeded => SettleWaiters(work.waiters, Result(work.func));
        case Raised(unreadablePause) =>
          SettleWaiters(work.waiters, Failed(work.func));
          if unreadablePause {
            next := Recovers;
          } else if flood.Some? {
            pausedUntil := now + flood.value;
          }
        case CancelledInside(cancelling) =>
          SettleWaiters(work.waiters, Cancelled);
          if closed || cancelling { next := Ends; }
      }
      activeFutures := [];
    }

    /** What one piece of work leaves of the machine's worker. */
    static function WorkerAfter(next: AfterWork): Worker {
      match next case Loops => AtTop case Recovers => Recovering case Ends => Ended
    }

    method CancelTable()
      modifies this`futures
      ensures futures == CancelOwned(old(futures), queueMap, [])
    {
      var keys := queueMap.Keys;
      while keys != {}
        invariant keys <= queueMap.Keys
        invariant futures == CancelOwned(old(futures), queueMap - keys, [])
        decreases keys
      {
        var key :| key in keys;
        CancelMore(old(futures), queueMap - keys, queueMap - (keys - {key}), key);
        keys := keys - {key};
        SettleWaiters(queueMap[key].waiters, Cancelled);
      }
      assert queueMap - keys == queueMap;
    }

    /** The locked section of `shutdown`. */
    method CancelQueued()
      requires Valid()
      modifies this
      ensures Valid() && contents == [] && closed && running == old(running) && activeFutures == old(activeFutures)
      ensures pausedUntil == old(pausedUntil)
      ensures futures == CancelOwned(old(futures), old(queueMap), old(activeFutures))
    {
      closed := true;
      CancelTable();
      SettleWaiters(activeFutures, Cancelled);
      queueList, queueMap, contents := [], map[], [];
    }
  }

  lemma WaitingMore(before: map<string, Work>, after: map<string, Work>, key: string, f: nat)
    requires key in after && before == after - {key}
    ensures Waiting(after, [], f) <==> Waiting(before, [], f) || f in after[key].waiters
  {
    if k :| k in before && f in before[k].waiters {
      assert k in after && after[k] == before[k];
    }
    if Waiting(after, [], f) && f !in after[key].waiters {
      var k :| k in after && f in after[k].waiters;
      assert k in before && before[k] == after[k];
    }
  }

  lemma CancelMore(futures: map<nat, Future>, before: map<string, Work>, after: map<string, Work>, key: string)
    requires key in after && before == after - {key}
    ensures Settle(CancelOwned(futures, before, []), after[key].waiters, Cancelled) == CancelOwned(futures, after, [])
  {
    forall f ensures Waiting(after, [], f) <==> Waiting(before, [], f) || f in after[key].waiters {
      WaitingMore(before, after, key, f);
    }
  }

  /** The method's outcome is the state machine's: same futures, same next state of the worker. */
  lemma FinishIsTheStep(st: State, outcome: Outcome, next: AfterWork)
    requires st.worker.Holding?
    requires next.Ends? <==> outcome.CancelledInside? && (st.closed || outcome.cancelling)
    requires next.Recovers? <==> outcome.Raised? && outcome.unreadablePause
    ensures DoFinish(st, outcome).worker == MessagingRateLimiter.WorkerAfter(next)
    ensures DoFinish(st, outcome).futures == Settle(st.futures, st.worker.work.waiters, Told(outcome, st.worker.work.func))
    ensures DoFinish(st, outcome).active == []
  {
  }
}
