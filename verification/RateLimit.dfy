/** The strict sliding-window limiter and its promise over the whole history. */
module RateLimit {
  datatype Pass = Admitted | Refused | WaitFor(delay: real)

  predicate Ordered(times: seq<real>) {
    forall i, j | 0 <= i < j < |times| :: times[i] <= times[j]
  }

  /** The admissions of `times` later than `cutoff`. */
  function After(times: seq<real>, cutoff: real): seq<real> {
    if times == [] then []
    else if times[0] <= cutoff then After(times[1..], cutoff)
    else times
  }

  /** The promise: admission number i + limit comes at least a window after number i. */
  ghost predicate Strict(history: seq<real>, limit: nat, window: real) {
    forall i, j | 0 <= i && i + limit == j < |history| :: history[j] - history[i] >= window
  }

  class StrictSlidingWindowLimiter {
    const rateLimit: nat
    const rateWindow: real
    var times: seq<real>
    /** Every admission ever recorded, the last cutoff applied and the clock at the last look. */
    ghost var history: seq<real>
    ghost var cutoff: real
    ghost var lastLook: real

    constructor (rateLimit: nat, rateWindow: real, ghost start: real)
      requires rateLimit > 0 && rateWindow > 0.0
      ensures this.rateLimit == rateLimit && this.rateWindow == rateWindow
      ensures Valid() && history == [] && lastLook == start
    {
      this.rateLimit, this.rateWindow := rateLimit, rateWindow;
      times, history, lastLook, cutoff := [], [], start, start - rateWindow;
    }

    /** The deque is exactly the part of the history that is still inside the window. */
    ghost predicate Valid()
      reads this
    {
      && rateLimit > 0 && rateWindow > 0.0
      && Ordered(history)
      && (history != [] ==> history[|history| - 1] <= lastLook)
      && Strict(history, rateLimit, rateWindow)
      && cutoff <= lastLook - rateWindow
      && times == After(history, cutoff)
      && |times| <= rateLimit
    }

    /** Forget the admissions that have left the window. */
    method DropExpired(now: real, ghost look: real)
      requires Valid() && lastLook <= now <= look
      modifies this`times, this`cutoff, this`lastLook
      ensures Valid() && cutoff == now - rateWindow && lastLook == look
    {
      var limit := now - rateWindow;
      AfterAfter(history, cutoff, limit);
      while times != [] && times[0] <= limit
        invariant After(times, limit) == After(history, limit)
        invariant |times| <= rateLimit
      {
        times := times[1..];
      }
      cutoff, lastLook := limit, look;
    }

    method Record(stamp: real)
      requires Valid() && |times| < rateLimit && lastLook == stamp
      modifies this`times, this`history
      ensures Valid() && history == old(history) + [stamp]
    {
      AdmissionKept(history, cutoff, rateLimit, rateWindow, stamp);
      times := times + [stamp];
      history := history + [stamp];
    }

    /** How long until the oldest admission of a full window has left it. */
    method WaitTime(now: real) returns (delay: real)
      requires Valid() && |times| == rateLimit && cutoff == now - rateWindow
      ensures 0.0 < delay <= rateWindow + lastLook - now
      ensures |After(history, now + delay - rateWindow)| < rateLimit
      ensures delay == times[0] + rateWindow - now
    {
      WaitIsEnough(history, now, rateWindow, rateLimit, times[0] + rateWindow - now);
      delay := if times[0] + rateWindow - now > 0.0 then times[0] + rateWindow - now else 0.0;
    }

    /** One iteration of the acquisition loop: the locked block. The clock reads `now` at
        its start and `stamp` when the admission is recorded; `allowed` is the caller's
        condition at that moment. */
    method TryAcquire(now: real, stamp: real, allowed: bool) returns (pass: Pass)
      requires Valid() && lastLook <= now <= stamp
      modifies this
      ensures Valid() && lastLook == stamp && cutoff == now - rateWindow
      ensures pass.Admitted? <==> |After(old(history), now - rateWindow)| < rateLimit && allowed
      ensures pass.Refused? <==> |After(old(history), now - rateWindow)| < rateLimit && !allowed
      ensures pass.Admitted? ==> history == old(history) + [stamp]
      ensures !pass.Admitted? ==> history == old(history)
      ensures pass.WaitFor? ==> 0.0 < pass.delay <= rateWindow + lastLook - now
      ensures pass.WaitFor? ==> |After(history, now + pass.delay - rateWindow)| < rateLimit
      ensures pass.WaitFor? ==> times != [] && pass.delay == times[0] + rateWindow - now
    {
      DropExpired(now, stamp);
      if |times| < rateLimit {
        if !allowed { return Refused; }
        Record(stamp);
        return Admitted;
      }
      var delay := WaitTime(now);
      pass := WaitFor(delay);
    }

    /** Another pass once the computed wait, and perhaps more, is over: it always admits. */
    method TryAgain(looked: real, delay: real, slack: real) returns (pass: Pass, at: real)
      requires Valid() && lastLook == looked && delay > 0.0 && slack >= 0.0
      requires |After(history, looked + delay - rateWindow)| < rateLimit
      modifies this
      ensures Valid() && pass.Admitted? && at == lastLook > looked && history == old(history) + [at]
    {
      at := looked + delay + slack;
      AfterMonotone(history, looked + delay - rateWindow, at - rateWindow);
      pass := TryAcquire(at, at, true);
    }

    /** With nobody else at the limiter and no condition, one sleep is always enough.
        `slack` is how much later than asked the sleep returns. */
    method Acquire(now: real, slack: real) returns (sleeps: nat, at: real)
      requires Valid() && lastLook <= now && slack >= 0.0
      modifies this
      ensures Valid() && sleeps <= 1
      ensures history == old(history) + [at] && now <= at
      ensures sleeps == 0 <==> |After(old(history), now - rateWindow)| < rateLimit
    {
      sleeps, at := 0, now;
      var pass := TryAcquire(at, at, true);
      ghost var room := pass.Admitted?;
      while !pass.Admitted?
        invariant Valid() && now <= at == lastLook && (room ==> pass.Admitted?)
        invariant sleeps == (if room || pass.WaitFor? then 0 else 1)
        invariant pass.Admitted? ==> history == old(history) + [at]
        invariant !pass.Admitted? ==> pass.WaitFor? && history == old(history) && pass.delay > 0.0
                                      && |After(history, at + pass.delay - rateWindow)| < rateLimit
        decreases 1 - sleeps
      {
        pass, at := TryAgain(at, pass.delay, slack);
        sleeps := sleeps + 1;
      }
    }
  }

  lemma {:induction false} AfterIsSuffix(history: seq<real>, cutoff: real)
    ensures var kept := After(history, cutoff); var k := |history| - |kept|;
      && 0 <= k && kept == history[k..]
      && (forall i | 0 <= i < k :: history[i] <= cutoff)
      && (kept != [] ==> kept[0] > cutoff)
  {
    if history != [] && history[0] <= cutoff {
      AfterIsSuffix(history[1..], cutoff);
      var k := |history| - |After(history, cutoff)|;
      assert history[1..][k - 1..] == history[k..];
      assert forall i | 1 <= i < k :: history[i] == history[1..][i - 1];
    }
  }

  lemma {:induction false} AfterAfter(history: seq<real>, early: real, late: real)
    requires early <= late
    ensures After(After(history, early), late) == After(history, late)
  {
    if history != [] && history[0] <= early {
      AfterAfter(history[1..], early, late);
    }
  }

  lemma {:induction false} AfterAppend(history: seq<real>, stamp: real, cutoff: real)
    requires stamp > cutoff
    ensures After(history + [stamp], cutoff) == After(history, cutoff) + [stamp]
  {
    if history != [] && history[0] <= cutoff {
      AfterAppend(history[1..], stamp, cutoff);
      assert (history + [stamp])[1..] == history[1..] + [stamp];
    }
  }

  /** The oldest admission of the window is still inside it, and once it has left there
      is one admission fewer. */
  lemma OldestLeaves(history: seq<real>, cutoff: real)
    requires Ordered(history) && After(history, cutoff) != []
    ensures var kept := After(history, cutoff);
      kept[0] > cutoff && kept[0] <= history[|history| - 1] && |After(history, kept[0])| < |kept|
  {
    AfterIsSuffix(history, cutoff);
    var kept := After(history, cutoff);
    AfterBound(history, |history| - |kept| + 1, kept[0]);
  }

  /** A full window: the computed wait is positive, and when it is over there is room. */
  lemma WaitIsEnough(history: seq<real>, now: real, window: real, limit: nat, delay: real)
    requires Ordered(history) && |After(history, now - window)| == limit > 0
    requires delay == After(history, now - window)[0] + window - now
    ensures 0.0 < delay <= history[|history| - 1] + window - now && |After(history, now + delay - window)| < limit
  {
    OldestLeaves(history, now - window);
    assert now + delay - window == After(history, now - window)[0];
  }

  /** And no shorter wait would do: until then the window stays as it is. */
  lemma WaitIsLeast(history: seq<real>, now: real, window: real, delay: real)
    requires After(history, now - window) != []
    requires 0.0 <= delay < After(history, now - window)[0] + window - now
    ensures After(history, now + delay - window) == After(history, now - window)
  {
    AfterAfter(history, now - window, now + delay - window);
  }

  lemma {:induction false} AfterBound(history: seq<real>, k: nat, cutoff: real)
    requires k <= |history| && forall i | 0 <= i < k :: history[i] <= cutoff
    ensures |After(history, cutoff)| <= |history| - k
  {
    if history != [] && history[0] <= cutoff && k > 0 {
      AfterBound(history[1..], k - 1, cutoff);
    } else if k == 0 && history != [] && history[0] <= cutoff {
      AfterBound(history[1..], 0, cutoff);
    }
  }

  lemma {:induction false} AfterMonotone(history: seq<real>, early: real, late: real)
    requires early <= late
    ensures |After(history, late)| <= |After(history, early)|
  {
    if history != [] && history[0] <= early {
      AfterMonotone(history[1..], early, late);
    } else {
      AfterBound(history, 0, late);
    }
  }

  lemma StrictExtended(history: seq<real>, expired: nat, limit: nat, window: real, stamp: real)
    requires Strict(history, limit, window) && expired <= |history| < expired + limit
    requires forall i | 0 <= i < expired :: history[i] <= stamp - window
    ensures Strict(history + [stamp], limit, window)
  {
    var grown := history + [stamp];
    forall i, j | 0 <= i && i + limit == j < |grown| ensures grown[j] - grown[i] >= window {
      if j < |history| { assert history[j] - history[i] >= window; }
    }
  }

  /** Recording an admission when fewer than `limit` are in the window keeps the promise. */
  lemma AdmissionKept(history: seq<real>, cutoff: real, limit: nat, window: real, stamp: real)
    requires Strict(history, limit, window) && Ordered(history) && window > 0.0
    requires history != [] ==> history[|history| - 1] <= stamp
    requires cutoff + window <= stamp && |After(history, cutoff)| < limit
    ensures Strict(history + [stamp], limit, window) && Ordered(history + [stamp])
    ensures After(history + [stamp], cutoff) == After(history, cutoff) + [stamp]
  {
    AfterAppend(history, stamp, cutoff);
    assert Strict(history + [stamp], limit, window) by {
      AfterIsSuffix(history, cutoff);
      StrictExtended(history, |history| - |After(history, cutoff)|, limit, window, stamp);
    }
    OrderedExtended(history, stamp);
  }

  lemma OrderedExtended(history: seq<real>, stamp: real)
    requires Ordered(history) && (history != [] ==> history[|history| - 1] <= stamp)
    ensures Ordered(history + [stamp])
  {
  }

  /** How many admissions fall in the half-open window that starts at `from`. */
  function InWindow(history: seq<real>, from: real, window: real): nat {
    if history == [] then 0
    else InWindow(history[..|history| - 1], from, window)
         + if from <= history[|history| - 1] < from + window then 1 else 0
  }

  /** The documented guarantee: any half-open window holds at most `limit` admissions. */
  lemma {:induction false} WindowBound(history: seq<real>, limit: nat, window: real, from: real)
    requires limit > 0 && window > 0.0 && Ordered(history) && Strict(history, limit, window)
    ensures InWindow(history, from, window) <= limit
  {
    if history != [] {
      var front, last := history[..|history| - 1], history[|history| - 1];
      WindowBound(front, limit, window, from);
      if from <= last < from + window {
        if |history| > limit {
          var k := |history| - 1 - limit;
          assert history[|history| - 1] - history[k] >= window;
          NoneBefore(front, k + 1, window, from);
        } else {
          CountAll(front, from, window);
        }
      }
    }
  }

  lemma {:induction false} CountAll(history: seq<real>, from: real, window: real)
    ensures InWindow(history, from, window) <= |history|
  {
    if history != [] {
      CountAll(history[..|history| - 1], from, window);
    }
  }

  /** The first `k` admissions came before the window. */
  lemma {:induction false} NoneBefore(history: seq<real>, k: nat, window: real, from: real)
    requires k <= |history| && forall i | 0 <= i < k :: history[i] < from
    ensures InWindow(history, from, window) <= |history| - k
  {
    if history != [] {
      var front := history[..|history| - 1];
      if k == |history| {
        NoneBefore(front, k - 1, window, from);
      } else {
        NoneBefore(front, k, window, from);
      }
    }
  }
}
