/** Stream holdback and the decisions that follow an upstream failure. */
module StreamRecovery {
  import opened Options

  type CodePoint = c: int | 0 <= c < 0x110000

  type Event = seq<CodePoint>

  datatype Limits = Limits(seconds: real, maxBytes: nat)

  const DEFAULT_LIMITS := Limits(0.75, 65536)

  datatype Holdback = Holdback(events: seq<Event>, bytes: nat, startedAt: Option<real>, committed: bool)

  datatype Action = EarlyRetry | MidstreamRecovery | FinalError

  datatype Decision = Decision(action: Action, retryable: bool, committed: bool, hasBuffered: bool)

  /** What the provider knows when its upstream fails. */
  datatype FailureContext = FailureContext(retryable: bool, streamOpened: bool, generatedOutput: bool,
                                           salvageable: bool, attemptsRemaining: int)

  /** Bytes of one code point in UTF-8; a lone surrogate is replaced by a question mark. */
  function CodePointBytes(c: CodePoint): nat {
    if c < 0x80 then 1
    else if c < 0x800 then 2
    else if 0xD800 <= c <= 0xDFFF then 1
    else if c < 0x10000 then 3
    else 4
  }

  /** How many code points fit in the payload bits of a UTF-8 sequence of this many bytes:
      seven bits in one byte, and five more than five for each byte after that. */
  function Utf8Capacity(bytes: nat): nat {
    if bytes == 0 then 0 else if bytes == 1 then 0x80 else if bytes == 2 then 0x800 else 32 * Utf8Capacity(bytes - 1)
  }

  /** A code point that can be encoded takes the shortest sequence that holds it; one that
      cannot takes the single byte of its replacement. */
  lemma ShortestEncoding(c: CodePoint)
    ensures CodePointBytes(c) >= 1
    ensures 0xD800 <= c <= 0xDFFF ==> CodePointBytes(c) == 1
    ensures !(0xD800 <= c <= 0xDFFF) ==> Utf8Capacity(CodePointBytes(c) - 1) <= c < Utf8Capacity(CodePointBytes(c))
  {
    assert Utf8Capacity(3) == 0x10000 && Utf8Capacity(4) == 0x200000;
  }

  function EventBytes(event: Event): nat {
    if event == [] then 0 else EventBytes(event[..|event| - 1]) + CodePointBytes(event[|event| - 1])
  }

  function TotalBytes(events: seq<Event>): nat {
    if events == [] then 0 else TotalBytes(events[..|events| - 1]) + EventBytes(events[|events| - 1])
  }

  function Empty(): Holdback {
    Holdback([], 0, None, false)
  }

  function Flush(h: Holdback): (Holdback, seq<Event>) {
    if h.committed then (h, []) else (Holdback([], 0, None, true), h.events)
  }

  /** The clock reads `now` when the event arrives and `later` when its age is checked. */
  function Push(h: Holdback, event: Event, now: real, later: real, limits: Limits): (Holdback, seq<Event>) {
    if h.committed then (h, [event])
    else
      var started := if h.startedAt.Some? then h.startedAt.value else now;
      var held := Holdback(h.events + [event], h.bytes + EventBytes(event), Some(started), false);
      if held.bytes >= limits.maxBytes || later - started >= limits.seconds then Flush(held) else (held, [])
  }

  function Discard(h: Holdback): Holdback {
    h.(events := [], bytes := 0, startedAt := None)
  }

  predicate RetriesEarly(h: Holdback, failure: FailureContext) {
    && failure.retryable && failure.attemptsRemaining > 0 && failure.streamOpened
    && !h.committed && !failure.salvageable
    && !(failure.generatedOutput && failure.attemptsRemaining == 1)
  }

  function Decide(h: Holdback, failure: FailureContext): Decision {
    var hasBuffered := h.events != [];
    if RetriesEarly(h, failure) then Decision(EarlyRetry, true, false, hasBuffered)
    else if failure.retryable && failure.generatedOutput && (failure.attemptsRemaining > 0 || failure.salvageable)
    then Decision(MidstreamRecovery, true, h.committed, hasBuffered)
    else Decision(FinalError, failure.retryable, h.committed, hasBuffered)
  }

  // Runs.

  datatype Op =
    | Pushed(event: Event, now: real, later: real)
    | Flushed
    | Discarded
    | AttemptFailed(failure: FailureContext)
    | FlushedFor(decision: Decision)

  function Step(h: Holdback, op: Op, limits: Limits): (Holdback, seq<Event>) {
    match op
    case Pushed(event, now, later) => Push(h, event, now, later, limits)
    case Flushed => Flush(h)
    case Discarded => (Discard(h), [])
    case AttemptFailed(failure) => (if RetriesEarly(h, failure) then Empty() else h, [])
    case FlushedFor(decision) => if !decision.committed && decision.hasBuffered then Flush(h) else (h, [])
  }

  function Final(ops: seq<Op>, limits: Limits): Holdback {
    if ops == [] then Empty() else Step(Final(ops[..|ops| - 1], limits), ops[|ops| - 1], limits).0
  }

  /** Everything the client has received. */
  function Emitted(ops: seq<Op>, limits: Limits): seq<Event> {
    if ops == [] then []
    else Emitted(ops[..|ops| - 1], limits) + Step(Final(ops[..|ops| - 1], limits), ops[|ops| - 1], limits).1
  }

  /** An operation that gives up what was pushed so far: an early retry, or a discard
      before anything was committed. */
  predicate GivesUp(h: Holdback, op: Op) {
    !h.committed && (op.Discarded? || (op.AttemptFailed? && RetriesEarly(h, op.failure)))
  }

  /** The events pushed since the run last gave up. */
  function Current(ops: seq<Op>, limits: Limits): seq<Event> {
    if ops == [] then []
    else
      var front, op := ops[..|ops| - 1], ops[|ops| - 1];
      if GivesUp(Final(front, limits), op) then []
      else if op.Pushed? then Current(front, limits) + [op.event]
      else Current(front, limits)
  }

  ghost predicate HoldbackOk(h: Holdback, limits: Limits) {
    && h.bytes == TotalBytes(h.events)
    && (h.startedAt.Some? <==> h.events != [])
    && (h.committed ==> h.events == [])
    && (h.events != [] ==> h.bytes < limits.maxBytes)
  }

  lemma StepOk(h: Holdback, op: Op, limits: Limits)
    requires HoldbackOk(h, limits)
    ensures HoldbackOk(Step(h, op, limits).0, limits)
  {
    if op.Pushed? {
      assert (h.events + [op.event])[..|h.events|] == h.events;
    }
  }

  /** An uncommitted buffer holds less than the cap, counted exactly. */
  lemma {:induction false} RunOk(ops: seq<Op>, limits: Limits)
    ensures HoldbackOk(Final(ops, limits), limits)
  {
    if ops != [] {
      RunOk(ops[..|ops| - 1], limits);
      StepOk(Final(ops[..|ops| - 1], limits), ops[|ops| - 1], limits);
    }
  }

  /** What was emitted, followed by what is still held, is exactly what was pushed since the
      run last gave up, in order; and while nothing is committed nothing was emitted. */
  lemma {:induction false} HoldbackExact(ops: seq<Op>, limits: Limits)
    ensures Emitted(ops, limits) + Final(ops, limits).events == Current(ops, limits)
    ensures !Final(ops, limits).committed ==> Emitted(ops, limits) == []
  {
    if ops != [] {
      var front, op := ops[..|ops| - 1], ops[|ops| - 1];
      var h, sent := Final(front, limits), Emitted(front, limits);
      var (after, out) := Step(h, op, limits);
      HoldbackExact(front, limits);
      RunOk(front, limits);
      ExactStep(h, op, limits);
      assert Final(ops, limits) == after && Emitted(ops, limits) == sent + out;
      if GivesUp(h, op) {
        assert Current(ops, limits) == [] && sent == [] && out + after.events == [];
      } else {
        var pushed := if op.Pushed? then [op.event] else [];
        assert Current(ops, limits) == Current(front, limits) + pushed;
        Reassociate(sent, out, after.events, h.events, pushed);
      }
    }
  }

  lemma Reassociate<T>(a: seq<T>, b: seq<T>, c: seq<T>, d: seq<T>, e: seq<T>)
    requires b + c == d + e
    ensures (a + b) + c == (a + d) + e
  {
    assert (a + b) + c == a + (b + c);
  }

  lemma ExactStep(h: Holdback, op: Op, limits: Limits)
    requires HoldbackOk(h, limits)
    ensures var (after, out) := Step(h, op, limits);
      && (GivesUp(h, op) ==> out == [] && after.events == [] && !after.committed)
      && (!GivesUp(h, op) ==> out + after.events == h.events + (if op.Pushed? then [op.event] else []))
      && (!after.committed ==> out == [] && !h.committed)
  {
  }

  /** So nothing from an attempt that was given up is ever emitted, before or after. */
  lemma GivingUpIsInvisible(ops: seq<Op>, op: Op, limits: Limits)
    requires GivesUp(Final(ops, limits), op)
    ensures Emitted(ops, limits) == [] && Emitted(ops + [op], limits) == [] && Current(ops + [op], limits) == []
  {
    HoldbackExact(ops, limits);
    assert (ops + [op])[..|ops|] == ops;
  }

  /** Once anything has been emitted, no failure is ever answered by an early retry again. */
  lemma NoRetryAfterEmission(ops: seq<Op>, limits: Limits, later: seq<Op>, failure: FailureContext)
    requires Emitted(ops, limits) != []
    ensures Decide(Final(ops + later, limits), failure).action != EarlyRetry
    ensures Emitted(ops, limits) <= Emitted(ops + later, limits)
  {
    EmissionGrows(ops, limits, later);
    HoldbackExact(ops + later, limits);
  }

  lemma {:induction false} EmissionGrows(ops: seq<Op>, limits: Limits, later: seq<Op>)
    ensures Emitted(ops, limits) <= Emitted(ops + later, limits)
  {
    if later == [] {
      assert ops + later == ops;
    } else {
      var front := later[..|later| - 1];
      EmissionGrows(ops, limits, front);
      assert (ops + later)[..|ops + later| - 1] == ops + front;
    }
  }

  /** Answering a failure with anything but an early retry and flushing for that decision
      delivers everything of the current attempt: no event is left behind or lost. */
  lemma FailureDeliversAll(ops: seq<Op>, limits: Limits, failure: FailureContext)
    requires Decide(Final(ops, limits), failure).action != EarlyRetry
    ensures var all := ops + [AttemptFailed(failure), FlushedFor(Decide(Final(ops, limits), failure))];
      Emitted(all, limits) == Current(ops, limits) && Final(all, limits).events == []
  {
    var failed := ops + [AttemptFailed(failure)];
    var decision := Decide(Final(ops, limits), failure);
    var all := ops + [AttemptFailed(failure), FlushedFor(decision)];
    assert failed[..|ops|] == ops;
    assert all[..|failed|] == failed;
    HoldbackExact(ops, limits);
    RunOk(ops, limits);
  }

  /** When the events pushed since the run last gave up arrived. */
  function Arrivals(ops: seq<Op>, limits: Limits): seq<real> {
    if ops == [] then []
    else
      var front, op := ops[..|ops| - 1], ops[|ops| - 1];
      if GivesUp(Final(front, limits), op) then []
      else if op.Pushed? then Arrivals(front, limits) + [op.now]
      else Arrivals(front, limits)
  }

  /** The holdback's clock started with the first of them, as long as anything is held. */
  predicate StartedWith(h: Holdback, arrivals: seq<real>) {
    && |h.events| <= |arrivals|
    && (!h.committed ==> |arrivals| == |h.events|)
    && (h.events != [] ==> h.startedAt == Some(arrivals[0]))
  }

  lemma StartedStep(h: Holdback, op: Op, limits: Limits, arrivals: seq<real>)
    requires HoldbackOk(h, limits) && StartedWith(h, arrivals)
    ensures StartedWith(Step(h, op, limits).0, if GivesUp(h, op) then [] else if op.Pushed? then arrivals + [op.now] else arrivals)
  {
  }

  lemma {:induction false} RunStarted(ops: seq<Op>, limits: Limits)
    ensures StartedWith(Final(ops, limits), Arrivals(ops, limits))
  {
    if ops != [] {
      var front := ops[..|ops| - 1];
      RunStarted(front, limits);
      RunOk(front, limits);
      StartedStep(Final(front, limits), ops[|ops| - 1], limits, Arrivals(front, limits));
    }
  }

  /** After a push, if anything is held, the first event pushed since the last give-up arrived
      less than the holdback ago. */
  lemma HeldBriefly(ops: seq<Op>, limits: Limits, event: Event, now: real, later: real)
    requires Final(ops + [Pushed(event, now, later)], limits).events != []
    ensures var arrivals := Arrivals(ops + [Pushed(event, now, later)], limits);
      arrivals != [] && later - arrivals[0] < limits.seconds
  {
    assert (ops + [Pushed(event, now, later)])[..|ops|] == ops;
    RunStarted(ops + [Pushed(event, now, later)], limits);
    RunOk(ops + [Pushed(event, now, later)], limits);
  }

  /** And nothing is released early: a push emits exactly when something was committed before,
      the bytes pushed since the last give-up reach the cap, or the first of them has aged. */
  lemma PushReleasesExactly(ops: seq<Op>, limits: Limits, event: Event, now: real, later: real)
    ensures var pushed, arrivals := Current(ops, limits) + [event], Arrivals(ops, limits) + [now];
      Step(Final(ops, limits), Pushed(event, now, later), limits).1 != []
      <==> || Final(ops, limits).committed
           || TotalBytes(pushed) >= limits.maxBytes
           || later - arrivals[0] >= limits.seconds
  {
    var h := Final(ops, limits);
    HoldbackExact(ops, limits);
    RunStarted(ops, limits);
    RunOk(ops, limits);
    if !h.committed {
      assert Current(ops, limits) == h.events;
      assert (h.events + [event])[..|h.events|] == h.events;
    }
  }

  // The decision.

  /** What each answer means. A failure that is not retryable is final. A retryable one after
      generated output is recovered in mid-stream unless it can start over, as long as an
      attempt is left or a tool call can be salvaged. It starts over exactly when the stream
      was open, nothing is committed or salvageable, and an attempt is left; after generated
      output the last attempt is kept for the recovery. */
  lemma DecisionMeans(h: Holdback, failure: FailureContext)
    ensures var decision := Decide(h, failure);
      && (!failure.retryable ==> decision.action.FinalError?)
      && (!failure.generatedOutput ==> !decision.action.MidstreamRecovery?)
      && (failure.retryable && failure.generatedOutput && (failure.attemptsRemaining > 0 || failure.salvageable)
          ==> !decision.action.FinalError?)
      && (failure.attemptsRemaining <= 0 && !(failure.generatedOutput && failure.salvageable) ==> decision.action.FinalError?)
    ensures Decide(h, failure).action.EarlyRetry?
      <==> failure.retryable && failure.streamOpened && !h.committed && !failure.salvageable
           && failure.attemptsRemaining >= if failure.generatedOutput then 2 else 1
    ensures var decision := Decide(h, failure);
      decision.retryable == failure.retryable && decision.committed == h.committed && (decision.hasBuffered <==> h.events != [])
  {
  }

  /** More attempts never make an answer worse. */
  lemma MoreAttemptsHelp(h: Holdback, failure: FailureContext, more: int)
    requires failure.attemptsRemaining <= more
    ensures var richer := Decide(h, failure.(attemptsRemaining := more)).action;
      && (richer.FinalError? ==> Decide(h, failure).action.FinalError?)
      && (Decide(h, failure).action.EarlyRetry? ==> richer.EarlyRetry?)
  {
  }

  /** Over a run: once anything has been emitted, a retryable failure after generated output
      with an attempt left, or with a tool call to salvage, is recovered in mid-stream, and
      flushing for that decision delivers the whole current attempt first. */
  lemma EmittedOutputIsRecovered(ops: seq<Op>, limits: Limits, later: seq<Op>, failure: FailureContext)
    requires Emitted(ops, limits) != [] && failure.retryable && failure.generatedOutput
    requires failure.attemptsRemaining > 0 || failure.salvageable
    ensures var decision := Decide(Final(ops + later, limits), failure);
      && decision.action == MidstreamRecovery && decision.retryable && decision.committed
      && Emitted((ops + later) + [AttemptFailed(failure), FlushedFor(decision)], limits) == Current(ops + later, limits)
  {
    NoRetryAfterEmission(ops, limits, later, failure);
    HoldbackExact(ops + later, limits);
    DecisionMeans(Final(ops + later, limits), failure);
    FailureDeliversAll(ops + later, limits, failure);
  }

  /** And while nothing has been, one that is not salvageable starts over as long as the
      attempts allow it, and nothing the client saw changes. */
  lemma UnseenOutputIsRetried(ops: seq<Op>, limits: Limits, failure: FailureContext)
    requires !Final(ops, limits).committed && failure.retryable && failure.streamOpened && !failure.salvageable
    requires failure.attemptsRemaining > 1 || (failure.attemptsRemaining == 1 && !failure.generatedOutput)
    ensures Decide(Final(ops, limits), failure).action == EarlyRetry
    ensures Emitted(ops + [AttemptFailed(failure)], limits) == [] && Final(ops + [AttemptFailed(failure)], limits) == Empty()
  {
    DecisionMeans(Final(ops, limits), failure);
    HoldbackExact(ops, limits);
    assert (ops + [AttemptFailed(failure)])[..|ops|] == ops;
  }

  class RecoveryHoldbackBuffer {
    const limits: Limits
    var events: seq<Event>
    var bytes: nat
    var startedAt: Option<real>
    var committed: bool

    constructor (limits: Limits)
      ensures this.limits == limits && View() == Empty()
    {
      this.limits := limits;
      events, bytes, startedAt, committed := [], 0, None, false;
    }

    function View(): Holdback
      reads this
    {
      Holdback(events, bytes, startedAt, committed)
    }

    method Push(event: Event, now: real, later: real) returns (out: seq<Event>)
      modifies this
      ensures (View(), out) == Step(old(View()), Pushed(event, now, later), limits)
    {
      if committed { return [event]; }
      if startedAt.None? { startedAt := Some(now); }
      events := events + [event];
      bytes := bytes + EventBytes(event);
      if bytes >= limits.maxBytes || later - startedAt.value >= limits.seconds {
        out := Flush();
      } else {
        out := [];
      }
    }

    method Flush() returns (out: seq<Event>)
      modifies this
      ensures (View(), out) == Step(old(View()), Flushed, limits)
    {
      if committed { return []; }
      committed, out := true, events;
      events, bytes, startedAt := [], 0, None;
    }

    method Discard()
      modifies this
      ensures View() == Step(old(View()), Discarded, limits).0
    {
      events, bytes, startedAt := [], 0, None;
    }
  }

  class RecoveryController {
    var holdback: RecoveryHoldbackBuffer
    /** The operations performed on this controller and what they returned. */
    ghost var ops: seq<Op>
    ghost var emitted: seq<Event>

    constructor ()
      ensures Valid() && ops == [] && fresh(holdback)
    {
      holdback := new RecoveryHoldbackBuffer(DEFAULT_LIMITS);
      ops, emitted := [], [];
    }

    ghost predicate Valid()
      reads this, holdback
    {
      && holdback.limits == DEFAULT_LIMITS
      && holdback.View() == Final(ops, DEFAULT_LIMITS) && emitted == Emitted(ops, DEFAULT_LIMITS)
    }

    ghost method Record(op: Op, out: seq<Event>)
      requires holdback.limits == DEFAULT_LIMITS && emitted == Emitted(ops, DEFAULT_LIMITS)
      requires (holdback.View(), out) == Step(Final(ops, DEFAULT_LIMITS), op, DEFAULT_LIMITS)
      modifies this`ops, this`emitted
      ensures Valid() && ops == old(ops) + [op] && emitted == old(emitted) + out
    {
      assert (ops + [op])[..|ops|] == ops;
      ops, emitted := ops + [op], emitted + out;
    }

    method Push(event: Event, now: real, later: real) returns (out: seq<Event>)
      requires Valid()
      modifies this`ops, this`emitted, holdback
      ensures Valid() && ops == old(ops) + [Pushed(event, now, later)] && emitted == old(emitted) + out
      ensures holdback.events != []
          ==> TotalBytes(holdback.events) < 65536
              && Arrivals(ops, DEFAULT_LIMITS) != [] && later - Arrivals(ops, DEFAULT_LIMITS)[0] < 0.75
    {
      out := holdback.Push(event, now, later);
      Record(Pushed(event, now, later), out);
      RunOk(ops, DEFAULT_LIMITS);
      if holdback.events != [] { HeldBriefly(old(ops), DEFAULT_LIMITS, event, now, later); }
    }

    method Flush() returns (out: seq<Event>)
      requires Valid()
      modifies this`ops, this`emitted, holdback
      ensures Valid() && ops == old(ops) + [Flushed] && emitted == old(emitted) + out
    {
      out := holdback.Flush();
      Record(Flushed, out);
    }

    method Discard()
      requires Valid()
      modifies this`ops, this`emitted, holdback
      ensures Valid() && ops == old(ops) + [Discarded] && emitted == old(emitted)
    {
      holdback.Discard();
      Record(Discarded, []);
    }

    method FlushUncommitted(decision: Decision) returns (out: seq<Event>)
      requires Valid()
      modifies this`ops, this`emitted, holdback
      ensures Valid() && ops == old(ops) + [FlushedFor(decision)] && emitted == old(emitted) + out
    {
      out := [];
      if !decision.committed && decision.hasBuffered { out := holdback.Flush(); }
      Record(FlushedFor(decision), out);
    }

    /** An early retry starts over with a new buffer; every other decision keeps this one. */
    method AdvanceFailure(failure: FailureContext) returns (decision: Decision)
      requires Valid()
      modifies this, holdback
      ensures Valid() && ops == old(ops) + [AttemptFailed(failure)] && emitted == old(emitted)
      ensures decision == Decide(old(holdback.View()), failure)
      ensures if decision.action.EarlyRetry? then fresh(holdback) && emitted == [] else holdback == old(holdback)
    {
      var committed, hasBuffered := holdback.committed, holdback.events != [];
      var retryAvailable := failure.attemptsRemaining > 0;
      var reserveLast := failure.generatedOutput && failure.attemptsRemaining == 1;
      HoldbackExact(ops, DEFAULT_LIMITS);
      if failure.retryable && retryAvailable && failure.streamOpened && !committed && !failure.salvageable && !reserveLast {
        holdback.Discard();
        holdback := new RecoveryHoldbackBuffer(DEFAULT_LIMITS);
        Record(AttemptFailed(failure), []);
        return Decision(EarlyRetry, true, false, hasBuffered);
      }
      Record(AttemptFailed(failure), []);
      if failure.retryable && failure.generatedOutput && (retryAvailable || failure.salvageable) {
        return Decision(MidstreamRecovery, true, committed, hasBuffered);
      }
      return Decision(FinalError, failure.retryable, committed, hasBuffered);
    }
  }
}
