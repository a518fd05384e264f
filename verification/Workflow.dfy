/** Stop and clear fencing: generation tokens around an abstract tree queue. */
module Workflow {
  datatype Scope = Scope(platform: string, chatId: string)

  datatype Token = Token(stop: nat, clear: nat)

  type MessageId = nat

  datatype Message = Message(scope: Scope, token: Token)

  /** Who holds the state lock, between the awaits of its block. */
  datatype Holder = Free | Admitting(m: MessageId) | Stopping | Reading(s: Scope) | Clearing(s: Scope)

  datatype Event = Received(m: MessageId) | StopBegun | StopDone | ClearBegun(s: Scope) | ClearDone(s: Scope)

  /** `tree` maps every admitted message still in the tree to whether it is live.
      `stopped` and `cleared` are the generations of the last completed stop and clears. */
  datatype State = State(
    stopGeneration: nat, clearGenerations: map<Scope, nat>, holder: Holder,
    messages: map<MessageId, Message>, tree: map<MessageId, bool>,
    stopped: nat, cleared: map<Scope, nat>, log: seq<Event>)

  datatype Step =
    | Receive(m: MessageId, scope: Scope)
    | BeginAdmit(m: MessageId)
    | EndAdmit(accepted: bool)
    | BeginStop
    | EndStop(ok: bool, cancelled: set<MessageId>)
    | BeginClear(scope: Scope)
    | FailReading
    | CommitClear
    | EndClear(ok: bool, removed: set<MessageId>)
    | NodeEnds(m: MessageId)
    | CancelNode(m: MessageId)
    | RemoveSubtree(removed: set<MessageId>)

  function Init(): State {
    State(0, map[], Free, map[], map[], 0, map[], [])
  }

  function Generation(generations: map<Scope, nat>, s: Scope): nat {
    if s in generations then generations[s] else 0
  }

  function Current(st: State, s: Scope): Token {
    Token(st.stopGeneration, Generation(st.clearGenerations, s))
  }

  function CancelIn(tree: map<MessageId, bool>, cancelled: set<MessageId>): map<MessageId, bool> {
    map m | m in tree :: tree[m] && m !in cancelled
  }

  function CancelAll(tree: map<MessageId, bool>): map<MessageId, bool> {
    map m | m in tree :: false
  }

  function ClearScope(messages: map<MessageId, Message>, tree: map<MessageId, bool>, s: Scope): map<MessageId, bool> {
    map m | m in tree && !(m in messages && messages[m].scope == s) :: tree[m]
  }

  predicate Enabled(st: State, step: Step) {
    match step
    case Receive(m, _) => st.holder.Free? && m !in st.messages
    case BeginAdmit(m) => st.holder.Free? && m in st.messages
    case EndAdmit(_) => st.holder.Admitting?
    case BeginStop => st.holder.Free?
    case EndStop(_, _) => st.holder.Stopping?
    case BeginClear(_) => st.holder.Free?
    case FailReading => st.holder.Reading?
    case CommitClear => st.holder.Reading?
    case EndClear(_, _) => st.holder.Clearing?
    case NodeEnds(m) => m in st.tree
    case CancelNode(m) => st.holder.Free? && m in st.tree
    case RemoveSubtree(_) => st.holder.Free?
  }

  /** `_stop_all_tasks`, once `cancel_all` has returned or raised; what it cancelled before
      raising is arbitrary. */
  function DoEndStop(st: State, ok: bool, cancelled: set<MessageId>): State {
    if ok then st.(holder := Free, tree := CancelAll(st.tree), stopped := st.stopGeneration, log := st.log + [StopDone])
    else st.(holder := Free, tree := CancelIn(st.tree, cancelled))
  }

  /** `_clear_chat`, once `clear_scope` has returned or raised. */
  function DoEndClear(st: State, ok: bool, removed: set<MessageId>): State
    requires st.holder.Clearing?
  {
    var s := st.holder.s;
    if ok then
      st.(holder := Free, tree := ClearScope(st.messages, st.tree, s), cleared := st.cleared[s := Generation(st.clearGenerations, s)],
          log := st.log + [ClearDone(s)])
    else st.(holder := Free, tree := st.tree - removed)
  }

  function Act(st: State, step: Step): State
    requires Enabled(st, step)
  {
    match step
    case Receive(m, scope) =>
      st.(messages := st.messages[m := Message(scope, Current(st, scope))], log := st.log + [Received(m)])
    case BeginAdmit(m) =>
      if st.messages[m].token == Current(st, st.messages[m].scope) then st.(holder := Admitting(m)) else st
    case EndAdmit(accepted) =>
      if accepted then st.(holder := Free, tree := st.tree[st.holder.m := true]) else st.(holder := Free)
    case BeginStop => st.(holder := Stopping, stopGeneration := st.stopGeneration + 1, log := st.log + [StopBegun])
    case EndStop(ok, cancelled) => DoEndStop(st, ok, cancelled)
    case BeginClear(scope) => st.(holder := Reading(scope))
    case FailReading => st.(holder := Free)
    case CommitClear =>
      var s := st.holder.s;
      st.(holder := Clearing(s), clearGenerations := st.clearGenerations[s := Generation(st.clearGenerations, s) + 1],
          log := st.log + [ClearBegun(s)])
    case EndClear(ok, removed) => DoEndClear(st, ok, removed)
    case NodeEnds(m) => st.(tree := st.tree[m := false])
    case CancelNode(m) => st.(tree := st.tree[m := false])
    case RemoveSubtree(removed) => st.(tree := st.tree - removed)
  }

  function Next(st: State, step: Step): State {
    if Enabled(st, step) then Act(st, step) else st
  }

  function Execute(st: State, steps: seq<Step>): State {
    if steps == [] then st else Next(Execute(st, steps[..|steps| - 1]), steps[|steps| - 1])
  }

  predicate Live(st: State, m: MessageId) {
    m in st.tree && st.tree[m]
  }

  // The invariant.

  /** A message still in the tree was received after the last completed clear of its scope,
      and a live one also after the last completed stop. */
  ghost predicate NodeOk(st: State, m: MessageId) {
    && m in st.messages
    && st.messages[m].token.clear >= Generation(st.cleared, st.messages[m].scope)
    && (Live(st, m) ==> st.messages[m].token.stop >= st.stopped)
  }

  ghost predicate TreeOk(st: State) {
    forall m <- st.tree :: NodeOk(st, m)
  }

  ghost predicate MessageOk(st: State, m: MessageId)
    requires m in st.messages
  {
    var message := st.messages[m];
    && message.token.stop <= st.stopGeneration
    && message.token.clear <= Generation(st.clearGenerations, message.scope)
    && (st.holder.Admitting? && st.holder.m == m ==> message.token == Current(st, message.scope))
    && (st.holder.Stopping? ==> message.token.stop < st.stopGeneration)
    && (st.holder == Clearing(message.scope) ==> message.token.clear < Generation(st.clearGenerations, message.scope))
  }

  ghost predicate GenerationsOk(st: State) {
    && st.stopped <= st.stopGeneration
    && (forall s :: Generation(st.cleared, s) <= Generation(st.clearGenerations, s))
    && (st.holder.Admitting? ==> st.holder.m in st.messages)
  }

  ghost predicate Inv(st: State) {
    GenerationsOk(st) && TreeOk(st) && forall m <- st.messages :: MessageOk(st, m)
  }

  lemma InitInv()
    ensures Inv(Init())
  {
  }

  lemma EndStopTree(st: State, ok: bool, cancelled: set<MessageId>)
    requires Inv(st) && st.holder.Stopping?
    ensures TreeOk(DoEndStop(st, ok, cancelled))
  {
  }

  lemma EndClearTree(st: State, ok: bool, removed: set<MessageId>)
    requires Inv(st) && st.holder.Clearing?
    ensures TreeOk(DoEndClear(st, ok, removed))
  {
  }

  lemma TreeStep(st: State, step: Step)
    requires Inv(st) && Enabled(st, step)
    ensures TreeOk(Act(st, step))
  {
    match step
    case EndAdmit(accepted) => assert MessageOk(st, st.holder.m);
    case EndStop(ok, cancelled) => EndStopTree(st, ok, cancelled);
    case EndClear(ok, removed) => EndClearTree(st, ok, removed);
    case _ =>
  }

  lemma CommitClearMessage(st: State, m: MessageId)
    requires Inv(st) && st.holder.Reading? && m in st.messages
    ensures MessageOk(Act(st, CommitClear), m)
  {
    assert MessageOk(st, m);
  }

  lemma ReceivedMessage(st: State, arrived: MessageId, scope: Scope, m: MessageId)
    requires Inv(st) && Enabled(st, Receive(arrived, scope)) && (m == arrived || m in st.messages)
    ensures MessageOk(Act(st, Receive(arrived, scope)), m)
  {
    if m in st.messages { assert MessageOk(st, m); }
  }

  lemma MessageStep(st: State, step: Step, m: MessageId)
    requires Inv(st) && Enabled(st, step) && m in st.messages && !step.Receive? && !step.CommitClear?
    ensures MessageOk(Act(st, step), m)
  {
    assert MessageOk(st, m);
    if step.EndClear? { assert Act(st, step) == DoEndClear(st, step.ok, step.removed); }
  }

  lemma AnyMessageStep(st: State, step: Step, m: MessageId)
    requires Inv(st) && Enabled(st, step) && m in Act(st, step).messages
    ensures MessageOk(Act(st, step), m)
  {
    match step
    case Receive(arrived, scope) => ReceivedMessage(st, arrived, scope, m);
    case CommitClear => CommitClearMessage(st, m);
    case _ => MessageStep(st, step, m);
  }

  lemma StepInv(st: State, step: Step)
    requires Inv(st)
    ensures Inv(Next(st, step))
  {
    if Enabled(st, step) {
      TreeStep(st, step);
      forall m | m in Act(st, step).messages ensures MessageOk(Act(st, step), m) {
        AnyMessageStep(st, step, m);
      }
    }
  }

  // The history.

  /** Event `e` came after message `m` was received. */
  function Since(log: seq<Event>, m: MessageId, e: Event): bool {
    if log == [] || log[|log| - 1] == Received(m) then false
    else log[|log| - 1] == e || Since(log[..|log| - 1], m, e)
  }

  ghost predicate HistoryOk(st: State, m: MessageId)
    requires m in st.messages
  {
    var message := st.messages[m];
    && (Since(st.log, m, StopBegun) <==> message.token.stop < st.stopGeneration)
    && (Since(st.log, m, ClearBegun(message.scope)) <==> message.token.clear < Generation(st.clearGenerations, message.scope))
    && (Since(st.log, m, StopDone) ==> message.token.stop < st.stopped)
    && (Since(st.log, m, ClearDone(message.scope)) ==> message.token.clear < Generation(st.cleared, message.scope))
  }

  lemma SinceGrows(log: seq<Event>, m: MessageId, e: Event, last: Event)
    ensures Since(log + [last], m, e) == (last != Received(m) && (last == e || Since(log, m, e)))
  {
    assert (log + [last])[..|log|] == log;
  }

  lemma LogGrows(log: seq<Event>, m: MessageId, s: Scope, last: Event)
    ensures Since(log + [last], m, StopBegun) == (last != Received(m) && (last == StopBegun || Since(log, m, StopBegun)))
    ensures Since(log + [last], m, ClearBegun(s)) == (last != Received(m) && (last == ClearBegun(s) || Since(log, m, ClearBegun(s))))
    ensures Since(log + [last], m, StopDone) == (last != Received(m) && (last == StopDone || Since(log, m, StopDone)))
    ensures Since(log + [last], m, ClearDone(s)) == (last != Received(m) && (last == ClearDone(s) || Since(log, m, ClearDone(s))))
  {
    SinceGrows(log, m, StopBegun, last);
    SinceGrows(log, m, ClearBegun(s), last);
    SinceGrows(log, m, StopDone, last);
    SinceGrows(log, m, ClearDone(s), last);
  }

  lemma ReceiveHistory(st: State, arrived: MessageId, scope: Scope, m: MessageId)
    requires Inv(st) && arrived !in st.messages && (m in st.messages ==> HistoryOk(st, m)) && (m == arrived || m in st.messages)
    ensures var message := Message(scope, Current(st, scope));
      HistoryOk(st.(messages := st.messages[arrived := message], log := st.log + [Received(arrived)]), m)
  {
    LogGrows(st.log, m, if m == arrived then scope else st.messages[m].scope, Received(arrived));
  }

  lemma StopHistory(st: State, step: Step, m: MessageId)
    requires Inv(st) && Enabled(st, step) && m in st.messages && HistoryOk(st, m)
    requires step == BeginStop || (step.EndStop? && step.ok)
    ensures HistoryOk(Act(st, step), m)
  {
    assert MessageOk(st, m);
    LogGrows(st.log, m, st.messages[m].scope, if step == BeginStop then StopBegun else StopDone);
  }

  lemma ClearHistory(st: State, step: Step, m: MessageId)
    requires Inv(st) && Enabled(st, step) && m in st.messages && HistoryOk(st, m)
    requires step == CommitClear || (step.EndClear? && step.ok)
    ensures HistoryOk(Act(st, step), m)
  {
    assert MessageOk(st, m);
    LogGrows(st.log, m, st.messages[m].scope, if step == CommitClear then ClearBegun(st.holder.s) else ClearDone(st.holder.s));
  }

  lemma QuietHistory(st: State, step: Step, m: MessageId)
    requires Enabled(st, step) && m in st.messages && HistoryOk(st, m)
    requires !step.Receive? && step != BeginStop && step != CommitClear && !(step.EndStop? && step.ok) && !(step.EndClear? && step.ok)
    ensures HistoryOk(Act(st, step), m)
  {
  }

  lemma HistoryStep(st: State, step: Step, m: MessageId)
    requires Inv(st) && Enabled(st, step) && m in Act(st, step).messages
    requires m in st.messages ==> HistoryOk(st, m)
    ensures HistoryOk(Act(st, step), m)
  {
    if step.Receive? {
      ReceiveHistory(st, step.m, step.scope, m);
    } else if step == BeginStop || (step.EndStop? && step.ok) {
      StopHistory(st, step, m);
    } else if step == CommitClear || (step.EndClear? && step.ok) {
      ClearHistory(st, step, m);
    } else {
      QuietHistory(st, step, m);
    }
  }

  /** The invariant, together with what the history says of every message. */
  ghost predicate Sound(st: State) {
    Inv(st) && forall m <- st.messages :: HistoryOk(st, m)
  }

  lemma StepSound(st: State, step: Step)
    requires Sound(st)
    ensures Sound(Next(st, step))
  {
    StepInv(st, step);
    if Enabled(st, step) {
      forall m | m in Act(st, step).messages ensures HistoryOk(Act(st, step), m) {
        HistoryStep(st, step, m);
      }
    }
  }

  /** In every state of every run, tokens, tree and history agree. */
  lemma {:induction false} RunSound(steps: seq<Step>)
    ensures Sound(Execute(Init(), steps))
  {
    if steps != [] {
      RunSound(steps[..|steps| - 1]);
      StepSound(Execute(Init(), steps[..|steps| - 1]), steps[|steps| - 1]);
    }
  }

  /** No message received before a completed stop is live after it. */
  lemma StopSilencesAll(steps: seq<Step>, m: MessageId)
    requires var st := Execute(Init(), steps); m in st.messages && Since(st.log, m, StopDone)
    ensures !Live(Execute(Init(), steps), m)
  {
    RunSound(steps);
    assert HistoryOk(Execute(Init(), steps), m);
    assert m in Execute(Init(), steps).tree ==> NodeOk(Execute(Init(), steps), m);
  }

  /** No message received before a completed clear of its scope is in the tree after it. */
  lemma ClearForgetsAll(steps: seq<Step>, m: MessageId)
    requires var st := Execute(Init(), steps); m in st.messages && Since(st.log, m, ClearDone(st.messages[m].scope))
    ensures m !in Execute(Init(), steps).tree
  {
    RunSound(steps);
    assert HistoryOk(Execute(Init(), steps), m);
    assert m in Execute(Init(), steps).tree ==> NodeOk(Execute(Init(), steps), m);
  }

  /** A turn is refused exactly when a stop, or a clear of its scope, began after it was
      received; clears of other scopes do not matter. */
  lemma RefusedIff(steps: seq<Step>, m: MessageId)
    requires var st := Execute(Init(), steps); st.holder.Free? && m in st.messages
    ensures var st := Execute(Init(), steps);
      Next(st, BeginAdmit(m)).holder == Admitting(m)
      <==> !Since(st.log, m, StopBegun) && !Since(st.log, m, ClearBegun(st.messages[m].scope))
  {
    RunSound(steps);
    assert HistoryOk(Execute(Init(), steps), m);
    assert MessageOk(Execute(Init(), steps), m);
  }

  /** A node carries the current clear generation of its scope exactly when no clear of the
      scope began since it was received, and a live one the current stop generation exactly
      when no stop did; a stop or clear that completed leaves no others. */
  lemma NodesAreCurrent(steps: seq<Step>, m: MessageId)
    requires m in Execute(Init(), steps).tree
    ensures m in Execute(Init(), steps).messages
    ensures var st := Execute(Init(), steps); var s := st.messages[m].scope;
      && (st.messages[m].token.clear == Generation(st.clearGenerations, s) <==> !Since(st.log, m, ClearBegun(s)))
      && (Generation(st.cleared, s) == Generation(st.clearGenerations, s) ==> !Since(st.log, m, ClearBegun(s)))
    ensures var st := Execute(Init(), steps);
      && (st.messages[m].token.stop == st.stopGeneration <==> !Since(st.log, m, StopBegun))
      && (st.stopped == st.stopGeneration && Live(st, m) ==> !Since(st.log, m, StopBegun))
  {
    RunSound(steps);
    assert NodeOk(Execute(Init(), steps), m);
    assert MessageOk(Execute(Init(), steps), m) && HistoryOk(Execute(Init(), steps), m);
  }

  // What a node lives through.

  /** The step admits message `m`. */
  predicate Admits(st: State, step: Step, m: MessageId) {
    step == EndAdmit(true) && st.holder == Admitting(m)
  }

  /** The step ends the node of `m`, if it has one: a stop, whole or interrupted, a clear of its
      own scope or one interrupted after removing it, its own end, or its removal. */
  predicate Ends(st: State, step: Step, m: MessageId) {
    match step
    case EndStop(ok, cancelled) => st.holder.Stopping? && (ok || m in cancelled)
    case EndClear(ok, removed) =>
      st.holder.Clearing? && if ok then m in st.messages && st.messages[m].scope == st.holder.s else m in removed
    case NodeEnds(n) => n == m
    case CancelNode(n) => n == m && st.holder.Free?
    case RemoveSubtree(removed) => st.holder.Free? && m in removed
    case _ => false
  }

  lemma LiveStep(st: State, step: Step, m: MessageId)
    ensures Live(Next(st, step), m) <==> Admits(st, step, m) || (Live(st, m) && !Ends(st, step, m))
  {
    if step.EndClear? && Enabled(st, step) { assert Next(st, step) == DoEndClear(st, step.ok, step.removed); }
  }

  /** In this run `m` has been admitted and nothing has ended its node since. */
  ghost predicate AdmittedSince(steps: seq<Step>, m: MessageId) {
    steps != [] &&
    var before, last := Execute(Init(), steps[..|steps| - 1]), steps[|steps| - 1];
    Admits(before, last, m) || (!Ends(before, last, m) && AdmittedSince(steps[..|steps| - 1], m))
  }

  /** Over any run a message is live exactly if it was admitted and none of these has ended its
      node since. A completed clear of another scope, and a clear that cannot read, end nothing. */
  lemma {:induction false} LiveSinceAdmission(steps: seq<Step>, m: MessageId)
    ensures Live(Execute(Init(), steps), m) <==> AdmittedSince(steps, m)
  {
    if steps != [] {
      LiveSinceAdmission(steps[..|steps| - 1], m);
      LiveStep(Execute(Init(), steps[..|steps| - 1]), steps[|steps| - 1], m);
    }
  }

  lemma ExecuteMore(st: State, steps: seq<Step>, step: Step)
    ensures Execute(st, steps + [step]) == Next(Execute(st, steps), step)
  {
    assert (steps + [step])[..|steps|] == steps;
  }

  /** After a clear whose tree part raised, an older node can remain. */
  lemma FailedClearLeavesOldNode(s: Scope) returns (steps: seq<Step>)
    ensures var st := Execute(Init(), steps);
      Live(st, 1) && st.holder.Free? && 1 in st.messages && st.messages[1].scope == s
      && st.messages[1].token.clear != Generation(st.clearGenerations, s)
  {
    var admit := [Receive(1, s), BeginAdmit(1), EndAdmit(true)];
    ExecuteMore(Init(), [], admit[0]);
    ExecuteMore(Init(), [admit[0]], admit[1]);
    ExecuteMore(Init(), [admit[0], admit[1]], admit[2]);
    assert [admit[0], admit[1]] + [admit[2]] == admit;
    assert Execute(Init(), admit).tree == map[1 := true];
    steps := admit + [BeginClear(s)] + [CommitClear] + [EndClear(false, {})];
    ExecuteMore(Init(), admit, BeginClear(s));
    ExecuteMore(Init(), admit + [BeginClear(s)], CommitClear);
    ExecuteMore(Init(), admit + [BeginClear(s)] + [CommitClear], EndClear(false, {}));
  }
}
