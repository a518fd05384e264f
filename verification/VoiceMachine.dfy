/** Every interleaving of reservations, handoffs and cancellations of voice notes.

    A call of `cancel`, `cancel_all` or `cancel_scope` protects the claim in whose context
    it runs, waits for the lock, selects and removes entries, and then waits until their
    handoff callbacks are drained. */
module VoiceMachine {
  import opened Options
  import opened VoiceRegistry

  type CallId = nat

  /** A cancelling call. `context` is the claim whose callback makes it, if any;
      `draining` the claims whose callbacks it waits for once it has selected. */
  datatype Call = Call(context: Option<Claim>, start: nat, selectedAt: Option<nat>, draining: set<Claim>)

  /** The three multisets count, for each claim, how often `discard` returned true, a
      cancellation reported it, and a handoff completed it. */
  datatype State = State(
    r: Registry, calls: map<CallId, Call>, clock: nat,
    discarded: multiset<Claim>, cancelled: multiset<Claim>, completed: multiset<Claim>)

  datatype Step =
    | DoReserve(scope: Scope, id: string)
    | DoBind(claim: Claim, status: string)
    | DoHandoff(claim: Claim)
    | DoFinish(claim: Claim)       // the callback is over: `_complete_if_owned`
    | DoDiscard(claim: Claim)
    | BeginCall(call: CallId, context: Option<Claim>)
    | SelectOne(call: CallId, scope: Scope, id: string)
    | SelectMany(call: CallId, within: Option<Scope>)
    | EndCall(call: CallId)

  function Init(): State { State(Empty(), map[], 0, multiset{}, multiset{}, multiset{}) }

  /** The selected claims with a callback to drain. */
  function ToDrain(r: Registry, claims: set<Claim>): set<Claim> {
    set c | c in claims && c in r.entries && r.entries[c].handedOff
  }

  /** The locked block of a cancelling call. */
  function Select(st: State, id: CallId, r: Registry, chosen: set<Claim>): State
    requires id in st.calls
  {
    var call := st.calls[id].(selectedAt := Some(st.clock), draining := ToDrain(st.r, chosen));
    st.(r := r, calls := st.calls[id := call], clock := st.clock + 1, cancelled := st.cancelled + multiset(chosen))
  }

  predicate MaySelect(st: State, id: CallId) { id in st.calls && st.calls[id].selectedAt.None? }

  function DoSelectOne(st: State, id: CallId, scope: Scope, reply: string): State
    requires id in st.calls
  {
    var key, context := Key(scope, reply), st.calls[id].context;
    if key !in st.r.pending || st.r.pending[key] !in st.r.entries || Excluded(st.r, st.r.pending[key], context)
    then Select(st, id, st.r, {})
    else Select(st, id, Remove(st.r, st.r.pending[key]), {st.r.pending[key]})
  }

  function DoSelectMany(st: State, id: CallId, within: Option<Scope>): State
    requires id in st.calls
  {
    var chosen := Selected(st.r, within, st.calls[id].context);
    Select(st, id, RemoveAll(st.r, chosen), chosen)
  }

  function Act(st: State, step: Step): State {
    match step
    case DoReserve(scope, id) => st.(r := Reserve(st.r, scope, id).0)
    case DoBind(c, status) => st.(r := BindStatus(st.r, c, status).0)
    case DoHandoff(c) => st.(r := StartHandoff(st.r, c).0)
    case DoFinish(c) =>
      if Live(st.r, c) && st.r.entries[c].handedOff
      then st.(r := Discard(st.r, c).0, completed := st.completed + multiset{c}) else st
    case DoDiscard(c) =>
      if Live(st.r, c) then st.(r := Discard(st.r, c).0, discarded := st.discarded + multiset{c}) else st
    case BeginCall(id, context) =>
      if id in st.calls then st
      else st.(r := Protect(st.r, context), calls := st.calls[id := Call(context, st.clock, None, {})], clock := st.clock + 1)
    case SelectOne(id, scope, reply) => if MaySelect(st, id) then DoSelectOne(st, id, scope, reply) else st
    case SelectMany(id, within) => if MaySelect(st, id) then DoSelectMany(st, id, within) else st
    case EndCall(id) =>
      if id in st.calls then st.(r := Unprotect(st.r, st.calls[id].context), calls := st.calls - {id}) else st
  }

  function Execute(st: State, steps: seq<Step>): State {
    if steps == [] then st else Act(Execute(st, steps[..|steps| - 1]), steps[|steps| - 1])
  }

  // ---- The invariant ----

  function CallsOf(calls: map<CallId, Call>, c: Claim): set<CallId> {
    set k | k in calls && calls[k].context == Some(c)
  }

  /** The protection count of a claim is the number of cancelling calls in its context. */
  predicate Protected(st: State, c: Claim) {
    (if c in st.r.active then st.r.active[c] else 0) == |CallsOf(st.calls, c)|
  }

  predicate CallOk(st: State, k: CallId)
    requires k in st.calls
  {
    var x := st.calls[k];
    && x.start < st.clock
    && (x.selectedAt.Some? ==> x.start < x.selectedAt.value < st.clock)
    && (x.selectedAt.None? ==> x.draining == {})
  }

  /** A call in the context of a claim being drained began after that claim was selected. */
  predicate Later(st: State, k: CallId, l: CallId)
    requires k in st.calls && l in st.calls
  {
    var x, y := st.calls[k], st.calls[l];
    x.selectedAt.Some? && y.context.Some? && y.context.value in x.draining ==> x.selectedAt.value < y.start
  }

  /** A claim is released at most once, and not while it is live. */
  predicate OnceOnly(st: State, c: Claim) {
    var n := st.discarded[c] + st.cancelled[c] + st.completed[c];
    n <= 1 && (Live(st.r, c) || c !in st.r.entries ==> n == 0)
  }

  ghost predicate Inv(st: State) {
    && RegistryOk(st.r)
    && (forall c :: Protected(st, c))
    && (forall k | k in st.calls :: CallOk(st, k))
    && (forall k, l | k in st.calls && l in st.calls :: Later(st, k, l))
    && (forall c :: OnceOnly(st, c))
  }

  /** A claim nobody is protecting has no cancelling call in its context. */
  lemma UnprotectedHasNoCalls(st: State, c: Claim, k: CallId)
    requires Protected(st, c) && k in st.calls && st.calls[k].context == Some(c)
    ensures c in st.r.active && st.r.active[c] > 0
  {
    assert k in CallsOf(st.calls, c);
  }

  /** Steps that leave the calls and their counts alone. */
  lemma QuietInv(st: State, after: State)
    requires Inv(st) && RegistryOk(after.r) && after.r.active == st.r.active
    requires after.calls == st.calls && after.clock == st.clock
    requires forall c :: OnceOnly(after, c)
    ensures Inv(after)
  {
    forall c ensures Protected(after, c) { assert Protected(st, c); }
    forall k | k in after.calls ensures CallOk(after, k) { assert CallOk(st, k); }
    forall k, l | k in after.calls && l in after.calls ensures Later(after, k, l) { assert Later(st, k, l); }
  }

  lemma ReserveInv(st: State, scope: Scope, id: string)
    requires Inv(st)
    ensures Inv(Act(st, DoReserve(scope, id)))
  {
    var after := Act(st, DoReserve(scope, id));
    ReserveOk(st.r, scope, id);
    forall c ensures OnceOnly(after, c) { assert OnceOnly(st, c); }
    QuietInv(st, after);
  }

  lemma BindInv(st: State, claim: Claim, status: string)
    requires Inv(st)
    ensures Inv(Act(st, DoBind(claim, status)))
  {
    var after := Act(st, DoBind(claim, status));
    BindOk(st.r, claim, status);
    forall c ensures OnceOnly(after, c) { assert OnceOnly(st, c); BindLive(st.r, claim, status, c); }
    QuietInv(st, after);
  }

  lemma BindLive(r: Registry, claim: Claim, status: string, c: Claim)
    requires RegistryOk(r)
    ensures Live(BindStatus(r, claim, status).0, c) == Live(r, c)
    ensures BindStatus(r, claim, status).0.entries.Keys == r.entries.Keys
    ensures BindStatus(r, claim, status).0.active == r.active
  {
  }

  lemma HandoffInv(st: State, claim: Claim)
    requires Inv(st)
    ensures Inv(Act(st, DoHandoff(claim)))
  {
    var after := Act(st, DoHandoff(claim));
    HandoffOk(st.r, claim);
    forall c ensures OnceOnly(after, c) { assert OnceOnly(st, c); }
    QuietInv(st, after);
  }

  lemma ReleaseInv(st: State, step: Step)
    requires Inv(st) && (step.DoFinish? || step.DoDiscard?)
    ensures Inv(Act(st, step))
  {
    var after := Act(st, step);
    if Live(st.r, step.claim) {
      RemoveIsExact(st.r, step.claim);
      RemoveAllOk(st.r, {step.claim});
    }
    forall c ensures OnceOnly(after, c) { assert OnceOnly(st, c); }
    QuietInv(st, after);
  }

  lemma CallsAdd(calls: map<CallId, Call>, id: CallId, call: Call, c: Claim)
    requires id !in calls
    ensures |CallsOf(calls[id := call], c)| == |CallsOf(calls, c)| + if call.context == Some(c) then 1 else 0
  {
    assert CallsOf(calls[id := call], c) == CallsOf(calls, c) + if call.context == Some(c) then {id} else {};
  }

  lemma CallsDrop(calls: map<CallId, Call>, id: CallId, c: Claim)
    requires id in calls
    ensures |CallsOf(calls - {id}, c)| == |CallsOf(calls, c)| - if calls[id].context == Some(c) then 1 else 0
  {
    assert CallsOf(calls - {id}, c) == CallsOf(calls, c) - if calls[id].context == Some(c) then {id} else {};
  }

  lemma BeginInv(st: State, id: CallId, context: Option<Claim>)
    requires Inv(st) && id !in st.calls
    ensures Inv(Act(st, BeginCall(id, context)))
  {
    var after := Act(st, BeginCall(id, context));
    forall c
      ensures Protected(after, c) && OnceOnly(after, c)
    {
      assert Protected(st, c) && OnceOnly(st, c);
      CallsAdd(st.calls, id, after.calls[id], c);
    }
    forall k | k in after.calls ensures CallOk(after, k) { assert k != id ==> CallOk(st, k); }
    forall k, l | k in after.calls && l in after.calls
      ensures Later(after, k, l)
    {
      if k != id && l != id { assert Later(st, k, l); }
      if k != id { assert CallOk(st, k); }
    }
  }

  lemma EndInv(st: State, id: CallId)
    requires Inv(st) && id in st.calls
    ensures Inv(Act(st, EndCall(id)))
  {
    var after := Act(st, EndCall(id));
    forall c
      ensures Protected(after, c) && OnceOnly(after, c)
    {
      assert Protected(st, c) && OnceOnly(st, c);
      CallsDrop(st.calls, id, c);
      if st.calls[id].context == Some(c) { assert id in CallsOf(st.calls, c); }
    }
    forall k | k in after.calls ensures CallOk(after, k) { assert CallOk(st, k); }
    forall k, l | k in after.calls && l in after.calls ensures Later(after, k, l) { assert Later(st, k, l); }
  }

  /** A selection of live claims that nobody protects. */
  lemma SelectInv(st: State, id: CallId, chosen: set<Claim>)
    requires Inv(st) && MaySelect(st, id)
    requires forall c | c in chosen :: Live(st.r, c) && !Excluded(st.r, c, st.calls[id].context)
    ensures Inv(Select(st, id, RemoveAll(st.r, chosen), chosen))
  {
    var after := Select(st, id, RemoveAll(st.r, chosen), chosen);
    RemoveAllOk(st.r, chosen);
    forall c
      ensures Protected(after, c) && OnceOnly(after, c)
    {
      assert Protected(st, c) && OnceOnly(st, c);
      assert CallsOf(after.calls, c) == CallsOf(st.calls, c);
    }
    forall k | k in after.calls ensures CallOk(after, k) { assert CallOk(st, k); }
    forall k, l | k in after.calls && l in after.calls
      ensures Later(after, k, l)
    {
      assert Later(st, k, l) && CallOk(st, k) && CallOk(st, l);
      if k == id && st.calls[l].context.Some? && st.calls[l].context.value in chosen {
        UnprotectedHasNoCalls(st, st.calls[l].context.value, l);
      }
    }
  }

  lemma SelectOneInv(st: State, id: CallId, scope: Scope, reply: string)
    requires Inv(st) && MaySelect(st, id)
    ensures Inv(DoSelectOne(st, id, scope, reply))
  {
    var key, context := Key(scope, reply), st.calls[id].context;
    assert RemoveAll(st.r, {}).pending == st.r.pending;
    SelectInv(st, id, {});
    if key in st.r.pending && !Excluded(st.r, st.r.pending[key], context) {
      RemoveIsExact(st.r, st.r.pending[key]);
      SelectInv(st, id, {st.r.pending[key]});
    }
  }

  lemma SelectManyInv(st: State, id: CallId, within: Option<Scope>)
    requires Inv(st) && MaySelect(st, id)
    ensures Inv(DoSelectMany(st, id, within))
  {
    var chosen := Selected(st.r, within, st.calls[id].context);
    forall c | c in chosen
      ensures Live(st.r, c) && !Excluded(st.r, c, st.calls[id].context)
    {
      SelectedOnce(st.r, within, st.calls[id].context, c);
    }
    SelectInv(st, id, chosen);
  }

  lemma StepInv(st: State, step: Step)
    requires Inv(st)
    ensures Inv(Act(st, step))
  {
    match step
    case DoReserve(scope, id) => ReserveInv(st, scope, id);
    case DoBind(c, status) => BindInv(st, c, status);
    case DoHandoff(c) => HandoffInv(st, c);
    case DoFinish(_) => ReleaseInv(st, step);
    case DoDiscard(_) => ReleaseInv(st, step);
    case BeginCall(id, context) => if id !in st.calls { BeginInv(st, id, context); }
    case SelectOne(id, scope, reply) => if MaySelect(st, id) { SelectOneInv(st, id, scope, reply); }
    case SelectMany(id, within) => if MaySelect(st, id) { SelectManyInv(st, id, within); }
    case EndCall(id) => if id in st.calls { EndInv(st, id); }
  }

  lemma {:induction false} RunInv(steps: seq<Step>)
    ensures Inv(Execute(Init(), steps))
  {
    if steps == [] {
      forall c ensures Protected(Init(), c) { assert CallsOf(Init().calls, c) == {}; }
    } else {
      RunInv(steps[..|steps| - 1]);
      StepInv(Execute(Init(), steps[..|steps| - 1]), steps[|steps| - 1]);
    }
  }
}
