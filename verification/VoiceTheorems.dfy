/** What the voice registry guarantees in every run. */
module VoiceTheorems {
  import opened Options
  import opened VoiceRegistry
  import opened VoiceMachine

  /** The callback of `a` is inside a cancelling call that drains the callback of `b`. */
  ghost predicate WaitsFor(st: State, a: Claim, b: Claim) {
    exists k :: k in st.calls && Drains(st, k, a, b)
  }

  predicate Drains(st: State, k: CallId, a: Claim, b: Claim)
    requires k in st.calls
  {
    st.calls[k].context == Some(a) && b in st.calls[k].draining
  }

  ghost predicate WaitPath(st: State, path: seq<Claim>) {
    forall i | 0 <= i < |path| - 1 :: WaitsFor(st, path[i], path[i + 1])
  }

  /** Along a chain of waiting callbacks, each selected later than the one before. */
  lemma {:induction false} LaterAlongPath(st: State, path: seq<Claim>) returns (first: CallId, last: CallId)
    requires Inv(st) && WaitPath(st, path) && |path| >= 2
    ensures first in st.calls && last in st.calls
    ensures Drains(st, first, path[0], path[1]) && Drains(st, last, path[|path| - 2], path[|path| - 1])
    ensures st.calls[first].selectedAt.Some? && st.calls[last].selectedAt.Some?
    ensures st.calls[first].selectedAt.value <= st.calls[last].selectedAt.value
  {
    var n := |path|;
    assert WaitsFor(st, path[n - 2], path[n - 2 + 1]);
    last :| last in st.calls && Drains(st, last, path[n - 2], path[n - 1]);
    assert CallOk(st, last);
    if n == 2 {
      first := last;
    } else {
      var before;
      var front := path[..n - 1];
      forall i | 0 <= i < |front| - 1
        ensures WaitsFor(st, front[i], front[i + 1])
      {
        assert WaitsFor(st, path[i], path[i + 1]) && front[i] == path[i] && front[i + 1] == path[i + 1];
      }
      first, before := LaterAlongPath(st, front);
      assert CallOk(st, before) && Later(st, before, last);
    }
  }

  /** Callbacks that cancel each other never wait in a circle. */
  lemma NoWaitCycle(steps: seq<Step>, path: seq<Claim>)
    requires |path| >= 2 && WaitPath(Execute(Init(), steps), path)
    ensures path[0] != path[|path| - 1]
  {
    var st := Execute(Init(), steps);
    RunInv(steps);
    var first, last := LaterAlongPath(st, path);
    assert Later(st, last, first) && CallOk(st, first);
  }

  /** For each claim, at most one of discard, cancellation and completion ever happens, once,
      also when its voice id has been reserved again since; and none while it is live. */
  lemma OneWinner(steps: seq<Step>, c: Claim)
    ensures var st := Execute(Init(), steps);
      && st.discarded[c] + st.cancelled[c] + st.completed[c] <= 1
      && (Live(st.r, c) ==> st.discarded[c] + st.cancelled[c] + st.completed[c] == 0)
  {
    RunInv(steps);
    assert OnceOnly(Execute(Init(), steps), c);
  }

  /** A live claim owns its voice key, its status key once bound, and no other key; a claim
      that is not live owns none; and the two keys lie in its own scope. */
  lemma TwoKeyOwnership(steps: seq<Step>, c: Claim, k: Key)
    requires c in Execute(Init(), steps).r.entries
    ensures var r := Execute(Init(), steps).r;
      Owns(r, c, k) <==>
        && Live(r, c)
        && k.scope == c.scope
        && (k.id == c.voiceId || r.entries[c].status == Some(k.id))
  {
    RunInv(steps);
    var r := Execute(Init(), steps).r;
    if Live(r, c) && r.entries[c].status.Some? {
      assert Owns(r, c, Key(c.scope, r.entries[c].status.value));
    }
    assert Key(c.scope, c.voiceId) == VoiceKey(c);
  }

  // ---- What a cancelling call takes ----

  /** Some cancelling call is running in the context of `c`. */
  predicate Cancelling(st: State, c: Claim) { CallsOf(st.calls, c) != {} }

  lemma ProtectedIff(st: State, c: Claim, id: CallId)
    requires Inv(st) && id in st.calls
    ensures Excluded(st.r, c, st.calls[id].context) <==> Cancelling(st, c)
  {
    assert Protected(st, c);
    if st.calls[id].context == Some(c) { assert id in CallsOf(st.calls, c); }
    if Cancelling(st, c) { assert |CallsOf(st.calls, c)| > 0; }
  }

  /** What one selection does to a claim: it takes it or leaves it, reports it once if it takes
      it, and waits for its callback if that has begun. */
  predicate Takes(st: State, id: CallId, after: State, c: Claim, taken: bool)
    requires id in after.calls
  {
    && (Live(after.r, c) <==> Live(st.r, c) && !taken)
    && after.cancelled[c] == st.cancelled[c] + (if taken then 1 else 0)
    && (c in after.calls[id].draining <==> taken && c in st.r.entries && st.r.entries[c].handedOff)
  }

  /** A bulk cancellation takes exactly the live claims of its scope in whose callbacks no
      cancellation is running. */
  lemma BulkCancelTakes(steps: seq<Step>, id: CallId, within: Option<Scope>, c: Claim)
    requires MaySelect(Execute(Init(), steps), id)
    ensures var st := Execute(Init(), steps); var after := Act(st, SelectMany(id, within));
      id in after.calls
      && Takes(st, id, after, c, Live(st.r, c) && (within.None? || c.scope == within.value) && !Cancelling(st, c))
  {
    var st := Execute(Init(), steps);
    RunInv(steps);
    ProtectedIff(st, c, id);
    SelectedOnce(st.r, within, st.calls[id].context, c);
    RemoveAllOk(st.r, Selected(st.r, within, st.calls[id].context));
  }

  lemma ReplyTakes(st: State, id: CallId, owner: Claim, c: Claim)
    requires Inv(st) && MaySelect(st, id) && Live(st.r, owner)
    ensures id in Select(st, id, Remove(st.r, owner), {owner}).calls
    ensures Takes(st, id, Select(st, id, Remove(st.r, owner), {owner}), c, c == owner)
  {
    RemoveIsExact(st.r, owner);
    RemoveAllOk(st.r, {owner});
  }

  /** A reply takes the claim it leads to, by either key, unless a cancellation is running in
      that claim's callback. */
  lemma CancelTakes(steps: seq<Step>, id: CallId, scope: Scope, reply: string, c: Claim)
    requires MaySelect(Execute(Init(), steps), id)
    ensures var st := Execute(Init(), steps); var after := Act(st, SelectOne(id, scope, reply));
      id in after.calls && Takes(st, id, after, c, Owns(st.r, c, Key(scope, reply)) && !Cancelling(st, c))
  {
    RunInv(steps);
    CancelOneTakes(Execute(Init(), steps), id, scope, reply, c);
  }

  lemma CancelOneTakes(st: State, id: CallId, scope: Scope, reply: string, c: Claim)
    requires Inv(st) && MaySelect(st, id)
    ensures var after := DoSelectOne(st, id, scope, reply);
      id in after.calls && Takes(st, id, after, c, Owns(st.r, c, Key(scope, reply)) && !Cancelling(st, c))
  {
    var key := Key(scope, reply);
    NothingTaken(st, id, c);
    if key in st.r.pending {
      var owner := st.r.pending[key];
      assert Owns(st.r, owner, key);
      ProtectedIff(st, owner, id);
      ReplyTakes(st, id, owner, c);
    }
  }

  lemma NothingTaken(st: State, id: CallId, c: Claim)
    requires MaySelect(st, id)
    ensures id in Select(st, id, st.r, {}).calls && Takes(st, id, Select(st, id, st.r, {}), c, false)
  {
  }

  /** While a cancellation runs in the callback of a live claim, nobody else can take it: only
      its own completion or discard ends it. */
  lemma CancellingStaysLive(steps: seq<Step>, step: Step, c: Claim)
    requires Live(Execute(Init(), steps).r, c) && Cancelling(Execute(Init(), steps), c)
    requires step != DoFinish(c) && step != DoDiscard(c)
    ensures Live(Act(Execute(Init(), steps), step).r, c)
  {
    var st := Execute(Init(), steps);
    RunInv(steps);
    match step
    case DoBind(claim, status) => BindLive(st.r, claim, status, c);
    case DoFinish(claim) => if Live(st.r, claim) { OtherReleased(st.r, claim, c); }
    case DoDiscard(claim) => if Live(st.r, claim) { OtherReleased(st.r, claim, c); }
    case SelectOne(id, scope, reply) => if MaySelect(st, id) { CancelTakes(steps, id, scope, reply, c); }
    case SelectMany(id, within) => if MaySelect(st, id) { BulkCancelTakes(steps, id, within, c); }
    case _ =>
  }

  lemma OtherReleased(r: Registry, claim: Claim, c: Claim)
    requires RegistryOk(r) && Live(r, claim) && Live(r, c) && c != claim
    ensures Live(Discard(r, claim).0, c)
  {
    RemoveIsExact(r, claim);
    RemoveAllOk(r, {claim});
  }

  // ---- One handoff ----

  /** The step is a handoff of `c` that is accepted. */
  predicate HandsOff(st: State, step: Step, c: Claim) { step == DoHandoff(c) && StartHandoff(st.r, c).1 }

  ghost predicate HandedOffIn(steps: seq<Step>, c: Claim) {
    steps != [] && (HandedOffIn(steps[..|steps| - 1], c)
                    || HandsOff(Execute(Init(), steps[..|steps| - 1]), steps[|steps| - 1], c))
  }

  lemma HandedOffStep(st: State, step: Step, c: Claim)
    requires Inv(st)
    ensures var after := Act(st, step);
      && (c in st.r.entries ==> c in after.r.entries)
      && (c in after.r.entries && after.r.entries[c].handedOff
          <==> HandsOff(st, step, c) || (c in st.r.entries && st.r.entries[c].handedOff))
  {
    if step.DoReserve? { ReserveOk(st.r, step.scope, step.id); }
  }

  lemma {:induction false} HandedOffIff(steps: seq<Step>, c: Claim)
    ensures var r := Execute(Init(), steps).r;
      HandedOffIn(steps, c) <==> c in r.entries && r.entries[c].handedOff
  {
    if steps != [] {
      RunInv(steps[..|steps| - 1]);
      HandedOffIff(steps[..|steps| - 1], c);
      HandedOffStep(Execute(Init(), steps[..|steps| - 1]), steps[|steps| - 1], c);
    }
  }

  /** A claim is handed off at most once in a run: exactly while it is live, its status message
      is bound, and no handoff of it has been accepted before. */
  lemma HandoffOnce(steps: seq<Step>, c: Claim)
    ensures var st := Execute(Init(), steps);
      HandsOff(st, DoHandoff(c), c) <==> Live(st.r, c) && st.r.entries[c].status.Some? && !HandedOffIn(steps, c)
  {
    HandedOffIff(steps, c);
  }

  lemma CompletedStep(st: State, step: Step, c: Claim)
    requires Inv(st) && (st.completed[c] > 0 ==> c in st.r.entries && st.r.entries[c].handedOff)
    ensures var after := Act(st, step); after.completed[c] > 0 ==> c in after.r.entries && after.r.entries[c].handedOff
  {
    HandedOffStep(st, step, c);
  }

  /** A claim is completed only if a handoff of it was accepted before. */
  lemma {:induction false} CompletedWasHandedOff(steps: seq<Step>, c: Claim)
    ensures Execute(Init(), steps).completed[c] > 0 ==> HandedOffIn(steps, c)
  {
    HandedOffIff(steps, c);
    if steps != [] {
      RunInv(steps[..|steps| - 1]);
      HandedOffIff(steps[..|steps| - 1], c);
      CompletedWasHandedOff(steps[..|steps| - 1], c);
      CompletedStep(Execute(Init(), steps[..|steps| - 1]), steps[|steps| - 1], c);
    }
  }

  /** The registry's own cancellation of a reply is the machine's selection. */
  lemma CancelOneIsTheStep(st: State, id: CallId, scope: Scope, reply: string)
    requires Inv(st) && MaySelect(st, id)
    ensures var (r, chosen) := CancelOne(st.r, scope, reply, st.calls[id].context);
      Act(st, SelectOne(id, scope, reply)) == Select(st, id, r, if chosen.Some? then {chosen.value} else {})
  {
    var key := Key(scope, reply);
    assert key in st.r.pending ==> Owns(st.r, st.r.pending[key], key);
  }
}
