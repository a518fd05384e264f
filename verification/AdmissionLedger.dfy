/** The invariant of budgets, slots and history, and the whole invariant of a run. */
module AdmissionLedger {
  import opened Options
  import opened AdmissionGate
  import opened AdmissionMachine
  import opened AdmissionInvariant
  import opened AdmissionHistory

  function SlotHolders(pcs: map<SessionId, Pc>): set<SessionId> {
    set s | s in pcs && pcs[s].HoldsSlot()
  }

  predicate BudgetOk(st: State, s: SessionId) {
    && s in st.pcs && s in st.gate.sessions
    && st.gate.sessions[s].maxAttempts == st.config.maxAttempts
    && st.gate.sessions[s].attemptsStarted <= st.config.maxAttempts
    && (st.pcs[s].Entering() ==> st.gate.sessions[s].CanAttempt())
  }

  predicate SlotsOk(st: State) {
    st.gate.freeSlots + |SlotHolders(st.pcs)| == st.config.maxConcurrency
  }

  predicate IsProbeClaim(e: Event, g: nat) { e.Claim? && e.permit == Probe(g) }

  /** How many attempts of episode `g` were started. */
  function ProbeCount(log: seq<Event>, g: nat): nat {
    if log == [] then 0
    else ProbeCount(log[..|log| - 1], g) + if IsProbeClaim(log[|log| - 1], g) then 1 else 0
  }

  /** Every probe of an episode starts at or after each probe time set before it. */
  ghost predicate ProbesOnTime(log: seq<Event>) {
    forall i, j | 0 <= i < j < |log| && log[i].Backoff? && IsProbeClaim(log[j], log[i].generation) ::
      log[j].at >= log[i].until
  }

  predicate BackoffOk(st: State, e: Event) {
    e.Backoff? ==> e.generation < st.gate.nextGeneration && (IsOpen(st.gate.episode, e.generation) ==> NotBefore(st, e.until))
  }

  ghost predicate TimesOk(st: State) {
    ProbesOnTime(st.log) && forall i | 0 <= i < |st.log| :: BackoffOk(st, st.log[i])
  }

  /** The probes of an episode nobody abandoned count against its one leader. */
  predicate CountOk(st: State, g: nat) {
    && (g >= st.gate.nextGeneration ==> ProbeCount(st.log, g) == 0 && Dropped(g) !in st.log)
    && (Dropped(g) !in st.log ==>
          && ProbeCount(st.log, g) <= st.config.maxAttempts
          && (IsOpen(st.gate.episode, g) ==>
                var e := st.gate.episode.value;
                && Unended(e)
                && (e.leader.Some? ==>
                      && e.leader.value in st.gate.sessions
                      && ProbeCount(st.log, g) <= st.gate.sessions[e.leader.value].attemptsStarted)))
  }

  ghost predicate Inv(st: State) {
    && st.config.Valid()
    && Core(st)
    && (forall s | s in st.pcs :: BudgetOk(st, s))
    && SlotsOk(st)
    && TimesOk(st)
    && (forall g: nat :: CountOk(st, g))
  }

  // ---- Slots and budgets ----

  lemma OneApart<T>(a: set<T>, b: set<T>, x: T)
    requires a - {x} == b - {x}
    ensures |a| + (if x in b then 1 else 0) == |b| + (if x in a then 1 else 0)
  {
    assert a == (a - {x}) + if x in a then {x} else {};
    assert b == (b - {x}) + if x in b then {x} else {};
  }

  lemma SlotsKept(st: State, after: State, s: SessionId)
    requires SlotsOk(st) && SlotFits(st, after, s) && after.config == st.config && after.pcs.Keys == st.pcs.Keys
    requires forall t | t in st.pcs :: OtherFits(st, after, s, t)
    ensures SlotsOk(after)
  {
    var held, before := SlotHolders(after.pcs), SlotHolders(st.pcs);
    forall t | t != s
      ensures t in held <==> t in before
    {
      assert t in st.pcs ==> OtherFits(st, after, s, t);
    }
    OneApart(held, before, s);
  }

  lemma BudgetKept(st: State, after: State, s: SessionId, t: SessionId)
    requires BudgetOk(st, t) && FrameFits(st, after) && SlotFits(st, after, s) && EventFits(st, after, s)
    requires BudgetFits(st, after, s, t) && OtherFits(st, after, s, t)
    ensures BudgetOk(after, t)
  {
  }

  // ---- Probe times ----

  lemma TimesKept(st: State, after: State, s: SessionId)
    requires TimesOk(st) && GateOk(after.gate) && FrameFits(st, after) && EventFits(st, after, s) && LeaderFits(st, after)
    requires s in st.pcs && SessionOk(st.gate, s, st.pcs[s])
    requires forall i | 0 <= i < |st.log| && st.log[i].Backoff? :: TimeFits(st, after, st.log[i].until)
    ensures TimesOk(after)
  {
    forall i | 0 <= i < |after.log|
      ensures BackoffOk(after, after.log[i])
    {
      assert i < |st.log| ==> BackoffOk(st, st.log[i]);
    }
    forall i, j | 0 <= i < j < |after.log| && after.log[i].Backoff? && IsProbeClaim(after.log[j], after.log[i].generation)
      ensures after.log[j].at >= after.log[i].until
    {
      assert i < |st.log| && BackoffOk(st, st.log[i]);
    }
  }

  // ---- Probe counts ----

  lemma CountAppend(log: seq<Event>, e: Event, g: nat)
    ensures ProbeCount(log + [e], g) == ProbeCount(log, g) + if IsProbeClaim(e, g) then 1 else 0
  {
    assert (log + [e])[..|log|] == log;
  }

  lemma CountKept(st: State, after: State, s: SessionId, g: nat)
    requires CountOk(st, g) && GateOk(st.gate) && GateOk(after.gate) && FrameFits(st, after) && EventFits(st, after, s) && LeaderFits(st, after)
    requires forall t | t in st.pcs :: BudgetFits(st, after, s, t) && BudgetOk(st, t)
    requires s in st.pcs && SessionOk(st.gate, s, st.pcs[s])
    requires after.gate.episode.Some? && after.gate.episode.value.leader.Some? ==> after.gate.episode.value.leader.value in st.pcs
    ensures CountOk(after, g)
  {
    if NewEvent(st, after).Some? {
      CountAppend(st.log, NewEvent(st, after).value, g);
    }
  }

  // ---- Runs ----

  lemma KnownInv(st: State, step: Step)
    requires Inv(st) && step.s in st.pcs
    ensures Inv(Act(st, step))
  {
    var after := Act(st, step);
    var s := step.s;
    assert BudgetOk(st, s) && SessionOk(st.gate, s, st.pcs[s]);
    StepCore(st, step);
    StepBooks(st, step, s, 0.0);
    forall t | t in st.pcs
      ensures BudgetFits(st, after, s, t) && OtherFits(st, after, s, t) && BudgetOk(st, t)
    {
      StepBooks(st, step, t, 0.0);
    }
    forall i | 0 <= i < |st.log| && st.log[i].Backoff?
      ensures TimeFits(st, after, st.log[i].until)
    {
      StepBooks(st, step, s, st.log[i].until);
    }
    AllKept(st, after, s);
  }

  lemma AllKept(st: State, after: State, s: SessionId)
    requires Inv(st) && Core(after) && s in st.pcs
    requires FrameFits(st, after) && EventFits(st, after, s) && SlotFits(st, after, s) && LeaderFits(st, after)
    requires forall t | t in st.pcs :: BudgetFits(st, after, s, t) && OtherFits(st, after, s, t) && BudgetOk(st, t)
    requires forall i | 0 <= i < |st.log| && st.log[i].Backoff? :: TimeFits(st, after, st.log[i].until)
    ensures Inv(after)
  {
    SlotsKept(st, after, s);
    TimesKept(st, after, s);
    forall t | t in after.pcs
      ensures BudgetOk(after, t)
    {
      BudgetKept(st, after, s, t);
    }
    forall g: nat
      ensures CountOk(after, g)
    {
      assert CountOk(st, g);
      CountKept(st, after, s, g);
    }
  }

  lemma NewSessionInv(st: State, s: SessionId)
    requires Inv(st) && s !in st.pcs
    ensures Inv(DoNewSession(st, s))
  {
    var after := DoNewSession(st, s);
    NewSessionCore(st, s);
    assert SlotHolders(after.pcs) == SlotHolders(st.pcs);
    forall i | 0 <= i < |after.log|
      ensures BackoffOk(after, after.log[i])
    {
      assert BackoffOk(st, st.log[i]);
    }
    forall g: nat
      ensures CountOk(after, g)
    {
      assert CountOk(st, g);
    }
    forall t | t in after.pcs
      ensures BudgetOk(after, t)
    {
      assert t != s ==> BudgetOk(st, t);
    }
  }

  lemma TimeInv(st: State, elapsed: Elapsed)
    requires Inv(st)
    ensures Inv(st.(now := st.now + elapsed))
  {
    var later := st.(now := st.now + elapsed);
    forall s: SessionId, g: nat | (s, g) in later.detached
      ensures DetachedOk(later, s, g)
    {
      assert DetachedOk(st, s, g);
    }
    forall i | 0 <= i < |later.log|
      ensures BackoffOk(later, later.log[i])
    {
      assert BackoffOk(st, st.log[i]);
    }
    forall g: nat
      ensures CountOk(later, g)
    {
      assert CountOk(st, g);
    }
    forall t | t in later.pcs
      ensures BudgetOk(later, t)
    {
      assert BudgetOk(st, t);
    }
  }

  lemma StepInv(st: State, step: Step)
    requires Inv(st)
    ensures Inv(Act(st, step))
  {
    if step.s in st.pcs {
      KnownInv(st, step);
    } else {
      NewSessionInv(st, step.s);
      assert Act(st, step) == if step.NewSession? then DoNewSession(st, step.s) else st;
    }
  }

  lemma NextInv(st: State, move: Move)
    requires Inv(st)
    ensures Inv(Next(st, move))
  {
    match move
    case Wait(elapsed) => TimeInv(st, elapsed);
    case Take(step) => StepInv(st, step);
  }

  /** The invariant holds in every state of every run. */
  lemma {:induction false} RunInv(config: Config, moves: seq<Move>)
    requires config.Valid()
    ensures Inv(Execute(Init(config), moves))
  {
    if moves == [] {
      assert SlotHolders(Init(config).pcs) == {};
    } else {
      RunInv(config, moves[..|moves| - 1]);
      NextInv(Execute(Init(config), moves[..|moves| - 1]), moves[|moves| - 1]);
    }
  }

  /** `st` occurs in some run of some controller. */
  ghost predicate Reachable(st: State) {
    exists config: Config, moves :: config.Valid() && Execute(Init(config), moves) == st
  }

  lemma ReachableInv(st: State)
    requires Reachable(st)
    ensures Inv(st)
  {
    var config: Config, moves :| config.Valid() && Execute(Init(config), moves) == st;
    RunInv(config, moves);
  }
}
