/** Cross-node failover: what one request can observe over a whole chain. */
module Failover {
  import opened Options
  import opened Health

  const FAILOVER_ELIGIBLE_KINDS := {RateLimit, Overloaded, Timeout, Upstream, Unavailable}

  /** How a node's stream ends: normally, with a finalized failure, with another error, or
      because the consumer closed it. */
  datatype Ending = Completed | Failed(kind: FailureKind, retryable: bool) | Broken | Abandoned

  /** What happens around chain position i, had it been tried: `at` is when the position is
      reached, `after` is the shared registry when the stream ends (others may have written
      to it), and `peek(j)` is when the look-ahead asks about position j. */
  datatype Try = Try(at: real, chunks: seq<string>, ending: Ending, endedAt: real, after: Registry, peek: nat -> real)

  /** Each position that was considered, with the registry found there. */
  datatype Visit = Skipped(health: Registry) | Tried(health: Registry)

  datatype Outcome = Served | Raised(kind: FailureKind, retryable: bool) | BrokenOff | ConsumerGone | NoUsableNode | EndedSilently

  datatype Why = NoNodes | InState(state: HealthState)

  predicate Contains(text: string, part: string) {
    exists i | 0 <= i <= |text| :: part <= text[i..]
  }

  predicate IsContentStart(chunk: string) {
    Contains(chunk, "message_start") || Contains(chunk, "content_block_start")
  }

  predicate Eligible(ending: Ending) {
    ending.Failed? && ending.kind in FAILOVER_ELIGIBLE_KINDS && ending.retryable
  }

  predicate HasContent(chunks: seq<string>) {
    exists c <- chunks :: IsContentStart(c)
  }

  /** A chunk starts content when one of the two event names stands anywhere in it. */
  lemma ContentAnywhere(before: string, after: string)
    ensures IsContentStart(before + "message_start" + after) && IsContentStart(before + "content_block_start" + after)
    ensures !IsContentStart("")
  {
    forall part: string ensures Contains(before + part + after, part) { ContainsInside(before, part, after); }
  }

  lemma ContainsInside(before: string, part: string, after: string)
    ensures Contains(before + part + after, part)
  {
    assert (before + part + after)[|before|..] == part + after;
  }

  /** What is contained stands somewhere between a text before it and a text after it. */
  lemma ContainedBetween(text: string, part: string) returns (before: string, after: string)
    requires Contains(text, part)
    ensures text == before + part + after
  {
    var i :| 0 <= i <= |text| && part <= text[i..];
    before, after := text[..i], text[i + |part|..];
  }

  /** A failure is failed over exactly when it is retryable and not one of the four kinds that
      blame the request or the key; and then it takes its whole provider down. */
  lemma FailsOverExactly(reg: Registry, node: string, ending: Ending, now: real, tuning: Tuning)
    requires ending.Failed?
    ensures Eligible(ending)
      <==> ending.retryable && !ending.kind.InvalidRequest? && !ending.kind.ContextWindowExceeded?
           && !ending.kind.Authentication? && !ending.kind.Permission?
    ensures Eligible(ending) && tuning.downCooldown > 0.0
      ==> EffectiveState(RecordFailure(reg, node, ending.kind, now, tuning), node, now) == Down
  {
  }

  /** Time does not run backwards along the chain. */
  ghost predicate Timely(tries: seq<Try>) {
    && (forall i | 0 <= i < |tries| :: tries[i].at <= tries[i].endedAt)
    && (forall i, j | 0 <= i < j < |tries| :: tries[i].endedAt <= tries[i].peek(j) <= tries[j].at)
  }

  // Routing.

  /** The first usable position from `start` on. */
  function FirstUsable(nodes: seq<string>, reg: Registry, now: real, start: nat): (index: Option<nat>)
    requires start <= |nodes|
    ensures index.Some? ==> start <= index.value < |nodes| && !ShouldSkip(reg, nodes[index.value], now)
    ensures forall j | start <= j < (if index.Some? then index.value else |nodes|) :: ShouldSkip(reg, nodes[j], now)
    decreases |nodes| - start
  {
    if start == |nodes| then None
    else if !ShouldSkip(reg, nodes[start], now) then Some(start)
    else FirstUsable(nodes, reg, now, start + 1)
  }

  function MovedToFront(chain: seq<string>, i: nat): seq<string>
    requires i < |chain|
  {
    [chain[i]] + chain[..i] + chain[i + 1..]
  }

  /** Node number `i` of the chain first, and after it all the others in chain order. */
  ghost predicate LedBy(nodes: seq<string>, chain: seq<string>, i: nat) {
    && i < |chain| == |nodes| && nodes[0] == chain[i]
    && (forall j | 0 <= j < i :: nodes[j + 1] == chain[j])
    && (forall j | i < j < |chain| :: nodes[j] == chain[j])
  }

  /** The last-known-good node of a chain, if it is usable now. */
  function Preference(reg: Registry, identity: Option<string>, now: real): Option<string> {
    if identity.None? || identity.value == "" then None
    else
      var preferred := PreferredPrimary(reg, identity.value);
      if preferred.Some? && preferred.value != "" && !ShouldSkip(reg, preferred.value, now) then preferred else None
  }

  /** `_ordered_nodes`: the usable last-known-good node first, the rest in chain order. */
  method OrderedNodes(chain: seq<string>, identity: Option<string>, reg: Registry, now: real) returns (nodes: seq<string>)
    ensures multiset(nodes) == multiset(chain)
    ensures var preferred := Preference(reg, identity, now);
      if preferred.Some? && preferred.value in chain
      then exists i | 0 <= i < |chain| :: chain[i] == preferred.value && preferred.value !in chain[..i] && LedBy(nodes, chain, i)
      else nodes == chain
    ensures nodes != chain
        ==> identity.Some? && PreferredPrimary(reg, identity.value) == Some(nodes[0]) && !ShouldSkip(reg, nodes[0], now)
    ensures identity.Some? && identity.value != "" && PreferredPrimary(reg, identity.value).Some?
        ==> var served := PreferredPrimary(reg, identity.value).value;
            served in chain && served != "" && !ShouldSkip(reg, served, now) ==> nodes[0] == served
  {
    var preferred := Preference(reg, identity, now);
    if preferred.Some? {
      for i := 0 to |chain|
        invariant preferred.value !in chain[..i]
      {
        if chain[i] == preferred.value {
          MovedToFrontPermutes(chain, i);
          return MovedToFront(chain, i);
        }
      }
    }
    nodes := chain;
  }

  lemma MovedToFrontPermutes(chain: seq<string>, i: nat)
    requires i < |chain|
    ensures multiset(MovedToFront(chain, i)) == multiset(chain) && LedBy(MovedToFront(chain, i), chain, i)
  {
    assert chain == chain[..i] + ([chain[i]] + chain[i + 1..]);
  }

  /** `primary_route`: the node a header would announce, and why it is not usable. */
  method PrimaryRoute(nodes: seq<string>, reg: Registry, now: real) returns (ref: string, why: Option<Why>)
    ensures nodes == [] ==> ref == "" && why == Some(NoNodes)
    ensures nodes != [] && FirstUsable(nodes, reg, now, 0).Some?
        ==> ref == nodes[FirstUsable(nodes, reg, now, 0).value] && why == None
    ensures nodes != [] && FirstUsable(nodes, reg, now, 0).None?
        ==> ref == nodes[0] && why == Some(InState(EffectiveState(reg, nodes[0], now)))
    ensures why == Some(InState(Healthy)) ==> !MarksOk(reg)
  {
    if nodes == [] { return "", Some(NoNodes); }
    for i := 0 to |nodes|
      invariant FirstUsable(nodes, reg, now, 0) == FirstUsable(nodes, reg, now, i)
    {
      if !ShouldSkip(reg, nodes[i], now) { return nodes[i], None; }
    }
    return nodes[0], Some(InState(EffectiveState(reg, nodes[0], now)));
  }

  /** `_preflight_first`: which node is preflighted. */
  method PreflightFirst(nodes: seq<string>, reg: Registry, now: real) returns (index: Option<nat>)
    ensures index == FirstUsable(nodes, reg, now, 0)
  {
    for i := 0 to |nodes|
      invariant FirstUsable(nodes, reg, now, 0) == FirstUsable(nodes, reg, now, i)
    {
      if !ShouldSkip(reg, nodes[i], now) { return Some(i); }
    }
    index := None;
  }

  /** `_next_tryable_index`: the clock is read again for every node. */
  method NextTryable(nodes: seq<string>, start: nat, reg: Registry, peek: nat -> real) returns (index: Option<nat>)
    requires start <= |nodes|
    ensures index.Some? ==> start <= index.value < |nodes| && !ShouldSkip(reg, nodes[index.value], peek(index.value))
    ensures forall j | start <= j < (if index.Some? then index.value else |nodes|) :: ShouldSkip(reg, nodes[j], peek(j))
  {
    for i := start to |nodes|
      invariant forall j | start <= j < i :: ShouldSkip(reg, nodes[j], peek(j))
    {
      if !ShouldSkip(reg, nodes[i], peek(i)) { return Some(i); }
    }
    index := None;
  }

  // Streaming.

  function AfterFailure(node: string, attempt: Try, tuning: Tuning): Registry
    requires attempt.ending.Failed?
  {
    RecordFailure(attempt.after, node, attempt.ending.kind, attempt.endedAt, tuning)
  }

  function AfterSuccess(node: string, attempt: Try, identity: Option<string>, tuning: Tuning): Registry {
    var reg := RecordSuccess(attempt.after, node);
    if identity.Some? && identity.value != "" then RecordLkgp(reg, identity.value, node, tuning) else reg
  }

  /** A node that served: its provider's mark and its own lockout are gone, every other mark and
      lock is as the stream left it, and the node is remembered for a named chain. */
  ghost predicate ServiceRecorded(node: string, before: Registry, health: Registry, identity: Option<string>, capacity: nat) {
    && Provider(node) !in health.marks && Split(node) !in health.locks
    && (forall p | p != Provider(node) :: p in health.marks <==> p in before.marks)
    && (forall p <- health.marks :: health.marks[p] == before.marks[p])
    && (forall key | key != Split(node) :: key in health.locks <==> key in before.locks)
    && (forall key <- health.locks :: health.locks[key] == before.locks[key])
    && if identity.None? || identity.value == "" then health.lkgp == before.lkgp
       else PreferredPrimary(health, identity.value) == if capacity > 0 then Some(node) else None
  }

  lemma SuccessIsRecorded(node: string, attempt: Try, identity: Option<string>, tuning: Tuning)
    ensures ServiceRecorded(node, attempt.after, AfterSuccess(node, attempt, identity, tuning), identity, tuning.capacity)
  {
    if identity.Some? && identity.value != "" {
      var touched := Touch(attempt.after.lkgp, identity.value, node);
      WithoutGone(attempt.after.lkgp, identity.value);
      LookupLast(Without(attempt.after.lkgp, identity.value), identity.value, node, tuning.capacity);
      assert RecordLkgp(RecordSuccess(attempt.after, node), identity.value, node, tuning).lkgp == Newest(touched, tuning.capacity);
    }
  }

  lemma {:induction false} WithoutGone(entries: seq<(string, string)>, chain: string)
    ensures forall e <- Without(entries, chain) :: e.0 != chain
  {
    if entries != [] { WithoutGone(entries[1..], chain); }
  }

  lemma {:induction false} LookupLast(entries: seq<(string, string)>, chain: string, ref: string, capacity: nat)
    requires forall e <- entries :: e.0 != chain
    ensures Lookup(Newest(entries + [(chain, ref)], capacity), chain) == if capacity > 0 then Some(ref) else None
  {
    var all := entries + [(chain, ref)];
    if |all| > capacity && entries != [] {
      assert all[1..] == entries[1..] + [(chain, ref)];
      LookupLast(entries[1..], chain, ref, capacity);
    } else if |all| <= capacity {
      assert Lookup(all, chain).Some? by { assert all[|entries|].0 == chain; }
    }
  }

  /** So the node that served leads the chain's next request, whenever that comes. */
  lemma ServedNodeLeads(node: string, before: Registry, health: Registry, identity: Option<string>, capacity: nat, now: real)
    requires ServiceRecorded(node, before, health, identity, capacity)
    requires identity.Some? && identity.value != "" && node != "" && capacity > 0
    ensures Preference(health, identity, now) == Some(node)
  {
  }

  /** What the client has received after the first visits. */
  function Emitted(tries: seq<Try>, visits: seq<Visit>): seq<string>
    requires |visits| <= |tries|
  {
    if visits == [] then []
    else
      var n := |visits| - 1;
      Emitted(tries, visits[..n]) + if visits[n].Tried? then tries[n].chunks else []
  }

  /** One step from a visit to the next: only an eligible failure before any content moves
      past a node that was tried, and it is recorded. */
  ghost predicate Advances(node: string, attempt: Try, visit: Visit, next: Registry, tuning: Tuning) {
    match visit
    case Skipped(health) => next == health
    case Tried(_) =>
      Eligible(attempt.ending) && !HasContent(attempt.chunks) && next == AfterFailure(node, attempt, tuning)
  }

  predicate AllSkipped(visits: seq<Visit>) {
    forall i | 0 <= i < |visits| :: visits[i].Skipped?
  }

  /** The positions are considered once each, from the first one on, and tried exactly when
      they are not to be skipped at that moment. */
  ghost predicate IsRun(nodes: seq<string>, tries: seq<Try>, start: Registry, visits: seq<Visit>, tuning: Tuning) {
    && |visits| <= |nodes| == |tries|
    && (forall i | 0 <= i < |visits| :: visits[i].Skipped? <==> ShouldSkip(visits[i].health, nodes[i], tries[i].at))
    && (visits != [] ==> visits[0].health == start)
    && (forall i | 0 <= i < |visits| - 1 :: Advances(nodes[i], tries[i], visits[i], visits[i + 1].health, tuning))
  }

  /** How a run can end at position `last`, and the registry it leaves. */
  ghost predicate EndsAt(nodes: seq<string>, last: nat, attempt: Try, identity: Option<string>,
                         outcome: Outcome, health: Registry, tuning: Tuning)
    requires last < |nodes|
  {
    match outcome
    case Served => attempt.ending.Completed? && health == AfterSuccess(nodes[last], attempt, identity, tuning)
    case Raised(kind, retryable) =>
      && attempt.ending == Failed(kind, retryable) && health == AfterFailure(nodes[last], attempt, tuning)
      && (Eligible(attempt.ending) && !HasContent(attempt.chunks)
          ==> forall j | last < j < |nodes| :: ShouldSkip(health, nodes[j], attempt.peek(j)))
    case BrokenOff => attempt.ending.Broken? && health == attempt.after
    case ConsumerGone => attempt.ending.Abandoned? && health == attempt.after
    case NoUsableNode => false
    case EndedSilently => false
  }

  method ForwardChunks(chunks: seq<string>, sent: seq<string>, contentBefore: bool)
    returns (emitted: seq<string>, contentEmitted: bool)
    ensures emitted == sent + chunks && contentEmitted == (contentBefore || HasContent(chunks))
  {
    emitted, contentEmitted := sent, contentBefore;
    for i := 0 to |chunks|
      invariant emitted == sent + chunks[..i]
      invariant contentEmitted <==> contentBefore || HasContent(chunks[..i])
    {
      assert chunks[..i + 1] == chunks[..i] + [chunks[i]];
      if IsContentStart(chunks[i]) { contentEmitted := true; }
      emitted := emitted + [chunks[i]];
    }
    assert chunks[..|chunks|] == chunks;
  }

  /** What follows one node's stream: either the run ends there, or the failure is recorded
      and some later position was usable when the look-ahead asked. */
  method Settle(nodes: seq<string>, i: nat, attempt: Try, identity: Option<string>, contentEmitted: bool, tuning: Tuning)
    returns (outcome: Option<Outcome>, health: Registry, next: nat)
    requires i < |nodes| && contentEmitted == HasContent(attempt.chunks)
    ensures outcome.Some? ==> EndsAt(nodes, i, attempt, identity, outcome.value, health, tuning)
    ensures outcome == Some(Outcome.Served) ==> ServiceRecorded(nodes[i], attempt.after, health, identity, tuning.capacity)
    ensures outcome.None? ==> Eligible(attempt.ending) && !contentEmitted && health == AfterFailure(nodes[i], attempt, tuning)
    ensures outcome.None? ==> i < next < |nodes| && !ShouldSkip(health, nodes[next], attempt.peek(next))
  {
    next := i;
    match attempt.ending {
      case Completed =>
        SuccessIsRecorded(nodes[i], attempt, identity, tuning);
        return Some(Outcome.Served), AfterSuccess(nodes[i], attempt, identity, tuning), next;
      case Broken =>
        return Some(BrokenOff), attempt.after, next;
      case Abandoned =>
        return Some(ConsumerGone), attempt.after, next;
      case Failed(kind, retryable) =>
        health := AfterFailure(nodes[i], attempt, tuning);
        if !Eligible(attempt.ending) || contentEmitted { return Some(Raised(kind, retryable)), health, next; }
        var later := NextTryable(nodes, i + 1, health, attempt.peek);
        if later.None? { return Some(Raised(kind, retryable)), health, next; }
        return None, health, later.value;
    }
  }

  /** The visits so far, ready for the next position with the registry `health`. */
  ghost predicate Underway(nodes: seq<string>, tries: seq<Try>, start: Registry, visits: seq<Visit>, health: Registry, tuning: Tuning) {
    && IsRun(nodes, tries, start, visits, tuning)
    && if visits == [] then health == start
       else Advances(nodes[|visits| - 1], tries[|visits| - 1], visits[|visits| - 1], health, tuning)
  }

  lemma RunGrows(nodes: seq<string>, tries: seq<Try>, start: Registry, visits: seq<Visit>, visit: Visit, tuning: Tuning)
    requires Underway(nodes, tries, start, visits, visit.health, tuning) && |visits| < |nodes|
    requires visit.Skipped? <==> ShouldSkip(visit.health, nodes[|visits|], tries[|visits|].at)
    ensures IsRun(nodes, tries, start, visits + [visit], tuning)
  {
    var grown, n := visits + [visit], |visits|;
    forall i | 0 <= i < n ensures Advances(nodes[i], tries[i], grown[i], grown[i + 1].health, tuning) {
      if i < n - 1 { assert Advances(nodes[i], tries[i], visits[i], visits[i + 1].health, tuning); }
    }
  }

  lemma EmittedGrows(tries: seq<Try>, visits: seq<Visit>, visit: Visit)
    requires |visits| < |tries|
    ensures Emitted(tries, visits + [visit]) == Emitted(tries, visits) + if visit.Tried? then tries[|visits|].chunks else []
  {
    assert (visits + [visit])[..|visits|] == visits;
  }

  /** One position: skip it, or try its node and see what follows. */
  method VisitNext(nodes: seq<string>, identity: Option<string>, tries: seq<Try>, ghost start: Registry, tuning: Tuning,
               sent: seq<string>, before: seq<Visit>, reg: Registry)
    returns (emitted: seq<string>, visits: seq<Visit>, outcome: Option<Outcome>, health: Registry, next: nat)
    requires Underway(nodes, tries, start, before, reg, tuning) && |before| < |nodes| && sent == Emitted(tries, before)
    ensures |visits| == |before| + 1 && visits[..|before|] == before && emitted == Emitted(tries, visits)
    ensures IsRun(nodes, tries, start, visits, tuning)
    ensures visits[|before|] == if ShouldSkip(reg, nodes[|before|], tries[|before|].at) then Skipped(reg) else Tried(reg)
    ensures outcome.Some? ==> visits[|before|].Tried? && EndsAt(nodes, |before|, tries[|before|], identity, outcome.value, health, tuning)
    ensures outcome.None? ==> Underway(nodes, tries, start, visits, health, tuning)
    ensures outcome.None? && visits[|before|].Tried?
        ==> |before| < next < |nodes| && !ShouldSkip(health, nodes[next], tries[|before|].peek(next))
  {
    var i := |before|;
    if ShouldSkip(reg, nodes[i], tries[i].at) {
      RunGrows(nodes, tries, start, before, Skipped(reg), tuning);
      EmittedGrows(tries, before, Skipped(reg));
      return sent, before + [Skipped(reg)], None, reg, 0;
    }
    RunGrows(nodes, tries, start, before, Tried(reg), tuning);
    EmittedGrows(tries, before, Tried(reg));
    visits := before + [Tried(reg)];
    var contentEmitted;
    emitted, contentEmitted := ForwardChunks(tries[i].chunks, sent, false);
    outcome, health, next := Settle(nodes, i, tries[i], identity, contentEmitted, tuning);
  }

  lemma StaysUsable(tries: seq<Try>, i: nat, j: nat, reg: Registry, node: string)
    requires Timely(tries) && i < j < |tries| && !ShouldSkip(reg, node, tries[i].peek(j))
    ensures !ShouldSkip(reg, node, tries[j].at)
  {
    assert tries[i].peek(j) <= tries[j].at;
  }

  /** `stream`: it never ends silently. Either the last position tried serves, or its failure
      is raised, or no position was usable at all. */
  method Stream(nodes: seq<string>, identity: Option<string>, tries: seq<Try>, start: Registry, tuning: Tuning)
    returns (emitted: seq<string>, visits: seq<Visit>, outcome: Outcome, health: Registry)
    requires |tries| == |nodes| && Timely(tries)
    ensures IsRun(nodes, tries, start, visits, tuning) && emitted == Emitted(tries, visits)
    ensures outcome.NoUsableNode? ==> |visits| == |nodes| && health == start && AllSkipped(visits)
    ensures !outcome.NoUsableNode? ==> visits != [] && visits[|visits| - 1].Tried?
    ensures !outcome.NoUsableNode?
        ==> EndsAt(nodes, |visits| - 1, tries[|visits| - 1], identity, outcome, health, tuning)
    ensures outcome.Served?
        ==> ServiceRecorded(nodes[|visits| - 1], tries[|visits| - 1].after, health, identity, tuning.capacity)
  {
    var triedAny := false;
    emitted, visits, health := [], [], start;
    ghost var promised := 0;
    for i := 0 to |nodes|
      invariant |visits| == i && Underway(nodes, tries, start, visits, health, tuning) && emitted == Emitted(tries, visits)
      invariant !triedAny ==> health == start && AllSkipped(visits)
      invariant triedAny ==> i <= promised < |nodes| && !ShouldSkip(health, nodes[promised], tries[promised].at)
    {
      var settled, next;
      emitted, visits, settled, health, next := VisitNext(nodes, identity, tries, start, tuning, emitted, visits, health);
      if settled.Some? {
        SuccessIsRecorded(nodes[i], tries[i], identity, tuning);
        outcome := settled.value;
        return;
      }
      if visits[i].Tried? {
        StaysUsable(tries, i, next, health, nodes[next]);
        triedAny, promised := true, next;
      }
    }
    outcome := if triedAny then EndedSilently else NoUsableNode;
  }

  /** All content comes from the last node tried: what came before it holds no content. */
  lemma {:induction false} ContentFromOneNode(nodes: seq<string>, tries: seq<Try>, start: Registry, visits: seq<Visit>, tuning: Tuning)
    requires IsRun(nodes, tries, start, visits, tuning) && visits != []
    ensures !HasContent(Emitted(tries, visits[..|visits| - 1]))
  {
    var n := |visits| - 1;
    if n > 0 {
      var front := visits[..n];
      ContentFromOneNode(nodes, tries, start, front, tuning);
      assert Advances(nodes[n - 1], tries[n - 1], visits[n - 1], visits[n].health, tuning);
    }
  }

  /** Provider `p` is marked down at least until `until`. */
  predicate DownUntil(reg: Registry, p: string, until: real) {
    p in reg.marks && reg.marks[p].state == Down && reg.marks[p].until >= until
  }

  lemma EligibleMarksDown(reg: Registry, node: string, ending: Ending, now: real, tuning: Tuning, p: string, until: real)
    requires Eligible(ending)
    requires if p == Provider(node) then until <= now + tuning.downCooldown else DownUntil(reg, p, until)
    ensures DownUntil(RecordFailure(reg, node, ending.kind, now, tuning), p, until)
  {
  }

  /** A failed-over node's provider stays marked down for the cooldown, whatever else the
      same run records. */
  lemma {:induction false} DownMarkStays(nodes: seq<string>, tries: seq<Try>, start: Registry, visits: seq<Visit>,
                                         tuning: Tuning, i: nat, j: nat)
    requires IsRun(nodes, tries, start, visits, tuning) && Timely(tries)
    requires forall k | 0 <= k < |visits| && visits[k].Tried? :: tries[k].after == visits[k].health
    requires i < j < |visits| && visits[i].Tried?
    ensures DownUntil(visits[j].health, Provider(nodes[i]), tries[i].endedAt + tuning.downCooldown)
    decreases j
  {
    var p, until := Provider(nodes[i]), tries[i].endedAt + tuning.downCooldown;
    if i < j - 1 {
      DownMarkStays(nodes, tries, start, visits, tuning, i, j - 1);
      assert tries[i].endedAt <= tries[i].peek(j - 1) <= tries[j - 1].at;
    }
    assert Advances(nodes[j - 1], tries[j - 1], visits[j - 1], visits[j].health, tuning);
    if visits[j - 1].Tried? {
      EligibleMarksDown(tries[j - 1].after, nodes[j - 1], tries[j - 1].ending, tries[j - 1].endedAt, tuning, p, until);
    }
  }

  /** With no other writer of the registry and a run shorter than the cooldown, no two nodes
      of the same provider are tried. */
  lemma ProviderAvoidance(nodes: seq<string>, tries: seq<Try>, start: Registry, visits: seq<Visit>, tuning: Tuning, i: nat, j: nat)
    requires IsRun(nodes, tries, start, visits, tuning) && Timely(tries)
    requires forall k | 0 <= k < |visits| && visits[k].Tried? :: tries[k].after == visits[k].health
    requires i < j < |visits| && visits[i].Tried? && visits[j].Tried?
    requires tries[j].at < tries[i].endedAt + tuning.downCooldown
    ensures Provider(nodes[i]) != Provider(nodes[j])
  {
    DownMarkStays(nodes, tries, start, visits, tuning, i, j);
  }

  /** The route announced, the node preflighted and the first node tried are the same one when
      all three look at the same registry at the same instant. */
  lemma {:induction false} RouteIsFirstTried(nodes: seq<string>, tries: seq<Try>, start: Registry, visits: seq<Visit>,
                                             tuning: Tuning, now: real, i: nat)
    requires IsRun(nodes, tries, start, visits, tuning)
    requires i < |visits| && visits[i].Tried? && forall k | 0 <= k < i :: visits[k].Skipped?
    requires forall k | 0 <= k <= i :: tries[k].at == now
    ensures FirstUsable(nodes, start, now, 0) == Some(i)
  {
    UntouchedBefore(nodes, tries, start, visits, tuning, i);
    assert !ShouldSkip(start, nodes[i], now);
    forall k | 0 <= k < i ensures ShouldSkip(start, nodes[k], now) {
      UntouchedBefore(nodes, tries, start, visits, tuning, k);
    }
  }

  lemma {:induction false} UntouchedBefore(nodes: seq<string>, tries: seq<Try>, start: Registry, visits: seq<Visit>, tuning: Tuning, i: nat)
    requires IsRun(nodes, tries, start, visits, tuning) && i < |visits| && forall k | 0 <= k < i :: visits[k].Skipped?
    ensures visits[i].health == start
  {
    if i > 0 {
      UntouchedBefore(nodes, tries, start, visits, tuning, i - 1);
      assert Advances(nodes[i - 1], tries[i - 1], visits[i - 1], visits[i].health, tuning);
    }
  }
}
