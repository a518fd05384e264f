/** The last-known-good map is the most-recent-distinct view of everything recorded in it. */
module LastKnownGood {
  import opened Options
  import opened Health

  type Entries = seq<(string, string)>

  /** The services recorded since the last reset. */
  function Uses(ops: seq<Op>): Entries {
    if ops == [] then []
    else match ops[|ops| - 1]
      case Reset => []
      case Served(chain, ref) => Uses(ops[..|ops| - 1]) + [(chain, ref)]
      case _ => Uses(ops[..|ops| - 1])
  }

  function Ids(entries: Entries): set<string> {
    set e <- entries :: e.0
  }

  ghost predicate Distinct(entries: Entries) {
    forall i, j | 0 <= i < j < |entries| :: entries[i].0 != entries[j].0
  }

  /** Use number `k` is the latest one of its chain. */
  ghost predicate LatestUse(uses: Entries, k: nat) {
    k < |uses| && forall j | k < j < |uses| :: uses[j].0 != uses[k].0
  }

  /** The map as it would be without a capacity. */
  function Recent(uses: Entries): Entries {
    if uses == [] then []
    else Touch(Recent(uses[..|uses| - 1]), uses[|uses| - 1].0, uses[|uses| - 1].1)
  }

  lemma {:induction false} WithoutAbsent(entries: Entries, chain: string)
    requires forall i | 0 <= i < |entries| :: entries[i].0 != chain
    ensures Without(entries, chain) == entries
  {
    if entries != [] {
      WithoutAbsent(entries[1..], chain);
    }
  }

  lemma {:induction false} WithoutAt(entries: Entries, i: nat)
    requires Distinct(entries) && i < |entries|
    ensures Without(entries, entries[i].0) == entries[..i] + entries[i + 1..]
  {
    if i == 0 {
      WithoutAbsent(entries[1..], entries[0].0);
    } else {
      WithoutAt(entries[1..], i - 1);
      assert entries[1..][..i - 1] == entries[1..i];
    }
  }

  lemma TouchKeepsDistinct(entries: Entries, chain: string, ref: string)
    requires Distinct(entries)
    ensures Distinct(Touch(entries, chain, ref))
  {
    if i :| 0 <= i < |entries| && entries[i].0 == chain {
      WithoutAt(entries, i);
    } else {
      WithoutAbsent(entries, chain);
    }
  }

  lemma {:induction false} RecentDistinct(uses: Entries)
    ensures Distinct(Recent(uses))
  {
    if uses != [] {
      RecentDistinct(uses[..|uses| - 1]);
      TouchKeepsDistinct(Recent(uses[..|uses| - 1]), uses[|uses| - 1].0, uses[|uses| - 1].1);
    }
  }

  lemma {:induction false} WithoutDropsOne(entries: Entries, chain: string)
    requires Distinct(entries)
    ensures |Without(entries, chain)| >= |entries| - 1
  {
    if entries != [] {
      if entries[0].0 == chain {
        WithoutAbsent(entries[1..], chain);
      } else {
        WithoutDropsOne(entries[1..], chain);
      }
    }
  }

  /** Dropping the oldest entries early loses nothing that is kept later. */
  lemma {:induction false} TouchNewest(entries: Entries, capacity: nat, chain: string, ref: string)
    requires Distinct(entries)
    ensures Newest(Touch(Newest(entries, capacity), chain, ref), capacity) == Newest(Touch(entries, chain, ref), capacity)
  {
    if |entries| > capacity {
      var rest := entries[1..];
      TouchNewest(rest, capacity, chain, ref);
      if entries[0].0 != chain {
        WithoutDropsOne(rest, chain);
        assert Touch(entries, chain, ref)[1..] == Touch(rest, chain, ref);
      }
    }
  }

  lemma {:induction false} LkgpIsNewest(ops: seq<Op>, tuning: Tuning)
    ensures Run(ops, tuning).lkgp == Newest(Recent(Uses(ops)), tuning.capacity)
  {
    if ops != [] {
      var front := ops[..|ops| - 1];
      LkgpIsNewest(front, tuning);
      match ops[|ops| - 1]
      case Served(chain, ref) =>
        RecentDistinct(Uses(front));
        TouchNewest(Recent(Uses(front)), tuning.capacity, chain, ref);
        assert Uses(ops)[..|Uses(ops)| - 1] == Uses(front);
      case _ =>
    }
  }

  lemma LatestUseExists(uses: Entries, k: nat) returns (latest: nat)
    requires k < |uses|
    ensures k <= latest && LatestUse(uses, latest) && uses[latest].0 == uses[k].0
    decreases |uses| - k
  {
    if j :| k < j < |uses| && uses[j].0 == uses[k].0 {
      latest := LatestUseExists(uses, j);
    } else {
      latest := k;
    }
  }

  lemma LaterUsesFewerIds(uses: Entries, early: nat, late: nat)
    requires early < late && LatestUse(uses, late)
    ensures |Ids(uses[late + 1..])| < |Ids(uses[early + 1..])|
  {
    var few, many := Ids(uses[late + 1..]), Ids(uses[early + 1..]);
    assert uses[late] == uses[early + 1..][late - early - 1];
    assert few <= many - {uses[late].0} by {
      assert uses[late + 1..] == uses[early + 1..][late - early..];
    }
    Smaller(few, many - {uses[late].0});
  }

  lemma {:induction false} Smaller(a: set<string>, b: set<string>)
    requires a <= b
    ensures |a| <= |b|
  {
    if x :| x in a {
      Smaller(a - {x}, b - {x});
    }
  }

  /** How many different chains were used after use `k`. */
  function Later(uses: Entries, k: nat): nat
    requires k < |uses|
  {
    |Ids(uses[k + 1..])|
  }

  lemma IdsExtended(entries: Entries, last: (string, string), x: string)
    ensures x in Ids(entries + [last]) <==> x in Ids(entries) || x == last.0
  {
    if x in Ids(entries) {
      var e :| e in entries && e.0 == x;
      assert e in entries + [last];
    } else if x == last.0 {
      assert last in entries + [last];
    }
  }

  lemma LaterGrows(uses: Entries, k: nat)
    requires k < |uses| - 1
    ensures var front, last := uses[..|uses| - 1], uses[|uses| - 1];
      Later(uses, k) == Later(front, k) + if last.0 in Ids(front[k + 1..]) then 0 else 1
  {
    var front, last := uses[..|uses| - 1], uses[|uses| - 1];
    var less, more := Ids(front[k + 1..]), Ids(uses[k + 1..]);
    assert uses[k + 1..] == front[k + 1..] + [last];
    forall x ensures x in more <==> x in less || x == last.0 {
      IdsExtended(front[k + 1..], last, x);
    }
    if last.0 in less {
      assert more == less;
    } else {
      assert more == less + {last.0};
    }
  }

  /** Entry `j` of the recent ones is use `k`, with as many entries behind it as there were
      different chains used later. */
  ghost predicate Ranked(recent: Entries, use: (string, string), later: nat) {
    later < |recent| && recent[|recent| - 1 - later] == use
  }

  /** The latest use of a chain stands as many places from the end as there were
      different chains used after it. */
  lemma {:induction false} RecentRank(uses: Entries, k: nat)
    requires LatestUse(uses, k)
    ensures Ranked(Recent(uses), uses[k], Later(uses, k))
    decreases |uses|
  {
    var n := |uses| - 1;
    var front, last := uses[..n], uses[n];
    if k < n {
      RecentRank(front, k);
      LaterGrows(uses, k);
      RecentDistinct(front);
      if last.0 in Ids(front) {
        var u := UseOf(front, last.0);
        RecentRank(front, u);
        MovedRank(front, k, u, last.0);
        TouchPresent(Recent(front), Later(front, u), last.1, front[k], Later(front, k));
      } else {
        NeverUsed(front, last.0);
        SuffixIds(front, k + 1);
        TouchAbsent(Recent(front), last.0, last.1, front[k], Later(front, k));
      }
    } else {
      assert uses[k + 1..] == [];
    }
  }

  lemma TouchAbsent(recent: Entries, chain: string, ref: string, use: (string, string), later: nat)
    requires Ranked(recent, use, later) && forall e <- recent :: e.0 != chain
    ensures Ranked(Touch(recent, chain, ref), use, later + 1)
  {
    WithoutAbsent(recent, chain);
  }

  /** Touching the entry with `moved` entries behind it brings everything before it, and
      nothing after it, one place nearer to the start. */
  lemma TouchPresent(recent: Entries, moved: nat, ref: string, use: (string, string), later: nat)
    requires Distinct(recent) && moved < |recent| && Ranked(recent, use, later) && moved != later
    ensures Ranked(Touch(recent, recent[|recent| - 1 - moved].0, ref), use, if moved < later then later else later + 1)
  {
    WithoutAt(recent, |recent| - 1 - moved);
  }

  lemma SuffixIds(uses: Entries, from: nat)
    requires from <= |uses|
    ensures Ids(uses[from..]) <= Ids(uses)
  {
    forall e | e in uses[from..] ensures e in uses {
      var j :| 0 <= j < |uses| - from && uses[from..][j] == e;
      assert uses[from + j] == e;
    }
  }

  lemma UseOf(uses: Entries, chain: string) returns (latest: nat)
    requires chain in Ids(uses)
    ensures LatestUse(uses, latest) && uses[latest].0 == chain
  {
    var e :| e in uses && e.0 == chain;
    var k :| 0 <= k < |uses| && uses[k] == e;
    latest := LatestUseExists(uses, k);
  }

  /** A chain used again after `k` has fewer others behind it, one not used again has more. */
  lemma MovedRank(front: Entries, k: nat, u: nat, chain: string)
    requires LatestUse(front, k) && LatestUse(front, u) && front[u].0 == chain && front[k].0 != chain
    ensures chain in Ids(front[k + 1..]) <==> Later(front, u) < Later(front, k)
    ensures Later(front, u) != Later(front, k)
  {
    if u < k {
      LaterUsesFewerIds(front, u, k);
      forall e | e in front[k + 1..] ensures e.0 != chain {
        var t :| 0 <= t < |front| - k - 1 && front[k + 1..][t] == e;
        assert front[k + 1 + t].0 != front[u].0;
      }
    } else {
      LaterUsesFewerIds(front, k, u);
      assert front[u] == front[k + 1..][u - k - 1];
    }
  }

  lemma {:induction false} NeverUsed(uses: Entries, chain: string)
    requires chain !in Ids(uses)
    ensures forall e <- Recent(uses) :: e.0 != chain
  {
    if uses != [] {
      var n := |uses| - 1;
      assert uses[n] in uses;
      assert forall e <- uses[..n] :: e in uses;
      NeverUsed(uses[..n], chain);
      WithoutSubset(Recent(uses[..n]), uses[n].0);
    }
  }

  lemma {:induction false} WithoutSubset(entries: Entries, chain: string)
    ensures forall e <- Without(entries, chain) :: e in entries
  {
    if entries != [] {
      WithoutSubset(entries[1..], chain);
    }
  }

  lemma {:induction false} LookupAt(entries: Entries, j: nat)
    requires Distinct(entries) && j < |entries|
    ensures Lookup(entries, entries[j].0) == Some(entries[j].1)
  {
    if j > 0 {
      LookupAt(entries[1..], j - 1);
    }
  }

  lemma {:induction false} LookupNewest(entries: Entries, capacity: nat, j: nat)
    requires Distinct(entries) && j < |entries|
    ensures Lookup(Newest(entries, capacity), entries[j].0)
         == if |entries| - 1 - j < capacity then Some(entries[j].1) else None
  {
    if |entries| <= capacity {
      LookupAt(entries, j);
    } else if j == 0 {
      NewestSubset(entries[1..], capacity);
    } else {
      LookupNewest(entries[1..], capacity, j - 1);
    }
  }

  lemma {:induction false} NewestSubset(entries: Entries, capacity: nat)
    ensures forall e <- Newest(entries, capacity) :: e in entries
  {
    if |entries| > capacity {
      NewestSubset(entries[1..], capacity);
    }
  }

  lemma RankedLookup(recent: Entries, capacity: nat, use: (string, string), later: nat)
    requires Distinct(recent) && Ranked(recent, use, later)
    ensures Lookup(Newest(recent, capacity), use.0) == if later < capacity then Some(use.1) else None
  {
    LookupNewest(recent, capacity, |recent| - 1 - later);
  }

  /** A chain is remembered exactly while fewer than `capacity` other chains were served
      after it, and then with the node that served it last. */
  lemma RemembersTheMostRecent(ops: seq<Op>, tuning: Tuning, k: nat)
    requires LatestUse(Uses(ops), k)
    ensures var uses := Uses(ops);
      PreferredPrimary(Run(ops, tuning), uses[k].0)
      == if Later(uses, k) < tuning.capacity then Some(uses[k].1) else None
  {
    var uses := Uses(ops);
    LkgpIsNewest(ops, tuning);
    RecentRank(uses, k);
    RecentDistinct(uses);
    RankedLookup(Recent(uses), tuning.capacity, uses[k], Later(uses, k));
  }

  lemma UnusedIsForgotten(ops: seq<Op>, tuning: Tuning, chain: string)
    requires chain !in Ids(Uses(ops))
    ensures PreferredPrimary(Run(ops, tuning), chain) == None
  {
    LkgpIsNewest(ops, tuning);
    NeverUsed(Uses(ops), chain);
    NewestSubset(Recent(Uses(ops)), tuning.capacity);
  }
}
