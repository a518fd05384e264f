/** `HealthRegistry` on its mutable tables. */
module HealthRegistry {
  import opened Health

  /** What a startup probe of one provider finds. */
  datatype Probe = Reachable | Unreachable(at: real)

  /** The distinct providers of some references, in order of first mention. */
  function Providers(refs: seq<string>): seq<string> {
    if refs == [] then []
    else
      var before, p := Providers(refs[..|refs| - 1]), Provider(refs[|refs| - 1]);
      if p in before then before else before + [p]
  }

  function Probed(marks: map<string, Mark>, p: string, found: Probe, tuning: Tuning): map<string, Mark> {
    if found.Unreachable? then marks[p := Mark(Down, found.at + tuning.day0Cooldown)] else marks
  }

  /** The marks after probing these providers in turn. */
  function BackedOff(marks: map<string, Mark>, providers: seq<string>, probe: string -> Probe, tuning: Tuning): map<string, Mark> {
    if providers == [] then marks
    else Probed(BackedOff(marks, providers[..|providers| - 1], probe, tuning), providers[|providers| - 1],
                probe(providers[|providers| - 1]), tuning)
  }

  lemma ProvidersNext(refs: seq<string>, i: nat)
    requires i < |refs|
    ensures var probed, p := Providers(refs[..i]), Provider(refs[i]);
      Providers(refs[..i + 1]) == if p in probed then probed else probed + [p]
  {
    assert refs[..i + 1][..i] == refs[..i];
  }

  lemma BackedOffNext(marks: map<string, Mark>, probed: seq<string>, p: string, probe: string -> Probe, tuning: Tuning)
    ensures BackedOff(marks, probed + [p], probe, tuning) == Probed(BackedOff(marks, probed, probe, tuning), p, probe(p), tuning)
  {
    assert (probed + [p])[..|probed|] == probed;
  }

  class HealthRegistry {
    const tuning: Tuning
    var marks: map<string, Mark>
    var locks: map<NodeKey, Lock>
    var lkgp: seq<(string, string)>

    constructor (tuning: Tuning)
      ensures this.tuning == tuning && View() == Fresh()
    {
      this.tuning := tuning;
      marks, locks, lkgp := map[], map[], [];
    }

    function View(): Registry
      reads this
    {
      Registry(marks, locks, lkgp)
    }

    method Reset()
      modifies this
      ensures View() == Apply(old(View()), Op.Reset, tuning)
    {
      marks, locks, lkgp := map[], map[], [];
    }

    method RecordSuccess(ref: string)
      modifies this`marks, this`locks
      ensures View() == Apply(old(View()), Success(ref), tuning)
    {
      var key := Split(ref);
      marks := marks - {key.0};
      locks := locks - {key};
    }

    method RecordFailure(ref: string, kind: FailureKind, now: real)
      modifies this`marks, this`locks
      ensures View() == Apply(old(View()), Failure(ref, kind, now), tuning)
    {
      var key := Split(ref);
      if kind == Authentication {
        marks := marks[key.0 := Mark(AuthError, now + tuning.authCooldown)];
      } else if kind in DOWN_KINDS {
        marks := marks[key.0 := Mark(Down, now + tuning.downCooldown)];
      }
      if kind in LOCK_KINDS {
        if key !in locks {
          locks := locks[key := Lock(now + tuning.lockoutBase, 1)];
        } else {
          locks := locks[key := Lock(Escalated(locks[key]), locks[key].attempts + 1)];
        }
      }
    }

    method IsSkipped(ref: string, now: real) returns (skip: bool)
      ensures skip <==> ShouldSkip(View(), ref, now)
    {
      var key := Split(ref);
      if key.0 in marks && now < marks[key.0].until && (marks[key.0].state == Down || marks[key.0].state == AuthError) {
        return true;
      }
      skip := key in locks && now < locks[key].until;
    }

    method RecordLkgp(chain: string, ref: string)
      modifies this`lkgp
      ensures View() == Apply(old(View()), Served(chain, ref), tuning)
    {
      lkgp := Without(lkgp, chain) + [(chain, ref)];
      ghost var newest := Newest(lkgp, tuning.capacity);
      while |lkgp| > tuning.capacity
        invariant Newest(lkgp, tuning.capacity) == newest
      {
        lkgp := lkgp[1..];
      }
    }

    method MarkDown(provider: string, now: real)
      modifies this`marks
      ensures View() == Apply(old(View()), ProbeFailed(provider, now), tuning)
    {
      marks := marks[provider := Mark(Down, now + tuning.day0Cooldown)];
    }

    /** Back off a provider whose startup probe raised or found nothing. */
    method RecordProbe(provider: string, found: Probe)
      modifies this`marks
      ensures marks == Probed(old(marks), provider, found, tuning)
    {
      if found.Unreachable? { MarkDown(provider, found.at); }
    }

    /** Probe each distinct provider once, in order of first mention, and back off exactly
        the ones that cannot be reached. */
    method ValidateProviders(refs: seq<string>, probe: string -> Probe) returns (probed: seq<string>)
      modifies this`marks
      ensures probed == Providers(refs) && marks == BackedOff(old(marks), probed, probe, tuning)
    {
      probed := [];
      for i := 0 to |refs|
        invariant probed == Providers(refs[..i]) && marks == BackedOff(old(marks), probed, probe, tuning)
      {
        ProvidersNext(refs, i);
        var provider := Provider(refs[i]);
        if provider !in probed {
          BackedOffNext(old(marks), probed, provider, probe, tuning);
          probed := probed + [provider];
          RecordProbe(provider, probe(provider));
        }
      }
      assert refs[..|refs|] == refs;
    }
  }

  /** Every provider of the references is among the probed ones, and each only once. */
  lemma {:induction false} EachProviderOnce(refs: seq<string>)
    ensures forall i, j | 0 <= i < j < |Providers(refs)| :: Providers(refs)[i] != Providers(refs)[j]
    ensures forall ref <- refs :: Provider(ref) in Providers(refs)
    ensures forall p <- Providers(refs) :: exists ref <- refs :: Provider(ref) == p
  {
    if refs != [] {
      var front, last := refs[..|refs| - 1], refs[|refs| - 1];
      EachProviderOnce(front);
      assert refs == front + [last];
      forall p | p in Providers(refs) ensures exists ref <- refs :: Provider(ref) == p {
        if p in Providers(front) {
          var ref :| ref in front && Provider(ref) == p;
          assert ref in refs;
        } else {
          assert last in refs;
        }
      }
    }
  }

  /** They are listed in the order in which they are first mentioned: what the first references
      give comes first. */
  lemma {:induction false} ProvidersInOrder(refs: seq<string>, k: nat)
    requires k <= |refs|
    ensures Providers(refs[..k]) <= Providers(refs)
  {
    if k < |refs| {
      ProvidersInOrder(refs[..|refs| - 1], k);
      assert refs[..|refs| - 1][..k] == refs[..k];
    } else {
      assert refs[..k] == refs;
    }
  }

  /** So exactly the unreachable providers end up backed off, from the moment of their probe. */
  lemma {:induction false} BackedOffIsExact(marks: map<string, Mark>, providers: seq<string>, probe: string -> Probe, tuning: Tuning, p: string)
    ensures var after := BackedOff(marks, providers, probe, tuning);
      if p in providers && probe(p).Unreachable? then p in after && after[p] == Mark(Down, probe(p).at + tuning.day0Cooldown)
      else (p in after <==> p in marks) && (p in marks ==> after[p] == marks[p])
  {
    if providers != [] {
      BackedOffIsExact(marks, providers[..|providers| - 1], probe, tuning, p);
    }
  }
}
