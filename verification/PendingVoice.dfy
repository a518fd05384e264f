/** The locked blocks of `PendingVoiceRegistry` on its mutable tables. */
module PendingVoice {
  import opened Options
  import opened VoiceRegistry

  /** What a cancellation reports for one entry. */
  datatype CancellationResult = CancellationResult(claim: Claim, status: Option<string>, deleteIds: set<string>)

  /** The messages to delete: the voice note unless the reply was to something else of the
      entry, and the status message if there is one. */
  function ResultFor(c: Claim, status: Option<string>, reference: Option<string>): CancellationResult {
    var voice := if reference.Some? && reference.value != c.voiceId then {} else {c.voiceId};
    CancellationResult(c, status, voice + if status.Some? then {status.value} else {})
  }

  /** A reply to the status message deletes that message alone; a reply to the voice note, or a
      bulk cancellation, deletes both, as far as there is a status message. */
  lemma ResultDeletes(c: Claim, status: Option<string>, reply: string)
    ensures status == Some(reply) && reply != c.voiceId ==> ResultFor(c, status, Some(reply)).deleteIds == {reply}
    ensures reply == c.voiceId ==> ResultFor(c, status, Some(reply)) == ResultFor(c, status, None)
    ensures forall id :: id in ResultFor(c, status, None).deleteIds <==> id == c.voiceId || status == Some(id)
    ensures ResultFor(c, status, Some(reply)).claim == c && ResultFor(c, status, Some(reply)).status == status
  {
  }

  class PendingVoiceRegistry {
    var pending: map<Key, Claim>
    var entries: map<Claim, Entry>
    var nextClaim: nat
    var activeCancellations: map<Claim, nat>

    constructor ()
      ensures View() == Empty() && Valid()
    {
      pending, entries, nextClaim, activeCancellations := map[], map[], 0, map[];
    }

    function View(): Registry
      reads this
    {
      Registry(pending, entries, nextClaim, activeCancellations)
    }

    ghost predicate Valid()
      reads this
    {
      RegistryOk(View())
    }

    method Reserve(scope: Scope, voiceId: string) returns (claim: Option<Claim>)
      requires Valid()
      modifies this
      ensures Valid() && (View(), claim) == VoiceRegistry.Reserve(old(View()), scope, voiceId)
    {
      ReserveOk(View(), scope, voiceId);
      var key := Key(scope, voiceId);
      if key in pending { return None; }
      var fresh' := Claim(scope, voiceId, nextClaim);
      nextClaim := nextClaim + 1;
      entries := entries[fresh' := Entry(None, false)];
      pending := pending[key := fresh'];
      claim := Some(fresh');
    }

    method FindEntry(claim: Claim) returns (live: bool)
      ensures live == Live(View(), claim)
    {
      live := VoiceKey(claim) in pending && pending[VoiceKey(claim)] == claim && claim in entries;
    }

    method BindStatus(claim: Claim, status: string) returns (bound: bool)
      requires Valid()
      modifies this
      ensures Valid() && (View(), bound) == VoiceRegistry.BindStatus(old(View()), claim, status)
    {
      BindOk(View(), claim, status);
      var live := FindEntry(claim);
      if !live { return false; }
      if entries[claim].status.Some? { return entries[claim].status.value == status; }
      var key := Key(claim.scope, status);
      if key in pending && pending[key] != claim { return false; }
      entries := entries[claim := entries[claim].(status := Some(status))];
      pending := pending[key := claim];
      bound := true;
    }

    method BeginHandoff(claim: Claim) returns (accepted: bool)
      requires Valid()
      modifies this
      ensures Valid() && (View(), accepted) == StartHandoff(old(View()), claim)
    {
      HandoffOk(View(), claim);
      accepted := FindEntry(claim);
      if !accepted || entries[claim].status.None? || entries[claim].handedOff { return false; }
      entries := entries[claim := entries[claim].(handedOff := true)];
    }

    /** `_remove`: pop both keys, each only if it still leads to this entry. */
    method RemoveEntry(claim: Claim)
      requires claim in entries
      modifies this`pending
      ensures View() == Remove(old(View()), claim)
    {
      ghost var before := View();
      if VoiceKey(claim) in pending && pending[VoiceKey(claim)] == claim {
        pending := pending - {VoiceKey(claim)};
      }
      if entries[claim].status.Some? {
        var statusKey := Key(claim.scope, entries[claim].status.value);
        if statusKey in pending && pending[statusKey] == claim {
          pending := pending - {statusKey};
        }
      }
      assert pending == before.pending - OwnKeys(before, claim);
    }

    /** `discard`, and the completion of a handoff. */
    method ReleaseOwnership(claim: Claim) returns (released: bool)
      requires Valid()
      modifies this`pending
      ensures Valid() && (View(), released) == Discard(old(View()), claim)
    {
      released := FindEntry(claim);
      if released {
        RemoveIsExact(View(), claim);
        RemoveEntry(claim);
      }
    }

    method CancelReply(scope: Scope, reply: string, context: Option<Claim>) returns (result: Option<CancellationResult>)
      requires Valid()
      modifies this`pending
      ensures Valid() && View() == CancelOne(old(View()), scope, reply, context).0
      ensures var chosen := CancelOne(old(View()), scope, reply, context).1;
              result == if chosen.None? then None
                        else Some(ResultFor(chosen.value, old(entries)[chosen.value].status, Some(reply)))
    {
      var key := Key(scope, reply);
      if key !in pending { return None; }
      var claim := pending[key];
      if context == Some(claim) || (claim in activeCancellations && activeCancellations[claim] > 0) { return None; }
      RemoveIsExact(View(), claim);
      RemoveEntry(claim);
      result := Some(ResultFor(claim, entries[claim].status, Some(reply)));
    }

    /** One more entry of a bulk removal, with its result. */
    method RemoveNext(ghost before: Registry, ghost gone: set<Claim>, claim: Claim, results: seq<CancellationResult>)
      returns (longer: seq<CancellationResult>)
      requires RegistryOk(before) && View() == RemoveAll(before, gone) && claim in entries && claim !in gone
      requires Reported(entries, gone, results) && |results| == |gone|
      modifies this`pending
      ensures View() == RemoveAll(before, gone + {claim})
      ensures Reported(entries, gone + {claim}, longer) && |longer| == |gone + {claim}|
    {
      RemoveAllOk(before, gone);
      RemoveMore(before, gone, claim);
      RemoveEntry(claim);
      ReportOneMore(entries, gone, results, claim);
      longer := results + [ResultFor(claim, entries[claim].status, None)];
    }

    /** Remove the entries of `chosen`, and report each once. */
    method RemoveEntries(chosen: set<Claim>) returns (results: seq<CancellationResult>)
      requires Valid() && forall c | c in chosen :: c in entries
      modifies this`pending
      ensures Valid() && View() == RemoveAll(old(View()), chosen)
      ensures |results| == |chosen| && Reported(entries, chosen, results)
    {
      ghost var before, gone: set<Claim> := View(), {};
      RemoveNone(before);
      results := [];
      var rest := chosen;
      while rest != {}
        invariant gone + rest == chosen && gone !! rest
        invariant View() == RemoveAll(before, gone)
        invariant |results| == |gone| && Reported(entries, gone, results)
        decreases |rest|
      {
        var claim :| claim in rest;
        results := RemoveNext(before, gone, claim, results);
        gone := gone + {claim};
        rest := rest - {claim};
      }
      RemoveAllOk(before, chosen);
      assert gone == chosen;
    }

    /** The distinct entries that are in scope and not excluded. */
    method Choose(scope: Option<Scope>, context: Option<Claim>) returns (chosen: set<Claim>)
      requires Valid()
      ensures chosen == Selected(View(), scope, context) && forall c | c in chosen :: c in entries
    {
      chosen := set k | k in pending && (scope.None? || k.scope == scope.value)
                        && context != Some(pending[k])
                        && !(pending[k] in activeCancellations && activeCancellations[pending[k]] > 0) :: pending[k];
    }

    /** The locked block of `cancel_all` and `cancel_scope`: one result per entry. */
    method CancelMatching(scope: Option<Scope>, context: Option<Claim>) returns (results: seq<CancellationResult>)
      requires Valid()
      modifies this`pending
      ensures Valid() && View() == RemoveAll(old(View()), Selected(old(View()), scope, context))
      ensures |results| == |Selected(old(View()), scope, context)|
      ensures Reported(entries, Selected(old(View()), scope, context), results)
    {
      var chosen := Choose(scope, context);
      results := RemoveEntries(chosen);
    }

    method ProtectClaim(context: Option<Claim>)
      modifies this`activeCancellations
      ensures View() == Protect(old(View()), context)
    {
      if context.Some? {
        var count := if context.value in activeCancellations then activeCancellations[context.value] else 0;
        activeCancellations := activeCancellations[context.value := count + 1];
      }
    }

    method UnprotectClaim(context: Option<Claim>)
      requires context.Some? ==> context.value in activeCancellations && activeCancellations[context.value] > 0
      modifies this`activeCancellations
      ensures View() == Unprotect(old(View()), context)
    {
      if context.Some? {
        var remaining := activeCancellations[context.value] - 1;
        if remaining > 0 {
          activeCancellations := activeCancellations[context.value := remaining];
        } else {
          activeCancellations := activeCancellations - {context.value};
        }
      }
    }
  }

  lemma RemoveTwice(r: Registry, claims: set<Claim>, c: Claim)
    requires RegistryOk(r) && c in r.entries
    ensures RemoveAll(RemoveAll(r, claims), {c}) == RemoveAll(r, claims + {c})
  {
  }

  /** Every claim of `claims` has its result. */
  ghost predicate Reported(entries: map<Claim, Entry>, claims: set<Claim>, results: seq<CancellationResult>) {
    forall c | c in claims :: c in entries && ResultFor(c, entries[c].status, None) in results
  }

  lemma ReportOneMore(entries: map<Claim, Entry>, claims: set<Claim>, results: seq<CancellationResult>, c: Claim)
    requires Reported(entries, claims, results) && c in entries
    ensures Reported(entries, claims + {c}, results + [ResultFor(c, entries[c].status, None)])
  {
  }

  lemma RemoveMore(r: Registry, claims: set<Claim>, c: Claim)
    requires RegistryOk(r) && RegistryOk(RemoveAll(r, claims)) && c in r.entries
    ensures Remove(RemoveAll(r, claims), c) == RemoveAll(r, claims + {c})
    ensures RegistryOk(RemoveAll(r, claims + {c}))
  {
    RemoveIsExact(RemoveAll(r, claims), c);
    RemoveTwice(r, claims, c);
  }

  lemma RemoveNone(r: Registry)
    requires RegistryOk(r)
    ensures RemoveAll(r, {}) == r
  {
    assert RemoveAll(r, {}).pending == r.pending;
  }
}
