/** The pending voice registry: ownership of a voice note under two keys, its voice message
    and its status message, and the protection of claims whose callbacks cancel others. */
module VoiceRegistry {
  import opened Options

  datatype Scope = Scope(platform: string, chatId: string)

  /** The ownership token; `claimId` is fresh for every reservation. */
  datatype Claim = Claim(scope: Scope, voiceId: string, claimId: nat)

  datatype Key = Key(scope: Scope, id: string)

  datatype Entry = Entry(status: Option<string>, handedOff: bool)

  /** `pending` maps both keys of an entry to its claim; `entries` keeps the entry of every
      claim ever made, as the flows that hold them do. */
  datatype Registry = Registry(
    pending: map<Key, Claim>, entries: map<Claim, Entry>, nextClaim: nat, active: map<Claim, nat>)

  function VoiceKey(c: Claim): Key { Key(c.scope, c.voiceId) }

  /** `_entry_for_claim` finds an entry. */
  predicate Live(r: Registry, c: Claim) {
    VoiceKey(c) in r.pending && r.pending[VoiceKey(c)] == c && c in r.entries
  }

  predicate Owns(r: Registry, c: Claim, k: Key) { k in r.pending && r.pending[k] == c }

  /** Each live claim owns exactly its voice key and, once bound, its status key. */
  ghost predicate RegistryOk(r: Registry) {
    && (forall c, k | k in r.pending && r.pending[k] == c ::
          && c in r.entries && Live(r, c) && k.scope == c.scope
          && (k.id == c.voiceId || r.entries[c].status == Some(k.id)))
    && (forall c | Live(r, c) && r.entries[c].status.Some? :: Owns(r, c, Key(c.scope, r.entries[c].status.value)))
    && (forall c | c in r.entries :: c.claimId < r.nextClaim)
    && (forall c | c in r.active :: r.active[c] > 0)
  }

  function Empty(): Registry { Registry(map[], map[], 0, map[]) }

  /** The registry with a fresh claim. */
  function Reserved(r: Registry, claim: Claim): Registry {
    r.(pending := r.pending[VoiceKey(claim) := claim], entries := r.entries[claim := Entry(None, false)],
       nextClaim := r.nextClaim + 1)
  }

  function Reserve(r: Registry, scope: Scope, voiceId: string): (Registry, Option<Claim>) {
    var claim := Claim(scope, voiceId, r.nextClaim);
    if Key(scope, voiceId) in r.pending then (r, None)
    else (Reserved(r, claim), Some(claim))
  }

  /** The registry after a successful binding. */
  function Bound(r: Registry, c: Claim, status: string): Registry
    requires c in r.entries
  {
    r.(entries := r.entries[c := r.entries[c].(status := Some(status))], pending := r.pending[Key(c.scope, status) := c])
  }

  function BindStatus(r: Registry, c: Claim, status: string): (Registry, bool) {
    var key := Key(c.scope, status);
    if !Live(r, c) then (r, false)
    else if r.entries[c].status.Some? then (r, r.entries[c].status.value == status)
    else if key in r.pending && r.pending[key] != c then (r, false)
    else (Bound(r, c, status), true)
  }

  /** The locked block of `handoff`; false is the REJECTED outcome. */
  function StartHandoff(r: Registry, c: Claim): (Registry, bool) {
    if !Live(r, c) || r.entries[c].status.None? || r.entries[c].handedOff then (r, false)
    else (r.(entries := r.entries[c := r.entries[c].(handedOff := true)]), true)
  }

  /** The keys `_remove` pops: those of the entry that still lead to it. */
  function OwnKeys(r: Registry, c: Claim): set<Key>
    requires c in r.entries
  {
    (if Owns(r, c, VoiceKey(c)) then {VoiceKey(c)} else {})
    + (if r.entries[c].status.Some? && Owns(r, c, Key(c.scope, r.entries[c].status.value))
       then {Key(c.scope, r.entries[c].status.value)} else {})
  }

  function Remove(r: Registry, c: Claim): Registry
    requires c in r.entries
  {
    r.(pending := r.pending - OwnKeys(r, c))
  }

  /** `discard`, and the end of a handoff: true when this call releases the ownership. */
  function Discard(r: Registry, c: Claim): (Registry, bool) {
    if Live(r, c) then (Remove(r, c), true) else (r, false)
  }

  predicate Excluded(r: Registry, c: Claim, current: Option<Claim>) {
    current == Some(c) || (c in r.active && r.active[c] > 0)
  }

  /** The locked block of `cancel`. */
  function CancelOne(r: Registry, scope: Scope, reply: string, current: Option<Claim>): (Registry, Option<Claim>)
    requires forall k | k in r.pending :: r.pending[k] in r.entries
  {
    var key := Key(scope, reply);
    if key !in r.pending || Excluded(r, r.pending[key], current) then (r, None)
    else (Remove(r, r.pending[key]), Some(r.pending[key]))
  }

  /** The entries a bulk cancellation selects. */
  function Selected(r: Registry, scope: Option<Scope>, current: Option<Claim>): set<Claim> {
    set k | k in r.pending && (scope.None? || k.scope == scope.value) && !Excluded(r, r.pending[k], current) :: r.pending[k]
  }

  /** The registry once every entry of `claims` is removed. */
  function RemoveAll(r: Registry, claims: set<Claim>): Registry {
    r.(pending := map k | k in r.pending && r.pending[k] !in claims :: r.pending[k])
  }

  function Protect(r: Registry, current: Option<Claim>): Registry {
    if current.None? then r
    else r.(active := r.active[current.value := (if current.value in r.active then r.active[current.value] else 0) + 1])
  }

  function Unprotect(r: Registry, current: Option<Claim>): Registry {
    if current.None? || current.value !in r.active then r
    else if r.active[current.value] > 1 then r.(active := r.active[current.value := r.active[current.value] - 1])
    else r.(active := r.active - {current.value})
  }

  // ---- Ownership ----

  lemma ReservedOk(r: Registry, claim: Claim)
    requires RegistryOk(r) && claim.claimId == r.nextClaim && VoiceKey(claim) !in r.pending
    ensures claim !in r.entries && RegistryOk(Reserved(r, claim)) && Live(Reserved(r, claim), claim)
  {
    var r' := Reserved(r, claim);
    assert forall other :: Live(r', other) <==> other == claim || Live(r, other);
    forall c | Live(r', c) && r'.entries[c].status.Some?
      ensures Owns(r', c, Key(c.scope, r'.entries[c].status.value))
    {
      assert Owns(r, c, Key(c.scope, r.entries[c].status.value));
    }
  }

  lemma ReserveOk(r: Registry, scope: Scope, voiceId: string)
    requires RegistryOk(r)
    ensures var (r', claim) := Reserve(r, scope, voiceId);
      && RegistryOk(r')
      && (claim.Some? <==> Key(scope, voiceId) !in r.pending)
      && (claim.Some? ==> claim.value !in r.entries && Live(r', claim.value) && r'.entries[claim.value].status.None?)
  {
    if Key(scope, voiceId) !in r.pending { ReservedOk(r, Claim(scope, voiceId, r.nextClaim)); }
  }

  lemma BoundOk(r: Registry, c: Claim, status: string)
    requires RegistryOk(r) && Live(r, c) && r.entries[c].status.None?
    requires Key(c.scope, status) in r.pending ==> r.pending[Key(c.scope, status)] == c
    ensures RegistryOk(Bound(r, c, status)) && Live(Bound(r, c, status), c)
  {
    var r' := Bound(r, c, status);
    assert forall other :: Live(r', other) <==> Live(r, other);
    forall other | Live(r', other) && r'.entries[other].status.Some?
      ensures Owns(r', other, Key(other.scope, r'.entries[other].status.value))
    {
      assert other != c ==> Owns(r, other, Key(other.scope, r.entries[other].status.value));
    }
  }

  lemma BindOk(r: Registry, c: Claim, status: string)
    requires RegistryOk(r)
    ensures var (r', ok) := BindStatus(r, c, status);
      && RegistryOk(r')
      && (ok ==> Live(r', c) && r'.entries[c].status == Some(status) && Owns(r', c, Key(c.scope, status)))
      && (!ok ==> r' == r)
      && (Live(r, c) && r.entries[c].status == Some(status) ==> ok && r' == r)
      && (Live(r, c) && r.entries[c].status.None? ==> (ok <==> Key(c.scope, status) !in r.pending || Owns(r, c, Key(c.scope, status))))
  {
    if BindStatus(r, c, status).0 != r { BoundOk(r, c, status); }
  }

  lemma HandoffOk(r: Registry, c: Claim)
    requires RegistryOk(r)
    ensures RegistryOk(StartHandoff(r, c).0)
  {
    var r' := StartHandoff(r, c).0;
    assert forall other :: Live(r', other) <==> Live(r, other);
    forall other | Live(r', other) && r'.entries[other].status.Some?
      ensures Owns(r', other, Key(other.scope, r'.entries[other].status.value))
    {
      assert r.entries[other].status == r'.entries[other].status;
    }
  }

  lemma OwnKeysExact(r: Registry, c: Claim, k: Key)
    requires RegistryOk(r) && c in r.entries
    ensures Owns(r, c, k) <==> k in OwnKeys(r, c)
  {
  }

  /** `_remove` leaves no key of the entry behind, and takes no other entry's. */
  lemma RemoveIsExact(r: Registry, c: Claim)
    requires RegistryOk(r) && c in r.entries
    ensures RegistryOk(Remove(r, c)) && !Live(Remove(r, c), c)
    ensures Remove(r, c) == RemoveAll(r, {c})
    ensures forall k :: Owns(r, c, k) <==> k in OwnKeys(r, c)
  {
    forall k ensures Owns(r, c, k) <==> k in OwnKeys(r, c) { OwnKeysExact(r, c, k); }
    assert Remove(r, c).pending == RemoveAll(r, {c}).pending;
    RemoveAllOk(r, {c});
  }

  lemma RemoveAllOk(r: Registry, claims: set<Claim>)
    requires RegistryOk(r)
    ensures RegistryOk(RemoveAll(r, claims))
    ensures forall c | c in claims :: !Live(RemoveAll(r, claims), c)
    ensures forall c | c !in claims :: Live(RemoveAll(r, claims), c) <==> Live(r, c)
  {
    var r' := RemoveAll(r, claims);
    forall c, k | k in r'.pending && r'.pending[k] == c
      ensures c in r'.entries && Live(r', c) && k.scope == c.scope && (k.id == c.voiceId || r'.entries[c].status == Some(k.id))
    {
      assert k in r.pending && r.pending[k] == c && Live(r, c);
    }
    forall c | Live(r', c) && r'.entries[c].status.Some?
      ensures Owns(r', c, Key(c.scope, r'.entries[c].status.value))
    {
      assert Live(r, c);
    }
  }

  /** A release succeeds exactly on a live claim, which loses its keys; everybody else's keys and
      claims stay, and a second release of it fails. */
  lemma DiscardOk(r: Registry, c: Claim, other: Claim)
    requires RegistryOk(r)
    ensures var (r', released) := Discard(r, c);
      && RegistryOk(r') && !Live(r', c) && r'.entries == r.entries
      && (released <==> Live(r, c))
      && (other != c ==> (Live(r', other) <==> Live(r, other)))
      && !Discard(r', c).1 && (!released ==> r' == r)
  {
    if Live(r, c) {
      RemoveIsExact(r, c);
      RemoveAllOk(r, {c});
    }
  }

  /** A bulk cancellation selects every live entry of the scope that is not excluded,
      once, whatever the number of its keys. */
  lemma SelectedOnce(r: Registry, scope: Option<Scope>, current: Option<Claim>, c: Claim)
    requires RegistryOk(r)
    ensures c in Selected(r, scope, current) <==>
            Live(r, c) && (scope.None? || c.scope == scope.value) && !Excluded(r, c, current)
  {
    if c in Selected(r, scope, current) {
      var k :| k in r.pending && (scope.None? || k.scope == scope.value) && r.pending[k] == c;
      assert Live(r, c) && k.scope == c.scope;
    } else if Live(r, c) {
      assert r.pending[VoiceKey(c)] == c;
    }
  }

  /** It leaves only excluded entries there, and everything in every other scope. */
  lemma BulkCancelIsExact(r: Registry, scope: Option<Scope>, current: Option<Claim>, k: Key)
    requires RegistryOk(r) && k in r.pending
    ensures var r' := RemoveAll(r, Selected(r, scope, current));
      && RegistryOk(r')
      && (k in r'.pending <==> (scope.Some? && k.scope != scope.value) || Excluded(r, r.pending[k], current))
      && (k in r'.pending ==> r'.pending[k] == r.pending[k])
  {
    RemoveAllOk(r, Selected(r, scope, current));
    SelectedOnce(r, scope, current, r.pending[k]);
  }
}
