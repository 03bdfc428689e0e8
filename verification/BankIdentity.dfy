/** Which tenant may hold a bank identity: a PIX key and a PSP account (client id) belong to at most one
    active tenant at a time, because the PSP keeps one callback slot per identity. */
module BankIdentity {
  import opened Text

  datatype Credential = Credential(clientId: string, creditorKey: string)

  /** Tenants with their active flag, and the bank credential rows (a row may be an orphan). */
  datatype Directory = Directory(active: map<string, bool>, creds: map<string, Credential>)

  predicate IsActive(d: Directory, t: string) {
    t in d.active && d.active[t]
  }

  datatype Identity = PixKey(value: string) | Account(value: string)

  predicate Holds(d: Directory, t: string, id: Identity) {
    && t in d.creds && id.value != ""
    && match id
       case PixKey(k) => d.creds[t].creditorKey == k
       case Account(c) => d.creds[t].clientId == c
  }

  /** Some active tenant other than t holds the identity. */
  predicate Claimed(d: Directory, t: string, id: Identity) {
    exists o :: o in d.creds && o != t && Holds(d, o, id) && IsActive(d, o)
  }

  ghost predicate Exclusive(d: Directory) {
    forall a, b, id :: IsActive(d, a) && IsActive(d, b) && Holds(d, a, id) && Holds(d, b, id) ==> a == b
  }

  datatype Verdict = Free | Taken | CannotTell

  /** Looks through the holders for an active one that is not the tenant itself. An unknown holder does
      not block; a tenant read that fails stops the search with no verdict. */
  method AnyOtherActiveHolder(d: Directory, tenant: string, holders: seq<string>, unreadable: set<string>)
    returns (v: Verdict)
    ensures v.Taken? ==> exists o :: o in holders && o != tenant && IsActive(d, o)
    ensures v.Free? ==> forall o :: o in holders && o != tenant ==> !IsActive(d, o) && o !in unreadable
    ensures v.CannotTell? ==> exists o :: o in holders && o != tenant && o in unreadable
  {
    for i := 0 to |holders|
      invariant forall o :: o in holders[..i] && o != tenant ==> !IsActive(d, o) && o !in unreadable
    {
      var other := holders[i];
      if other != tenant {
        if other in unreadable { return CannotTell; }
        if IsActive(d, other) { return Taken; }
      }
    }
    assert holders[..|holders|] == holders;
    return Free;
  }

  datatype Write =
    | SetCredential(tenant: string, clientId: string)
    | SetKey(tenant: string, creditorKey: string)
    | Suspend(tenant: string)
    | RemoveConfig(tenant: string)
    | Register(tenant: string)
    | Activate(tenant: string)

  /** One whole write call. A write for an unknown tenant, a claimed identity or a key without a
      credential row is refused and changes nothing. */
  function ApplyWrite(d: Directory, w: Write): Directory {
    match w
    case SetCredential(t, c) =>
      if t !in d.active || Claimed(d, t, Account(c)) || c == "" then d
      else d.(creds := d.creds[t := Credential(c, if t in d.creds then d.creds[t].creditorKey else "")])
    case SetKey(t, raw) =>
      var k := Trim(raw);
      if t !in d.active || Claimed(d, t, PixKey(k)) || k == "" || t !in d.creds then d
      else d.(creds := d.creds[t := d.creds[t].(creditorKey := k)])
    case Suspend(t) => if t in d.active then d.(active := d.active[t := false]) else d
    case RemoveConfig(t) => if t in d.active then d.(creds := d.creds - {t}) else d
    case Register(t) => if t in d.active || t in d.creds then d else d.(active := d.active[t := true])
    case Activate(t) => if t in d.active then d.(active := d.active[t := true]) else d
  }

  /** An unclaimed write for a registered tenant takes effect: the key is stored trimmed over an existing
      credential, a client id keeps the key it finds, and no other row changes. A claimed, blank or homeless
      one changes nothing. */
  lemma WritesTakeEffectExactly(d: Directory, t: string, clientId: string, raw: string)
    ensures ApplyWrite(d, SetCredential(t, clientId)) ==
      if t in d.active && clientId != "" && !(exists o :: o in d.creds && o != t && d.creds[o].clientId == clientId && IsActive(d, o))
      then d.(creds := d.creds[t := Credential(clientId, if t in d.creds then d.creds[t].creditorKey else "")]) else d
    ensures ApplyWrite(d, SetKey(t, raw)) ==
      if t in d.active && t in d.creds && Trim(raw) != ""
         && !(exists o :: o in d.creds && o != t && d.creds[o].creditorKey == Trim(raw) && IsActive(d, o))
      then d.(creds := d.creds[t := Credential(d.creds[t].clientId, Trim(raw))]) else d
  {
    var k := PixKey(Trim(raw));
    forall o | o in d.creds && o != t && IsActive(d, o) && d.creds[o].creditorKey == Trim(raw) && Trim(raw) != "" ensures Claimed(d, t, k) {
      assert Holds(d, o, k);
    }
    forall o | o in d.creds && o != t && IsActive(d, o) && d.creds[o].clientId == clientId && clientId != "" ensures Claimed(d, t, Account(clientId)) {
      assert Holds(d, o, Account(clientId));
    }
  }

  /** Suspending and activating only flip the flag; removing only drops the row. */
  lemma OtherWritesTakeEffect(d: Directory, t: string)
    requires t in d.active
    ensures ApplyWrite(d, Suspend(t)) == Directory(d.active[t := false], d.creds)
    ensures ApplyWrite(d, Activate(t)) == Directory(d.active[t := true], d.creds)
    ensures ApplyWrite(d, RemoveConfig(t)) == Directory(d.active, d.creds - {t})
  {
  }

  /** Another active tenant holds the tenant's PIX key or its PSP account. */
  predicate SharesIdentity(d: Directory, t: string) {
    && t in d.creds
    && (Claimed(d, t, PixKey(d.creds[t].creditorKey)) || Claimed(d, t, Account(d.creds[t].clientId)))
  }

  lemma SharedMeansBothHold(d: Directory, t: string, o: string, id: Identity)
    requires t != o && Holds(d, t, id) && Holds(d, o, id) && IsActive(d, o)
    ensures SharesIdentity(d, t)
  {
  }

  /** Activation performs no sharing check: it keeps exclusivity exactly when no other active tenant
      holds an identity of the tenant being activated. */
  lemma ActivateExclusiveExactlyWhenUnshared(d: Directory, t: string)
    requires Exclusive(d) && t in d.active
    ensures Exclusive(ApplyWrite(d, Activate(t))) <==> !SharesIdentity(d, t)
  {
    var d' := ApplyWrite(d, Activate(t));
    if SharesIdentity(d, t) {
      var k, c := PixKey(d.creds[t].creditorKey), Account(d.creds[t].clientId);
      var id := if Claimed(d, t, k) then k else c;
      var o :| o in d.creds && o != t && Holds(d, o, id) && IsActive(d, o);
      assert Holds(d', t, id) && Holds(d', o, id) && IsActive(d', o) && IsActive(d', t);
    } else {
      forall a, b, id | IsActive(d', a) && IsActive(d', b) && Holds(d', a, id) && Holds(d', b, id) ensures a == b {
        assert Holds(d, a, id) && Holds(d, b, id);
        if a != b && a == t { SharedMeansBothHold(d, t, b, id); }
        if a != b && b == t { SharedMeansBothHold(d, t, a, id); }
      }
    }
  }

  lemma GuardedWriteKeepsExclusive(d: Directory, w: Write)
    requires Exclusive(d) && !w.Activate?
    ensures Exclusive(ApplyWrite(d, w))
  {
    var d' := ApplyWrite(d, w);
    forall a, b, id | IsActive(d', a) && IsActive(d', b) && Holds(d', a, id) && Holds(d', b, id) ensures a == b {
      assert Holds(d, a, id) || (a == w.tenant && !Claimed(d, a, id));
      assert Holds(d, b, id) || (b == w.tenant && !Claimed(d, b, id));
      assert a != w.tenant ==> IsActive(d, a);
      assert b != w.tenant ==> IsActive(d, b);
    }
  }

  // ---- the guarded writes as the console runs them ----

  /** The rows holding an identity, in any order. */
  ghost predicate Lists(holders: seq<string>, d: Directory, id: Identity) {
    forall o :: o in holders <==> o in d.creds && Holds(d, o, id)
  }

  /** The verdict is about the claim itself: free and taken are certain, and only an unreadable holder leaves
      it open. */
  method CheckUnclaimed(d: Directory, tenant: string, id: Identity, holders: seq<string>, unreadable: set<string>) returns (v: Verdict)
    requires Lists(holders, d, id)
    ensures v.Taken? ==> Claimed(d, tenant, id)
    ensures v.Free? ==> !Claimed(d, tenant, id)
    ensures unreadable == {} ==> !v.CannotTell?
  {
    v := AnyOtherActiveHolder(d, tenant, holders, unreadable);
  }

  /** Fails closed: without a certain verdict nothing is written. */
  method SetCreditorKey(d: Directory, tenant: string, raw: string, holders: seq<string>, unreadable: set<string>) returns (r: Directory)
    requires Lists(holders, d, PixKey(Trim(raw)))
    ensures r == ApplyWrite(d, SetKey(tenant, raw)) || (r == d && unreadable != {})
  {
    if tenant !in d.active { return d; }
    var key := Trim(raw);
    var v := CheckUnclaimed(d, tenant, PixKey(key), holders, unreadable);
    if !v.Free? || key == "" || tenant !in d.creds { return d; }
    return d.(creds := d.creds[tenant := d.creds[tenant].(creditorKey := key)]);
  }

  method SetBankCredential(d: Directory, tenant: string, clientId: string, holders: seq<string>, unreadable: set<string>) returns (r: Directory)
    requires Lists(holders, d, Account(clientId))
    ensures r == ApplyWrite(d, SetCredential(tenant, clientId)) || (r == d && unreadable != {})
  {
    if tenant !in d.active { return d; }
    var v := CheckUnclaimed(d, tenant, Account(clientId), holders, unreadable);
    if !v.Free? || clientId == "" { return d; }
    return d.(creds := d.creds[tenant := Credential(clientId, if tenant in d.creds then d.creds[tenant].creditorKey else "")]);
  }

  // ---- rows the guard cannot open ----

  /** Another active tenant holds the key in a row that can be opened. */
  predicate ClaimedInSight(d: Directory, t: string, id: Identity, closed: set<string>) {
    exists o :: o in d.creds && o != t && o !in closed && Holds(d, o, id) && IsActive(d, o)
  }

  /** The key write when some rows do not open: they are skipped, not counted as holders. */
  function SetKeyPastClosedRows(d: Directory, t: string, raw: string, closed: set<string>): Directory {
    var k := Trim(raw);
    if t !in d.active || ClaimedInSight(d, t, PixKey(k), closed) || k == "" || t !in d.creds then d
    else d.(creds := d.creds[t := d.creds[t].(creditorKey := k)])
  }

  /** Such a write breaks exclusivity exactly when it goes through for an active tenant while a row that did
      not open holds the key for another active one. */
  lemma ClosedRowsBreakExclusivityExactly(d: Directory, t: string, raw: string, closed: set<string>)
    requires Exclusive(d)
    ensures var k := PixKey(Trim(raw));
      !Exclusive(SetKeyPastClosedRows(d, t, raw, closed)) <==>
        (IsActive(d, t) && t in d.creds && k.value != "" && !ClaimedInSight(d, t, k, closed) && Claimed(d, t, k))
  {
    var k := PixKey(Trim(raw));
    var d' := SetKeyPastClosedRows(d, t, raw, closed);
    if IsActive(d, t) && t in d.creds && k.value != "" && !ClaimedInSight(d, t, k, closed) && Claimed(d, t, k) {
      var o :| o in d.creds && o != t && Holds(d, o, k) && IsActive(d, o);
      assert Holds(d', t, k) && Holds(d', o, k) && IsActive(d', t) && IsActive(d', o);
    } else {
      forall a, b, id | IsActive(d', a) && IsActive(d', b) && Holds(d', a, id) && Holds(d', b, id) ensures a == b {
        assert a != t ==> Holds(d, a, id);
        assert b != t ==> Holds(d, b, id);
        assert a == t && !Holds(d, a, id) ==> id == k;
        assert b == t && !Holds(d, b, id) ==> id == k;
      }
    }
  }

  function AfterWrites(d: Directory, ws: seq<Write>): Directory {
    if ws == [] then d else ApplyWrite(AfterWrites(d, ws[..|ws| - 1]), ws[|ws| - 1])
  }

  /** Any sequence of guarded credential and key writes, registrations, suspensions and removals leaves
      each PIX key and each client id with at most one active tenant. */
  lemma {:induction false} WritesKeepExclusive(d: Directory, ws: seq<Write>)
    requires Exclusive(d) && forall w :: w in ws ==> !w.Activate?
    ensures Exclusive(AfterWrites(d, ws))
  {
    if ws != [] {
      WritesKeepExclusive(d, ws[..|ws| - 1]);
      GuardedWriteKeepsExclusive(AfterWrites(d, ws[..|ws| - 1]), ws[|ws| - 1]);
    }
  }
}
