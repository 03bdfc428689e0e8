/** The three services behind the guard: account-key rotation, client provisioning and batch invoicing. Clock
    readings, minted ids and secrets, and store faults are parameters. */
module GuardedServices {
  import opened Wrappers
  import opened Text
  import opened IdempotencyGuard
  import opened StringOrder
  import C = Consumption
  import I = Invoicing

  /** The call a service made to the guard, and the answer it got. */
  ghost predicate Answered<V(!new)>(before: map<Key, Entry<V>>, after: map<Key, Entry<V>>, ttl: int,
                                    account: string, idemKey: string, now: int, recorded: int, work: Option<V>, a: Answer<V>)
  {
    (after, a) == Guarded(before, ttl, Call(GuardKey(Trim(account), Trim(idemKey)), now, recorded, work))
  }

  // ---- rotating an account key ----

  datatype Rotation = Minted(plaintext: string) | AlreadyRotated | Invalid | MintFailed

  class AccountKeyService {
    const guard: Guard<bool>
    var keys: map<string, string>
    var audits: seq<string>

    constructor ()
      ensures fresh(guard) && guard.seen == map[] && guard.ttl == 900 && keys == map[] && audits == []
    {
      guard := new Guard<bool>(TTL);
      keys, audits := map[], [];
    }

    /** Mints at most once under a key: a repeat within the limit returns no secret and leaves the account's
        key alone. The guard remembers that the key was used, never the secret. A failed audit fails the call
        without using up the key, though the account's key has then already changed. */
    method RotateAccountKey(account: string, idemKey: string, now: int, recorded: int, minted: Option<string>, audited: bool)
      returns (r: Rotation)
      modifies this, guard
      ensures Trim(account) == "" || Trim(idemKey) == "" ==> r == Invalid && guard.seen == old(guard.seen) && keys == old(keys) && audits == old(audits)
      ensures Trim(account) != "" && Trim(idemKey) != "" ==>
        var a := if r.Minted? then Fresh(true) else if r.AlreadyRotated? then Replay(true) else Failed;
        !r.Invalid? && (Replayable(old(guard.seen)) ==>
          Answered(old(guard.seen), guard.seen, guard.ttl, account, idemKey, now, recorded, if minted.Some? && audited then Some(true) else None, a))
      ensures r.Minted? ==> minted == Some(r.plaintext) && keys == old(keys)[Trim(account) := r.plaintext] && audits == old(audits) + [Trim(account)]
      ensures r.AlreadyRotated? ==> keys == old(keys) && audits == old(audits)
      ensures r.MintFailed? ==> keys == if minted.Some? then old(keys)[Trim(account) := minted.value] else old(keys)
      ensures r.MintFailed? ==> audits == old(audits)
      ensures Replayable(old(guard.seen)) ==> Replayable(guard.seen)
    {
      if Trim(account) == "" || Trim(idemKey) == "" { return Invalid; }
      var gkey := GuardKey(Trim(account), Trim(idemKey));
      guard.Prune(now);
      if gkey in guard.seen { return AlreadyRotated; }
      if minted.None? { return MintFailed; }
      keys := keys[Trim(account) := minted.value];
      if !audited { return MintFailed; }
      audits := audits + [Trim(account)];
      guard.seen := guard.seen[gkey := Entry(true, recorded)];
      return Minted(minted.value);
    }
  }

  /** The guard holds nothing but the fact of use. */
  ghost predicate Replayable(seen: map<Key, Entry<bool>>) {
    forall k :: k in seen ==> seen[k].value
  }

  // ---- provisioning a client ----

  const DEFAULT_NAME := "empresa-cliente"

  datatype Tenant = Tenant(account: string, name: string)

  datatype Provisioning = Provisioned(tenantId: string, webhookRef: string) | Refused | Unfinished

  class ClientProvisioningService {
    const guard: Guard<string>
    var tenants: map<string, Tenant>

    constructor ()
      ensures fresh(guard) && guard.seen == map[] && guard.ttl == 900 && tenants == map[]
    {
      guard := new Guard<string>(TTL);
      tenants := map[];
    }

    /** Creates one client under a key: a repeat within the limit returns the same client and no reference.
        A reference that cannot be minted fails the call without using up the key, so the client saved
        before it stays behind. */
    method Provision(account: string, name: string, idemKey: string, now: int, recorded: int,
                     newId: string, saved: bool, webhookRef: Option<string>) returns (r: Provisioning, ghost a: Answer<string>)
      modifies this, guard
      ensures Trim(account) == "" || Trim(idemKey) == "" ==> r == Refused && guard.seen == old(guard.seen) && tenants == old(tenants)
      ensures Trim(account) != "" && Trim(idemKey) != "" ==>
        Answered(old(guard.seen), guard.seen, guard.ttl, account, idemKey, now, recorded, if saved && webhookRef.Some? then Some(newId) else None, a)
      ensures Trim(account) != "" && Trim(idemKey) != "" && a.Fresh? ==> webhookRef.Some? && r == Provisioned(newId, webhookRef.value)
      ensures Trim(account) != "" && Trim(idemKey) != "" && a.Replay? ==>
        tenants == old(tenants) && r == if a.value in tenants then Provisioned(a.value, "") else Unfinished
      ensures Trim(account) != "" && Trim(idemKey) != "" && a.Failed? ==> r == Unfinished
      ensures Trim(account) != "" && Trim(idemKey) != "" && !a.Replay? ==>
        tenants == if saved then old(tenants)[newId := Tenant(Trim(account), if Trim(name) == "" then "empresa-cliente" else Trim(name))] else old(tenants)
    {
      a := Failed;
      if Trim(account) == "" || Trim(idemKey) == "" { return Refused, a; }
      var title := Trim(name);
      if title == "" { title := DEFAULT_NAME; }
      var gkey := GuardKey(Trim(account), Trim(idemKey));
      guard.Prune(now);
      if gkey in guard.seen {
        var id := guard.seen[gkey].value;
        a := Replay(id);
        if id !in tenants { return Unfinished, a; }
        return Provisioned(id, ""), a;
      }
      if !saved { return Unfinished, a; }
      tenants := tenants[newId := Tenant(Trim(account), title)];
      if webhookRef.None? { return Unfinished, a; }
      guard.seen := guard.seen[gkey := Entry(newId, recorded)];
      a := Fresh(newId);
      return Provisioned(newId, webhookRef.value), a;
    }
  }

  // ---- invoicing an account ----

  class GuardedInvoicing {
    const guard: Guard<seq<I.Invoice>>
    const store: I.InvoiceStore

    constructor ()
      ensures fresh(guard) && fresh(store) && guard.seen == map[] && guard.ttl == 900 && store.invoices == []
    {
      guard := new Guard<seq<I.Invoice>>(TTL);
      store := new I.InvoiceStore();
    }

    /** With a key, a repeat within the limit returns the first batch and adds no invoice; without one every
        call generates. */
    method GenerateAccountInvoices(account: string, idemKey: string, now: int, ledger: seq<C.Entry>, tenants: seq<Name>, rng: C.Range, fault: I.Fault)
      returns (out: Option<seq<I.Invoice>>, ghost a: Answer<seq<I.Invoice>>)
      modifies guard, store
      ensures Trim(idemKey) == "" ==> guard.seen == old(guard.seen) && a == if out.Some? then Fresh(out.value) else Failed
      ensures Trim(idemKey) != "" ==>
        Answered(old(guard.seen), guard.seen, guard.ttl, account, idemKey, now, now, if a.Fresh? then Some(a.value) else None, a)
      ensures a.Replay? ==> out == Some(a.value) && store.invoices == old(store.invoices)
      ensures a.Fresh? ==> out == Some(a.value) && store.invoices == old(store.invoices) + a.value && I.IsBatch(a.value, tenants, ledger, rng)
      ensures a.Failed? ==> out.None? && old(store.invoices) <= store.invoices
    {
      var gkey := GuardKey(Trim(account), Trim(idemKey));
      if Trim(idemKey) != "" {
        guard.Prune(now);
        if gkey in guard.seen {
          return Some(guard.seen[gkey].value), Replay(guard.seen[gkey].value);
        }
      }
      ghost var made, done;
      out, made, done := store.GenerateAccountInvoices(ledger, tenants, rng, fault);
      if out.None? { return None, Failed; }
      if Trim(idemKey) != "" {
        guard.seen := guard.seen[gkey := Entry(out.value, now)];
      }
      return out, Fresh(out.value);
    }
  }
}
