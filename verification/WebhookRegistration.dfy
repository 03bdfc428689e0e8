/** In-flow registration of a tenant's PSP callbacks and the sweep that repairs it. One secret ref serves
    all channels of a tenant; minting a new one kills the old one everywhere. */
module WebhookRegistration {
  import opened Text
  import opened BankIdentity

  /** The PSP keeps one URL per slot: the PIX slot per creditor key, the others per account. */
  datatype Slot = PixSlot(key: string) | RecSlot(account: string) | CobRSlot(account: string)
    | ServiceSlot(account: string, service: string)

  /** What the deployment wires: the recurrence channels, the proprietary services, the ref store and
      the tenant reader. */
  datatype Config = Config(baseUrl: string, recurrence: bool, services: seq<string>, refStore: bool, tenantGate: bool)

  const CALLBACK_PATH := "/webhooks/c6/"

  function Prefix(cfg: Config): string {
    cfg.baseUrl + CALLBACK_PATH
  }

  function Callback(cfg: Config, ref: string): string {
    Prefix(cfg) + ref
  }

  /** Active refs by owning tenant, and the PSP's slots. */
  datatype World = World(refs: map<string, string>, slots: map<Slot, string>, dir: Directory)

  /** Which calls of one attempt fail. A lost write never reached the PSP; an unconfirmed one did, but
      its answer or its readback failed. */
  datatype Weather = Weather(
    tenantRead: bool, credentialRead: bool, slotReads: set<Slot>, refReads: set<Slot>,
    mint: bool, lostWrites: set<Slot>, unconfirmed: set<Slot>)

  const FAIR := Weather(false, false, {}, {}, false, {}, {})

  function ServiceSlots(account: string, services: seq<string>): seq<Slot> {
    seq(|services|, i requires 0 <= i < |services| => ServiceSlot(account, services[i]))
  }

  function ChannelsFor(cfg: Config, cred: Credential): seq<Slot> {
    [PixSlot(Trim(cred.creditorKey))]
    + (if cfg.recurrence then [RecSlot(cred.clientId), CobRSlot(cred.clientId)] else [])
    + ServiceSlots(cred.clientId, cfg.services)
  }

  // ---- classification ----

  datatype Health = Live | Stale | Unknown

  function Classify(cfg: Config, refs: map<string, string>, tenant: string, url: string, refReadFails: bool): Health {
    if !(Prefix(cfg) <= url) then Stale
    else
      var ref := url[|Prefix(cfg)|..];
      if ref == "" then Stale
      else if !cfg.refStore then Live
      else if refReadFails then Unknown
      else if ref in refs && refs[ref] == tenant then Live
      else Stale
  }

  datatype Decision = Satisfied | NeedsRegistration | Ambiguous

  datatype Sight = Fine | Bad | Unsure

  function SlotSight(w: World, cfg: Config, tenant: string, c: Slot, wx: Weather): Sight {
    if c in wx.slotReads then Unsure
    else if c !in w.slots then Bad
    else match Classify(cfg, w.refs, tenant, w.slots[c], c in wx.refReads)
      case Live => Fine
      case Stale => Bad
      case Unknown => Unsure
  }

  /** Satisfied needs every channel reachable; one unsure channel makes the whole gate ambiguous. */
  predicate Decides(w: World, cfg: Config, tenant: string, chans: seq<Slot>, wx: Weather, d: Decision) {
    match d
    case Ambiguous => exists c :: c in chans && SlotSight(w, cfg, tenant, c, wx).Unsure?
    case NeedsRegistration =>
      && (forall c :: c in chans ==> !SlotSight(w, cfg, tenant, c, wx).Unsure?)
      && (exists c :: c in chans && SlotSight(w, cfg, tenant, c, wx).Bad?)
    case Satisfied => forall c :: c in chans ==> SlotSight(w, cfg, tenant, c, wx).Fine?
  }

  function Gate(w: World, cfg: Config, tenant: string, chans: seq<Slot>, wx: Weather): (d: Decision)
    ensures Decides(w, cfg, tenant, chans, wx, d)
  {
    if exists c :: c in chans && SlotSight(w, cfg, tenant, c, wx).Unsure? then Ambiguous
    else if exists c :: c in chans && SlotSight(w, cfg, tenant, c, wx).Bad? then NeedsRegistration
    else Satisfied
  }

  // ---- one attempt ----

  /** Binding a fresh ref revokes every ref the tenant had. */
  function PutRef(refs: map<string, string>, ref: string, tenant: string): map<string, string> {
    (map r | r in refs && refs[r] != tenant :: refs[r])[ref := tenant]
  }

  function WriteAll(slots: map<Slot, string>, chans: seq<Slot>, url: string, lost: set<Slot>): map<Slot, string> {
    if chans == [] then slots
    else
      var rest := WriteAll(slots, chans[..|chans| - 1], url, lost);
      var c := chans[|chans| - 1];
      if c in lost then rest else rest[c := url]
  }

  predicate MayRegister(w: World, cfg: Config, tenant: string, wx: Weather) {
    !cfg.tenantGate || (!wx.tenantRead && IsActive(w.dir, tenant))
  }

  /** The tenant is a candidate: it may register and its credential carries a creditor key. */
  predicate Eligible(w: World, cfg: Config, tenant: string, wx: Weather) {
    && MayRegister(w, cfg, tenant, wx)
    && !wx.credentialRead && tenant in w.dir.creds && Trim(w.dir.creds[tenant].creditorKey) != ""
  }

  function TryRegister(w: World, cfg: Config, tenant: string, ref: string, wx: Weather): World {
    if Trim(tenant) == "" || cfg.baseUrl == "" || !Eligible(w, cfg, Trim(tenant), wx) then w
    else
      var t := Trim(tenant);
      var chans := ChannelsFor(cfg, w.dir.creds[t]);
      if !Gate(w, cfg, t, chans, wx).NeedsRegistration? || wx.mint then w
      else w.(refs := PutRef(w.refs, ref, t), slots := WriteAll(w.slots, chans, Callback(cfg, ref), wx.lostWrites))
  }

  // ---- reachability ----

  /** A tenant never has two active refs. */
  ghost predicate OneRefEach(refs: map<string, string>) {
    forall r, q :: r in refs && q in refs && refs[r] == refs[q] ==> r == q
  }

  predicate HoldsAll(w: World, cfg: Config, tenant: string, ref: string) {
    && tenant in w.dir.creds
    && ref in w.refs && w.refs[ref] == tenant && ref != ""
    && forall c :: c in ChannelsFor(cfg, w.dir.creds[tenant]) ==> c in w.slots && w.slots[c] == Callback(cfg, ref)
  }

  /** Every channel holds the same URL, carrying the tenant's only active ref. */
  ghost predicate Reachable(w: World, cfg: Config, tenant: string) {
    exists ref :: HoldsAll(w, cfg, tenant, ref)
  }

  lemma CallbackParses(cfg: Config, ref: string)
    ensures Prefix(cfg) <= Callback(cfg, ref) && Callback(cfg, ref)[|Prefix(cfg)|..] == ref
  {
  }

  lemma {:induction false} WriteAllShape(slots: map<Slot, string>, chans: seq<Slot>, url: string, lost: set<Slot>)
    ensures forall c :: c in chans && c !in lost ==> c in WriteAll(slots, chans, url, lost) && WriteAll(slots, chans, url, lost)[c] == url
    ensures forall c :: c !in chans ==> (c in WriteAll(slots, chans, url, lost) <==> c in slots)
    ensures forall c :: c !in chans && c in slots ==> WriteAll(slots, chans, url, lost)[c] == slots[c]
  {
    if chans != [] {
      var n := |chans| - 1;
      WriteAllShape(slots, chans[..n], url, lost);
      assert forall c :: c in chans <==> c in chans[..n] || c == chans[n];
    }
  }

  lemma PutRefShape(refs: map<string, string>, ref: string, tenant: string)
    requires OneRefEach(refs)
    ensures OneRefEach(PutRef(refs, ref, tenant))
    ensures ref in PutRef(refs, ref, tenant) && PutRef(refs, ref, tenant)[ref] == tenant
    ensures forall r :: r != ref && r in refs && refs[r] != tenant ==> r in PutRef(refs, ref, tenant) && PutRef(refs, ref, tenant)[r] == refs[r]
  {
  }

  /** Whatever fails, an attempt never leaves a tenant with two active refs. */
  lemma TryRegisterKeepsOneRef(w: World, cfg: Config, tenant: string, ref: string, wx: Weather)
    requires OneRefEach(w.refs)
    ensures OneRefEach(TryRegister(w, cfg, tenant, ref, wx).refs)
    ensures TryRegister(w, cfg, tenant, ref, wx).dir == w.dir
  {
  }

  /** A live channel of a tenant holds the callback of one of its active refs. */
  lemma FineMeansCallback(w: World, cfg: Config, tenant: string, c: Slot, wx: Weather)
    requires cfg.refStore && SlotSight(w, cfg, tenant, c, wx).Fine?
    ensures c in w.slots && exists r :: r in w.refs && r != "" && w.refs[r] == tenant && w.slots[c] == Callback(cfg, r)
  {
  }

  lemma SatisfiedIsReachable(w: World, cfg: Config, tenant: string, wx: Weather)
    requires cfg.refStore && OneRefEach(w.refs) && tenant in w.dir.creds
    requires Gate(w, cfg, tenant, ChannelsFor(cfg, w.dir.creds[tenant]), wx).Satisfied?
    ensures Reachable(w, cfg, tenant)
  {
    var chans := ChannelsFor(cfg, w.dir.creds[tenant]);
    assert chans[0] in chans;
    FineMeansCallback(w, cfg, tenant, chans[0], wx);
    var ref :| ref in w.refs && ref != "" && w.refs[ref] == tenant && w.slots[chans[0]] == Callback(cfg, ref);
    forall c | c in chans ensures c in w.slots && w.slots[c] == Callback(cfg, ref) {
      FineMeansCallback(w, cfg, tenant, c, wx);
    }
    assert HoldsAll(w, cfg, tenant, ref);
  }

  /** From any state earlier partial failures can leave, one fault-free attempt makes every channel of an
      eligible tenant hold the same URL, with its single active ref. */
  lemma OneFairAttemptConverges(w: World, cfg: Config, tenant: string, ref: string)
    requires cfg.refStore && cfg.baseUrl != "" && OneRefEach(w.refs)
    requires Trim(tenant) == tenant && tenant != "" && Eligible(w, cfg, tenant, FAIR) && ref != ""
    ensures Reachable(TryRegister(w, cfg, tenant, ref, FAIR), cfg, tenant)
  {
    var chans := ChannelsFor(cfg, w.dir.creds[tenant]);
    var d := Gate(w, cfg, tenant, chans, FAIR);
    if d.NeedsRegistration? {
      PutRefShape(w.refs, ref, tenant);
      WriteAllShape(w.slots, chans, Callback(cfg, ref), {});
      assert HoldsAll(TryRegister(w, cfg, tenant, ref, FAIR), cfg, tenant, ref);
    } else {
      SatisfiedIsReachable(w, cfg, tenant, FAIR);
    }
  }

  /** Once reachable, any further attempt, however its reads fail, mints nothing and writes nothing. */
  lemma ReachableIsLeftAlone(w: World, cfg: Config, tenant: string, ref: string, wx: Weather)
    requires Reachable(w, cfg, Trim(tenant))
    ensures TryRegister(w, cfg, tenant, ref, wx) == w
  {
  }

  // ---- reachability, channel by channel ----

  /** The slot holds the public callback of the ref. */
  predicate Points(w: World, cfg: Config, c: Slot, ref: string) {
    c in w.slots && w.slots[c] == cfg.baseUrl + "/webhooks/c6/" + ref
  }

  /** Written out: an active ref of the tenant's own stands in its PIX slot, in both recurrence slots when
      recurrence is wired, and in the slot of every wired service. */
  ghost predicate Served(w: World, cfg: Config, tenant: string, ref: string) {
    && tenant in w.dir.creds && ref != "" && ref in w.refs && w.refs[ref] == tenant
    && var cred := w.dir.creds[tenant];
      && Points(w, cfg, PixSlot(Trim(cred.creditorKey)), ref)
      && (cfg.recurrence ==> Points(w, cfg, RecSlot(cred.clientId), ref) && Points(w, cfg, CobRSlot(cred.clientId), ref))
      && forall s :: s in cfg.services ==> Points(w, cfg, ServiceSlot(cred.clientId, s), ref)
  }

  ghost predicate FullyServed(w: World, cfg: Config, tenant: string) {
    exists ref :: Served(w, cfg, tenant, ref)
  }

  lemma ChannelsListed(cfg: Config, cred: Credential, c: Slot)
    ensures c in ChannelsFor(cfg, cred) <==>
      (|| c == PixSlot(Trim(cred.creditorKey))
       || (cfg.recurrence && (c == RecSlot(cred.clientId) || c == CobRSlot(cred.clientId)))
       || (c.ServiceSlot? && c.account == cred.clientId && c.service in cfg.services))
  {
    var services := ServiceSlots(cred.clientId, cfg.services);
    if c.ServiceSlot? && c.account == cred.clientId && c.service in cfg.services {
      var i :| 0 <= i < |cfg.services| && cfg.services[i] == c.service;
      assert services[i] == c;
    }
  }

  /** Reachable means exactly that. */
  lemma ReachableExactlyWhenServed(w: World, cfg: Config, tenant: string)
    ensures Reachable(w, cfg, tenant) <==> FullyServed(w, cfg, tenant)
  {
    if tenant in w.dir.creds {
      forall ref ensures HoldsAll(w, cfg, tenant, ref) <==> Served(w, cfg, tenant, ref) {
        HoldsAllIsServed(w, cfg, tenant, ref);
      }
    }
  }

  lemma HoldsAllIsServed(w: World, cfg: Config, tenant: string, ref: string)
    requires tenant in w.dir.creds
    ensures HoldsAll(w, cfg, tenant, ref) <==> Served(w, cfg, tenant, ref)
  {
    var cred := w.dir.creds[tenant];
    forall c ensures c in ChannelsFor(cfg, cred) <==>
      (|| c == PixSlot(Trim(cred.creditorKey))
       || (cfg.recurrence && (c == RecSlot(cred.clientId) || c == CobRSlot(cred.clientId)))
       || (c.ServiceSlot? && c.account == cred.clientId && c.service in cfg.services))
    {
      ChannelsListed(cfg, cred, c);
    }
    if HoldsAll(w, cfg, tenant, ref) {
      forall c | c in ChannelsFor(cfg, cred) ensures Points(w, cfg, c, ref) {
      }
    } else if Served(w, cfg, tenant, ref) {
      forall c | c in ChannelsFor(cfg, cred) ensures c in w.slots && w.slots[c] == Callback(cfg, ref) {
        assert Points(w, cfg, c, ref);
      }
    }
  }

  /** One fault-free attempt of an eligible tenant registers every one of its channels, under one ref. */
  lemma FairAttemptServesEveryChannel(w: World, cfg: Config, tenant: string, ref: string)
    requires cfg.refStore && cfg.baseUrl != "" && OneRefEach(w.refs)
    requires Trim(tenant) == tenant && tenant != "" && Eligible(w, cfg, tenant, FAIR) && ref != ""
    ensures FullyServed(TryRegister(w, cfg, tenant, ref, FAIR), cfg, tenant)
  {
    OneFairAttemptConverges(w, cfg, tenant, ref);
    ReachableExactlyWhenServed(TryRegister(w, cfg, tenant, ref, FAIR), cfg, tenant);
  }

  /** An attempt that cannot read the tenant, its credential or one of its slots, or cannot mint, changes
      nothing at all. */
  lemma BlindAttemptChangesNothing(w: World, cfg: Config, tenant: string, ref: string, wx: Weather)
    requires || (cfg.tenantGate && wx.tenantRead) || wx.credentialRead || wx.mint
             || (Trim(tenant) in w.dir.creds && exists c :: c in ChannelsFor(cfg, w.dir.creds[Trim(tenant)]) && c in wx.slotReads)
    ensures TryRegister(w, cfg, tenant, ref, wx) == w
  {
    if Trim(tenant) in w.dir.creds {
      if c :| c in ChannelsFor(cfg, w.dir.creds[Trim(tenant)]) && c in wx.slotReads {
        assert SlotSight(w, cfg, Trim(tenant), c, wx).Unsure?;
      }
    }
  }

  /** An attempt that does act writes exactly the channels whose write was not lost. */
  lemma LostWritesLeaveTheirSlots(w: World, cfg: Config, tenant: string, ref: string, wx: Weather, c: Slot)
    requires TryRegister(w, cfg, tenant, ref, wx) != w
    ensures var w', t := TryRegister(w, cfg, tenant, ref, wx), Trim(tenant);
      && t in w.dir.creds && w'.refs == PutRef(w.refs, ref, t)
      && (c in ChannelsFor(cfg, w.dir.creds[t]) && c !in wx.lostWrites ==> Points(w', cfg, c, ref))
      && (c !in ChannelsFor(cfg, w.dir.creds[t]) || c in wx.lostWrites ==> (c in w'.slots <==> c in w.slots) && (c in w.slots ==> w'.slots[c] == w.slots[c]))
  {
    var t := Trim(tenant);
    var chans := ChannelsFor(cfg, w.dir.creds[t]);
    WriteAllShape(w.slots, chans, Callback(cfg, ref), wx.lostWrites);
    LostStay(w.slots, chans, Callback(cfg, ref), wx.lostWrites, c);
  }

  lemma {:induction false} LostStay(slots: map<Slot, string>, chans: seq<Slot>, url: string, lost: set<Slot>, c: Slot)
    ensures var after := WriteAll(slots, chans, url, lost);
      c in lost ==> (c in after <==> c in slots) && (c in slots ==> after[c] == slots[c])
  {
    if chans != [] { LostStay(slots, chans[..|chans| - 1], url, lost, c); }
  }

  /** Who may act: an active tenant, where tenants are read at all, whose credential carries a key. */
  lemma EligibleExactly(w: World, cfg: Config, tenant: string)
    ensures Eligible(w, cfg, tenant, FAIR) <==>
      (&& tenant in w.dir.creds && Trim(w.dir.creds[tenant].creditorKey) != ""
       && (cfg.tenantGate ==> tenant in w.dir.active && w.dir.active[tenant]))
  {
  }

  /** A URL counts as live exactly when it is the callback of an active ref of the tenant; without a ref store
      any callback of ours does. */
  lemma LiveExactly(cfg: Config, refs: map<string, string>, tenant: string, url: string)
    ensures Classify(cfg, refs, tenant, url, false).Live? <==>
      exists ref :: ref != "" && url == Callback(cfg, ref) && (cfg.refStore ==> ref in refs && refs[ref] == tenant)
    ensures Classify(cfg, refs, tenant, url, false).Live? || Classify(cfg, refs, tenant, url, false).Stale?
  {
    if Classify(cfg, refs, tenant, url, false).Live? {
      var ref := url[|Prefix(cfg)|..];
      assert url == Callback(cfg, ref);
    }
    forall ref | url == Callback(cfg, ref) ensures Prefix(cfg) <= url && url[|Prefix(cfg)|..] == ref {
      CallbackParses(cfg, ref);
    }
  }

  // ---- tenants sharing a slot ----

  ghost predicate Disjoint(cfg: Config, a: Credential, b: Credential) {
    forall c :: !(c in ChannelsFor(cfg, a) && c in ChannelsFor(cfg, b))
  }

  /** Two tenants on one slot are never both reachable. */
  lemma SharedSlotExcludes(w: World, cfg: Config, a: string, b: string)
    requires a != b && Reachable(w, cfg, a) && b in w.dir.creds && !Disjoint(cfg, w.dir.creds[a], w.dir.creds[b])
    ensures !Reachable(w, cfg, b)
  {
    var r :| HoldsAll(w, cfg, a, r);
    var c :| c in ChannelsFor(cfg, w.dir.creds[a]) && c in ChannelsFor(cfg, w.dir.creds[b]);
    forall q ensures !HoldsAll(w, cfg, b, q) {
      CallbackParses(cfg, r);
      CallbackParses(cfg, q);
      assert HoldsAll(w, cfg, b, q) ==> q == r;
    }
  }

  lemma DisjointIsMutual(cfg: Config, a: Credential, b: Credential)
    ensures Disjoint(cfg, a, b) <==> Disjoint(cfg, b, a)
  {
  }

  lemma RivalAttempt(w: World, cfg: Config, a: string, b: string, ref: string)
    requires cfg.refStore && cfg.baseUrl != "" && OneRefEach(w.refs) && a != b && ref != ""
    requires Trim(b) == b && b != "" && Reachable(w, cfg, a) && Eligible(w, cfg, b, FAIR)
    requires !Disjoint(cfg, w.dir.creds[a], w.dir.creds[b])
    ensures var v := TryRegister(w, cfg, b, ref, FAIR);
      v != w && v.refs == PutRef(w.refs, ref, b) && Reachable(v, cfg, b) && !Reachable(v, cfg, a)
  {
    var v := TryRegister(w, cfg, b, ref, FAIR);
    SharedSlotExcludes(w, cfg, a, b);
    TryRegisterKeepsOneRef(w, cfg, b, ref, FAIR);
    OneFairAttemptConverges(w, cfg, b, ref);
    assert v != w;
    SharedSlotExcludes(v, cfg, b, a);
  }

  /** One turn of b after a, which is reachable unless nobody has tried yet. */
  lemma NextAttempt(w: World, cfg: Config, a: string, b: string, ref: string, tried: bool)
    requires cfg.refStore && cfg.baseUrl != "" && OneRefEach(w.refs) && a != b && ref != ""
    requires Trim(b) == b && b != "" && Eligible(w, cfg, a, FAIR) && Eligible(w, cfg, b, FAIR)
    requires !Disjoint(cfg, w.dir.creds[a], w.dir.creds[b]) && (tried ==> Reachable(w, cfg, a))
    ensures var v := TryRegister(w, cfg, b, ref, FAIR);
      && OneRefEach(v.refs) && v.dir == w.dir && Reachable(v, cfg, b) && !Reachable(v, cfg, a)
      && (tried ==> v != w && v.refs == PutRef(w.refs, ref, b))
  {
    TryRegisterKeepsOneRef(w, cfg, b, ref, FAIR);
    OneFairAttemptConverges(w, cfg, b, ref);
    DisjointIsMutual(cfg, w.dir.creds[a], w.dir.creds[b]);
    SharedSlotExcludes(TryRegister(w, cfg, b, ref, FAIR), cfg, b, a);
    if tried { RivalAttempt(w, cfg, a, b, ref); }
  }

  /** Whose turn the n-th attempt is. */
  function Turn(a: string, b: string, n: nat): string {
    if n % 2 == 0 then a else b
  }

  /** Attempts of a and b in alternation, one for each ref to mint. */
  function Alternate(w: World, cfg: Config, a: string, b: string, refs: seq<string>): World {
    if refs == [] then w
    else
      var n := |refs| - 1;
      TryRegister(Alternate(w, cfg, a, b, refs[..n]), cfg, Turn(a, b, n), refs[n], FAIR)
  }

  /** Two eligible tenants on one slot fight for ever: however many fault-free attempts they have made in
      turn, the last to try is reachable and the other is not, and every attempt after the first mints a new
      ref and changes the world, so there is no fixpoint. */
  lemma {:induction false} AlternationNeverSettles(w: World, cfg: Config, a: string, b: string, refs: seq<string>)
    requires cfg.refStore && cfg.baseUrl != "" && OneRefEach(w.refs) && a != b
    requires Trim(a) == a && a != "" && Trim(b) == b && b != "" && forall i :: 0 <= i < |refs| ==> refs[i] != ""
    requires Eligible(w, cfg, a, FAIR) && Eligible(w, cfg, b, FAIR)
    requires !Disjoint(cfg, w.dir.creds[a], w.dir.creds[b])
    ensures var v := Alternate(w, cfg, a, b, refs);
      && OneRefEach(v.refs) && v.dir == w.dir
      && (refs != [] ==> Reachable(v, cfg, Turn(a, b, |refs| - 1)) && !Reachable(v, cfg, Turn(a, b, |refs|)))
    ensures |refs| > 1 ==>
      var n := |refs| - 1; var before := Alternate(w, cfg, a, b, refs[..n]); var v := Alternate(w, cfg, a, b, refs);
      v != before && v.refs == PutRef(before.refs, refs[n], Turn(a, b, n))
  {
    if refs != [] {
      var n := |refs| - 1;
      var before := Alternate(w, cfg, a, b, refs[..n]);
      AlternationNeverSettles(w, cfg, a, b, refs[..n]);
      DisjointIsMutual(cfg, w.dir.creds[a], w.dir.creds[b]);
      if n % 2 == 0 {
        NextAttempt(before, cfg, b, a, refs[n], n > 0);
      } else {
        NextAttempt(before, cfg, a, b, refs[n], true);
      }
    }
  }

  // ---- the sweep ----

  function Sweep(w: World, cfg: Config, tenants: seq<string>, refs: seq<string>): World
    requires |refs| == |tenants|
  {
    if tenants == [] then w
    else
      var n := |tenants| - 1;
      TryRegister(Sweep(w, cfg, tenants[..n], refs[..n]), cfg, tenants[n], refs[n], FAIR)
  }

  /** Freshly minted refs: non-empty, pairwise distinct and not yet active. */
  ghost predicate FreshRefs(w: World, refs: seq<string>) {
    && (forall i :: 0 <= i < |refs| ==> refs[i] != "" && refs[i] !in w.refs)
    && (forall i, j :: 0 <= i < j < |refs| ==> refs[i] != refs[j])
  }

  lemma OthersUndisturbed(w: World, cfg: Config, a: string, b: string, ref: string)
    requires OneRefEach(w.refs) && a != b && Reachable(w, cfg, a) && ref !in w.refs && Trim(b) == b
    requires Eligible(w, cfg, b, FAIR) ==> Disjoint(cfg, w.dir.creds[a], w.dir.creds[b])
    ensures Reachable(TryRegister(w, cfg, b, ref, FAIR), cfg, a)
  {
    var held :| HoldsAll(w, cfg, a, held);
    var w' := TryRegister(w, cfg, b, ref, FAIR);
    PutRefShape(w.refs, ref, b);
    if w' != w {
      WriteAllShape(w.slots, ChannelsFor(cfg, w.dir.creds[b]), Callback(cfg, ref), {});
    }
    assert HoldsAll(w', cfg, a, held);
  }

  /** The swept tenants that may act share no slot; a suspended one, or one without a key, may share any. */
  ghost predicate Separate(w: World, cfg: Config, tenants: seq<string>) {
    && (forall t :: t in tenants ==> Trim(t) == t && t != "")
    && (forall t, u :: t in tenants && u in tenants && t != u && Eligible(w, cfg, t, FAIR) && Eligible(w, cfg, u, FAIR)
          ==> Disjoint(cfg, w.dir.creds[t], w.dir.creds[u]))
  }

  lemma SeparatePrefix(w: World, cfg: Config, tenants: seq<string>, n: nat)
    requires Separate(w, cfg, tenants) && n <= |tenants|
    ensures Separate(w, cfg, tenants[..n])
  {
    forall t | t in tenants[..n] ensures t in tenants {
    }
  }

  lemma {:induction false} SweepKeeps(w: World, cfg: Config, tenants: seq<string>, refs: seq<string>)
    requires |refs| == |tenants| && OneRefEach(w.refs)
    ensures var v := Sweep(w, cfg, tenants, refs);
      && OneRefEach(v.refs) && v.dir == w.dir && (forall r :: r in v.refs ==> r in w.refs || r in refs)
  {
    if tenants != [] {
      var n := |tenants| - 1;
      SweepKeeps(w, cfg, tenants[..n], refs[..n]);
      TryRegisterKeepsOneRef(Sweep(w, cfg, tenants[..n], refs[..n]), cfg, tenants[n], refs[n], FAIR);
    }
  }

  /** One fault-free sweep makes every eligible tenant reachable when no two eligible ones share a slot,
      whatever the others hold. */
  lemma {:induction false} SweepConverges(w: World, cfg: Config, tenants: seq<string>, refs: seq<string>)
    requires |refs| == |tenants| && cfg.refStore && cfg.baseUrl != "" && OneRefEach(w.refs)
    requires FreshRefs(w, refs) && Separate(w, cfg, tenants)
    ensures forall t :: t in tenants && Eligible(w, cfg, t, FAIR) ==> Reachable(Sweep(w, cfg, tenants, refs), cfg, t)
  {
    if tenants != [] {
      var n := |tenants| - 1;
      var v := Sweep(w, cfg, tenants[..n], refs[..n]);
      SeparatePrefix(w, cfg, tenants, n);
      SweepConverges(w, cfg, tenants[..n], refs[..n]);
      SweepKeeps(w, cfg, tenants[..n], refs[..n]);
      assert refs[n] !in v.refs;
      forall t | t in tenants && Eligible(w, cfg, t, FAIR) ensures Reachable(Sweep(w, cfg, tenants, refs), cfg, t) {
        if t == tenants[n] {
          OneFairAttemptConverges(v, cfg, t, refs[n]);
        } else {
          assert t in tenants[..n];
          OthersUndisturbed(v, cfg, t, tenants[n], refs[n]);
        }
      }
    }
  }

  /** Exclusive bank identities give active tenants disjoint channels. */
  lemma ExclusiveIsDisjoint(d: Directory, cfg: Config, a: string, b: string)
    requires Exclusive(d) && a != b && IsActive(d, a) && IsActive(d, b) && a in d.creds && b in d.creds
    requires d.creds[a].clientId != "" && d.creds[a].creditorKey != ""
    requires Trim(d.creds[a].creditorKey) == d.creds[a].creditorKey && Trim(d.creds[b].creditorKey) == d.creds[b].creditorKey
    ensures Disjoint(cfg, d.creds[a], d.creds[b])
  {
    forall c ensures !(c in ChannelsFor(cfg, d.creds[a]) && c in ChannelsFor(cfg, d.creds[b])) {
      if c in ChannelsFor(cfg, d.creds[a]) && c in ChannelsFor(cfg, d.creds[b]) {
        var id := if c.PixSlot? then PixKey(c.key) else Account(c.account);
        assert Holds(d, a, id) && Holds(d, b, id);
      }
    }
  }

  /** Credentials as the guarded writes leave them: a client id is present and a key is trimmed. */
  ghost predicate Tidy(d: Directory) {
    forall t :: t in d.creds ==> d.creds[t].clientId != "" && Trim(d.creds[t].creditorKey) == d.creds[t].creditorKey
  }

  lemma {:induction false} WritesKeepTidy(d: Directory, ws: seq<Write>)
    requires Tidy(d)
    ensures Tidy(AfterWrites(d, ws))
  {
    if ws != [] {
      var before, w := AfterWrites(d, ws[..|ws| - 1]), ws[|ws| - 1];
      WritesKeepTidy(d, ws[..|ws| - 1]);
      if w.SetKey? { TrimShape(w.creditorKey); }
      TrimShape("");
      assert Trim("") == "";
    }
  }

  lemma ActiveIsEligible(w: World, cfg: Config, t: string)
    requires Tidy(w.dir) && IsActive(w.dir, t) && t in w.dir.creds && w.dir.creds[t].creditorKey != ""
    ensures Eligible(w, cfg, t, FAIR)
  {
  }

  lemma SeparateAfterWrites(d: Directory, ws: seq<Write>, w: World, cfg: Config, tenants: seq<string>)
    requires Exclusive(d) && Tidy(d) && (forall x :: x in ws ==> !x.Activate?) && w.dir == AfterWrites(d, ws) && cfg.tenantGate
    requires forall t :: t in tenants ==> Trim(t) == t && t != ""
    ensures Separate(w, cfg, tenants) && Tidy(w.dir)
  {
    WritesKeepExclusive(d, ws);
    WritesKeepTidy(d, ws);
    forall t, u | t in tenants && u in tenants && t != u && Eligible(w, cfg, t, FAIR) && Eligible(w, cfg, u, FAIR)
      ensures Disjoint(cfg, w.dir.creds[t], w.dir.creds[u])
    {
      ExclusiveIsDisjoint(w.dir, cfg, t, u);
    }
  }

  /** After any guarded credential and key writes, registrations, suspensions and removals, one fault-free
      sweep serves every channel of every active tenant that has a key, from any slots and refs. */
  lemma SweepReachesEveryActiveTenant(d: Directory, ws: seq<Write>, w: World, cfg: Config, tenants: seq<string>, refs: seq<string>)
    requires Exclusive(d) && Tidy(d) && (forall x :: x in ws ==> !x.Activate?) && w.dir == AfterWrites(d, ws)
    requires cfg.tenantGate && cfg.refStore && cfg.baseUrl != "" && OneRefEach(w.refs)
    requires |refs| == |tenants| && FreshRefs(w, refs) && forall t :: t in tenants ==> Trim(t) == t && t != ""
    ensures forall t :: t in tenants && IsActive(w.dir, t) && t in w.dir.creds && w.dir.creds[t].creditorKey != "" ==>
      FullyServed(Sweep(w, cfg, tenants, refs), cfg, t)
  {
    SeparateAfterWrites(d, ws, w, cfg, tenants);
    SweepConverges(w, cfg, tenants, refs);
    forall t | t in tenants && IsActive(w.dir, t) && t in w.dir.creds && w.dir.creds[t].creditorKey != ""
      ensures FullyServed(Sweep(w, cfg, tenants, refs), cfg, t)
    {
      ActiveIsEligible(w, cfg, t);
      ReachableExactlyWhenServed(Sweep(w, cfg, tenants, refs), cfg, t);
    }
  }

  // ---- the service over a mutable world ----

  class RegistrationService {
    const cfg: Config
    var refs: map<string, string>
    var slots: map<Slot, string>
    var dir: Directory

    constructor (cfg: Config, dir: Directory)
      ensures this.cfg == cfg && View() == World(map[], map[], dir) && OneRefEach(refs)
    {
      this.cfg := cfg;
      refs, slots, this.dir := map[], map[], dir;
    }

    function View(): World
      reads this
    {
      World(refs, slots, dir)
    }

    /** Reads the channels in order and stops at the first one it cannot classify. */
    method EvaluateGate(tenant: string, chans: seq<Slot>, wx: Weather) returns (d: Decision)
      ensures d == Gate(View(), cfg, tenant, chans, wx)
    {
      var needs := false;
      for i := 0 to |chans|
        invariant forall c :: c in chans[..i] ==> !SlotSight(View(), cfg, tenant, c, wx).Unsure?
        invariant needs <==> exists c :: c in chans[..i] && SlotSight(View(), cfg, tenant, c, wx).Bad?
      {
        var sight := SlotSight(View(), cfg, tenant, chans[i], wx);
        assert chans[i] in chans;
        if sight.Unsure? { return Ambiguous; }
        assert chans[..i + 1] == chans[..i] + [chans[i]];
        needs := needs || sight.Bad?;
      }
      assert chans[..|chans|] == chans;
      return if needs then NeedsRegistration else Satisfied;
    }

    /** Writes one channel; reports whether the readback confirmed it. */
    method RegisterChannel(c: Slot, url: string, wx: Weather) returns (confirmed: bool)
      modifies this`slots
      ensures slots == if c in wx.lostWrites then old(slots) else old(slots)[c := url]
      ensures confirmed <==> c !in wx.lostWrites && c !in wx.unconfirmed
    {
      if c in wx.lostWrites { return false; }
      slots := slots[c := url];
      return c !in wx.unconfirmed;
    }

    method RegisterChannels(chans: seq<Slot>, url: string, wx: Weather) returns (registered: nat, failed: nat)
      modifies this`slots
      ensures slots == WriteAll(old(slots), chans, url, wx.lostWrites)
      ensures registered + failed == |chans|
      ensures wx.lostWrites == {} && wx.unconfirmed == {} ==> failed == 0
    {
      registered, failed := 0, 0;
      for i := 0 to |chans|
        invariant slots == WriteAll(old(slots), chans[..i], url, wx.lostWrites)
        invariant registered + failed == i
        invariant wx.lostWrites == {} && wx.unconfirmed == {} ==> failed == 0
      {
        var ok := RegisterChannel(chans[i], url, wx);
        assert chans[..i + 1][..i] == chans[..i];
        if ok { registered := registered + 1; } else { failed := failed + 1; }
      }
      assert chans[..|chans|] == chans;
    }

    /** One best-effort attempt. A failed channel never stops the others. */
    method Attempt(tenant: string, ref: string, wx: Weather) returns (registered: nat, failed: nat)
      requires OneRefEach(refs)
      modifies this`refs, this`slots
      ensures View() == TryRegister(old(View()), cfg, tenant, ref, wx)
      ensures OneRefEach(refs)
      ensures wx.lostWrites == {} && wx.unconfirmed == {} ==> failed == 0
    {
      TryRegisterKeepsOneRef(View(), cfg, tenant, ref, wx);
      registered, failed := 0, 0;
      var t := Trim(tenant);
      if t == "" || cfg.baseUrl == "" || !Eligible(View(), cfg, t, wx) { return; }
      var chans := ChannelsFor(cfg, dir.creds[t]);
      var d := EvaluateGate(t, chans, wx);
      if !d.NeedsRegistration? || wx.mint { return; }
      refs := PutRef(refs, ref, t);
      registered, failed := RegisterChannels(chans, Callback(cfg, ref), wx);
    }

    /** Attempts every listed tenant in turn; the count of tenants is reported whatever happens. */
    method SweepAll(tenants: seq<string>, mints: seq<string>) returns (eligible: nat)
      requires OneRefEach(refs) && |mints| == |tenants|
      modifies this`refs, this`slots
      ensures eligible == |tenants| && OneRefEach(refs)
      ensures View() == Sweep(old(View()), cfg, tenants, mints)
    {
      for i := 0 to |tenants|
        invariant OneRefEach(refs) && View() == Sweep(old(View()), cfg, tenants[..i], mints[..i])
      {
        assert tenants[..i + 1][..i] == tenants[..i] && mints[..i + 1][..i] == mints[..i];
        var _, _ := Attempt(tenants[i], mints[i], FAIR);
      }
      assert tenants[..|tenants|] == tenants && mints[..|tenants|] == mints;
      return |tenants|;
    }
  }
}
