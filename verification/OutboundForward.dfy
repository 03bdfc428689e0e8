/** The outbound forward worker: claim a batch of pending deliveries, send each to its own account's
    endpoint with bounded retry, and settle it. What the world answers (endpoints, receivers, stores,
    jitter) is a parameter; stores may fail. */
module OutboundForward {
  import B = Backoff

  datatype Id = Id(text: string)

  datatype Delivery = Delivery(id: Id, account: Id, tenant: Id, eventKey: Id)

  datatype Endpoint = Endpoint(url: Id, enabled: bool)

  datatype Reason = EndpointInactive | DeliveryExhausted

  datatype DeadLetter = DeadLetter(tenant: Id, eventKey: Id, reason: Reason)

  datatype Audit = Audited(id: Id, delivered: bool)

  datatype Sent = Sent(id: Id, url: Id)

  /** One tick's environment. A reply is the receiver's status for an attempt; a transport error is any
      value outside the 2xx range. */
  datatype World = World(
    endpoints: map<Id, Endpoint>,
    unreadable: set<Id>,
    reply: (Id, nat) -> int,
    rand: (Id, nat) -> real,
    parkFaults: set<Id>,
    deleteFaults: set<Id>,
    auditFaults: set<Id>)

  datatype Tuning = Tuning(maxAttempts: nat, base: int, max: int, batch: nat)

  ghost predicate Tuned(t: Tuning) {
    t.maxAttempts > 0 && t.batch > 0 && 0 < t.base < B.TWO63 && 0 < t.max < B.TWO63
  }

  ghost predicate FairRand(w: World) {
    forall id, n :: 0.0 <= w.rand(id, n) <= 1.0
  }

  datatype Outcome = Delivered | Parked(reason: Reason) | Dropped | Kept

  /** Some attempt within the bound was accepted. */
  ghost predicate AcceptedWithin(w: World, id: Id, n: nat) {
    exists k: nat :: k < n && 200 <= w.reply(id, k) < 300
  }

  /** What should become of a delivery. */
  ghost function Fate(w: World, maxAttempts: nat, d: Delivery): Outcome {
    if d.id in w.unreadable then Kept
    else if d.account !in w.endpoints then Dropped
    else if !w.endpoints[d.account].enabled then Parked(EndpointInactive)
    else if AcceptedWithin(w, d.id, maxAttempts) then Delivered
    else Parked(DeliveryExhausted)
  }

  datatype Stores = Stores(outbox: seq<Delivery>, deadLetters: seq<DeadLetter>, audits: seq<Audit>, sent: seq<Sent>)

  /** Ids are the outbox's primary key. */
  ghost predicate UniqueIds(outbox: seq<Delivery>) {
    forall i, j :: 0 <= i < j < |outbox| ==> outbox[i].id != outbox[j].id
  }

  function Without(outbox: seq<Delivery>, id: Id): seq<Delivery> {
    if outbox == [] then []
    else if outbox[0].id == id then outbox[1..]
    else [outbox[0]] + Without(outbox[1..], id)
  }

  predicate IsParked(letters: seq<DeadLetter>, tenant: Id, eventKey: Id) {
    exists i :: 0 <= i < |letters| && letters[i].tenant == tenant && letters[i].eventKey == eventKey
  }

  function Park(letters: seq<DeadLetter>, l: DeadLetter): seq<DeadLetter> {
    if IsParked(letters, l.tenant, l.eventKey) then letters else letters + [l]
  }

  // ---- one delivery, as a function of the stores ----

  function Removed(w: World, s: Stores, d: Delivery): Stores {
    if d.id in w.deleteFaults then s else s.(outbox := Without(s.outbox, d.id))
  }

  function Noted(w: World, s: Stores, d: Delivery, delivered: bool): Stores {
    if d.id in w.auditFaults then s else s.(audits := s.audits + [Audited(d.id, delivered)])
  }

  function ParkedIn(w: World, s: Stores, d: Delivery, reason: Reason): Stores {
    if d.id in w.parkFaults then s
    else s.(deadLetters := Park(s.deadLetters, DeadLetter(d.tenant, d.eventKey, reason)))
  }

  ghost function Settled(w: World, maxAttempts: nat, s: Stores, d: Delivery): Stores {
    match Fate(w, maxAttempts, d)
    case Kept => s
    case Dropped => Removed(w, s, d)
    case Delivered => Noted(w, Removed(w, s, d), d, true)
    case Parked(reason) => Noted(w, Removed(w, ParkedIn(w, s, d, reason), d), d, false)
  }

  /** How many requests a delivery takes: up to and including the first accepted one. */
  function Tries(w: World, id: Id, maxAttempts: nat, attempt: nat): (n: nat)
    requires attempt <= maxAttempts
    ensures n <= maxAttempts - attempt
    ensures attempt < maxAttempts ==> n > 0
    decreases maxAttempts - attempt
  {
    if attempt == maxAttempts then 0
    else if 200 <= w.reply(id, attempt) < 300 then 1
    else 1 + Tries(w, id, maxAttempts, attempt + 1)
  }

  function Copies(x: Sent, n: nat): (r: seq<Sent>)
    ensures |r| == n && forall i :: 0 <= i < n ==> r[i] == x
  {
    if n == 0 then [] else Copies(x, n - 1) + [x]
  }

  /** n copies of max, added up. */
  function Multiples(n: nat, max: int): int {
    if n == 0 then 0 else Multiples(n - 1, max) + max
  }

  lemma MultiplesAreProduct(n: nat, max: int)
    ensures Multiples(n, max) == n * max
  {
  }

  lemma MultiplesGrow(m: nat, n: nat, max: int)
    requires m <= n && max >= 0
    ensures 0 <= Multiples(m, max) <= Multiples(n, max)
    decreases n
  {
  }

  /** The sleep before each of the first n retries: the capped doubling with its jitter. */
  ghost function Backoffs(w: World, t: Tuning, id: Id, n: nat): int
    requires Tuned(t) && FairRand(w)
  {
    if n == 0 then 0 else Backoffs(w, t, id, n - 1) + B.Jittered(B.Delay(t.base, t.max, n - 1), w.rand(id, n - 1))
  }

  lemma {:induction false} BackoffsBounded(w: World, t: Tuning, id: Id, n: nat)
    requires Tuned(t) && FairRand(w)
    ensures 0 <= Backoffs(w, t, id, n) <= Multiples(n, t.max)
  {
    if n > 0 {
      BackoffsBounded(w, t, id, n - 1);
      B.JitterBounds(B.Delay(t.base, t.max, n - 1), w.rand(id, n - 1));
    }
  }

  /** Half the capped doublings, added up. */
  function HalfDelays(t: Tuning, n: nat): int {
    if n == 0 then 0 else HalfDelays(t, n - 1) + B.Capped(t.base, t.max, n - 1) / 2
  }

  /** The worker does back off: whatever the jitter, it sleeps at least half of min(base·2^k, max) before the
      k-th retry, and at most all of the cap. */
  lemma {:induction false} BackoffsAreReal(w: World, t: Tuning, id: Id, n: nat)
    requires Tuned(t) && FairRand(w) && t.base * t.max < B.TWO63
    ensures HalfDelays(t, n) <= Backoffs(w, t, id, n) <= Multiples(n, t.max)
  {
    BackoffsBounded(w, t, id, n);
    if n > 0 {
      BackoffsAreReal(w, t, id, n - 1);
      B.ShiftRefinesCappedDoubling(t.base, t.max, n - 1);
      B.JitterBounds(B.Delay(t.base, t.max, n - 1), w.rand(id, n - 1));
    }
  }

  function Requests(w: World, maxAttempts: nat, d: Delivery): seq<Sent> {
    if d.id !in w.unreadable && d.account in w.endpoints && w.endpoints[d.account].enabled
    then Copies(Sent(d.id, w.endpoints[d.account].url), Tries(w, d.id, maxAttempts, 0)) else []
  }

  ghost function Handled(w: World, maxAttempts: nat, s: Stores, d: Delivery): Stores {
    var s' := Settled(w, maxAttempts, s, d);
    s'.(sent := s.sent + Requests(w, maxAttempts, d))
  }

  ghost function HandleAll(w: World, maxAttempts: nat, s: Stores, ds: seq<Delivery>): Stores {
    if ds == [] then s
    else Handled(w, maxAttempts, HandleAll(w, maxAttempts, s, ds[..|ds| - 1]), ds[|ds| - 1])
  }

  function Claim(outbox: seq<Delivery>, batch: nat): seq<Delivery> {
    if |outbox| <= batch then outbox else outbox[..batch]
  }

  ghost function Tick(w: World, t: Tuning, s: Stores): Stores {
    HandleAll(w, t.maxAttempts, s, Claim(s.outbox, t.batch))
  }

  ghost function Terminals(w: World, maxAttempts: nat, ds: seq<Delivery>): nat {
    if ds == [] then 0
    else Terminals(w, maxAttempts, ds[..|ds| - 1]) + if Fate(w, maxAttempts, ds[|ds| - 1]).Kept? then 0 else 1
  }

  // ---- the worker ----

  class OutboundProcessor {
    const tuning: Tuning
    var outbox: seq<Delivery>
    var deadLetters: seq<DeadLetter>
    var audits: seq<Audit>
    var sent: seq<Sent>
    var slept: int

    constructor (maxAttempts: int, base: int, max: int, batch: int, outbox: seq<Delivery>)
      requires base < B.TWO63 && max < B.TWO63
      ensures Tuned(tuning)
      ensures tuning == Tuning(if maxAttempts > 0 then maxAttempts else 3, if base > 0 then base else 250_000_000,
                               if max > 0 then max else 5_000_000_000, if batch > 0 then batch else 64)
      ensures View() == Stores(outbox, [], [], []) && slept == 0
    {
      tuning := Tuning(
        if maxAttempts <= 0 then 3 else maxAttempts,
        if base <= 0 then B.DEFAULT_BASE else base,
        if max <= 0 then B.DEFAULT_MAX else max,
        if batch <= 0 then 64 else batch);
      this.outbox, deadLetters, audits, sent, slept := outbox, [], [], [], 0;
    }

    function View(): Stores
      reads this
    {
      Stores(outbox, deadLetters, audits, sent)
    }

    /** The bounded retry loop: accepted exactly when some attempt within the bound is, one request per try,
        and never more sleep than the cap before each retry. */
    method AttemptDelivery(w: World, d: Delivery, url: Id) returns (accepted: bool)
      requires Tuned(tuning) && FairRand(w)
      modifies this`sent, this`slept
      ensures accepted <==> AcceptedWithin(w, d.id, tuning.maxAttempts)
      ensures sent == old(sent) + Copies(Sent(d.id, url), Tries(w, d.id, tuning.maxAttempts, 0))
      ensures slept == old(slept) + Backoffs(w, tuning, d.id, Tries(w, d.id, tuning.maxAttempts, 0) - 1)
      ensures old(slept) <= slept <= old(slept) + Multiples(tuning.maxAttempts - 1, tuning.max)
    {
      ghost var total := Tries(w, d.id, tuning.maxAttempts, 0);
      var attempt: nat := 0;
      accepted := false;
      while attempt < tuning.maxAttempts && !accepted
        invariant attempt <= tuning.maxAttempts
        invariant forall k: nat :: k + 1 < attempt || (k < attempt && !accepted) ==> !(200 <= w.reply(d.id, k) < 300)
        invariant accepted ==> attempt > 0 && 200 <= w.reply(d.id, attempt - 1) < 300 && total == attempt
        invariant !accepted ==> total == attempt + Tries(w, d.id, tuning.maxAttempts, attempt)
        invariant sent == old(sent) + Copies(Sent(d.id, url), attempt)
        invariant slept == old(slept) + Backoffs(w, tuning, d.id, if attempt == tuning.maxAttempts || accepted then attempt - 1 else attempt)
      {
        var status := w.reply(d.id, attempt);
        sent := sent + [Sent(d.id, url)];
        assert sent == old(sent) + Copies(Sent(d.id, url), attempt + 1);
        if 200 <= status < 300 {
          accepted := true;
        } else if attempt < tuning.maxAttempts - 1 {
          slept := slept + B.Jittered(B.Delay(tuning.base, tuning.max, attempt), w.rand(d.id, attempt));
        }
        attempt := attempt + 1;
      }
      BackoffsBounded(w, tuning, d.id, total - 1);
      MultiplesGrow(total - 1, tuning.maxAttempts - 1, tuning.max);
    }

    method DeleteDelivery(w: World, d: Delivery)
      modifies this`outbox
      ensures View() == Removed(w, old(View()), d)
    {
      if d.id !in w.deleteFaults {
        outbox := Without(outbox, d.id);
      }
    }

    method AuditDelivery(w: World, d: Delivery, delivered: bool)
      modifies this`audits
      ensures View() == Noted(w, old(View()), d, delivered)
    {
      if d.id !in w.auditFaults {
        audits := audits + [Audited(d.id, delivered)];
      }
    }

    method SettleNoConfig(w: World, d: Delivery) returns (terminal: bool)
      modifies this`outbox
      ensures terminal && View() == Removed(w, old(View()), d)
    {
      DeleteDelivery(w, d);
      return true;
    }

    method SettleDelivered(w: World, d: Delivery) returns (terminal: bool)
      modifies this`outbox, this`audits
      ensures terminal && View() == Noted(w, Removed(w, old(View()), d), d, true)
    {
      DeleteDelivery(w, d);
      AuditDelivery(w, d, true);
      return true;
    }

    /** The row leaves the outbox even when the dead letter could not be written. */
    method ParkAndSettle(w: World, d: Delivery, reason: Reason) returns (terminal: bool)
      modifies this`outbox, this`audits, this`deadLetters
      ensures terminal && View() == Noted(w, Removed(w, ParkedIn(w, old(View()), d, reason), d), d, false)
    {
      if d.id !in w.parkFaults && !IsParked(deadLetters, d.tenant, d.eventKey) {
        deadLetters := deadLetters + [DeadLetter(d.tenant, d.eventKey, reason)];
      }
      DeleteDelivery(w, d);
      AuditDelivery(w, d, false);
      return true;
    }

    method DeliverOne(w: World, d: Delivery) returns (terminal: bool)
      requires Tuned(tuning) && FairRand(w)
      modifies this
      ensures View() == Handled(w, tuning.maxAttempts, old(View()), d)
      ensures terminal <==> !Fate(w, tuning.maxAttempts, d).Kept?
      ensures old(slept) <= slept <= old(slept) + Multiples(tuning.maxAttempts - 1, tuning.max)
    {
      MultiplesGrow(0, tuning.maxAttempts - 1, tuning.max);
      if d.id in w.unreadable { return false; }
      if d.account !in w.endpoints {
        terminal := SettleNoConfig(w, d);
        return;
      }
      var endpoint := w.endpoints[d.account];
      if !endpoint.enabled {
        terminal := ParkAndSettle(w, d, EndpointInactive);
        return;
      }
      var accepted := AttemptDelivery(w, d, endpoint.url);
      assert sent == old(sent) + Requests(w, tuning.maxAttempts, d);
      if accepted {
        terminal := SettleDelivered(w, d);
      } else {
        terminal := ParkAndSettle(w, d, DeliveryExhausted);
      }
    }

    method ProcessPending(w: World) returns (settled: nat)
      requires Tuned(tuning) && FairRand(w)
      modifies this
      ensures View() == Tick(w, tuning, old(View()))
      ensures settled == Terminals(w, tuning.maxAttempts, Claim(old(outbox), tuning.batch))
      ensures old(slept) <= slept <= old(slept) + Multiples(|Claim(old(outbox), tuning.batch)|, (tuning.maxAttempts - 1) * tuning.max)
    {
      var claimed := Claim(outbox, tuning.batch);
      ghost var each := (tuning.maxAttempts - 1) * tuning.max;
      MultiplesAreProduct(tuning.maxAttempts - 1, tuning.max);
      settled := 0;
      var i := 0;
      while i < |claimed|
        invariant 0 <= i <= |claimed|
        invariant View() == HandleAll(w, tuning.maxAttempts, old(View()), claimed[..i])
        invariant settled == Terminals(w, tuning.maxAttempts, claimed[..i])
        invariant old(slept) <= slept <= old(slept) + Multiples(i, each)
      {
        assert claimed[..i + 1][..i] == claimed[..i];
        var terminal := DeliverOne(w, claimed[i]);
        if terminal { settled := settled + 1; }
        i := i + 1;
      }
      assert claimed[..|claimed|] == claimed;
    }
  }
}
