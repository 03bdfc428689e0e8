/** What a tick of the forward worker amounts to: every claimed delivery meets exactly one fate, the
    outbox shrinks by the terminal ones, and sends, audits and dead letters agree with the fates. */
module ForwardOutcomes {
  import opened OutboundForward

  ghost predicate StaysQueued(w: World, n: nat, d: Delivery) {
    Fate(w, n, d).Kept? || d.id in w.deleteFaults
  }

  /** The claimed deliveries that stay on the outbox, in order. */
  ghost function Keepers(w: World, n: nat, ds: seq<Delivery>): (r: seq<Delivery>)
    ensures forall d :: d in r <==> d in ds && StaysQueued(w, n, d)
  {
    if ds == [] then []
    else
      var last := ds[|ds| - 1];
      assert forall d :: d in ds <==> d in ds[..|ds| - 1] || d == last;
      Keepers(w, n, ds[..|ds| - 1]) + if StaysQueued(w, n, last) then [last] else []
  }

  lemma WithoutMiddle(front: seq<Delivery>, d: Delivery, back: seq<Delivery>)
    requires forall x :: x in front ==> x.id != d.id
    ensures Without(front + [d] + back, d.id) == front + back
  {
    if front == [] {
      assert front + [d] + back == [d] + back;
    } else {
      assert (front + [d] + back)[1..] == front[1..] + [d] + back;
      WithoutMiddle(front[1..], d, back);
      assert [front[0]] + (front[1..] + back) == front + back;
    }
  }

  lemma HandledOutbox(w: World, n: nat, s: Stores, d: Delivery)
    ensures Handled(w, n, s, d).outbox == if StaysQueued(w, n, d) then s.outbox else Without(s.outbox, d.id)
  {
  }

  lemma DropNext(w: World, n: nat, outbox: seq<Delivery>, i: nat)
    requires UniqueIds(outbox) && i < |outbox|
    ensures var front, d := Keepers(w, n, outbox[..i]), outbox[i];
      && front + outbox[i..] == front + [d] + outbox[i + 1..]
      && Without(front + outbox[i..], d.id) == front + outbox[i + 1..]
  {
    var front, d := Keepers(w, n, outbox[..i]), outbox[i];
    assert outbox[i..] == [d] + outbox[i + 1..];
    assert front + outbox[i..] == front + [d] + outbox[i + 1..];
    forall x | x in front ensures x.id != d.id {
      assert x in outbox[..i];
    }
    WithoutMiddle(front, d, outbox[i + 1..]);
  }

  lemma {:induction false} OutboxAfterPrefix(w: World, n: nat, s: Stores, i: nat)
    requires UniqueIds(s.outbox) && i <= |s.outbox|
    ensures HandleAll(w, n, s, s.outbox[..i]).outbox == Keepers(w, n, s.outbox[..i]) + s.outbox[i..]
  {
    if i > 0 {
      var d := s.outbox[i - 1];
      assert s.outbox[..i][..i - 1] == s.outbox[..i - 1];
      OutboxAfterPrefix(w, n, s, i - 1);
      HandledOutbox(w, n, HandleAll(w, n, s, s.outbox[..i - 1]), d);
      DropNext(w, n, s.outbox, i - 1);
    }
  }

  /** After a tick the outbox is exactly the claimed deliveries left for retry, in order, followed by the
      unclaimed rest. */
  lemma OutboxKeepsExactlyTheUnsettled(w: World, t: Tuning, s: Stores)
    requires UniqueIds(s.outbox)
    ensures var claimed := Claim(s.outbox, t.batch);
      Tick(w, t, s).outbox == Keepers(w, t.maxAttempts, claimed) + s.outbox[|claimed|..]
  {
    OutboxAfterPrefix(w, t.maxAttempts, s, |Claim(s.outbox, t.batch)|);
    assert Claim(s.outbox, t.batch) == s.outbox[..|Claim(s.outbox, t.batch)|];
  }

  // ---- the fates, in plain terms ----

  /** Kept exactly when the endpoint could not be read, dropped exactly when there is none, parked as inactive
      exactly when it is switched off, delivered exactly when some attempt within the bound answered 2xx, and
      parked as exhausted otherwise. */
  lemma FateExactly(w: World, n: nat, d: Delivery)
    ensures var f := Fate(w, n, d); var endpoint := d.id !in w.unreadable && d.account in w.endpoints;
      && (f == Kept <==> d.id in w.unreadable)
      && (f == Dropped <==> d.id !in w.unreadable && d.account !in w.endpoints)
      && (f == Parked(EndpointInactive) <==> endpoint && !w.endpoints[d.account].enabled)
      && (f == Delivered <==> endpoint && w.endpoints[d.account].enabled && exists k: nat :: k < n && 200 <= w.reply(d.id, k) <= 299)
      && (f == Parked(DeliveryExhausted) <==>
            endpoint && w.endpoints[d.account].enabled && forall k: nat :: k < n ==> !(200 <= w.reply(d.id, k) <= 299))
  {
  }

  /** The number of requests: up to and including the first accepted one, or all of them. */
  lemma {:induction false} TriesExactly(w: World, id: Id, n: nat, from: nat)
    requires from <= n
    ensures var t := Tries(w, id, n, from);
      && (forall k: nat :: from <= k < from + t - 1 ==> !(200 <= w.reply(id, k) <= 299))
      && (from + t < n ==> 200 <= w.reply(id, from + t - 1) <= 299)
      && (t == 0 ==> from == n)
    decreases n - from
  {
    if from < n && !(200 <= w.reply(id, from) < 300) {
      TriesExactly(w, id, n, from + 1);
    }
  }

  /** The audit trail of a batch with working stores: in order, each delivered event as delivered and each
      parked one as not. */
  ghost function Trail(w: World, n: nat, ds: seq<Delivery>): seq<Audit> {
    if ds == [] then []
    else
      var d := ds[|ds| - 1];
      Trail(w, n, ds[..|ds| - 1])
      + match Fate(w, n, d)
        case Delivered => [Audited(d.id, true)]
        case Parked(_) => [Audited(d.id, false)]
        case _ => []
  }

  lemma {:induction false} AuditsFollowTheFates(w: World, n: nat, s: Stores, ds: seq<Delivery>)
    requires w.auditFaults == {}
    ensures HandleAll(w, n, s, ds).audits == s.audits + Trail(w, n, ds)
  {
    if ds != [] {
      var init, d := ds[..|ds| - 1], ds[|ds| - 1];
      AuditsFollowTheFates(w, n, s, init);
      HandledAudits(w, n, HandleAll(w, n, s, init), d);
      assert s.audits + Trail(w, n, ds) == s.audits + Trail(w, n, init) + Trail(w, n, ds)[|Trail(w, n, init)|..];
    }
  }

  lemma HandledAudits(w: World, n: nat, s: Stores, d: Delivery)
    requires w.auditFaults == {}
    ensures Handled(w, n, s, d).audits == s.audits +
      match Fate(w, n, d)
      case Delivered => [Audited(d.id, true)]
      case Parked(_) => [Audited(d.id, false)]
      case _ => []
  {
  }

  /** A parked delivery's letter carries its tenant, its event key and the reason of its fate. */
  lemma LetterSaysWhy(w: World, n: nat, s: Stores, d: Delivery)
    requires d.id !in w.parkFaults && !IsParked(s.deadLetters, d.tenant, d.eventKey)
    ensures Handled(w, n, s, d).deadLetters ==
      if Fate(w, n, d).Parked? then s.deadLetters + [DeadLetter(d.tenant, d.eventKey, Fate(w, n, d).reason)] else s.deadLetters
  {
  }

  // ---- counting ----

  ghost function Count(w: World, n: nat, ds: seq<Delivery>, p: Outcome -> bool): nat {
    if ds == [] then 0
    else Count(w, n, ds[..|ds| - 1], p) + if p(Fate(w, n, ds[|ds| - 1])) then 1 else 0
  }

  ghost function Delivereds(w: World, n: nat, ds: seq<Delivery>): nat {
    Count(w, n, ds, (o: Outcome) => o.Delivered?)
  }

  ghost function Parkeds(w: World, n: nat, ds: seq<Delivery>): nat {
    Count(w, n, ds, (o: Outcome) => o.Parked?)
  }

  ghost function Droppeds(w: World, n: nat, ds: seq<Delivery>): nat {
    Count(w, n, ds, (o: Outcome) => o.Dropped?)
  }

  ghost predicate StoresWork(w: World) {
    w.parkFaults == {} && w.deleteFaults == {} && w.auditFaults == {}
  }

  lemma {:induction false} CountsAgree(w: World, n: nat, s: Stores, ds: seq<Delivery>)
    requires StoresWork(w)
    ensures Terminals(w, n, ds) == Delivereds(w, n, ds) + Parkeds(w, n, ds) + Droppeds(w, n, ds)
    ensures |Keepers(w, n, ds)| + Terminals(w, n, ds) == |ds|
    ensures |HandleAll(w, n, s, ds).audits| == |s.audits| + Delivereds(w, n, ds) + Parkeds(w, n, ds)
  {
    if ds != [] {
      CountsAgree(w, n, s, ds[..|ds| - 1]);
    }
  }

  /** With working stores each claimed delivery is delivered, dead-lettered, dropped or kept; the outbox
      shrinks by exactly the first three, and the audits grow by the first two. The count of terminal
      fates is what the worker returns. */
  lemma TickConserves(w: World, t: Tuning, s: Stores)
    requires UniqueIds(s.outbox) && StoresWork(w)
    ensures var claimed := Claim(s.outbox, t.batch); var s' := Tick(w, t, s); var n := t.maxAttempts;
      && |s.outbox| == |s'.outbox| + Terminals(w, n, claimed)
      && Terminals(w, n, claimed) == Delivereds(w, n, claimed) + Parkeds(w, n, claimed) + Droppeds(w, n, claimed)
      && |s'.audits| == |s.audits| + Delivereds(w, n, claimed) + Parkeds(w, n, claimed)
  {
    OutboxKeepsExactlyTheUnsettled(w, t, s);
    CountsAgree(w, t.maxAttempts, s, Claim(s.outbox, t.batch));
  }

  // ---- sends ----

  function SentFor(sent: seq<Sent>, id: Id): nat {
    if sent == [] then 0
    else SentFor(sent[..|sent| - 1], id) + if sent[|sent| - 1].id == id then 1 else 0
  }

  lemma SentForAppends(a: seq<Sent>, b: seq<Sent>, id: Id)
    ensures SentFor(a + b, id) == SentFor(a, id) + SentFor(b, id)
  {
    if b == [] {
      assert a + b == a;
    } else {
      assert (a + b)[..|a + b| - 1] == a + b[..|b| - 1];
      SentForAppends(a, b[..|b| - 1], id);
    }
  }

  lemma SentForCopies(x: Sent, n: nat, id: Id)
    ensures SentFor(Copies(x, n), id) == if x.id == id then n else 0
  {
  }

  lemma RequestsFor(w: World, n: nat, d: Delivery, id: Id)
    ensures SentFor(Requests(w, n, d), id) == if d.id == id then |Requests(w, n, d)| else 0
    ensures |Requests(w, n, d)| <= n
  {
    if d.id !in w.unreadable && d.account in w.endpoints && w.endpoints[d.account].enabled {
      SentForCopies(Sent(d.id, w.endpoints[d.account].url), Tries(w, d.id, n, 0), id);
    }
  }

  /** A tick asks a receiver at most maxAttempts times about one delivery. */
  lemma {:induction false} SendsAreBounded(w: World, n: nat, s: Stores, ds: seq<Delivery>, id: Id)
    requires UniqueIds(ds)
    ensures SentFor(HandleAll(w, n, s, ds).sent, id) <= SentFor(s.sent, id) + n
    ensures (forall d :: d in ds ==> d.id != id) ==> SentFor(HandleAll(w, n, s, ds).sent, id) == SentFor(s.sent, id)
  {
    if ds != [] {
      var init, d := ds[..|ds| - 1], ds[|ds| - 1];
      SendsAreBounded(w, n, s, init, id);
      SentForAppends(HandleAll(w, n, s, init).sent, Requests(w, n, d), id);
      RequestsFor(w, n, d, id);
      if d.id == id {
        assert forall x :: x in init ==> x.id != id;
      }
    }
  }

  /** A send of the tick: for a claimed delivery, to the enabled endpoint of that delivery's own account. */
  ghost predicate OwnEndpoint(w: World, ds: seq<Delivery>, x: Sent) {
    exists d :: d in ds && x.id == d.id && d.account in w.endpoints && w.endpoints[d.account] == Endpoint(x.url, true)
  }

  lemma {:induction false} SendsStayInTheAccount(w: World, n: nat, s: Stores, ds: seq<Delivery>)
    ensures s.sent <= HandleAll(w, n, s, ds).sent
    ensures forall k :: |s.sent| <= k < |HandleAll(w, n, s, ds).sent| ==> OwnEndpoint(w, ds, HandleAll(w, n, s, ds).sent[k])
  {
    if ds != [] {
      var init, d := ds[..|ds| - 1], ds[|ds| - 1];
      SendsStayInTheAccount(w, n, s, init);
      var before := HandleAll(w, n, s, init).sent;
      var after := HandleAll(w, n, s, ds).sent;
      forall k | |s.sent| <= k < |after| ensures OwnEndpoint(w, ds, after[k]) {
        if k < |before| {
          assert OwnEndpoint(w, init, after[k]);
          var e :| e in init && after[k].id == e.id && e.account in w.endpoints && w.endpoints[e.account] == Endpoint(after[k].url, true);
          assert e in ds;
        } else {
          assert after[k] == Requests(w, n, d)[k - |before|];
          assert d in ds;
        }
      }
    }
  }

  // ---- lost events ----

  /** No two claimed deliveries share a dead-letter key, and none is parked yet. */
  ghost predicate KeysOpen(s: Stores, ds: seq<Delivery>) {
    && (forall i, j :: 0 <= i < j < |ds| ==> (ds[i].tenant, ds[i].eventKey) != (ds[j].tenant, ds[j].eventKey))
    && (forall d :: d in ds ==> !IsParked(s.deadLetters, d.tenant, d.eventKey))
  }

  lemma ParkAddsOnlyItsKey(letters: seq<DeadLetter>, l: DeadLetter, tenant: Id, key: Id)
    ensures IsParked(Park(letters, l), tenant, key) <==> IsParked(letters, tenant, key) || (l.tenant == tenant && l.eventKey == key)
  {
    var after := Park(letters, l);
    if IsParked(letters, tenant, key) {
      var i :| 0 <= i < |letters| && letters[i].tenant == tenant && letters[i].eventKey == key;
      assert after[i] == letters[i];
    } else if l.tenant == tenant && l.eventKey == key {
      assert after == letters + [l];
      assert after[|letters|] == l;
    }
  }

  ghost predicate WroteLetter(w: World, n: nat, d: Delivery) {
    Fate(w, n, d).Parked? && d.id !in w.parkFaults
  }

  lemma {:induction false} ParkedExactly(w: World, n: nat, s: Stores, ds: seq<Delivery>, tenant: Id, key: Id)
    ensures IsParked(HandleAll(w, n, s, ds).deadLetters, tenant, key) <==>
      (IsParked(s.deadLetters, tenant, key) || exists d :: d in ds && d.tenant == tenant && d.eventKey == key && WroteLetter(w, n, d))
  {
    if ds != [] {
      var init, last := ds[..|ds| - 1], ds[|ds| - 1];
      ParkedExactly(w, n, s, init, tenant, key);
      var before := HandleAll(w, n, s, init);
      if WroteLetter(w, n, last) {
        ParkAddsOnlyItsKey(before.deadLetters, DeadLetter(last.tenant, last.eventKey, Fate(w, n, last).reason), tenant, key);
      } else {
        assert Handled(w, n, before, last).deadLetters == before.deadLetters;
      }
      assert forall d :: d in ds <==> d in init || d == last;
    }
  }

  /** Gone from the outbox, not delivered, not dropped for want of an endpoint, and not parked either. */
  ghost predicate Lost(w: World, t: Tuning, s: Stores, d: Delivery) {
    var s' := Tick(w, t, s);
    && d !in s'.outbox && !Fate(w, t.maxAttempts, d).Delivered? && !Fate(w, t.maxAttempts, d).Dropped?
    && !IsParked(s'.deadLetters, d.tenant, d.eventKey)
  }

  /** The row is removed whether or not the dead letter was written, so an event is lost exactly when it
      was due for parking, that write failed and the removal did not. */
  lemma LostExactlyWhenParkingFailed(w: World, t: Tuning, s: Stores, d: Delivery)
    requires UniqueIds(s.outbox) && KeysOpen(s, Claim(s.outbox, t.batch)) && d in Claim(s.outbox, t.batch)
    ensures Lost(w, t, s, d) <==> (Fate(w, t.maxAttempts, d).Parked? && d.id in w.parkFaults && d.id !in w.deleteFaults)
  {
    var claimed := Claim(s.outbox, t.batch);
    var n := t.maxAttempts;
    OutboxKeepsExactlyTheUnsettled(w, t, s);
    ParkedExactly(w, n, s, claimed, d.tenant, d.eventKey);
    var rest := s.outbox[|claimed|..];
    var i :| 0 <= i < |claimed| && claimed[i] == d;
    assert claimed == s.outbox[..|claimed|];
    forall j | 0 <= j < |rest| ensures rest[j] != d {
      assert s.outbox[i].id != s.outbox[|claimed| + j].id;
    }
    assert d in Tick(w, t, s).outbox <==> StaysQueued(w, n, d);
    if e :| e in claimed && e.tenant == d.tenant && e.eventKey == d.eventKey && WroteLetter(w, n, e) {
      var j :| 0 <= j < |claimed| && claimed[j] == e;
      assert i == j;
    }
  }

  // ---- many ticks ----

  ghost function Ticks(ws: seq<World>, t: Tuning, s: Stores): Stores {
    if ws == [] then s else Tick(ws[|ws| - 1], t, Ticks(ws[..|ws| - 1], t, s))
  }

  ghost predicate Readable(w: World, ds: seq<Delivery>) {
    w.deleteFaults == {} && forall d :: d in ds ==> d.id !in w.unreadable
  }

  lemma NoKeepers(w: World, n: nat, ds: seq<Delivery>)
    requires Readable(w, ds)
    ensures Keepers(w, n, ds) == []
  {
  }

  function Drained(outbox: seq<Delivery>, k: nat): seq<Delivery> {
    if k <= |outbox| then outbox[k..] else []
  }

  lemma TickTakesABatch(w: World, t: Tuning, s: Stores)
    requires UniqueIds(s.outbox) && Readable(w, s.outbox)
    ensures Tick(w, t, s).outbox == Drained(s.outbox, t.batch)
  {
    OutboxKeepsExactlyTheUnsettled(w, t, s);
    NoKeepers(w, t.maxAttempts, Claim(s.outbox, t.batch));
  }

  lemma DrainedTwice(outbox: seq<Delivery>, a: nat, b: nat)
    ensures Drained(Drained(outbox, a), b) == Drained(outbox, a + b)
    ensures UniqueIds(outbox) ==> UniqueIds(Drained(outbox, a))
    ensures forall w :: Readable(w, outbox) ==> Readable(w, Drained(outbox, a))
  {
  }

  ghost predicate AllReadable(ws: seq<World>, ds: seq<Delivery>) {
    forall i :: 0 <= i < |ws| ==> Readable(ws[i], ds)
  }

  lemma DrainStep(w: World, t: Tuning, s: Stores, mid: Stores, gone: nat)
    requires UniqueIds(s.outbox) && Readable(w, s.outbox) && mid.outbox == Drained(s.outbox, gone)
    ensures Tick(w, t, mid).outbox == Drained(s.outbox, gone + t.batch)
  {
    DrainedTwice(s.outbox, gone, t.batch);
    TickTakesABatch(w, t, mid);
  }

  lemma {:induction false} TicksDrain(ws: seq<World>, t: Tuning, s: Stores, gone: nat)
    requires UniqueIds(s.outbox) && AllReadable(ws, s.outbox) && gone == Multiples(|ws|, t.batch)
    ensures Ticks(ws, t, s).outbox == Drained(s.outbox, gone)
  {
    if ws != [] {
      var k := |ws| - 1;
      MultiplesGrow(0, k, t.batch);
      TicksDrain(ws[..k], t, s, Multiples(k, t.batch));
      DrainStep(ws[k], t, s, Ticks(ws[..k], t, s), Multiples(k, t.batch));
    }
  }

  /** While endpoints can be read and rows removed, k ticks take exactly the k oldest batches: nothing is
      retried for ever and nothing is skipped. */
  lemma TicksDrainTheOutbox(ws: seq<World>, t: Tuning, s: Stores)
    requires UniqueIds(s.outbox) && AllReadable(ws, s.outbox)
    ensures Ticks(ws, t, s).outbox == Drained(s.outbox, |ws| * t.batch)
  {
    MultiplesAreProduct(|ws|, t.batch);
    TicksDrain(ws, t, s, |ws| * t.batch);
  }

  lemma {:induction false} KeptChangesNothing(w: World, n: nat, s: Stores, ds: seq<Delivery>)
    requires forall d :: d in ds ==> d.id in w.unreadable
    ensures HandleAll(w, n, s, ds) == s
  {
    if ds != [] {
      KeptChangesNothing(w, n, s, ds[..|ds| - 1]);
      assert s.sent + [] == s.sent;
    }
  }

  /** One full batch whose endpoints cannot be read holds up everything behind it: claims always start at
      the oldest rows. */
  lemma {:induction false} UnreadableHeadBlocksTheRest(ws: seq<World>, t: Tuning, s: Stores)
    requires forall i, d :: 0 <= i < |ws| && d in Claim(s.outbox, t.batch) ==> d.id in ws[i].unreadable
    ensures Ticks(ws, t, s) == s
  {
    if ws != [] {
      UnreadableHeadBlocksTheRest(ws[..|ws| - 1], t, s);
      KeptChangesNothing(ws[|ws| - 1], t.maxAttempts, s, Claim(s.outbox, t.batch));
    }
  }

  /** With working stores a tick changes nothing exactly when every claimed endpoint was unreadable. */
  lemma IdleExactlyWhenAllKept(w: World, t: Tuning, s: Stores)
    requires UniqueIds(s.outbox) && StoresWork(w)
    ensures Tick(w, t, s) == s <==> forall d :: d in Claim(s.outbox, t.batch) ==> d.id in w.unreadable
  {
    var claimed := Claim(s.outbox, t.batch);
    if forall d :: d in claimed ==> d.id in w.unreadable {
      KeptChangesNothing(w, t.maxAttempts, s, claimed);
    } else {
      var d :| d in claimed && d.id !in w.unreadable;
      TickConserves(w, t, s);
      SomeTerminal(w, t.maxAttempts, claimed, d);
    }
  }

  lemma {:induction false} SomeTerminal(w: World, n: nat, ds: seq<Delivery>, d: Delivery)
    requires d in ds && d.id !in w.unreadable
    ensures Terminals(w, n, ds) > 0
  {
    if ds[|ds| - 1] != d {
      SomeTerminal(w, n, ds[..|ds| - 1], d);
    }
  }
}
