/** The process-local guard that collapses retries under one idempotency key for a limited time: account-key
    rotation, client provisioning and batch invoicing share it. The map is pruned lazily; the reference keeps
    the whole history of calls. */
module IdempotencyGuard {
  import opened Wrappers

  const TTL: int := 15 * 60

  datatype Key = Key(text: string)

  datatype Entry<V> = Entry(value: V, at: int)

  /** One guarded call: when it started, when its work was recorded, and what the work gave (nothing when it
      failed). */
  datatype Call<V> = Call(key: Key, now: int, recorded: int, work: Option<V>)

  /** Fresh work, an earlier result replayed, or a failure. */
  datatype Answer<V> = Fresh(value: V) | Replay(value: V) | Failed

  function Pruned<V>(seen: map<Key, Entry<V>>, ttl: int, now: int): map<Key, Entry<V>> {
    map k | k in seen && now - seen[k].at <= ttl :: seen[k]
  }

  function Guarded<V>(seen: map<Key, Entry<V>>, ttl: int, c: Call<V>): (map<Key, Entry<V>>, Answer<V>) {
    var live := Pruned(seen, ttl, c.now);
    if c.key in live then (live, Replay(live[c.key].value))
    else if c.work.None? then (live, Failed)
    else (live[c.key := Entry(c.work.value, c.recorded)], Fresh(c.work.value))
  }

  function Seen<V>(calls: seq<Call<V>>, ttl: int): map<Key, Entry<V>> {
    if calls == [] then map[] else Guarded(Seen(calls[..|calls| - 1], ttl), ttl, calls[|calls| - 1]).0
  }

  /** The answer the i-th call of a run gets. */
  function AnswerAt<V>(calls: seq<Call<V>>, ttl: int, i: nat): Answer<V>
    requires i < |calls|
  {
    Guarded(Seen(calls[..i], ttl), ttl, calls[i]).1
  }

  /** The clock does not run backwards, within a call or from one call to the next. */
  ghost predicate Ordered<V>(calls: seq<Call<V>>) {
    && (forall i :: 0 <= i < |calls| ==> calls[i].now <= calls[i].recorded)
    && (forall i, j :: 0 <= i < j < |calls| ==> calls[i].recorded <= calls[j].now)
  }

  // ---- the guard object ----

  class Guard<V(==)> {
    const ttl: int
    var seen: map<Key, Entry<V>>

    constructor (ttl: int)
      ensures seen == map[] && this.ttl == ttl
    {
      this.ttl := ttl;
      seen := map[];
    }

    /** Drops the expired entries one by one, in whatever order the map gives them. */
    method Prune(now: int)
      modifies this
      ensures seen == Pruned(old(seen), ttl, now)
    {
      var left := seen.Keys;
      while left != {}
        invariant left <= old(seen).Keys
        invariant forall k :: k in seen <==> k in old(seen) && (k in left || now - old(seen)[k].at <= ttl)
        invariant forall k :: k in seen ==> seen[k] == old(seen)[k]
        decreases left
      {
        var k :| k in left;
        if now - seen[k].at > ttl {
          seen := seen - {k};
        }
        left := left - {k};
      }
    }
  }

  // ---- the full-history definition ----

  /** The latest fresh result recorded under a key, however long ago. */
  function LastFresh<V>(calls: seq<Call<V>>, ttl: int, key: Key): Option<Entry<V>> {
    if calls == [] then None
    else
      var init, c := calls[..|calls| - 1], calls[|calls| - 1];
      if c.key == key && AnswerAt(calls, ttl, |calls| - 1).Fresh? then Some(Entry(c.work.value, c.recorded))
      else LastFresh(init, ttl, key)
  }

  /** The lazily pruned map against the history: it holds the last fresh result, or that one has expired. */
  ghost predicate Agrees<V(!new)>(calls: seq<Call<V>>, ttl: int, key: Key) {
    var last := LastFresh(calls, ttl, key);
    if key in Seen(calls, ttl) then last == Some(Seen(calls, ttl)[key])
    else last.Some? ==> calls != [] && calls[|calls| - 1].now - last.value.at > ttl
  }

  lemma OrderedPrefix<V(!new)>(calls: seq<Call<V>>, n: nat)
    requires Ordered(calls) && n <= |calls|
    ensures Ordered(calls[..n])
  {
  }

  lemma {:induction false} MapAgreesWithHistory<V(!new)>(calls: seq<Call<V>>, ttl: int, key: Key)
    requires Ordered(calls) && ttl >= 0
    ensures Agrees(calls, ttl, key)
    ensures var last := LastFresh(calls, ttl, key); last.Some? ==> calls != [] && last.value.at <= calls[|calls| - 1].recorded
  {
    if calls != [] {
      var init := calls[..|calls| - 1];
      OrderedPrefix(calls, |init|);
      MapAgreesWithHistory(init, ttl, key);
    }
  }

  /** In every run a call is answered from memory exactly when the last fresh result under its key is no
      older than the limit, and then with that result; otherwise its own work decides, so a failure never
      stands in the way of a retry. */
  lemma ReplayedExactlyWithinTtl<V(!new)>(calls: seq<Call<V>>, ttl: int, i: nat)
    requires Ordered(calls) && ttl >= 0 && i < |calls|
    ensures var last := LastFresh(calls[..i], ttl, calls[i].key); var a := AnswerAt(calls, ttl, i);
      if last.Some? && calls[i].now - last.value.at <= ttl then a == Replay(last.value.value)
      else a == if calls[i].work.Some? then Fresh(calls[i].work.value) else Failed
  {
    OrderedPrefix(calls, i);
    MapAgreesWithHistory(calls[..i], ttl, calls[i].key);
    if i > 0 { assert calls[..i][i - 1] == calls[i - 1]; }
  }

  lemma {:induction false} LastFreshIsLatest<V(!new)>(calls: seq<Call<V>>, ttl: int, i: nat)
    requires Ordered(calls) && i < |calls| && AnswerAt(calls, ttl, i).Fresh?
    ensures var last := LastFresh(calls, ttl, calls[i].key); last.Some? && last.value.at >= calls[i].recorded
    decreases |calls|
  {
    var n := |calls| - 1;
    if i < n {
      var init := calls[..n];
      OrderedPrefix(calls, n);
      assert init[..i] == calls[..i];
      LastFreshIsLatest(init, ttl, i);
    }
  }

  /** Two fresh results under the same key are more than the limit apart. */
  lemma FreshResultsAreFarApart<V(!new)>(calls: seq<Call<V>>, ttl: int, i: nat, j: nat)
    requires Ordered(calls) && ttl >= 0 && i < j < |calls| && calls[i].key == calls[j].key
    requires AnswerAt(calls, ttl, i).Fresh? && AnswerAt(calls, ttl, j).Fresh?
    ensures calls[j].now - calls[i].recorded > ttl
  {
    OrderedPrefix(calls, j);
    assert calls[..j][..i] == calls[..i];
    LastFreshIsLatest(calls[..j], ttl, i);
    ReplayedExactlyWithinTtl(calls, ttl, j);
  }

  /** Until the limit has passed since a fresh result, every call under its key replays that very result. */
  lemma {:induction false} ReplaysAreFaithful<V(!new)>(calls: seq<Call<V>>, ttl: int, i: nat, j: nat)
    requires Ordered(calls) && ttl >= 0 && i < j < |calls| && calls[i].key == calls[j].key
    requires AnswerAt(calls, ttl, i).Fresh? && calls[j].now - calls[i].recorded <= ttl
    ensures AnswerAt(calls, ttl, j) == Replay(AnswerAt(calls, ttl, i).value)
  {
    OrderedPrefix(calls, j);
    LastFreshUntouched(calls, ttl, i, j);
    ReplayedExactlyWithinTtl(calls, ttl, j);
  }

  lemma {:induction false} LastFreshUntouched<V(!new)>(calls: seq<Call<V>>, ttl: int, i: nat, j: nat)
    requires Ordered(calls) && ttl >= 0 && i < j < |calls|
    requires AnswerAt(calls, ttl, i).Fresh? && calls[j].now - calls[i].recorded <= ttl
    ensures LastFresh(calls[..j], ttl, calls[i].key) == Some(Entry(AnswerAt(calls, ttl, i).value, calls[i].recorded))
    decreases j
  {
    var upTo := calls[..j];
    if i == j - 1 {
      assert upTo[..j - 1] == calls[..i] && upTo[j - 1] == calls[i];
    } else {
      LastFreshUntouched(calls, ttl, i, j - 1);
      assert upTo[..j - 1] == calls[..j - 1] && upTo[j - 1] == calls[j - 1];
      if calls[j - 1].key == calls[i].key && AnswerAt(calls, ttl, j - 1).Fresh? {
        FreshResultsAreFarApart(calls, ttl, i, j - 1);
      }
    }
  }

  // ---- the composite key ----

  const NUL: char := '\0'

  function GuardKey(account: string, idemKey: string): Key {
    Key(account + [NUL] + idemKey)
  }

  lemma SplitAtNul(a: string, k: string, b: string, l: string)
    requires NUL !in a && NUL !in b && a + [NUL] + k == b + [NUL] + l
    ensures a == b && k == l
  {
    var s := a + [NUL] + k;
    assert s[|a|] == NUL && s[|b|] == NUL;
    assert a == s[..|a|] && b == s[..|b|];
    assert k == s[|a| + 1..] && l == s[|b| + 1..];
  }

  /** Accounts without a zero character never share a guard key. */
  lemma GuardKeyIsExact(a: string, k: string, b: string, l: string)
    requires NUL !in a && NUL !in b
    ensures GuardKey(a, k) == GuardKey(b, l) <==> a == b && k == l
  {
    if GuardKey(a, k) == GuardKey(b, l) { SplitAtNul(a, k, b, l); }
  }

  lemma ZeroCharacterCollides()
    ensures GuardKey("a" + [NUL] + "b", "c") == GuardKey("a", "b" + [NUL] + "c")
  {
  }
}
