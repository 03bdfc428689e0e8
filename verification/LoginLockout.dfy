/** The per-user brute-force limiter. The map is pruned lazily, one key at a time and only when that key is
    touched; the reference keeps the whole history of strikes. */
module LoginLockout {

  datatype User = User(name: string)

  datatype Entry = Entry(count: nat, until: int)

  datatype Op = Query(user: User, now: int) | Strike(user: User, now: int) | Reset(user: User, now: int)

  const DEFAULT_MAX: nat := 5
  const DEFAULT_WINDOW: int := 15 * 60

  type Failures = map<User, Entry>

  predicate IsLocked(f: Failures, max: nat, user: User, now: int) {
    user in f && now <= f[user].until && f[user].count >= max
  }

  function Pruned(f: Failures, user: User, now: int): Failures {
    if user in f && now > f[user].until then f - {user} else f
  }

  function Struck(f: Failures, window: int, user: User, now: int): Failures {
    f[user := Entry(if user in f && now <= f[user].until then f[user].count + 1 else 1, now + window)]
  }

  function Apply(f: Failures, window: int, op: Op): Failures {
    match op
    case Query(user, now) => Pruned(f, user, now)
    case Strike(user, now) => Struck(f, window, user, now)
    case Reset(user, _) => f - {user}
  }

  function Replay(ops: seq<Op>, window: int): Failures {
    if ops == [] then map[] else Apply(Replay(ops[..|ops| - 1], window), window, ops[|ops| - 1])
  }

  /** The limiter object. */
  class Lockout {
    const max: nat
    const window: int
    var failures: Failures

    constructor (max: int, window: int)
      ensures failures == map[]
      ensures this.max == (if max > 0 then max else 5) && this.window == (if window > 0 then window else 900)
    {
      this.max := if max <= 0 then DEFAULT_MAX else max;
      this.window := if window <= 0 then DEFAULT_WINDOW else window;
      failures := map[];
    }

    method Locked(user: User, now: int) returns (locked: bool)
      modifies this
      ensures locked == IsLocked(old(failures), max, user, now)
      ensures failures == Apply(old(failures), window, Query(user, now))
    {
      if user !in failures { return false; }
      var e := failures[user];
      if now > e.until {
        failures := failures - {user};
        return false;
      }
      return e.count >= max;
    }

    method Strike(user: User, now: int)
      modifies this
      ensures failures == Apply(old(failures), window, Op.Strike(user, now))
    {
      var e := Entry(0, 0);
      if user in failures && now <= failures[user].until {
        e := failures[user];
      }
      failures := failures[user := Entry(e.count + 1, now + window)];
    }

    method Reset(user: User, now: int)
      modifies this
      ensures failures == Apply(old(failures), window, Op.Reset(user, now))
    {
      failures := failures - {user};
    }
  }

  // ---- the full-history definition ----

  /** Every strike against the user since their last reset; nothing is ever forgotten. */
  function StrikesSinceReset(ops: seq<Op>, user: User): seq<int> {
    if ops == [] then []
    else
      var before, op := StrikesSinceReset(ops[..|ops| - 1], user), ops[|ops| - 1];
      if op.user != user || op.Query? then before
      else if op.Reset? then []
      else before + [op.now]
  }

  /** The last n strikes follow each other within the window. */
  ghost predicate Streak(ts: seq<int>, n: nat, window: int) {
    n <= |ts| && forall i, j :: |ts| - n <= i < |ts| && |ts| - n <= j < |ts| && j == i + 1 ==> ts[j] <= ts[i] + window
  }

  /** Locked, by the book: a streak of at least max strikes, and the window since the last not elapsed. */
  ghost predicate LockedByHistory(ops: seq<Op>, max: nat, window: int, user: User, now: int) {
    var ts := StrikesSinceReset(ops, user);
    ts != [] && Streak(ts, max, window) && now <= ts[|ts| - 1] + window
  }

  /** Length of the longest streak at the end. */
  function Run(ts: seq<int>, window: int): (n: nat)
    ensures n <= |ts|
    ensures ts != [] ==> n > 0
  {
    if ts == [] then 0
    else
      var init := ts[..|ts| - 1];
      if init != [] && ts[|ts| - 1] <= init[|init| - 1] + window then Run(init, window) + 1 else 1
  }

  /** A streak of n + 1 is one of n before the last strike, and the last within the window of it. */
  lemma StreakGrows(ts: seq<int>, window: int, n: nat)
    requires |ts| > 1 && n > 0
    ensures Streak(ts, n + 1, window) <==> Streak(ts[..|ts| - 1], n, window) && ts[|ts| - 1] <= ts[|ts| - 2] + window
  {
  }

  lemma {:induction false} RunIsLongestStreak(ts: seq<int>, window: int, n: nat)
    ensures Streak(ts, n, window) <==> n <= Run(ts, window)
    decreases |ts|
  {
    if |ts| > 1 && n > 1 {
      StreakGrows(ts, window, n - 1);
      RunIsLongestStreak(ts[..|ts| - 1], window, n - 1);
    }
  }

  ghost predicate Ordered(ops: seq<Op>) {
    forall i, j :: 0 <= i <= j < |ops| ==> ops[i].now <= ops[j].now
  }

  /** The lazily pruned entry against the history: present entries carry the streak and its expiry, and an
      absent one only ever hides a streak that has expired. */
  ghost predicate Agrees(f: Failures, ops: seq<Op>, window: int, user: User) {
    var ts := StrikesSinceReset(ops, user);
    if user in f then ts != [] && f[user] == Entry(Run(ts, window), ts[|ts| - 1] + window)
    else ts != [] ==> ops != [] && ts[|ts| - 1] + window < ops[|ops| - 1].now
  }

  lemma StrikesSnoc(init: seq<Op>, op: Op, window: int, user: User)
    ensures var ts, ts' := StrikesSinceReset(init, user), StrikesSinceReset(init + [op], user);
      && (op.user != user || op.Query? ==> ts' == ts)
      && (op.user == user && op.Reset? ==> ts' == [])
      && (op.user == user && op.Strike? ==>
            && ts' == ts + [op.now]
            && Run(ts', window) == if ts != [] && op.now <= ts[|ts| - 1] + window then Run(ts, window) + 1 else 1)
  {
  }

  lemma OpAgrees(f: Failures, init: seq<Op>, op: Op, window: int, user: User)
    requires Agrees(f, init, window, user) && (init != [] ==> init[|init| - 1].now <= op.now)
    ensures Agrees(Apply(f, window, op), init + [op], window, user)
  {
  }

  lemma {:induction false} MapAgreesWithHistory(ops: seq<Op>, window: int, user: User)
    requires Ordered(ops)
    ensures Agrees(Replay(ops, window), ops, window, user)
  {
    if ops != [] {
      var init, op := ops[..|ops| - 1], ops[|ops| - 1];
      MapAgreesWithHistory(init, window, user);
      if init != [] { assert init[|init| - 1].now <= op.now; }
      OpAgrees(Replay(init, window), init, op, window, user);
      assert init + [op] == ops;
    }
  }

  /** For every history at non-decreasing times and every later moment, the pruned map locks a user exactly
      when the full history does. */
  lemma LazyMapRefinesHistory(ops: seq<Op>, max: nat, window: int, user: User, now: int)
    requires Ordered(ops + [Query(user, now)]) && max > 0
    ensures IsLocked(Replay(ops, window), max, user, now) <==> LockedByHistory(ops, max, window, user, now)
  {
    var all := ops + [Query(user, now)];
    forall i, j | 0 <= i <= j < |ops| ensures ops[i].now <= ops[j].now {
      assert all[i].now <= all[j].now;
    }
    if ops != [] { assert all[|ops| - 1].now <= all[|ops|].now; }
    MapAgreesWithHistory(ops, window, user);
    RunIsLongestStreak(StrikesSinceReset(ops, user), window, max);
  }

  /** A clock that steps back breaks the agreement: the query pruned a streak that the earlier moment would
      still hold. */
  lemma BackwardClockForgets(user: User)
    ensures var ops := [Strike(user, 0), Query(user, 11)];
      !IsLocked(Replay(ops, 10), 1, user, 5) && LockedByHistory(ops, 1, 10, user, 5)
  {
  }
}
