/** The copy order of the database migration: every table after the tables its foreign keys name. */
module TableOrder {
  import opened Wrappers
  import opened StringOrder

  /** The target's tables and its foreign keys as (child, parent) pairs. */
  datatype Graph = Graph(all: set<Name>, keys: set<(Name, Name)>)

  /** Self references and keys leaving the listed tables order nothing. */
  predicate Edge(g: Graph, child: Name, parent: Name) {
    child in g.all && parent in g.all && child != parent && (child, parent) in g.keys
  }

  ghost predicate IsCycle(g: Graph, path: seq<Name>) {
    |path| >= 2 && path[0] == path[|path| - 1] && IsWalk(g, path)
  }

  ghost predicate IsWalk(g: Graph, path: seq<Name>) {
    forall i, j :: 0 <= i < j < |path| && j == i + 1 ==> Edge(g, path[i], path[j])
  }

  ghost predicate Acyclic(g: Graph) {
    forall path: seq<Name> :: !IsCycle(g, path)
  }

  /** Lists each table once, each after all the tables it references. */
  ghost predicate Topological(g: Graph, out: seq<Name>) {
    && Distinct(out) && Elements(out) == g.all
    && forall i, j :: 0 <= i < |out| && 0 <= j < |out| && Edge(g, out[i], out[j]) ==> j < i
  }

  // ---- the order, defined without any iteration order ----

  predicate IsReady(g: Graph, done: set<Name>, t: Name) {
    t in g.all && t !in done && forall p | p in g.all :: Edge(g, t, p) ==> p in done
  }

  ghost function Ready(g: Graph, done: set<Name>): set<Name> {
    set t | t in g.all && IsReady(g, done, t)
  }

  lemma ReadyProgresses(g: Graph, done: set<Name>)
    requires done <= g.all && Ready(g, done) != {}
    ensures done + Ready(g, done) <= g.all && g.all - (done + Ready(g, done)) < g.all - done
  {
  }

  /** Round by round, the ready tables in name order; nothing when a round finds none ready. */
  ghost function OrderFrom(g: Graph, done: set<Name>): Option<seq<Name>>
    requires done <= g.all
    decreases g.all - done
  {
    if done == g.all then Some([])
    else if Ready(g, done) == {} then None
    else
      var round := Ready(g, done);
      ReadyProgresses(g, done);
      match OrderFrom(g, done + round)
      case None => None
      case Some(rest) => Some(SortedOf(round) + rest)
  }

  ghost function Order(g: Graph): Option<seq<Name>> {
    OrderFrom(g, {})
  }

  // ---- a successful order is topological ----

  ghost predicate Closed(g: Graph, done: set<Name>) {
    forall t, p :: t in done && Edge(g, t, p) ==> p in done
  }

  ghost predicate Completes(g: Graph, done: set<Name>, out: seq<Name>) {
    && Distinct(out) && Elements(out) == g.all - done
    && forall i, j :: 0 <= i < |out| && 0 <= j < |out| && Edge(g, out[i], out[j]) ==> j < i
  }

  lemma DistinctConcat(head: seq<Name>, rest: seq<Name>)
    requires StrictlySorted(head) && Distinct(rest) && Elements(head) !! Elements(rest)
    ensures Distinct(head + rest)
  {
    ElementsBound(head);
    ElementsBound(rest);
    var out := head + rest;
    forall i, j | 0 <= i < j < |out| ensures out[i] != out[j] {
      if j < |head| { BeforeIrreflexive(out[i]); }
      else if i < |head| { assert out[i] in head && out[j] in rest; }
    }
  }

  lemma RoundCompletes(g: Graph, done: set<Name>, head: seq<Name>, rest: seq<Name>)
    requires done <= g.all && Closed(g, done) && StrictlySorted(head) && Elements(head) == Ready(g, done)
    requires Completes(g, done + Ready(g, done), rest)
    ensures Completes(g, done, head + rest)
  {
    var round := Ready(g, done);
    var out := head + rest;
    ElementsConcat(head, rest);
    DistinctConcat(head, rest);
    forall i, j | 0 <= i < |out| && 0 <= j < |out| && Edge(g, out[i], out[j]) ensures j < i {
      if |head| <= i && |head| <= j {
        assert rest[i - |head|] == out[i] && rest[j - |head|] == out[j];
      }
    }
  }

  lemma {:induction false} OrderCompletes(g: Graph, done: set<Name>)
    requires done <= g.all && Closed(g, done) && OrderFrom(g, done).Some?
    ensures Completes(g, done, OrderFrom(g, done).value)
    decreases g.all - done
  {
    if done != g.all {
      var round := Ready(g, done);
      ReadyProgresses(g, done);
      OrderCompletes(g, done + round);
      RoundCompletes(g, done, SortedOf(round), OrderFrom(g, done + round).value);
    }
  }

  // ---- a topological listing excludes cycles ----

  lemma {:induction false} WalkDescends(g: Graph, out: seq<Name>, path: seq<Name>, at: nat)
    requires Topological(g, out) && IsWalk(g, path) && path != []
    requires at < |out| && out[at] == path[0]
    ensures exists k :: 0 <= k < |out| && out[k] == path[|path| - 1] && k <= at - (|path| - 1)
  {
    if |path| > 1 {
      assert Edge(g, path[0], path[1]);
      assert path[1] in Elements(out);
      var j :| 0 <= j < |out| && out[j] == path[1];
      WalkDescends(g, out, path[1..], j);
    }
  }

  lemma TopologicalIsAcyclic(g: Graph, out: seq<Name>)
    requires Topological(g, out)
    ensures Acyclic(g)
  {
    forall path: seq<Name> ensures !IsCycle(g, path) {
      if IsCycle(g, path) {
        assert Edge(g, path[0], path[1]);
        assert path[0] in Elements(out);
        var at :| 0 <= at < |out| && out[at] == path[0];
        WalkDescends(g, out, path, at);
      }
    }
  }

  // ---- a stuck round exposes a cycle ----

  /** Every stuck table waits on another stuck one. */
  ghost predicate Stuck(g: Graph, s: set<Name>) {
    s != {} && forall t {:trigger WaitsWithin(g, s, t)} :: t in s ==> WaitsWithin(g, s, t)
  }

  ghost predicate WaitsWithin(g: Graph, s: set<Name>, t: Name) {
    exists p :: p in s && Edge(g, t, p)
  }

  lemma {:induction false} LongWalk(g: Graph, s: set<Name>, n: nat) returns (path: seq<Name>)
    requires Stuck(g, s)
    ensures |path| == n + 1 && IsWalk(g, path) && forall x :: x in path ==> x in s
  {
    if n == 0 {
      var t :| t in s;
      path := [t];
    } else {
      var shorter := LongWalk(g, s, n - 1);
      var last := shorter[|shorter| - 1];
      assert last in s && WaitsWithin(g, s, last);
      var p :| p in s && Edge(g, last, p);
      path := shorter + [p];
    }
  }

  lemma {:induction false} Pigeonhole(s: set<Name>, path: seq<Name>)
    requires Distinct(path) && forall x :: x in path ==> x in s
    ensures |path| <= |s|
  {
    if path != [] {
      var x := path[0];
      assert x in s;
      Pigeonhole(s - {x}, path[1..]);
    }
  }

  lemma StuckHasCycle(g: Graph, s: set<Name>)
    requires Stuck(g, s)
    ensures !Acyclic(g)
  {
    var path := LongWalk(g, s, |s|);
    if Distinct(path) { Pigeonhole(s, path); }
    var i, j :| 0 <= i < j < |path| && path[i] == path[j];
    assert IsCycle(g, path[i..j + 1]);
  }

  lemma StuckRound(g: Graph, done: set<Name>)
    requires done <= g.all && done != g.all && Ready(g, done) == {}
    ensures OrderFrom(g, done).None? && Stuck(g, g.all - done)
  {
    forall t | t in g.all - done ensures WaitsWithin(g, g.all - done, t) {
      assert t !in Ready(g, done);
    }
    assert done == g.all - (g.all - done);
  }

  lemma {:induction false} NoOrderHasCycle(g: Graph, done: set<Name>)
    requires done <= g.all && OrderFrom(g, done).None?
    ensures !Acyclic(g)
    decreases g.all - done
  {
    var round := Ready(g, done);
    if round == {} {
      StuckRound(g, done);
      StuckHasCycle(g, g.all - done);
    } else {
      ReadyProgresses(g, done);
      NoOrderHasCycle(g, done + round);
    }
  }

  /** An order exists exactly when the foreign keys, self references aside, form no cycle; and it then
      lists every table once, after all it references. */
  lemma OrderedExactlyWhenAcyclic(g: Graph)
    ensures Order(g).Some? <==> Acyclic(g)
    ensures Order(g).Some? ==> Topological(g, Order(g).value)
  {
    if Order(g).Some? {
      OrderCompletes(g, {});
      TopologicalIsAcyclic(g, Order(g).value);
    } else {
      NoOrderHasCycle(g, {});
    }
  }

  // ---- the algorithm ----

  const SKIPPED := {Name("schema_migrations")}

  datatype Ordering = Ordered(tables: seq<Name>) | CycleAmong(stuck: seq<Name>)

  function GraphOf(names: seq<Name>, keys: seq<(Name, Name)>): Graph {
    Graph(set t | t in names && t !in SKIPPED, set k | k in keys)
  }

  /** One pass over the tables, in whatever order the map yields them. */
  method CollectReady(g: Graph, done: set<Name>) returns (ready: seq<Name>)
    ensures Distinct(ready) && Elements(ready) == Ready(g, done)
  {
    ready := [];
    var left := g.all;
    while left != {}
      invariant left <= g.all && Distinct(ready)
      invariant Elements(ready) == Ready(g, done) - left
      decreases left
    {
      var t :| t in left;
      var ok := IsReady(g, done, t);
      ElementsBound(ready);
      if ok {
        ElementsConcat(ready, [t]);
        ready := ready + [t];
      }
      left := left - {t};
    }
  }

  ghost function Prefixed(out: seq<Name>, rest: Option<seq<Name>>): Option<seq<Name>> {
    match rest
    case None => None
    case Some(r) => Some(out + r)
  }

  /** The ready tables go first, in name order, and the rest follows. */
  lemma ReadyRound(g: Graph, done: set<Name>, out: seq<Name>, head: seq<Name>)
    requires done <= g.all && done != g.all && Ready(g, done) != {} && head == SortedOf(Ready(g, done))
    ensures done + Ready(g, done) <= g.all && g.all - (done + Ready(g, done)) < g.all - done
    ensures Prefixed(out, OrderFrom(g, done)) == Prefixed(out + head, OrderFrom(g, done + Ready(g, done)))
  {
    ReadyProgresses(g, done);
    var rest := OrderFrom(g, done + Ready(g, done));
    if rest.Some? {
      assert out + (head + rest.value) == out + head + rest.value;
    }
  }

  /** Every copied table once, and every key's parent before its child. */
  lemma TopologicalMeans(g: Graph, names: seq<Name>, keys: seq<(Name, Name)>, out: seq<Name>)
    requires g == GraphOf(names, keys) && Topological(g, out)
    ensures forall t :: t in out <==> t in names && t != Name("schema_migrations")
    ensures forall i, j :: 0 <= i < |out| && 0 <= j < |out| && (out[i], out[j]) in keys && i != j ==> j < i
  {
    ElementsBound(out);
    forall i, j | 0 <= i < |out| && 0 <= j < |out| && (out[i], out[j]) in keys && i != j ensures j < i {
      assert out[i] in Elements(out) && out[j] in Elements(out);
      assert out[i] != out[j];
      assert Edge(g, out[i], out[j]);
    }
  }

  /** Kahn's rounds. The result is a function of the schema alone, not of map iteration order. */
  method Rounds(g: Graph) returns (r: Ordering)
    ensures r.Ordered? ==> Order(g) == Some(r.tables)
    ensures r.CycleAmong? ==> Order(g) == None && StrictlySorted(r.stuck) && Stuck(g, Elements(r.stuck))
  {
    var out: seq<Name> := [];
    var done: set<Name> := {};
    assert Order(g).Some? ==> [] + Order(g).value == Order(g).value;
    while done != g.all
      invariant done <= g.all
      invariant Order(g) == Prefixed(out, OrderFrom(g, done))
      decreases g.all - done
    {
      var ready := CollectReady(g, done);
      ElementsBound(ready);
      if ready == [] {
        StuckRound(g, done);
        var stuck := ListSorted(g.all - done);
        return CycleAmong(stuck);
      }
      ready := SortNames(ready);
      SortedListingUnique(ready, SortedOf(Ready(g, done)));
      ReadyRound(g, done, out, ready);
      out := out + ready;
      done := done + (set t | t in ready);
    }
    assert out + [] == out;
    return Ordered(out);
  }

  /** The copy order: every table once, every key's parent before its child, exactly when the keys form no
      cycle; otherwise the tables that wait on each other. */
  method OrderedTables(names: seq<Name>, keys: seq<(Name, Name)>) returns (r: Ordering)
    ensures r.Ordered? <==> Acyclic(GraphOf(names, keys))
    ensures r.Ordered? ==> Order(GraphOf(names, keys)) == Some(r.tables) && Topological(GraphOf(names, keys), r.tables)
    ensures r.CycleAmong? ==> StrictlySorted(r.stuck) && Stuck(GraphOf(names, keys), Elements(r.stuck))
    ensures r.Ordered? ==> Distinct(r.tables) && forall t :: t in r.tables <==> t in names && t != Name("schema_migrations")
    ensures r.Ordered? ==> forall i, j :: 0 <= i < |r.tables| && 0 <= j < |r.tables| && (r.tables[i], r.tables[j]) in keys && i != j ==> j < i
  {
    var g := GraphOf(names, keys);
    OrderedExactlyWhenAcyclic(g);
    r := Rounds(g);
    if r.Ordered? { TopologicalMeans(g, names, keys, r.tables); }
  }
}
