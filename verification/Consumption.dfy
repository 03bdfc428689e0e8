/** Metering: aggregating the append-only ledger by endpoint and tenant over a half-open window. */
module Consumption {
  import opened Wrappers
  import opened StringOrder

  datatype Entry = Entry(tenant: Name, endpoint: Name, priceCents: nat, at: int)

  /** The half-open window [start, end); an absent bound is open. */
  datatype Range = Range(start: Option<int>, end: Option<int>)

  predicate Includes(rng: Range, t: int) {
    && (rng.start.Some? ==> rng.start.value <= t)
    && (rng.end.Some? ==> t < rng.end.value)
  }

  datatype Dim = ByTenant | ByEndpoint

  function KeyOf(dim: Dim, e: Entry): Name {
    if dim.ByTenant? then e.tenant else e.endpoint
  }

  /** Which entries a figure counts. */
  datatype Query = Query(rng: Range, tenant: Option<Name>, endpoint: Option<Name>)

  predicate Picks(q: Query, e: Entry) {
    && Includes(q.rng, e.at)
    && (q.tenant.Some? ==> q.tenant.value == e.tenant)
    && (q.endpoint.Some? ==> q.endpoint.value == e.endpoint)
  }

  function Refine(q: Query, dim: Dim, n: Name): Query {
    if dim.ByTenant? then q.(tenant := Some(n)) else q.(endpoint := Some(n))
  }

  predicate Open(q: Query, dim: Dim) {
    if dim.ByTenant? then q.tenant.None? else q.endpoint.None?
  }

  datatype Measure = Calls | Cents

  function Weight(m: Measure, e: Entry): nat {
    if m.Calls? then 1 else e.priceCents
  }

  function One(q: Query, e: Entry, m: Measure): nat {
    if Picks(q, e) then Weight(m, e) else 0
  }

  /** One measure over the entries a query picks, each counted once. */
  function Tally(es: seq<Entry>, q: Query, m: Measure): nat {
    if es == [] then 0 else Tally(es[..|es| - 1], q, m) + One(q, es[|es| - 1], m)
  }

  datatype Usage = Usage(calls: nat, cents: nat)

  const NOTHING := Usage(0, 0)

  function Part(u: Usage, m: Measure): nat {
    if m.Calls? then u.calls else u.cents
  }

  function Plus(u: Usage, e: Entry): Usage {
    Usage(u.calls + 1, u.cents + e.priceCents)
  }

  function UsageOf(es: seq<Entry>, q: Query): Usage {
    Usage(Tally(es, q, Calls), Tally(es, q, Cents))
  }

  /** The entries a query picks, in ledger order. */
  function Picked(es: seq<Entry>, q: Query): seq<Entry> {
    if es == [] then []
    else Picked(es[..|es| - 1], q) + if Picks(q, es[|es| - 1]) then [es[|es| - 1]] else []
  }

  function SumPrices(es: seq<Entry>): nat {
    if es == [] then 0 else SumPrices(es[..|es| - 1]) + es[|es| - 1].priceCents
  }

  /** A figure's calls are the number of the entries it counts, and its cents the sum of their prices. */
  lemma {:induction false} FiguresCountEntries(es: seq<Entry>, q: Query)
    ensures UsageOf(es, q) == Usage(|Picked(es, q)|, SumPrices(Picked(es, q)))
    ensures forall e :: e in Picked(es, q) <==> e in es && Picks(q, e)
  {
    if es != [] {
      var init, e := es[..|es| - 1], es[|es| - 1];
      FiguresCountEntries(init, q);
      var before := Picked(init, q);
      assert (before + [e])[..|before|] == before;
      assert before + [] == before;
      assert forall x :: x in es <==> x in init || x == e;
    }
  }

  /** An entry is in the window when its time is not before the start and strictly before the end; an absent
      bound admits everything on its side. */
  lemma WindowIsHalfOpen(start: int, end: int, t: int)
    ensures Includes(Range(Some(start), Some(end)), t) <==> start <= t < end
    ensures Includes(Range(Some(start), None), t) <==> start <= t
    ensures Includes(Range(None, Some(end)), t) <==> t < end
    ensures Includes(Range(None, None), t)
  {
  }

  ghost function Keys(dim: Dim, es: seq<Entry>, q: Query): set<Name> {
    set e | e in es && Picks(q, e) :: KeyOf(dim, e)
  }

  datatype Line = Line(name: Name, usage: Usage)

  function Names(lines: seq<Line>): seq<Name> {
    seq(|lines|, i requires 0 <= i < |lines| => lines[i].name)
  }

  /** The lines of a query along a dimension: one for each name seen, in name order, with what the ledger
      records for it. */
  ghost predicate IsListing(lines: seq<Line>, dim: Dim, es: seq<Entry>, q: Query) {
    && StrictlySorted(Names(lines))
    && Elements(Names(lines)) == Keys(dim, es, q)
    && forall i :: 0 <= i < |lines| ==> lines[i].usage == UsageOf(es, Refine(q, dim, lines[i].name))
  }

  function SumLines(lines: seq<Line>, m: Measure): nat {
    if lines == [] then 0 else SumLines(lines[..|lines| - 1], m) + Part(lines[|lines| - 1].usage, m)
  }

  // ---- reports ----

  datatype Report = Report(lines: seq<Line>, total: Usage)

  ghost predicate IsReport(r: Report, es: seq<Entry>, q: Query) {
    r.total == UsageOf(es, q) && IsListing(r.lines, ByEndpoint, es, q)
  }

  datatype TenantReport = TenantReport(tenant: Name, report: Report)

  datatype AccountReport = AccountReport(tenants: seq<TenantReport>, total: Usage)

  function TenantNames(ts: seq<TenantReport>): seq<Name> {
    seq(|ts|, i requires 0 <= i < |ts| => ts[i].tenant)
  }

  /** The account's report: each tenant seen, in name order, with its own report, and the grand total. */
  ghost predicate IsAccountReport(r: AccountReport, es: seq<Entry>, q: Query) {
    && r.total == UsageOf(es, q)
    && StrictlySorted(TenantNames(r.tenants))
    && Elements(TenantNames(r.tenants)) == Keys(ByTenant, es, q)
    && forall i :: 0 <= i < |r.tenants| ==> IsReport(r.tenants[i].report, es, Refine(q, ByTenant, r.tenants[i].tenant))
  }

  lemma KeysSnoc(dim: Dim, es: seq<Entry>, e: Entry, q: Query)
    ensures Keys(dim, es + [e], q) == Keys(dim, es, q) + if Picks(q, e) then {KeyOf(dim, e)} else {}
  {
  }

  lemma TallySnoc(es: seq<Entry>, e: Entry, q: Query, m: Measure)
    ensures Tally(es + [e], q, m) == Tally(es, q, m) + One(q, e, m)
  {
  }

  lemma UsageSnoc(es: seq<Entry>, e: Entry, q: Query)
    ensures UsageOf(es + [e], q) == if Picks(q, e) then Plus(UsageOf(es, q), e) else UsageOf(es, q)
  {
  }

  /** The name is not a key, so nothing was counted for it. */
  lemma {:induction false} UnseenIsNothing(dim: Dim, es: seq<Entry>, q: Query, n: Name)
    requires Open(q, dim) && n !in Keys(dim, es, q)
    ensures UsageOf(es, Refine(q, dim, n)) == NOTHING
  {
    if es != [] {
      var init, e := es[..|es| - 1], es[|es| - 1];
      assert init + [e] == es;
      KeysSnoc(dim, init, e, q);
      UsageSnoc(init, e, Refine(q, dim, n));
      UnseenIsNothing(dim, init, q, n);
    }
  }

  /** A map from each key seen to its usage. */
  ghost predicate Tallies(m: map<Name, Usage>, dim: Dim, es: seq<Entry>, q: Query) {
    && m.Keys == Keys(dim, es, q)
    && forall n :: n in m ==> m[n] == UsageOf(es, Refine(q, dim, n))
  }

  function Bump(m: map<Name, Usage>, n: Name, e: Entry): map<Name, Usage> {
    m[n := Plus(if n in m then m[n] else NOTHING, e)]
  }

  lemma BumpTallies(m: map<Name, Usage>, dim: Dim, es: seq<Entry>, e: Entry, q: Query)
    requires Tallies(m, dim, es, q) && Open(q, dim)
    ensures Tallies(if Picks(q, e) then Bump(m, KeyOf(dim, e), e) else m, dim, es + [e], q)
  {
    var m' := if Picks(q, e) then Bump(m, KeyOf(dim, e), e) else m;
    KeysSnoc(dim, es, e, q);
    forall n | n in m' ensures m'[n] == UsageOf(es + [e], Refine(q, dim, n)) {
      UsageSnoc(es, e, Refine(q, dim, n));
      if n !in m { UnseenIsNothing(dim, es, q, n); }
    }
  }

  /** Lists a tally in name order. */
  method ListLines(m: map<Name, Usage>, ghost dim: Dim, ghost es: seq<Entry>, ghost q: Query) returns (lines: seq<Line>)
    requires Tallies(m, dim, es, q)
    ensures IsListing(lines, dim, es, q)
  {
    var names := ListSorted(m.Keys);
    ElementsBound(names);
    lines := WithUsage(names, m);
    assert Names(lines) == names;
  }

  method WithUsage(names: seq<Name>, m: map<Name, Usage>) returns (lines: seq<Line>)
    requires forall n :: n in names ==> n in m
    ensures |lines| == |names| && forall i :: 0 <= i < |names| ==> lines[i] == Line(names[i], m[names[i]])
  {
    lines := [];
    for i := 0 to |names|
      invariant |lines| == i && forall k :: 0 <= k < i ==> lines[k] == Line(names[k], m[names[k]])
    {
      assert names[i] in names;
      lines := lines + [Line(names[i], m[names[i]])];
    }
  }

  /** One tenant's report from its own entries. */
  method ConsumptionInRange(entries: seq<Entry>, rng: Range) returns (rep: Report)
    ensures IsReport(rep, entries, Query(rng, None, None))
  {
    ghost var q := Query(rng, None, None);
    var byEndpoint: map<Name, Usage> := map[];
    var total := NOTHING;
    for i := 0 to |entries|
      invariant Tallies(byEndpoint, ByEndpoint, entries[..i], q)
      invariant total == UsageOf(entries[..i], q)
    {
      var e := entries[i];
      assert entries[..i + 1] == entries[..i] + [e];
      BumpTallies(byEndpoint, ByEndpoint, entries[..i], e, q);
      UsageSnoc(entries[..i], e, q);
      if Includes(rng, e.at) {
        byEndpoint := Bump(byEndpoint, e.endpoint, e);
        total := Plus(total, e);
      }
    }
    assert entries[..|entries|] == entries;
    var lines := ListLines(byEndpoint, ByEndpoint, entries, q);
    rep := Report(lines, total);
  }

  ghost predicate NestedTallies(m: map<Name, map<Name, Usage>>, es: seq<Entry>, q: Query) {
    && m.Keys == Keys(ByTenant, es, q)
    && forall t :: t in m ==> Tallies(m[t], ByEndpoint, es, Refine(q, ByTenant, t))
  }

  lemma NothingSeen(es: seq<Entry>, q: Query, t: Name)
    requires q.tenant.None? && t !in Keys(ByTenant, es, q)
    ensures Tallies(map[], ByEndpoint, es, Refine(q, ByTenant, t))
  {
  }

  lemma BumpNested(m: map<Name, map<Name, Usage>>, es: seq<Entry>, e: Entry, q: Query)
    requires NestedTallies(m, es, q) && q.tenant.None? && q.endpoint.None?
    ensures var inner := if e.tenant in m then m[e.tenant] else map[];
      NestedTallies(if Picks(q, e) then m[e.tenant := Bump(inner, e.endpoint, e)] else m, es + [e], q)
  {
    var inner := if e.tenant in m then m[e.tenant] else map[];
    var m' := if Picks(q, e) then m[e.tenant := Bump(inner, e.endpoint, e)] else m;
    KeysSnoc(ByTenant, es, e, q);
    forall t | t in m' ensures Tallies(m'[t], ByEndpoint, es + [e], Refine(q, ByTenant, t)) {
      if t !in m { NothingSeen(es, q, t); }
      BumpTallies(if t in m then m[t] else map[], ByEndpoint, es, e, Refine(q, ByTenant, t));
    }
  }

  method RollUp(byTenant: map<Name, Usage>, byTenantEndpoint: map<Name, map<Name, Usage>>, total: Usage, ghost es: seq<Entry>, ghost q: Query)
    returns (rep: AccountReport)
    requires Tallies(byTenant, ByTenant, es, q) && NestedTallies(byTenantEndpoint, es, q) && total == UsageOf(es, q)
    ensures IsAccountReport(rep, es, q)
  {
    var names := ListSorted(byTenant.Keys);
    ElementsBound(names);
    var tenants := ListTenants(names, byTenant, byTenantEndpoint, es, q);
    assert TenantNames(tenants) == names;
    rep := AccountReport(tenants, total);
  }

  /** An account's report: every tenant in order, each with its endpoints in order. */
  method AccountConsumptionInRange(entries: seq<Entry>, rng: Range) returns (rep: AccountReport)
    ensures IsAccountReport(rep, entries, Query(rng, None, None))
  {
    ghost var q := Query(rng, None, None);
    var byTenant: map<Name, Usage> := map[];
    var byTenantEndpoint: map<Name, map<Name, Usage>> := map[];
    var total := NOTHING;
    for i := 0 to |entries|
      invariant Tallies(byTenant, ByTenant, entries[..i], q)
      invariant NestedTallies(byTenantEndpoint, entries[..i], q)
      invariant total == UsageOf(entries[..i], q)
    {
      var e := entries[i];
      assert entries[..i + 1] == entries[..i] + [e];
      BumpTallies(byTenant, ByTenant, entries[..i], e, q);
      BumpNested(byTenantEndpoint, entries[..i], e, q);
      UsageSnoc(entries[..i], e, q);
      if Includes(rng, e.at) {
        byTenant := Bump(byTenant, e.tenant, e);
        var inner := if e.tenant in byTenantEndpoint then byTenantEndpoint[e.tenant] else map[];
        byTenantEndpoint := byTenantEndpoint[e.tenant := Bump(inner, e.endpoint, e)];
        total := Plus(total, e);
      }
    }
    assert entries[..|entries|] == entries;
    rep := RollUp(byTenant, byTenantEndpoint, total, entries, q);
  }

  /** One tenant's slice of the rollup. */
  method OneTenant(total: Usage, byEndpoint: map<Name, Usage>, ghost es: seq<Entry>, ghost q: Query) returns (r: Report)
    requires Tallies(byEndpoint, ByEndpoint, es, q) && total == UsageOf(es, q)
    ensures IsReport(r, es, q)
  {
    var lines := ListLines(byEndpoint, ByEndpoint, es, q);
    r := Report(lines, total);
  }

  /** Every tenant's tally is at hand. */
  ghost predicate Sliceable(t: Name, byTenant: map<Name, Usage>, byTenantEndpoint: map<Name, map<Name, Usage>>, es: seq<Entry>, q: Query) {
    && t in byTenant && t in byTenantEndpoint
    && Tallies(byTenantEndpoint[t], ByEndpoint, es, Refine(q, ByTenant, t)) && byTenant[t] == UsageOf(es, Refine(q, ByTenant, t))
  }

  /** The slices, one for each name. */
  method ListTenants(names: seq<Name>, byTenant: map<Name, Usage>, byTenantEndpoint: map<Name, map<Name, Usage>>, ghost es: seq<Entry>, ghost q: Query)
    returns (tenants: seq<TenantReport>)
    requires forall t :: t in names ==> Sliceable(t, byTenant, byTenantEndpoint, es, q)
    ensures |tenants| == |names|
    ensures forall i :: 0 <= i < |names| ==> tenants[i].tenant == names[i] && IsReport(tenants[i].report, es, Refine(q, ByTenant, names[i]))
  {
    tenants := [];
    for i := 0 to |names|
      invariant |tenants| == i
      invariant forall k :: 0 <= k < i ==> tenants[k].tenant == names[k] && IsReport(tenants[k].report, es, Refine(q, ByTenant, names[k]))
    {
      assert names[i] in names;
      var r := OneTenant(byTenant[names[i]], byTenantEndpoint[names[i]], es, Refine(q, ByTenant, names[i]));
      tenants := tenants + [TenantReport(names[i], r)];
    }
  }

  // ---- lines sum to totals ----

  /** The sum of the lines, without the lines. */
  function SumOver(f: Name -> nat, names: seq<Name>): nat {
    if names == [] then 0 else SumOver(f, names[..|names| - 1]) + f(names[|names| - 1])
  }

  lemma {:induction false} LinesSum(lines: seq<Line>, f: Name -> nat, m: Measure)
    requires forall i :: 0 <= i < |lines| ==> Part(lines[i].usage, m) == f(lines[i].name)
    ensures SumLines(lines, m) == SumOver(f, Names(lines))
    decreases |lines|
  {
    if lines != [] {
      var init := lines[..|lines| - 1];
      LinesSum(init, f, m);
      assert Names(lines)[..|init|] == Names(init);
    }
  }

  function Listed(names: seq<Name>, key: Name): nat {
    if names == [] then 0 else Listed(names[..|names| - 1], key) + if names[|names| - 1] == key then 1 else 0
  }

  lemma {:induction false} ListedOnce(names: seq<Name>, key: Name)
    requires Distinct(names)
    ensures Listed(names, key) == if key in names then 1 else 0
  {
    if names != [] {
      var init := names[..|names| - 1];
      assert names == init + [names[|names| - 1]];
      ListedOnce(init, key);
    }
  }

  /** If only the line named key grows, by one, so does the sum, as often as the key is listed. */
  lemma {:induction false} SumAbsorbs(names: seq<Name>, f: Name -> nat, g: Name -> nat, key: Name, one: nat)
    requires forall n :: g(n) == f(n) + if key == n then one else 0
    ensures SumOver(g, names) == SumOver(f, names) + Listed(names, key) * one
    decreases |names|
  {
    if names != [] {
      SumAbsorbs(names[..|names| - 1], f, g, key, one);
    }
  }

  function SplitOf(dim: Dim, es: seq<Entry>, q: Query, m: Measure): Name -> nat {
    n => Tally(es, Refine(q, dim, n), m)
  }

  /** One more entry adds to the one line that bears its name. */
  lemma LinesAbsorb(dim: Dim, names: seq<Name>, es: seq<Entry>, e: Entry, q: Query, m: Measure)
    requires Distinct(names) && Open(q, dim)
    ensures SumOver(SplitOf(dim, es + [e], q, m), names) ==
      SumOver(SplitOf(dim, es, q, m), names) + if KeyOf(dim, e) in names then One(q, e, m) else 0
  {
  }

  lemma {:induction false} SumOfNothing(f: Name -> nat, names: seq<Name>)
    requires forall n :: f(n) == 0
    ensures SumOver(f, names) == 0
    decreases |names|
  {
    if names != [] {
      SumOfNothing(f, names[..|names| - 1]);
    }
  }

  /** Splitting a figure along a dimension loses nothing, as long as the names cover the entries counted. */
  lemma {:induction false} LinesSumToTotal(dim: Dim, names: seq<Name>, es: seq<Entry>, q: Query, m: Measure)
    requires Distinct(names) && Open(q, dim) && Keys(dim, es, q) <= Elements(names)
    ensures SumOver(SplitOf(dim, es, q, m), names) == Tally(es, q, m)
    decreases |es|
  {
    if es == [] {
      SumOfNothing(SplitOf(dim, es, q, m), names);
    } else {
      var init, e := es[..|es| - 1], es[|es| - 1];
      assert init + [e] == es;
      KeysSnoc(dim, init, e, q);
      LinesSumToTotal(dim, names, init, q, m);
      LinesAbsorb(dim, names, init, e, q, m);
      if Picks(q, e) { assert KeyOf(dim, e) in Elements(names); }
    }
  }

  function SumTenants(ts: seq<TenantReport>, m: Measure): nat {
    if ts == [] then 0 else SumTenants(ts[..|ts| - 1], m) + Part(ts[|ts| - 1].report.total, m)
  }

  lemma {:induction false} TenantsSum(ts: seq<TenantReport>, f: Name -> nat, m: Measure)
    requires forall i :: 0 <= i < |ts| ==> Part(ts[i].report.total, m) == f(ts[i].tenant)
    ensures SumTenants(ts, m) == SumOver(f, TenantNames(ts))
    decreases |ts|
  {
    if ts != [] {
      var init := ts[..|ts| - 1];
      TenantsSum(init, f, m);
      assert TenantNames(ts)[..|init|] == TenantNames(init);
    }
  }

  /** The endpoint lines of a report sum to its total, in calls and in cents. */
  lemma ReportBalances(r: Report, es: seq<Entry>, q: Query, m: Measure)
    requires q.endpoint.None? && IsReport(r, es, q)
    ensures SumLines(r.lines, m) == Part(r.total, m)
  {
    SortedIsDistinct(Names(r.lines));
    LinesSum(r.lines, SplitOf(ByEndpoint, es, q, m), m);
    LinesSumToTotal(ByEndpoint, Names(r.lines), es, q, m);
  }

  /** The tenant totals of an account report sum to the account's, and each tenant's lines to the tenant's. */
  lemma AccountReportBalances(r: AccountReport, es: seq<Entry>, q: Query, m: Measure)
    requires q.tenant.None? && q.endpoint.None? && IsAccountReport(r, es, q)
    ensures SumTenants(r.tenants, m) == Part(r.total, m)
    ensures forall i :: 0 <= i < |r.tenants| ==> SumLines(r.tenants[i].report.lines, m) == Part(r.tenants[i].report.total, m)
  {
    SortedIsDistinct(TenantNames(r.tenants));
    LinesSumToTotal(ByTenant, TenantNames(r.tenants), es, q, m);
    TenantsSum(r.tenants, SplitOf(ByTenant, es, q, m), m);
    forall i | 0 <= i < |r.tenants| ensures SumLines(r.tenants[i].report.lines, m) == Part(r.tenants[i].report.total, m) {
      ReportBalances(r.tenants[i].report, es, Refine(q, ByTenant, r.tenants[i].tenant), m);
    }
  }

  // ---- the order of the ledger does not matter ----

  lemma {:induction false} TallyConcat(a: seq<Entry>, b: seq<Entry>, q: Query, m: Measure)
    ensures Tally(a + b, q, m) == Tally(a, q, m) + Tally(b, q, m)
  {
    if b == [] {
      assert a + b == a;
    } else {
      var c, e := b[..|b| - 1], b[|b| - 1];
      assert b == c + [e] && a + b == (a + c) + [e];
      TallyConcat(a, c, q, m);
      TallySnoc(a + c, e, q, m);
      TallySnoc(c, e, q, m);
    }
  }

  lemma TallyRemoves(b: seq<Entry>, k: nat, q: Query, m: Measure)
    requires k < |b|
    ensures Tally(b, q, m) == Tally(b[..k] + b[k + 1..], q, m) + One(q, b[k], m)
  {
    var front, back := b[..k], b[k + 1..];
    assert b == (front + [b[k]]) + back;
    TallyConcat(front + [b[k]], back, q, m);
    TallySnoc(front, b[k], q, m);
    TallyConcat(front, back, q, m);
  }

  lemma MultisetRemoves(a: seq<Entry>, b: seq<Entry>, k: nat)
    requires a != [] && k < |b| && b[k] == a[|a| - 1] && multiset(a) == multiset(b)
    ensures multiset(a[..|a| - 1]) == multiset(b[..k] + b[k + 1..])
  {
    assert a == a[..|a| - 1] + [b[k]];
    assert b == b[..k] + [b[k]] + b[k + 1..];
    var x, m, n := b[k], multiset(a[..|a| - 1]), multiset(b[..k] + b[k + 1..]);
    assert multiset(a) == m + multiset{x};
    assert multiset(b) == n + multiset{x};
    forall e ensures m[e] == n[e] {
      assert (m + multiset{x})[e] == (n + multiset{x})[e];
    }
  }

  /** Every figure depends on which entries there are, not on their order. */
  lemma {:induction false} TallyIgnoresOrder(a: seq<Entry>, b: seq<Entry>, q: Query, m: Measure)
    requires multiset(a) == multiset(b)
    ensures Tally(a, q, m) == Tally(b, q, m)
  {
    if a == [] {
      assert |multiset(b)| == 0;
    } else {
      assert a[|a| - 1] in multiset(b);
      var k :| 0 <= k < |b| && b[k] == a[|a| - 1];
      MultisetRemoves(a, b, k);
      TallyIgnoresOrder(a[..|a| - 1], b[..k] + b[k + 1..], q, m);
      TallyRemoves(b, k, q, m);
    }
  }

  /** Any reordering of the ledger gives the same report; in particular a ledger has only one. */
  lemma ReportIgnoresOrder(a: seq<Entry>, b: seq<Entry>, q: Query, ra: Report, rb: Report)
    requires multiset(a) == multiset(b) && IsReport(ra, a, q) && IsReport(rb, b, q)
    ensures ra == rb
  {
    forall e ensures e in a <==> e in b {
      assert e in a <==> e in multiset(a);
      assert e in b <==> e in multiset(b);
    }
    assert Keys(ByEndpoint, a, q) == Keys(ByEndpoint, b, q);
    SortedListingUnique(Names(ra.lines), Names(rb.lines));
    UsageIgnoresOrder(a, b, q);
    SameLines(ra.lines, rb.lines, a, b, q);
  }

  lemma UsageIgnoresOrder(a: seq<Entry>, b: seq<Entry>, q: Query)
    requires multiset(a) == multiset(b)
    ensures UsageOf(a, q) == UsageOf(b, q)
  {
    TallyIgnoresOrder(a, b, q, Calls);
    TallyIgnoresOrder(a, b, q, Cents);
  }

  lemma SameLines(la: seq<Line>, lb: seq<Line>, a: seq<Entry>, b: seq<Entry>, q: Query)
    requires multiset(a) == multiset(b) && Names(la) == Names(lb)
    requires IsListing(la, ByEndpoint, a, q) && IsListing(lb, ByEndpoint, b, q)
    ensures la == lb
  {
    assert |la| == |Names(la)| == |Names(lb)| == |lb|;
    forall i | 0 <= i < |la| ensures la[i] == lb[i] {
      assert la[i].name == Names(la)[i] == Names(lb)[i] == lb[i].name;
      UsageIgnoresOrder(a, b, Refine(q, ByEndpoint, la[i].name));
    }
  }

  /** The same for an account's rollup. */
  lemma AccountReportIgnoresOrder(a: seq<Entry>, b: seq<Entry>, q: Query, ra: AccountReport, rb: AccountReport)
    requires multiset(a) == multiset(b) && IsAccountReport(ra, a, q) && IsAccountReport(rb, b, q)
    ensures ra == rb
  {
    forall e ensures e in a <==> e in b {
      assert e in a <==> e in multiset(a);
      assert e in b <==> e in multiset(b);
    }
    assert Keys(ByTenant, a, q) == Keys(ByTenant, b, q);
    SortedListingUnique(TenantNames(ra.tenants), TenantNames(rb.tenants));
    UsageIgnoresOrder(a, b, q);
    assert |ra.tenants| == |TenantNames(ra.tenants)| == |rb.tenants|;
    forall i | 0 <= i < |ra.tenants| ensures ra.tenants[i] == rb.tenants[i] {
      assert ra.tenants[i].tenant == TenantNames(ra.tenants)[i] == rb.tenants[i].tenant;
      ReportIgnoresOrder(a, b, Refine(q, ByTenant, ra.tenants[i].tenant), ra.tenants[i].report, rb.tenants[i].report);
    }
  }
}
