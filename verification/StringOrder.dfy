/** Byte-wise string order, as `sort.Strings` and SQL text ordering use it, and sorting names by it. */
module StringOrder {

  predicate Less(a: string, b: string) {
    b != "" && (a == "" || a[0] < b[0] || (a[0] == b[0] && Less(a[1..], b[1..])))
  }

  lemma {:induction false} LessIrreflexive(a: string)
    ensures !Less(a, a)
  {
    if a != "" { LessIrreflexive(a[1..]); }
  }

  lemma {:induction false} LessTransitive(a: string, b: string, c: string)
    requires Less(a, b) && Less(b, c)
    ensures Less(a, c)
  {
    if a != "" && a[0] == b[0] == c[0] { LessTransitive(a[1..], b[1..], c[1..]); }
  }

  lemma {:induction false} LessTotal(a: string, b: string)
    ensures Less(a, b) || a == b || Less(b, a)
  {
    if a != "" && b != "" && a[0] == b[0] {
      LessTotal(a[1..], b[1..]);
      assert a == [a[0]] + a[1..] && b == [b[0]] + b[1..];
    }
  }

  /** A table or endpoint name. */
  datatype Name = Name(text: string)

  predicate Before(a: Name, b: Name) {
    Less(a.text, b.text)
  }

  lemma BeforeIrreflexive(a: Name)
    ensures !Before(a, a)
  {
    LessIrreflexive(a.text);
  }

  lemma BeforeTransitive(a: Name, b: Name, c: Name)
    requires Before(a, b) && Before(b, c)
    ensures Before(a, c)
  {
    LessTransitive(a.text, b.text, c.text);
  }

  lemma BeforeTotal(a: Name, b: Name)
    ensures Before(a, b) || a == b || Before(b, a)
  {
    LessTotal(a.text, b.text);
  }

  ghost predicate StrictlySorted(s: seq<Name>) {
    forall i, j :: 0 <= i < j < |s| ==> Before(s[i], s[j])
  }

  ghost predicate Distinct(s: seq<Name>) {
    forall i, j :: 0 <= i < j < |s| ==> s[i] != s[j]
  }

  lemma SortedIsDistinct(s: seq<Name>)
    requires StrictlySorted(s)
    ensures Distinct(s)
  {
    forall i, j | 0 <= i < j < |s| ensures s[i] != s[j] {
      BeforeIrreflexive(s[i]);
    }
  }

  ghost function Elements(s: seq<Name>): set<Name> {
    set x | x in s
  }

  lemma ElementsConcat(s: seq<Name>, t: seq<Name>)
    ensures Elements(s + t) == Elements(s) + Elements(t)
  {
  }

  lemma ElementsBound(s: seq<Name>)
    ensures Elements(s) == {} <==> s == []
    ensures forall x :: x in s <==> x in Elements(s)
  {
    assert s != [] ==> s[0] in Elements(s);
  }

  /** A set has only one strictly sorted listing, so any listing of it sorts to the same sequence. */
  lemma {:induction false} SortedListingUnique(s: seq<Name>, t: seq<Name>)
    requires StrictlySorted(s) && StrictlySorted(t) && Elements(s) == Elements(t)
    ensures s == t
  {
    ElementsBound(s);
    ElementsBound(t);
    if s != [] && t != [] {
      assert s[0] in Elements(t);
      assert t[0] in Elements(s);
      assert s[0] == t[0] by {
        var i :| 0 <= i < |t| && t[i] == s[0];
        var j :| 0 <= j < |s| && s[j] == t[0];
        if i > 0 && j > 0 {
          BeforeTransitive(t[0], s[0], t[0]);
          BeforeIrreflexive(t[0]);
        }
      }
      TailElements(s);
      TailElements(t);
      SortedListingUnique(s[1..], t[1..]);
      assert s == [s[0]] + s[1..] && t == [t[0]] + t[1..];
    }
  }

  lemma TailElements(s: seq<Name>)
    requires StrictlySorted(s) && s != []
    ensures Elements(s[1..]) == Elements(s) - {s[0]} && StrictlySorted(s[1..])
  {
    forall x | x in s[1..] ensures x != s[0] {
      var i :| 0 <= i < |s| - 1 && s[1..][i] == x;
      assert Before(s[0], s[i + 1]);
      BeforeIrreflexive(s[0]);
    }
    forall x | x in s && x != s[0] ensures x in s[1..] {
      var i :| 0 <= i < |s| && s[i] == x;
      assert s[1..][i - 1] == x;
    }
  }

  lemma {:induction false} LeastExists(s: set<Name>)
    requires s != {}
    ensures exists x :: x in s && forall y :: y in s && y != x ==> Before(x, y)
  {
    var z :| z in s;
    if s == {z} {
      assert forall y :: y in s ==> y == z;
    } else {
      var rest := s - {z};
      assert s == rest + {z};
      LeastExists(rest);
      var x :| x in rest && forall y :: y in rest && y != x ==> Before(x, y);
      BeforeTotal(x, z);
      if Before(z, x) {
        forall y | y in rest ensures Before(z, y) {
          if y != x { BeforeTransitive(z, x, y); }
        }
        assert z in s && forall y :: y in s && y != z ==> Before(z, y);
      } else {
        assert x in s && forall y :: y in s && y != x ==> Before(x, y);
      }
    }
  }

  ghost function Least(s: set<Name>): (x: Name)
    requires s != {}
    ensures x in s && forall y :: y in s && y != x ==> Before(x, y)
  {
    LeastExists(s);
    var x :| x in s && forall y :: y in s && y != x ==> Before(x, y);
    x
  }

  lemma LeastFirst(s: set<Name>, rest: seq<Name>)
    requires s != {} && StrictlySorted(rest) && Elements(rest) == s - {Least(s)} && |rest| == |s| - 1
    ensures StrictlySorted([Least(s)] + rest) && Elements([Least(s)] + rest) == s
  {
    var x := Least(s);
    ElementsBound(rest);
    ElementsConcat([x], rest);
    assert Elements([x]) == {x};
    assert s == {x} + (s - {x});
  }

  /** The sorted listing of a set. */
  ghost function SortedOf(s: set<Name>): (r: seq<Name>)
    ensures StrictlySorted(r) && Elements(r) == s && |r| == |s|
  {
    if s == {} then []
    else
      var rest := SortedOf(s - {Least(s)});
      LeastFirst(s, rest);
      [Least(s)] + rest
  }

  /** Inserts x into a sorted sequence that lacks it. */
  method Insert(s: seq<Name>, x: Name) returns (r: seq<Name>)
    requires StrictlySorted(s) && x !in s
    ensures StrictlySorted(r) && Elements(r) == Elements(s) + {x} && |r| == |s| + 1
  {
    var i := 0;
    while i < |s| && Before(s[i], x)
      invariant 0 <= i <= |s|
      invariant forall j :: 0 <= j < i ==> Before(s[j], x)
    {
      i := i + 1;
    }
    r := s[..i] + [x] + s[i..];
    forall j | i <= j < |s| ensures Before(x, s[j]) {
      BeforeTotal(s[i], x);
      assert Before(x, s[i]);
      if i < j { BeforeTransitive(x, s[i], s[j]); }
    }
    forall y | y in s ensures y in r {
      var k :| 0 <= k < |s| && s[k] == y;
      assert r[if k < i then k else k + 1] == y;
    }
    assert r[i] == x;
  }

  /** Sorts distinct names. */
  method SortNames(s: seq<Name>) returns (r: seq<Name>)
    requires forall i, j :: 0 <= i < j < |s| ==> s[i] != s[j]
    ensures StrictlySorted(r) && Elements(r) == Elements(s) && |r| == |s|
  {
    r := [];
    for k := 0 to |s|
      invariant StrictlySorted(r) && Elements(r) == Elements(s[..k]) && |r| == k
    {
      assert s[k] !in Elements(s[..k]);
      assert forall x :: x in r ==> x in Elements(r);
      r := Insert(r, s[k]);
      assert s[..k + 1] == s[..k] + [s[k]];
    }
    assert s[..|s|] == s;
  }

  /** The set listed in name order, from an arbitrary enumeration of it. */
  method ListSorted(s: set<Name>) returns (r: seq<Name>)
    ensures r == SortedOf(s)
  {
    r := [];
    var left := s;
    while left != {}
      invariant left <= s && StrictlySorted(r) && Elements(r) == s - left
      decreases left
    {
      var t :| t in left;
      assert t !in Elements(r);
      r := Insert(r, t);
      left := left - {t};
    }
    assert s - left == s;
    SortedListingUnique(r, SortedOf(s));
  }
}
