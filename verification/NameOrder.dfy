/** The byte order Go's sort.Strings uses, and sorting a set of names by it. */
module NameOrder {

  predicate Less(a: string, b: string) {
    if b == "" then false
    else if a == "" then true
    else a[0] < b[0] || (a[0] == b[0] && Less(a[1..], b[1..]))
  }

  ghost predicate Ascending(s: seq<string>) {
    forall i, j :: 0 <= i < j < |s| ==> Less(s[i], s[j])
  }

  /** Two names differ first at `k`, where `a` has the smaller character or has none left. */
  predicate FirstLess(a: string, b: string, k: nat) {
    k <= |a| && k < |b| && a[..k] == b[..k] && (k == |a| || a[k] < b[k])
  }

  lemma {:induction false} LessMeans(a: string, b: string)
    ensures Less(a, b) <==> exists k: nat :: FirstLess(a, b, k)
  {
    if b != "" && a != "" && a[0] == b[0] {
      LessMeans(a[1..], b[1..]);
      assert a == [a[0]] + a[1..] && b == [b[0]] + b[1..];
      if Less(a, b) {
        var k: nat :| FirstLess(a[1..], b[1..], k);
        assert a[..k + 1] == [a[0]] + a[1..][..k] && b[..k + 1] == [b[0]] + b[1..][..k];
        assert FirstLess(a, b, k + 1);
      }
      forall k: nat | FirstLess(a, b, k) ensures Less(a, b) {
        assert k > 0;
        assert a[1..][..k - 1] == a[..k][1..] && b[1..][..k - 1] == b[..k][1..];
        assert FirstLess(a[1..], b[1..], k - 1);
      }
    } else if Less(a, b) {
      assert FirstLess(a, b, 0);
    } else {
      forall k: nat ensures !FirstLess(a, b, k) {
        if 0 < k <= |a| && k < |b| {
          assert a[..k][0] == a[0] && b[..k][0] == b[0];
        }
      }
    }
  }

  lemma {:induction false} LessIsTransitive(a: string, b: string, c: string)
    requires Less(a, b) && Less(b, c)
    ensures Less(a, c)
    decreases |a|
  {
    if a != "" && a[0] == b[0] && b[0] == c[0] {
      LessIsTransitive(a[1..], b[1..], c[1..]);
    }
  }

  lemma {:induction false} LessIsTotal(a: string, b: string)
    ensures (if Less(a, b) then 1 else 0) + (if Less(b, a) then 1 else 0) + (if a == b then 1 else 0) == 1
    decreases |a|
  {
    if a != "" && b != "" && a[0] == b[0] {
      LessIsTotal(a[1..], b[1..]);
      assert a == [a[0]] + a[1..] && b == [b[0]] + b[1..];
    }
  }

  ghost predicate SameMembers(s: seq<string>, names: set<string>) {
    forall x :: x in s <==> x in names
  }

  lemma FirstIsLeast(s: seq<string>, x: string)
    requires Ascending(s) && x in s
    ensures x == s[0] || Less(s[0], x)
  {
  }

  /** A set of names has one ascending listing, so whoever sorts it gets the same text. */
  lemma {:induction false} AscendingIsUnique(s: seq<string>, t: seq<string>)
    requires Ascending(s) && Ascending(t)
    requires forall x :: x in s <==> x in t
    ensures s == t
    decreases |s|
  {
    if s == [] {
      assert t == [] by {
        if t != [] { Nonempty(t); }
      }
    } else {
      Nonempty(s);
      FirstIsLeast(t, s[0]);
      FirstIsLeast(s, t[0]);
      LessIsTotal(s[0], t[0]);
      forall x ensures x in s[1..] <==> x in t[1..] {
        Tail(s, x);
        Tail(t, x);
      }
      AscendingIsUnique(s[1..], t[1..]);
    }
  }

  lemma Nonempty(s: seq<string>)
    requires s != []
    ensures s[0] in s
  {
  }

  lemma Tail(s: seq<string>, x: string)
    requires Ascending(s) && s != []
    ensures x in s[1..] <==> x in s && x != s[0]
  {
    LessIsTotal(s[0], s[0]);
    if x in s[1..] {
      var i :| 1 <= i < |s| && s[i] == x;
      assert Less(s[0], s[i]);
    }
  }

  /** Where a new name belongs in an ascending listing. */
  method Insert(s: seq<string>, x: string) returns (r: seq<string>)
    requires Ascending(s) && x !in s
    ensures Ascending(r)
    ensures forall y :: y in r <==> y in s || y == x
    ensures |r| == |s| + 1
  {
    var i := 0;
    while i < |s| && Less(s[i], x)
      invariant 0 <= i <= |s|
      invariant forall j :: 0 <= j < i ==> Less(s[j], x)
    {
      i := i + 1;
    }
    r := s[..i] + [x] + s[i..];
    if i < |s| {
      LessIsTotal(s[i], x);
    }
    forall j | i <= j < |s| ensures Less(x, s[j]) {
      if i < j { LessIsTransitive(x, s[i], s[j]); }
    }
  }

  /** sort.Strings on distinct names. */
  method Sorted(names: set<string>) returns (r: seq<string>)
    ensures Ascending(r) && SameMembers(r, names) && |r| == |names|
  {
    r := [];
    var rest := names;
    while rest != {}
      invariant rest <= names && Ascending(r) && SameMembers(r, names - rest)
      invariant |r| == |names| - |rest|
      decreases rest
    {
      var x :| x in rest;
      r := Insert(r, x);
      rest := rest - {x};
    }
  }
}
