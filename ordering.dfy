/** Python's ordering of `str` values (code point by code point, a prefix
    first) and `sorted()` of a set of strings. */
module Ordering {
  predicate StrLe(a: string, b: string)
    decreases |a|
  {
    a == [] || (b != [] && (a[0] < b[0] || (a[0] == b[0] && StrLe(a[1..], b[1..]))))
  }

  lemma {:induction false} StrLeRefl(a: string)
    ensures StrLe(a, a)
    decreases |a|
  {
    if a != [] { StrLeRefl(a[1..]); }
  }

  lemma {:induction false} StrLeTotal(a: string, b: string)
    ensures StrLe(a, b) || StrLe(b, a)
    decreases |a|
  {
    if a != [] && b != [] && a[0] == b[0] { StrLeTotal(a[1..], b[1..]); }
  }

  lemma {:induction false} StrLeAntisym(a: string, b: string)
    requires StrLe(a, b) && StrLe(b, a)
    ensures a == b
    decreases |a|
  {
    if a != [] {
      StrLeAntisym(a[1..], b[1..]);
      assert a == [a[0]] + a[1..] && b == [b[0]] + b[1..];
    }
  }

  lemma {:induction false} StrLeTrans(a: string, b: string, c: string)
    requires StrLe(a, b) && StrLe(b, c)
    ensures StrLe(a, c)
    decreases |a|
  {
    if a != [] && a[0] == b[0] && b[0] == c[0] { StrLeTrans(a[1..], b[1..], c[1..]); }
  }

  predicate IsLeast(m: string, s: set<string>) {
    m in s && forall y :: y in s ==> StrLe(m, y)
  }

  /** Every non-empty finite set of strings has a least element. */
  lemma {:induction false} LeastExists(s: set<string>)
    requires s != {}
    ensures exists m :: IsLeast(m, s)
    decreases |s|
  {
    var x :| x in s;
    if s - {x} == {} {
      assert s == {x};
      StrLeRefl(x);
      assert IsLeast(x, s);
    } else {
      LeastExists(s - {x});
      var m :| IsLeast(m, s - {x});
      StrLeTotal(m, x);
      if StrLe(m, x) {
        assert IsLeast(m, s);
      } else {
        forall y | y in s ensures StrLe(x, y) {
          if y != x { StrLeTrans(x, m, y); } else { StrLeRefl(x); }
        }
        assert IsLeast(x, s);
      }
    }
  }

  lemma LeastUnique(m: string, n: string, s: set<string>)
    requires IsLeast(m, s) && IsLeast(n, s)
    ensures m == n
  {
    StrLeAntisym(m, n);
  }

  predicate SortedStr(xs: seq<string>) {
    forall i, j :: 0 <= i < j < |xs| ==> StrLe(xs[i], xs[j]) && xs[i] != xs[j]
  }

  /** `sorted(s)` for a set of strings: its elements, each once, ascending. */
  function SortedSet(s: set<string>): (r: seq<string>)
    ensures |r| == |s|
    ensures forall x :: x in r <==> x in s
    ensures SortedStr(r)
    decreases |s|
  {
    if s == {} then []
    else
      LeastExists(s);
      forall a, b | IsLeast(a, s) && IsLeast(b, s) ensures a == b { LeastUnique(a, b, s); }
      var m :| IsLeast(m, s);
      var rest := SortedSet(s - {m});
      LeastThenSorted(m, s, rest);
      [m] + rest
  }

  /** The least element in front of the sorted rest of the set keeps it
      sorted. */
  lemma LeastThenSorted(m: string, s: set<string>, rest: seq<string>)
    requires IsLeast(m, s) && SortedStr(rest)
    requires forall x :: x in rest <==> x in s - {m}
    ensures SortedStr([m] + rest)
  {
    var r := [m] + rest;
    forall i, j | 0 <= i < j < |r| ensures StrLe(r[i], r[j]) && r[i] != r[j] {
      assert r[j] == rest[j - 1] && r[j] in s - {m};
      if i > 0 { assert r[i] == rest[i - 1]; }
    }
  }
}
