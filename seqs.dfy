/** Order-preserving dedupe and filtering over sequences: the "seen set plus
    append" loop that the goal code writes out again and again. */
module Seqs {
  /** The elements of `xs` whose key is not in `seen` and was not produced by
      an earlier element: the first element per key, in input order. */
  function DedupeBy<T, K>(xs: seq<T>, key: T -> K, seen: set<K>): seq<T>
    decreases |xs|
  {
    if xs == [] then []
    else if key(xs[0]) in seen then DedupeBy(xs[1..], key, seen)
    else [xs[0]] + DedupeBy(xs[1..], key, seen + {key(xs[0])})
  }

  /** A prefix one element longer is the shorter prefix and that element. */
  /** Concatenation regroups; stated as a lemma so that proofs can ask for
      exactly the regrouping they need. */
  lemma AppendAssoc<T>(a: seq<T>, b: seq<T>, c: seq<T>)
    ensures a + (b + c) == (a + b) + c
  {
  }

  lemma PrefixSnoc<T>(xs: seq<T>, i: nat)
    requires i < |xs|
    ensures xs[..i + 1] == xs[..i] + [xs[i]]
  {
  }

  /** `DedupeBy` on a sequence with a known first element. */
  lemma DedupeByCons<T, K>(x: T, xs: seq<T>, key: T -> K, seen: set<K>)
    ensures DedupeBy([x] + xs, key, seen) ==
      if key(x) in seen then DedupeBy(xs, key, seen) else [x] + DedupeBy(xs, key, seen + {key(x)})
  {
    assert ([x] + xs)[1..] == xs;
  }

  /** The identity key: `DedupeBy(xs, Same, {})` keeps the first copy of each element. */
  function Same<T>(x: T): T { x }

  /** `a` can be obtained from `b` by deleting elements. */
  predicate IsSubseq<T(==)>(a: seq<T>, b: seq<T>)
    decreases |b|
  {
    if a == [] then true
    else if b == [] then false
    else if a[0] == b[0] then IsSubseq(a[1..], b[1..])
    else IsSubseq(a, b[1..])
  }

  predicate DistinctKeys<T, K(==)>(xs: seq<T>, key: T -> K) {
    forall i, j :: 0 <= i < j < |xs| ==> key(xs[i]) != key(xs[j])
  }

  predicate Distinct<T(==)>(xs: seq<T>) {
    forall i, j :: 0 <= i < j < |xs| ==> xs[i] != xs[j]
  }

  function Keys<T, K>(xs: seq<T>, key: T -> K): set<K> {
    set i | 0 <= i < |xs| :: key(xs[i])
  }

  lemma IsSubseqRefl<T>(a: seq<T>)
    ensures IsSubseq(a, a)
  {
  }

  lemma {:induction false} IsSubseqCons<T>(a: seq<T>, x: T, b: seq<T>)
    requires IsSubseq(a, b)
    ensures IsSubseq(a, [x] + b)
    decreases |b|, 1
  {
    var xb := [x] + b;
    assert xb[1..] == b;
    if a != [] && a[0] == x {
      // Matching `x` with `a[0]` is the greedy choice; it stays correct
      // because `b` already holds a match for all of `a`.
      IsSubseqDropHead(a, b);
    }
  }

  lemma {:induction false} IsSubseqDropHead<T>(a: seq<T>, b: seq<T>)
    requires a != [] && IsSubseq(a, b)
    ensures IsSubseq(a[1..], b)
    decreases |b|, 0
  {
    if a[0] == b[0] {
      IsSubseqCons(a[1..], b[0], b[1..]);
      assert [b[0]] + b[1..] == b;
    } else {
      IsSubseqDropHead(a, b[1..]);
      IsSubseqCons(a[1..], b[0], b[1..]);
      assert [b[0]] + b[1..] == b;
    }
  }

  lemma {:induction false} IsSubseqLength<T>(a: seq<T>, b: seq<T>)
    requires IsSubseq(a, b)
    ensures |a| <= |b|
    decreases |b|
  {
    if a != [] {
      if a[0] == b[0] { IsSubseqLength(a[1..], b[1..]); } else { IsSubseqLength(a, b[1..]); }
    }
  }

  /** A subsequence as long as the whole is the whole. */
  lemma {:induction false} IsSubseqSameLength<T>(a: seq<T>, b: seq<T>)
    requires IsSubseq(a, b) && |a| == |b|
    ensures a == b
    decreases |b|
  {
    if a != [] {
      if a[0] == b[0] {
        IsSubseqSameLength(a[1..], b[1..]);
        assert a == [a[0]] + a[1..] && b == [b[0]] + b[1..];
      } else {
        IsSubseqLength(a, b[1..]);
      }
    }
  }

  lemma {:induction false} IsSubseqTrans<T>(a: seq<T>, b: seq<T>, c: seq<T>)
    requires IsSubseq(a, b) && IsSubseq(b, c)
    ensures IsSubseq(a, c)
    decreases |c|
  {
    if a != [] {
      if b[0] == c[0] {
        if a[0] == b[0] {
          IsSubseqTrans(a[1..], b[1..], c[1..]);
        } else {
          IsSubseqTrans(a, b[1..], c[1..]);
          IsSubseqCons(a, c[0], c[1..]);
          assert [c[0]] + c[1..] == c;
        }
      } else {
        IsSubseqTrans(a, b, c[1..]);
        IsSubseqCons(a, c[0], c[1..]);
        assert [c[0]] + c[1..] == c;
      }
    }
  }

  lemma {:induction false} PrefixIsSubseq<T>(a: seq<T>, b: seq<T>)
    requires a <= b
    ensures IsSubseq(a, b)
    decreases |b|
  {
    if a != [] {
      assert a[0] == b[0] && a[1..] <= b[1..];
      PrefixIsSubseq(a[1..], b[1..]);
    }
  }

  lemma {:induction false} FilterIsSubseq<T>(xs: seq<T>, p: T -> bool)
    ensures IsSubseq(Filter(xs, p), xs)
    decreases |xs|
  {
    if xs != [] {
      FilterIsSubseq(xs[1..], p);
      if p(xs[0]) {
        assert ([xs[0]] + Filter(xs[1..], p))[1..] == Filter(xs[1..], p);
      } else {
        IsSubseqCons(Filter(xs[1..], p), xs[0], xs[1..]);
        assert [xs[0]] + xs[1..] == xs;
      }
    }
  }

  lemma {:induction false} IsSubseqMembers<T>(a: seq<T>, b: seq<T>)
    requires IsSubseq(a, b)
    ensures forall x :: x in a ==> x in b
    decreases |b|
  {
    if a != [] {
      if a[0] == b[0] {
        IsSubseqMembers(a[1..], b[1..]);
        assert a == [a[0]] + a[1..] && b == [b[0]] + b[1..];
      } else {
        IsSubseqMembers(a, b[1..]);
        assert b == [b[0]] + b[1..];
      }
    }
  }

  lemma {:induction false} DedupeBySubseq<T, K>(xs: seq<T>, key: T -> K, seen: set<K>)
    ensures IsSubseq(DedupeBy(xs, key, seen), xs)
    ensures |DedupeBy(xs, key, seen)| <= |xs|
    decreases |xs|
  {
    if xs != [] {
      var k := key(xs[0]);
      if k in seen {
        DedupeBySubseq(xs[1..], key, seen);
        IsSubseqCons(DedupeBy(xs[1..], key, seen), xs[0], xs[1..]);
        assert [xs[0]] + xs[1..] == xs;
      } else {
        DedupeBySubseq(xs[1..], key, seen + {k});
        var r := DedupeBy(xs, key, seen);
        assert r[1..] == DedupeBy(xs[1..], key, seen + {k});
      }
    }
    IsSubseqLength(DedupeBy(xs, key, seen), xs);
  }

  lemma {:induction false} DedupeByKeys<T, K>(xs: seq<T>, key: T -> K, seen: set<K>)
    ensures Keys(DedupeBy(xs, key, seen), key) == Keys(xs, key) - seen
    ensures DistinctKeys(DedupeBy(xs, key, seen), key)
    decreases |xs|
  {
    var r := DedupeBy(xs, key, seen);
    if xs != [] {
      var k := key(xs[0]);
      assert Keys(xs, key) == {k} + Keys(xs[1..], key) by {
        forall y | y in Keys(xs, key) ensures y in {k} + Keys(xs[1..], key) {
          var i :| 0 <= i < |xs| && key(xs[i]) == y;
          if i > 0 { assert key(xs[1..][i - 1]) == y; }
        }
        forall y | y in Keys(xs[1..], key) ensures y in Keys(xs, key) {
          var i :| 0 <= i < |xs[1..]| && key(xs[1..][i]) == y;
          assert key(xs[i + 1]) == y;
        }
      }
      if k in seen {
        DedupeByKeys(xs[1..], key, seen);
      } else {
        var t := DedupeBy(xs[1..], key, seen + {k});
        DedupeByKeys(xs[1..], key, seen + {k});
        assert r == [xs[0]] + t;
        assert Keys(r, key) == {k} + Keys(t, key) by {
          forall y | y in Keys(r, key) ensures y in {k} + Keys(t, key) {
            var i :| 0 <= i < |r| && key(r[i]) == y;
            if i > 0 { assert key(t[i - 1]) == y; }
          }
          forall y | y in Keys(t, key) ensures y in Keys(r, key) {
            var i :| 0 <= i < |t| && key(t[i]) == y;
            assert key(r[i + 1]) == y;
          }
          assert key(r[0]) == k;
        }
        forall i, j | 0 <= i < j < |r| ensures key(r[i]) != key(r[j]) {
          assert key(r[j]) == key(t[j - 1]);
          assert key(t[j - 1]) in Keys(t, key);
          if i > 0 { assert key(r[i]) == key(t[i - 1]); }
        }
      }
    }
  }

  /** Keeping first occurrences changes nothing once keys are distinct and unseen. */
  lemma {:induction false} DedupeByNoop<T, K>(xs: seq<T>, key: T -> K, seen: set<K>)
    requires DistinctKeys(xs, key)
    requires forall i :: 0 <= i < |xs| ==> key(xs[i]) !in seen
    ensures DedupeBy(xs, key, seen) == xs
    decreases |xs|
  {
    if xs != [] {
      var k := key(xs[0]);
      forall i | 0 <= i < |xs[1..]| ensures key(xs[1..][i]) !in seen + {k} {
        assert xs[1..][i] == xs[i + 1];
      }
      DedupeByNoop(xs[1..], key, seen + {k});
      assert [xs[0]] + xs[1..] == xs;
    }
  }

  lemma DedupeByIdempotent<T, K>(xs: seq<T>, key: T -> K)
    ensures DedupeBy(DedupeBy(xs, key, {}), key, {}) == DedupeBy(xs, key, {})
  {
    DedupeByKeys(xs, key, {});
    DedupeByNoop(DedupeBy(xs, key, {}), key, {});
  }

  /** Deduplicating by identity keeps exactly the elements, once each. */
  lemma DedupeSame<T>(xs: seq<T>)
    ensures Distinct(DedupeBy(xs, Same, {}))
    ensures forall x :: x in DedupeBy(xs, Same, {}) <==> x in xs
  {
    var r := DedupeBy(xs, Same, {});
    DedupeByKeys(xs, Same, {});
    forall x ensures x in r <==> x in xs {
      if x in r {
        var k :| 0 <= k < |r| && r[k] == x;
        assert Same(r[k]) in Keys(r, Same);
        var i :| 0 <= i < |xs| && Same(xs[i]) == x;
        assert xs[i] == x;
      }
      if x in xs {
        var k :| 0 <= k < |xs| && xs[k] == x;
        assert Same(xs[k]) in Keys(xs, Same);
        assert x in Keys(xs, Same) - {};
        var i :| 0 <= i < |r| && Same(r[i]) == x;
        assert r[i] == x;
      }
    }
    forall i, j | 0 <= i < j < |r| ensures r[i] != r[j] { assert Same(r[i]) != Same(r[j]); }
  }

  /** The index of the first element of `xs` with key `k`, or `|xs|` when
      there is none. */
  ghost function FirstKeyIndex<T, K>(xs: seq<T>, key: T -> K, k: K): (i: nat)
    ensures i <= |xs| && (i < |xs| ==> key(xs[i]) == k)
    ensures forall j :: 0 <= j < i ==> key(xs[j]) != k
    decreases |xs|
  {
    if xs == [] then 0 else if key(xs[0]) == k then 0 else 1 + FirstKeyIndex(xs[1..], key, k)
  }

  /** `x` is the first element of `xs` with its key. */
  ghost predicate FirstOfKey<T, K>(xs: seq<T>, key: T -> K, x: T) {
    var i := FirstKeyIndex(xs, key, key(x));
    i < |xs| && xs[i] == x
  }

  /** Every kept element is the first of `xs` with its key, and its key was
      not seen before. */
  lemma {:induction false} DedupeByFirst<T, K>(xs: seq<T>, key: T -> K, seen: set<K>)
    ensures forall m :: 0 <= m < |DedupeBy(xs, key, seen)| ==>
      key(DedupeBy(xs, key, seen)[m]) !in seen && FirstOfKey(xs, key, DedupeBy(xs, key, seen)[m])
    decreases |xs|
  {
    var r := DedupeBy(xs, key, seen);
    if xs != [] {
      var k0 := key(xs[0]);
      if k0 in seen {
        DedupeByFirst(xs[1..], key, seen);
        forall m | 0 <= m < |r| ensures key(r[m]) !in seen && FirstOfKey(xs, key, r[m]) {
          var i := FirstKeyIndex(xs[1..], key, key(r[m]));
          assert FirstKeyIndex(xs, key, key(r[m])) == 1 + i;
        }
      } else {
        var rest := DedupeBy(xs[1..], key, seen + {k0});
        DedupeByFirst(xs[1..], key, seen + {k0});
        assert r == [xs[0]] + rest;
        forall m | 0 <= m < |r| ensures key(r[m]) !in seen && FirstOfKey(xs, key, r[m]) {
          if m > 0 {
            assert r[m] == rest[m - 1];
            var i := FirstKeyIndex(xs[1..], key, key(r[m]));
            assert FirstKeyIndex(xs, key, key(r[m])) == 1 + i;
          }
        }
      }
    }
  }

  /** The element order of `xs` restricted to those satisfying `p`. */
  function Filter<T>(xs: seq<T>, p: T -> bool): (r: seq<T>)
    ensures |r| <= |xs|
    ensures forall i :: 0 <= i < |r| ==> p(r[i])
    decreases |xs|
  {
    if xs == [] then []
    else if p(xs[0]) then [xs[0]] + Filter(xs[1..], p)
    else Filter(xs[1..], p)
  }

  lemma {:induction false} FilterAppend<T>(xs: seq<T>, ys: seq<T>, p: T -> bool)
    ensures Filter(xs + ys, p) == Filter(xs, p) + Filter(ys, p)
    decreases |xs|
  {
    if xs != [] {
      assert (xs + ys)[1..] == xs[1..] + ys;
      FilterAppend(xs[1..], ys, p);
    } else {
      assert xs + ys == ys;
    }
  }

  lemma {:induction false} FilterMembers<T>(xs: seq<T>, p: T -> bool)
    ensures forall x :: x in Filter(xs, p) <==> x in xs && p(x)
    decreases |xs|
  {
    if xs != [] { FilterMembers(xs[1..], p); }
  }

  /** Filtering keeps a strictly increasing rank increasing. */
  lemma {:induction false} FilterIncreasing<T>(xs: seq<T>, p: T -> bool, rank: T -> int)
    requires forall i, j :: 0 <= i < j < |xs| ==> rank(xs[i]) < rank(xs[j])
    ensures forall i, j :: 0 <= i < j < |Filter(xs, p)| ==> rank(Filter(xs, p)[i]) < rank(Filter(xs, p)[j])
    decreases |xs|
  {
    if xs != [] {
      var t := Filter(xs[1..], p);
      FilterIncreasing(xs[1..], p, rank);
      var neg := (x: T) => -rank(x);
      forall i | 0 <= i < |xs[1..]| ensures neg(xs[1..][i]) <= -rank(xs[0]) - 1 {
        assert xs[1..][i] == xs[i + 1];
      }
      FilterBound(xs[1..], p, neg, -rank(xs[0]) - 1);
      if p(xs[0]) {
        var r := [xs[0]] + t;
        forall i, j | 0 <= i < j < |r| ensures rank(r[i]) < rank(r[j]) {
          assert r[j] == t[j - 1];
          if i > 0 { assert r[i] == t[i - 1]; }
        }
      }
    }
  }

  /** The concatenation of a sequence of sequences. */
  function Flatten<T>(xss: seq<seq<T>>): seq<T>
    decreases |xss|
  {
    if xss == [] then [] else xss[0] + Flatten(xss[1..])
  }

  lemma {:induction false} FlattenAppend<T>(a: seq<seq<T>>, b: seq<seq<T>>)
    ensures Flatten(a + b) == Flatten(a) + Flatten(b)
    decreases |a|
  {
    if a != [] {
      assert (a + b)[1..] == a[1..] + b;
      FlattenAppend(a[1..], b);
    } else {
      assert a + b == b;
    }
  }

  /** Python's `sorted(xs, key=key, reverse=True)`: a stable sort by a key,
      largest first, elements with equal keys keeping their input order. */
  function SortDesc<T>(xs: seq<T>, key: T -> int): seq<T>
    decreases |xs|
  {
    if xs == [] then [] else InsertDesc(xs[0], SortDesc(xs[1..], key), key)
  }

  /** Puts `x` after every element with a larger key and before the rest. */
  function InsertDesc<T>(x: T, ys: seq<T>, key: T -> int): seq<T>
    decreases |ys|
  {
    if ys == [] || key(ys[0]) <= key(x) then [x] + ys
    else [ys[0]] + InsertDesc(x, ys[1..], key)
  }

  predicate SortedDesc<T>(xs: seq<T>, key: T -> int) {
    forall i, j :: 0 <= i < j < |xs| ==> key(xs[i]) >= key(xs[j])
  }

  lemma {:induction false} InsertDescBound<T>(x: T, ys: seq<T>, key: T -> int, b: int)
    requires key(x) <= b && forall i :: 0 <= i < |ys| ==> key(ys[i]) <= b
    ensures forall i :: 0 <= i < |InsertDesc(x, ys, key)| ==> key(InsertDesc(x, ys, key)[i]) <= b
    decreases |ys|
  {
    if !(ys == [] || key(ys[0]) <= key(x)) {
      InsertDescBound(x, ys[1..], key, b);
    }
  }

  lemma {:induction false} InsertDescPerm<T>(x: T, ys: seq<T>, key: T -> int)
    ensures multiset(InsertDesc(x, ys, key)) == multiset{x} + multiset(ys)
    decreases |ys|
  {
    if !(ys == [] || key(ys[0]) <= key(x)) {
      InsertDescPerm(x, ys[1..], key);
      assert ys == [ys[0]] + ys[1..];
    }
  }

  lemma {:induction false} InsertDescSorted<T>(x: T, ys: seq<T>, key: T -> int)
    requires SortedDesc(ys, key)
    ensures SortedDesc(InsertDesc(x, ys, key), key)
    decreases |ys|
  {
    if ys == [] || key(ys[0]) <= key(x) {
      var r := [x] + ys;
      forall i, j | 0 <= i < j < |r| ensures key(r[i]) >= key(r[j]) {
        assert r[j] == ys[j - 1];
        if i > 0 { assert r[i] == ys[i - 1]; } else { assert key(ys[0]) >= key(ys[j - 1]); }
      }
    } else {
      var t := InsertDesc(x, ys[1..], key);
      assert SortedDesc(ys[1..], key) by {
        forall i, j | 0 <= i < j < |ys[1..]| ensures key(ys[1..][i]) >= key(ys[1..][j]) {
          assert ys[1..][i] == ys[i + 1] && ys[1..][j] == ys[j + 1];
        }
      }
      InsertDescSorted(x, ys[1..], key);
      assert forall i :: 0 <= i < |ys[1..]| ==> key(ys[1..][i]) <= key(ys[0]) by {
        forall i | 0 <= i < |ys[1..]| ensures key(ys[1..][i]) <= key(ys[0]) {
          assert ys[1..][i] == ys[i + 1];
        }
      }
      InsertDescBound(x, ys[1..], key, key(ys[0]));
      var r := [ys[0]] + t;
      forall i, j | 0 <= i < j < |r| ensures key(r[i]) >= key(r[j]) {
        assert r[j] == t[j - 1];
        if i > 0 { assert r[i] == t[i - 1]; }
      }
    }
  }

  lemma {:induction false} SortDescFacts<T>(xs: seq<T>, key: T -> int)
    ensures SortedDesc(SortDesc(xs, key), key)
    ensures multiset(SortDesc(xs, key)) == multiset(xs)
    ensures |SortDesc(xs, key)| == |xs|
    decreases |xs|
  {
    if xs != [] {
      SortDescFacts(xs[1..], key);
      InsertDescSorted(xs[0], SortDesc(xs[1..], key), key);
      InsertDescPerm(xs[0], SortDesc(xs[1..], key), key);
      assert xs == [xs[0]] + xs[1..];
    }
    assert |multiset(SortDesc(xs, key))| == |multiset(xs)|;
  }

  /** The elements whose key is `k`. */
  function KeyIs<T>(key: T -> int, k: int): T -> bool { e => key(e) == k }

  /** The elements that `f` maps to `k`. */
  function ValueIs<T, K(==)>(f: T -> K, k: K): T -> bool { x => f(x) == k }

  /** A function with four distinct values splits a sequence into four
      filtered parts that together hold every element once. */
  lemma {:induction false} PartitionFour<T, K>(xs: seq<T>, f: T -> K, a: K, b: K, c: K, d: K)
    requires forall i :: 0 <= i < |xs| ==> f(xs[i]) == a || f(xs[i]) == b || f(xs[i]) == c || f(xs[i]) == d
    requires a != b && a != c && a != d && b != c && b != d && c != d
    ensures multiset(Filter(xs, ValueIs(f, a))) + multiset(Filter(xs, ValueIs(f, b)))
          + multiset(Filter(xs, ValueIs(f, c))) + multiset(Filter(xs, ValueIs(f, d)))
         == multiset(xs)
    decreases |xs|
  {
    if xs != [] {
      PartitionFour(xs[1..], f, a, b, c, d);
      assert multiset(xs) == multiset{xs[0]} + multiset(xs[1..]) by { assert xs == [xs[0]] + xs[1..]; }
    }
  }

  /** Inserting `x` adds it to the elements of its own key class at the front
      and leaves the other classes alone. */
  lemma {:induction false} InsertDescStable<T>(x: T, ys: seq<T>, key: T -> int, k: int)
    ensures Filter(InsertDesc(x, ys, key), KeyIs(key, k))
         == (if key(x) == k then [x] else []) + Filter(ys, KeyIs(key, k))
    decreases |ys|
  {
    if ys == [] || key(ys[0]) <= key(x) {
      assert ([x] + ys)[1..] == ys;
    } else {
      InsertDescStable(x, ys[1..], key, k);
      var t := InsertDesc(x, ys[1..], key);
      assert ([ys[0]] + t)[1..] == t;
    }
  }

  /** Stability: within one key value, the sorted output keeps input order. */
  lemma {:induction false} SortDescStable<T>(xs: seq<T>, key: T -> int, k: int)
    ensures Filter(SortDesc(xs, key), KeyIs(key, k)) == Filter(xs, KeyIs(key, k))
    decreases |xs|
  {
    if xs != [] {
      SortDescStable(xs[1..], key, k);
      InsertDescStable(xs[0], SortDesc(xs[1..], key), key, k);
    }
  }

  lemma KeysCons<T, K>(a: T, t: seq<T>, nk: T -> K)
    ensures Keys([a] + t, nk) == {nk(a)} + Keys(t, nk)
  {
    var s := [a] + t;
    forall y | y in Keys(s, nk) ensures y in {nk(a)} + Keys(t, nk) {
      var i :| 0 <= i < |s| && nk(s[i]) == y;
      if i > 0 { assert nk(t[i - 1]) == y; }
    }
    forall y | y in Keys(t, nk) ensures y in Keys(s, nk) {
      var i :| 0 <= i < |t| && nk(t[i]) == y;
      assert nk(s[i + 1]) == y;
    }
    assert nk(s[0]) == nk(a);
  }

  lemma DistinctKeysCons<T, K>(a: T, t: seq<T>, nk: T -> K)
    ensures DistinctKeys([a] + t, nk) <==> DistinctKeys(t, nk) && nk(a) !in Keys(t, nk)
  {
    var s := [a] + t;
    if DistinctKeys(s, nk) {
      forall i, j | 0 <= i < j < |t| ensures nk(t[i]) != nk(t[j]) {
        assert t[i] == s[i + 1] && t[j] == s[j + 1];
      }
      forall i | 0 <= i < |t| ensures nk(t[i]) != nk(a) {
        assert s[0] == a && s[i + 1] == t[i];
      }
    }
    if DistinctKeys(t, nk) && nk(a) !in Keys(t, nk) {
      forall i, j | 0 <= i < j < |s| ensures nk(s[i]) != nk(s[j]) {
        assert s[j] == t[j - 1];
        if i > 0 { assert s[i] == t[i - 1]; } else { assert nk(t[j - 1]) in Keys(t, nk); }
      }
    }
  }

  /** Filtering keeps keys distinct and brings in no key. */
  lemma {:induction false} FilterDistinctKeys<T, K>(xs: seq<T>, p: T -> bool, nk: T -> K)
    ensures Keys(Filter(xs, p), nk) <= Keys(xs, nk)
    ensures DistinctKeys(xs, nk) ==> DistinctKeys(Filter(xs, p), nk)
    decreases |xs|
  {
    if xs != [] {
      FilterDistinctKeys(xs[1..], p, nk);
      assert xs == [xs[0]] + xs[1..];
      KeysCons(xs[0], xs[1..], nk);
      DistinctKeysCons(xs[0], xs[1..], nk);
      if p(xs[0]) {
        KeysCons(xs[0], Filter(xs[1..], p), nk);
        DistinctKeysCons(xs[0], Filter(xs[1..], p), nk);
      }
    }
  }

  lemma {:induction false} InsertDescKeys<T, K>(x: T, ys: seq<T>, key: T -> int, nk: T -> K)
    ensures Keys(InsertDesc(x, ys, key), nk) == {nk(x)} + Keys(ys, nk)
    ensures DistinctKeys(ys, nk) && nk(x) !in Keys(ys, nk) ==> DistinctKeys(InsertDesc(x, ys, key), nk)
    decreases |ys|
  {
    if ys == [] || key(ys[0]) <= key(x) {
      KeysCons(x, ys, nk);
      DistinctKeysCons(x, ys, nk);
    } else {
      var t := InsertDesc(x, ys[1..], key);
      InsertDescKeys(x, ys[1..], key, nk);
      assert ys == [ys[0]] + ys[1..];
      KeysCons(ys[0], t, nk);
      DistinctKeysCons(ys[0], t, nk);
      KeysCons(ys[0], ys[1..], nk);
      DistinctKeysCons(ys[0], ys[1..], nk);
    }
  }

  /** Sorting keeps the key set, and distinct keys stay distinct. */
  lemma {:induction false} SortDescKeys<T, K>(xs: seq<T>, key: T -> int, nk: T -> K)
    ensures Keys(SortDesc(xs, key), nk) == Keys(xs, nk)
    ensures DistinctKeys(xs, nk) ==> DistinctKeys(SortDesc(xs, key), nk)
    decreases |xs|
  {
    if xs != [] {
      SortDescKeys(xs[1..], key, nk);
      InsertDescKeys(xs[0], SortDesc(xs[1..], key), key, nk);
      assert xs == [xs[0]] + xs[1..];
      KeysCons(xs[0], xs[1..], nk);
      DistinctKeysCons(xs[0], xs[1..], nk);
    }
  }

  /** A filtered sorted sequence is sorted. */
  lemma {:induction false} FilterSortedDesc<T>(xs: seq<T>, p: T -> bool, key: T -> int)
    requires SortedDesc(xs, key)
    ensures SortedDesc(Filter(xs, p), key)
    decreases |xs|
  {
    if xs != [] {
      assert SortedDesc(xs[1..], key) by {
        forall i, j | 0 <= i < j < |xs[1..]| ensures key(xs[1..][i]) >= key(xs[1..][j]) {
          assert xs[1..][i] == xs[i + 1] && xs[1..][j] == xs[j + 1];
        }
      }
      FilterSortedDesc(xs[1..], p, key);
      if p(xs[0]) {
        assert forall i :: 0 <= i < |xs[1..]| ==> key(xs[1..][i]) <= key(xs[0]);
        var t := Filter(xs[1..], p);
        var s := [xs[0]] + t;
        FilterBound(xs[1..], p, key, key(xs[0]));
        forall i, j | 0 <= i < j < |s| ensures key(s[i]) >= key(s[j]) {
          assert s[j] == t[j - 1];
          if i > 0 { assert s[i] == t[i - 1]; }
        }
      }
    }
  }

  /** A bound on every key holds for the kept elements. */
  lemma {:induction false} FilterBound<T>(xs: seq<T>, p: T -> bool, key: T -> int, b: int)
    requires forall i :: 0 <= i < |xs| ==> key(xs[i]) <= b
    ensures forall i :: 0 <= i < |Filter(xs, p)| ==> key(Filter(xs, p)[i]) <= b
    decreases |xs|
  {
    if xs != [] {
      FilterBound(xs[1..], p, key, b);
    }
  }

  /** Membership in a concatenation of sequences. */
  lemma {:induction false} FlattenMembers<T>(xss: seq<seq<T>>, x: T)
    ensures x in Flatten(xss) <==> exists i :: 0 <= i < |xss| && x in xss[i]
    decreases |xss|
  {
    if xss != [] {
      FlattenMembers(xss[1..], x);
      if exists i :: 0 <= i < |xss[1..]| && x in xss[1..][i] {
        var i :| 0 <= i < |xss[1..]| && x in xss[1..][i];
        assert x in xss[i + 1];
      }
      if exists i :: 0 <= i < |xss| && x in xss[i] {
        var i :| 0 <= i < |xss| && x in xss[i];
        if i > 0 { assert x in xss[1..][i - 1]; }
      }
    }
  }

  lemma {:induction false} FilterAll<T>(xs: seq<T>, p: T -> bool)
    requires forall i :: 0 <= i < |xs| ==> p(xs[i])
    ensures Filter(xs, p) == xs
    decreases |xs|
  {
    if xs != [] {
      FilterAll(xs[1..], p);
      assert [xs[0]] + xs[1..] == xs;
    }
  }

  /** `[f(x) for x in xs]`. */
  function Map<T, U>(f: T -> U, xs: seq<T>): (r: seq<U>)
    ensures |r| == |xs| && forall k :: 0 <= k < |xs| ==> r[k] == f(xs[k])
    decreases |xs|
  {
    if xs == [] then [] else [f(xs[0])] + Map(f, xs[1..])
  }

  /** The images of the first `k + 1` elements: one more image appended. */
  lemma MapPrefix<T, U>(f: T -> U, xs: seq<T>, k: nat)
    requires k < |xs|
    ensures Map(f, xs)[..k + 1] == Map(f, xs)[..k] + [f(xs[k])]
  {
    var r := Map(f, xs);
    assert r[..k + 1] == r[..k] + [r[k]];
  }

  /** The images of a prefix one longer: one more image appended. */
  lemma MapSlice<T, U>(f: T -> U, xs: seq<T>, k: nat)
    requires k < |xs|
    ensures Map(f, xs[..k + 1]) == Map(f, xs[..k]) + [f(xs[k])]
  {
    var a, b := Map(f, xs[..k + 1]), Map(f, xs[..k]) + [f(xs[k])];
    assert |a| == |b|;
    forall i | 0 <= i < |a| ensures a[i] == b[i] {
      if i < k { assert xs[..k + 1][i] == xs[..k][i]; }
    }
  }

  lemma FlattenSnoc<T>(xss: seq<seq<T>>, x: seq<T>)
    ensures Flatten(xss + [x]) == Flatten(xss) + x
  {
    FlattenAppend(xss, [x]);
    assert Flatten([x]) == x + Flatten([x][1..]);
    assert x + [] == x;
  }

  /** Deduplication keeps only elements of the input. */
  lemma {:induction false} DedupeByMembers<T, K>(xs: seq<T>, key: T -> K, seen: set<K>)
    ensures forall x :: x in DedupeBy(xs, key, seen) ==> x in xs
    decreases |xs|
  {
    if xs != [] {
      DedupeByMembers(xs[1..], key, seen);
      DedupeByMembers(xs[1..], key, seen + {key(xs[0])});
    }
  }

  function Max(a: int, b: int): int { if a >= b then a else b }
  function Min(a: int, b: int): int { if a <= b then a else b }
}
