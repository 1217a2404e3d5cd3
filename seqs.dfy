/** Sequence helpers standing in for `filter`, `map`, `slice` and `reduce`. */
module Seqs {
  /** `s.filter(p)`: keeps order, keeps exactly the elements satisfying `p`. */
  function Filter<T>(s: seq<T>, p: T -> bool): (r: seq<T>)
    ensures |r| <= |s|
    ensures forall x :: x in r ==> x in s && p(x)
    ensures forall x :: x in s && p(x) ==> x in r
  {
    if s == [] then []
    else Filter(s[..|s| - 1], p) + (if p(s[|s| - 1]) then [s[|s| - 1]] else [])
  }

  lemma {:induction false} FilterKeepsAll<T>(s: seq<T>, p: T -> bool)
    requires forall x :: x in s ==> p(x)
    ensures Filter(s, p) == s
  {
    if s != [] {
      var init, last := s[..|s| - 1], s[|s| - 1];
      forall x | x in init ensures p(x) {
        assert x in s;
      }
      FilterKeepsAll(init, p);
      assert p(last) by { assert last in s; }
      assert Filter(s, p) == Filter(init, p) + [last];
      assert init + [last] == s;
    }
  }

  /** A filter that rejects some element is strictly shorter than its input. */
  lemma {:induction false} FilterDropsSome<T>(s: seq<T>, p: T -> bool, i: nat)
    requires i < |s| && !p(s[i])
    ensures |Filter(s, p)| < |s|
  {
    if i < |s| - 1 {
      FilterDropsSome(s[..|s| - 1], p, i);
    }
  }

  lemma {:induction false} FilterAppend<T>(s: seq<T>, t: seq<T>, p: T -> bool)
    ensures Filter(s + t, p) == Filter(s, p) + Filter(t, p)
    decreases |t|
  {
    if t != [] {
      var u := t[..|t| - 1];
      assert (s + t)[..|s + t| - 1] == s + u;
      FilterAppend(s, u, p);
    } else {
      assert s + t == s;
    }
  }

  lemma {:induction false} FilterSingleton<T>(x: T, p: T -> bool)
    ensures Filter([x], p) == if p(x) then [x] else []
  {
    assert [x][..0] == [];
  }

  /** Filtering one more element keeps it exactly when it satisfies `p`. */
  lemma FilterSnoc<T>(s: seq<T>, x: T, p: T -> bool)
    ensures Filter(s + [x], p) == Filter(s, p) + if p(x) then [x] else []
  {
    assert (s + [x])[..|s|] == s;
  }

  predicate DistinctBy<T, K(==)>(s: seq<T>, key: T -> K)
  {
    forall i, j :: 0 <= i < j < |s| ==> key(s[i]) != key(s[j])
  }

  lemma {:induction false} FilterDistinct<T, K>(s: seq<T>, p: T -> bool, key: T -> K)
    requires DistinctBy(s, key)
    ensures DistinctBy(Filter(s, p), key)
  {
    if s != [] {
      var init := s[..|s| - 1];
      FilterDistinct(init, p, key);
      var f := Filter(init, p);
      if p(s[|s| - 1]) {
        forall i | 0 <= i < |f| ensures key(f[i]) != key(s[|s| - 1]) {
          assert f[i] in init;
          var j :| 0 <= j < |init| && init[j] == f[i];
          assert s[j] == f[i];
        }
      }
    }
  }

  /** A sequence without members is empty. */
  lemma NoMembersEmpty<T>(s: seq<T>)
    ensures (forall x :: x !in s) ==> s == []
  {
    if s != [] {
      assert s[0] in s;
    }
  }

  /** `s.slice(0, n)` for a non-negative `n`. */
  function Take<T>(s: seq<T>, n: nat): (r: seq<T>)
    ensures |r| == if n < |s| then n else |s|
    ensures r == s[..|r|]
  {
    if n < |s| then s[..n] else s
  }

  /**
   * Most-recently-used update: `[x, ...s.filter(y => key(y) !== key(x))].slice(0, cap)`.
   */
  function MoveToFront<T, K(==)>(s: seq<T>, x: T, key: T -> K, cap: nat): (r: seq<T>)
    requires cap >= 1
    ensures |r| >= 1 && r[0] == x
    ensures |r| <= cap
    ensures forall i :: 1 <= i < |r| ==> r[i] in s && key(r[i]) != key(x)
  {
    Take([x] + Filter(s, y => key(y) != key(x)), cap)
  }

  /** The recently-used list never holds two entries with the same key. */
  lemma MoveToFrontDistinct<T, K>(s: seq<T>, x: T, key: T -> K, cap: nat)
    requires cap >= 1
    requires DistinctBy(s, key)
    ensures DistinctBy(MoveToFront(s, x, key, cap), key)
  {
    var f := Filter(s, y => key(y) != key(x));
    FilterDistinct(s, y => key(y) != key(x), key);
    var all := [x] + f;
    assert DistinctBy(all, key) by {
      forall i, j | 0 <= i < j < |all| ensures key(all[i]) != key(all[j]) {
        if i == 0 {
          assert all[j] == f[j - 1];
          assert f[j - 1] in f;
        } else {
          assert all[i] == f[i - 1] && all[j] == f[j - 1];
        }
      }
    }
  }

  /** While the list is below its cap, moving an entry to the front drops no other entry. */
  lemma MoveToFrontKeepsOthers<T, K>(s: seq<T>, x: T, key: T -> K, cap: nat)
    requires cap >= 1 && |s| < cap
    ensures forall y :: y in s && key(y) != key(x) ==> y in MoveToFront(s, x, key, cap)
  {
    var f := Filter(s, y => key(y) != key(x));
    assert Take([x] + f, cap) == [x] + f;
    forall y | y in s && key(y) != key(x) ensures y in MoveToFront(s, x, key, cap) {
      assert y in f;
      assert y in [x] + f;
    }
  }

  /** Moving the same entry to the front twice is moving it once. */
  lemma MoveToFrontTwice<T, K>(s: seq<T>, x: T, key: T -> K, cap: nat)
    requires cap >= 1
    ensures MoveToFront(MoveToFront(s, x, key, cap), x, key, cap) == MoveToFront(s, x, key, cap)
  {
    var once := MoveToFront(s, x, key, cap);
    var p := y => key(y) != key(x);
    var tail := once[1..];
    assert once == [x] + tail;
    assert forall y :: y in tail ==> p(y);
    FilterAppend([x], tail, p);
    FilterSingleton(x, p);
    FilterKeepsAll(tail, p);
    assert Filter(once, p) == tail;
  }

  /** `s.map(f)`. */
  function Map<T, U>(s: seq<T>, f: T -> U): (r: seq<U>)
    ensures |r| == |s|
    ensures forall i :: 0 <= i < |s| ==> r[i] == f(s[i])
  {
    seq(|s|, i requires 0 <= i < |s| => f(s[i]))
  }

  lemma MapSnoc<T, U>(s: seq<T>, x: T, f: T -> U)
    ensures Map(s + [x], f) == Map(s, f) + [f(x)]
  {
  }

  lemma MapAppend<T, U>(s: seq<T>, t: seq<T>, f: T -> U)
    ensures Map(s + t, f) == Map(s, f) + Map(t, f)
  {
  }

  /** Every element of a mapped, cut, filtered sequence is the image of a kept element. */
  lemma MapTakeFilterSource<T, U>(s: seq<T>, p: T -> bool, n: nat, f: T -> U)
    ensures forall y :: y in Map(Take(Filter(s, p), n), f) ==> exists x :: x in s && p(x) && y == f(x)
  {
    var t := Take(Filter(s, p), n);
    forall y | y in Map(t, f) ensures exists x :: x in s && p(x) && y == f(x) {
      var i :| 0 <= i < |t| && Map(t, f)[i] == y;
      assert t[i] in Filter(s, p);
    }
  }

  predicate Distinct<T(==)>(s: seq<T>)
  {
    forall i, j :: 0 <= i < j < |s| ==> s[i] != s[j]
  }

  /** `Array.from(new Set(s))`: first occurrences, in order. */
  function Dedup<T(==)>(s: seq<T>): (r: seq<T>)
    ensures |r| <= |s|
    ensures forall x :: x in r ==> x in s
    ensures forall x :: x in s ==> x in r
    ensures Distinct(r)
  {
    if s == [] then []
    else
      var init := Dedup(s[..|s| - 1]);
      var x := s[|s| - 1];
      assert s == s[..|s| - 1] + [x];
      if x in init then init else init + [x]
  }

  /** A sequence without repeats passes through `Dedup` unchanged. */
  lemma {:induction false} DedupDistinct<T>(s: seq<T>)
    requires Distinct(s)
    ensures Dedup(s) == s
  {
    if s != [] {
      var init := s[..|s| - 1];
      assert Distinct(init);
      DedupDistinct(init);
      assert s[|s| - 1] !in init;
      assert init + [s[|s| - 1]] == s;
    }
  }

  /** `s.reduce((acc, x) => acc + f(x), 0)` over exact numbers. */
  function Sum<T>(s: seq<T>, f: T -> real): real
  {
    if s == [] then 0.0 else Sum(s[..|s| - 1], f) + f(s[|s| - 1])
  }

  lemma {:induction false} SumAppend<T>(s: seq<T>, t: seq<T>, f: T -> real)
    ensures Sum(s + t, f) == Sum(s, f) + Sum(t, f)
    decreases |t|
  {
    if t != [] {
      var u := t[..|t| - 1];
      assert (s + t)[..|s + t| - 1] == s + u;
      SumAppend(s, u, f);
    } else {
      assert s + t == s;
    }
  }

  lemma {:induction false} SumNonNegative<T>(s: seq<T>, f: T -> real)
    requires forall i :: 0 <= i < |s| ==> f(s[i]) >= 0.0
    ensures Sum(s, f) >= 0.0
  {
    if s != [] {
      SumNonNegative(s[..|s| - 1], f);
    }
  }

  function SumInt<T>(s: seq<T>, f: T -> int): int
  {
    if s == [] then 0 else SumInt(s[..|s| - 1], f) + f(s[|s| - 1])
  }

  // ------------------------------------------------------------ sorting by a text key

  /** Lexicographic order of texts by character code: JavaScript's default `sort`, and a byte-order collation. */
  predicate LexLe(a: string, b: string)
  {
    a == [] || (b != [] && (a[0] < b[0] || (a[0] == b[0] && LexLe(a[1..], b[1..]))))
  }

  lemma {:induction false} LexTotal(a: string, b: string)
    ensures LexLe(a, b) || LexLe(b, a)
  {
    if a != [] && b != [] && a[0] == b[0] {
      LexTotal(a[1..], b[1..]);
    }
  }

  /** Each element's key is at most the next one's. */
  predicate SortedBy<T>(s: seq<T>, key: T -> string)
  {
    forall i :: 0 <= i < |s| - 1 ==> LexLe(key(s[i]), key(s[i + 1]))
  }

  /** Put `x` before the first element whose key is not below its own. */
  function InsertBy<T>(x: T, s: seq<T>, key: T -> string): (r: seq<T>)
    ensures |r| == |s| + 1 && multiset(r) == multiset(s) + multiset{x}
    ensures r[0] == x || (s != [] && r[0] == s[0])
  {
    if s == [] || LexLe(key(x), key(s[0])) then [x] + s
    else
      var rest := InsertBy(x, s[1..], key);
      assert s == [s[0]] + s[1..];
      [s[0]] + rest
  }

  lemma {:induction false} InsertBySorted<T>(x: T, s: seq<T>, key: T -> string)
    requires SortedBy(s, key)
    ensures SortedBy(InsertBy(x, s, key), key)
  {
    if s != [] && !LexLe(key(x), key(s[0])) {
      InsertBySorted(x, s[1..], key);
      LexTotal(key(x), key(s[0]));
      var r := InsertBy(x, s, key);
      assert r[1..] == InsertBy(x, s[1..], key);
    }
  }

  /** Sorting by a text key, here an insertion sort. */
  function SortBy<T>(s: seq<T>, key: T -> string): (r: seq<T>)
    ensures multiset(r) == multiset(s) && |r| == |s|
    ensures SortedBy(r, key)
  {
    if s == [] then []
    else
      var sorted := SortBy(s[..|s| - 1], key);
      InsertBySorted(s[|s| - 1], sorted, key);
      assert s == s[..|s| - 1] + [s[|s| - 1]];
      InsertBy(s[|s| - 1], sorted, key)
  }

  /** Inserting a new element into a sequence without repeats keeps it without repeats. */
  lemma {:induction false} InsertByDistinct<T>(x: T, s: seq<T>, key: T -> string)
    requires Distinct(s) && x !in s
    ensures Distinct(InsertBy(x, s, key))
  {
    var r := InsertBy(x, s, key);
    if s != [] && !LexLe(key(x), key(s[0])) {
      var rest := InsertBy(x, s[1..], key);
      InsertByDistinct(x, s[1..], key);
      assert s[0] !in s[1..];
      assert s[0] !in multiset(rest);
      forall i, j | 0 <= i < j < |r| ensures r[i] != r[j] {
        assert r[j] == rest[j - 1] && r[j] in rest;
        if i > 0 { assert r[i] == rest[i - 1]; }
      }
    }
  }

  /** Sorting a sequence without repeats gives one without repeats. */
  lemma {:induction false} SortByDistinct<T>(s: seq<T>, key: T -> string)
    requires Distinct(s)
    ensures Distinct(SortBy(s, key))
  {
    if s != [] {
      var init := s[..|s| - 1];
      var x := s[|s| - 1];
      SortByDistinct(init, key);
      assert x !in init;
      assert x !in multiset(SortBy(init, key));
      InsertByDistinct(x, SortBy(init, key), key);
    }
  }
}
