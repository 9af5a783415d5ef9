/**
 * `Array.prototype.sort` with a comparator, which ECMAScript requires to be
 * stable: a stable insertion sort over a total preorder `leq`, where
 * `leq(a, b)` means the comparator does not put `b` strictly before `a`.
 */
module Sorting {

  /** `leq` is total and transitive: a comparator JavaScript's sort can rely on. */
  ghost predicate TotalPreorder<T(!new)>(leq: (T, T) -> bool) {
    && (forall a, b :: leq(a, b) || leq(b, a))
    && (forall a, b, c :: leq(a, b) && leq(b, c) ==> leq(a, c))
  }

  predicate SortedBy<T>(s: seq<T>, leq: (T, T) -> bool) {
    forall i, j :: 0 <= i < j < |s| ==> leq(s[i], s[j])
  }

  /** `a` and `b` compare equal: the comparator returns 0 for them. */
  predicate Tied<T>(leq: (T, T) -> bool, a: T, b: T) {
    leq(a, b) && leq(b, a)
  }

  /** The elements of `s` that compare equal to `x`, in their order in `s`. */
  function TiedWith<T>(s: seq<T>, leq: (T, T) -> bool, x: T): (r: seq<T>)
    ensures |r| <= |s|
  {
    if s == [] then []
    else (if Tied(leq, s[0], x) then [s[0]] else []) + TiedWith(s[1..], leq, x)
  }

  /** Puts `x` after every element of `s` that does not compare greater than it. */
  function Insert<T>(x: T, s: seq<T>, leq: (T, T) -> bool): (r: seq<T>)
    ensures multiset(r) == multiset(s) + multiset{x}
  {
    if s == [] then [x]
    else if !leq(s[0], x) then [x] + s
    else
      assert s == [s[0]] + s[1..];
      [s[0]] + Insert(x, s[1..], leq)
  }

  /** Sorts `s`, placing each element after the earlier elements it ties with. */
  function SortBy<T>(s: seq<T>, leq: (T, T) -> bool): (r: seq<T>)
    ensures multiset(r) == multiset(s)
  {
    if s == [] then []
    else
      assert s == s[..|s| - 1] + [s[|s| - 1]];
      Insert(s[|s| - 1], SortBy(s[..|s| - 1], leq), leq)
  }

  lemma {:induction false} InsertSorted<T(!new)>(x: T, s: seq<T>, leq: (T, T) -> bool)
    requires TotalPreorder(leq)
    requires SortedBy(s, leq)
    ensures SortedBy(Insert(x, s, leq), leq)
  {
    if s != [] && leq(s[0], x) {
      InsertSorted(x, s[1..], leq);
      var r := Insert(x, s, leq);
      var t := Insert(x, s[1..], leq);
      assert r == [s[0]] + t;
      forall k | 0 <= k < |t| ensures leq(s[0], t[k]) {
        assert t[k] in multiset(t);
        assert t[k] in multiset(s[1..]) + multiset{x};
        if t[k] != x {
          assert t[k] in s[1..];
          var m :| 0 <= m < |s[1..]| && s[1..][m] == t[k];
          assert s[m + 1] == t[k];
        }
      }
    }
  }

  /** The sort's result is ordered by `leq`. */
  lemma {:induction false} SortBySorted<T(!new)>(s: seq<T>, leq: (T, T) -> bool)
    requires TotalPreorder(leq)
    ensures SortedBy(SortBy(s, leq), leq)
  {
    if s != [] {
      SortBySorted(s[..|s| - 1], leq);
      InsertSorted(s[|s| - 1], SortBy(s[..|s| - 1], leq), leq);
    }
  }

  lemma {:induction false} TiedWithCons<T>(x: T, s: seq<T>, leq: (T, T) -> bool, y: T)
    ensures TiedWith([x] + s, leq, y) == (if Tied(leq, x, y) then [x] else []) + TiedWith(s, leq, y)
  {
    assert ([x] + s)[0] == x && ([x] + s)[1..] == s;
  }

  lemma {:induction false} TiedWithAppend<T>(a: seq<T>, b: seq<T>, leq: (T, T) -> bool, y: T)
    ensures TiedWith(a + b, leq, y) == TiedWith(a, leq, y) + TiedWith(b, leq, y)
  {
    if a == [] {
      assert a + b == b;
    } else {
      assert a + b == [a[0]] + (a[1..] + b);
      TiedWithCons(a[0], a[1..] + b, leq, y);
      TiedWithAppend(a[1..], b, leq, y);
      TiedWithCons(a[0], a[1..], leq, y);
      assert a == [a[0]] + a[1..];
    }
  }

  /** Elements that all compare below `x` contribute nothing tied with `x`. */
  lemma {:induction false} TiedWithNone<T(!new)>(s: seq<T>, leq: (T, T) -> bool, x: T, y: T)
    requires TotalPreorder(leq)
    requires forall k :: 0 <= k < |s| ==> !leq(s[k], x)
    requires Tied(leq, x, y)
    ensures TiedWith(s, leq, y) == []
  {
    if s != [] {
      TiedWithNone(s[1..], leq, x, y);
    }
  }

  lemma {:induction false} InsertStable<T(!new)>(x: T, s: seq<T>, leq: (T, T) -> bool, y: T)
    requires TotalPreorder(leq)
    requires SortedBy(s, leq)
    ensures TiedWith(Insert(x, s, leq), leq, y)
         == TiedWith(s, leq, y) + (if Tied(leq, x, y) then [x] else [])
  {
    if s == [] {
      TiedWithCons(x, [], leq, y);
      assert [x] + [] == [x];
    } else if !leq(s[0], x) {
      InsertBeforeAll(x, s, leq, y);
    } else {
      SortedTail(s, leq);
      InsertStable(x, s[1..], leq, y);
      InsertAfterFirst(x, s, leq, y);
    }
  }

  lemma {:induction false} SortedTail<T>(s: seq<T>, leq: (T, T) -> bool)
    requires s != [] && SortedBy(s, leq)
    ensures SortedBy(s[1..], leq)
  {
    var rest := s[1..];
    forall i, j | 0 <= i < j < |rest| ensures leq(rest[i], rest[j]) {
      assert rest[i] == s[i + 1] && rest[j] == s[j + 1];
    }
  }

  /** The step of `InsertStable` where `x` goes past the first element. */
  lemma {:induction false} InsertAfterFirst<T>(x: T, s: seq<T>, leq: (T, T) -> bool, y: T)
    requires s != [] && leq(s[0], x)
    requires TiedWith(Insert(x, s[1..], leq), leq, y)
          == TiedWith(s[1..], leq, y) + (if Tied(leq, x, y) then [x] else [])
    ensures TiedWith(Insert(x, s, leq), leq, y)
         == TiedWith(s, leq, y) + (if Tied(leq, x, y) then [x] else [])
  {
    var rest, t := s[1..], Insert(x, s[1..], leq);
    var h := if Tied(leq, s[0], y) then [s[0]] else [];
    var tx := if Tied(leq, x, y) then [x] else [];
    assert Insert(x, s, leq) == [s[0]] + t;
    TiedWithCons(s[0], t, leq, y);
    assert TiedWith(s, leq, y) == h + TiedWith(rest, leq, y);
    ConcatAssoc(h, TiedWith(rest, leq, y), tx);
  }

  /** `s` cut around position `j`. */
  lemma {:induction false} SplitAt<T>(s: seq<T>, j: nat)
    requires j < |s|
    ensures s == s[..j] + [s[j]] + s[j + 1..]
  {
  }

  lemma {:induction false} SplitLast<T>(s: seq<T>)
    requires s != []
    ensures s == s[..|s| - 1] + [s[|s| - 1]]
  {
  }

  /** Concatenation is associative (stated once, so that proofs need not rediscover it). */
  lemma {:induction false} ConcatAssoc<T>(a: seq<T>, b: seq<T>, c: seq<T>)
    ensures a + (b + c) == (a + b) + c
  {
  }

  lemma {:induction false} InsertBeforeAll<T(!new)>(x: T, s: seq<T>, leq: (T, T) -> bool, y: T)
    requires TotalPreorder(leq)
    requires SortedBy(s, leq)
    requires s != [] && !leq(s[0], x)
    ensures TiedWith(Insert(x, s, leq), leq, y)
         == TiedWith(s, leq, y) + (if Tied(leq, x, y) then [x] else [])
  {
    TiedWithCons(x, s, leq, y);
    if Tied(leq, x, y) {
      forall k | 0 <= k < |s| ensures !leq(s[k], x) {
        assert leq(s[0], s[k]);
      }
      TiedWithNone(s, leq, x, y);
    }
  }

  /**
   * Stability: for every element `y`, the elements tied with `y` appear in
   * the result in the order they had in `s`.
   */
  lemma {:induction false} SortByStable<T(!new)>(s: seq<T>, leq: (T, T) -> bool, y: T)
    requires TotalPreorder(leq)
    ensures TiedWith(SortBy(s, leq), leq, y) == TiedWith(s, leq, y)
  {
    if s != [] {
      var init, last := s[..|s| - 1], s[|s| - 1];
      var sorted := SortBy(init, leq);
      assert SortBy(s, leq) == Insert(last, sorted, leq);
      SortByStable(init, leq, y);
      SortBySorted(init, leq);
      InsertStable(last, sorted, leq, y);
      SplitLast(s);
      TiedWithAppend(init, [last], leq, y);
      assert TiedWith([last], leq, y) == if Tied(leq, last, y) then [last] else [] by {
        assert [last][1..] == [];
      }
    }
  }

  /** `s.map(f)` */
  function Map<T, U>(s: seq<T>, f: T -> U): (r: seq<U>)
    ensures |r| == |s| && forall i :: 0 <= i < |s| ==> r[i] == f(s[i])
  {
    if s == [] then [] else [f(s[0])] + Map(s[1..], f)
  }

  lemma {:induction false} MapAppend<T, U>(a: seq<T>, b: seq<T>, f: T -> U)
    ensures Map(a + b, f) == Map(a, f) + Map(b, f)
  {
  }

  /** Taking out the element at `j` takes its image out of the images. */
  lemma {:induction false} MapRemoveAt<T, U>(b: seq<T>, j: nat, f: T -> U)
    requires j < |b|
    ensures multiset(b) == multiset(b[..j] + b[j + 1..]) + multiset{b[j]}
    ensures multiset(Map(b, f)) == multiset(Map(b[..j] + b[j + 1..], f)) + multiset{f(b[j])}
  {
    SplitAt(b, j);
    MapAppend(b[..j] + [b[j]], b[j + 1..], f);
    MapAppend(b[..j], [b[j]], f);
    MapAppend(b[..j], b[j + 1..], f);
  }

  lemma {:induction false} MapHead<T, U>(a: seq<T>, f: T -> U)
    requires a != []
    ensures multiset(a) == multiset(a[1..]) + multiset{a[0]}
    ensures multiset(Map(a, f)) == multiset(Map(a[1..], f)) + multiset{f(a[0])}
  {
    assert a == [a[0]] + a[1..];
    assert Map(a, f) == [f(a[0])] + Map(a[1..], f);
  }

  /** Taking the same element out of two equal multisets leaves equal multisets. */
  lemma {:induction false} Cancel<X>(p: multiset<X>, q: multiset<X>, x: X)
    requires p + multiset{x} == q + multiset{x}
    ensures p == q
  {
    assert p == (p + multiset{x}) - multiset{x};
  }

  /** Mapping a rearrangement gives a rearrangement of the images. */
  lemma {:induction false} MapPermutation<T, U>(a: seq<T>, b: seq<T>, f: T -> U)
    requires multiset(a) == multiset(b)
    ensures multiset(Map(a, f)) == multiset(Map(b, f))
    decreases |a|
  {
    if a == [] {
      assert |b| == |multiset(b)| == 0;
    } else {
      assert a[0] in multiset(b);
      assert a[0] in b;
      var j :| 0 <= j < |b| && b[j] == a[0];
      var a', b' := a[1..], b[..j] + b[j + 1..];
      MapRemoveAt(b, j, f);
      MapHead(a, f);
      Cancel(multiset(a'), multiset(b'), a[0]);
      MapPermutation(a', b', f);
    }
  }
}
