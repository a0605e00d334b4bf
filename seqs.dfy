/** Kotlin collection operations used by the app (`filter`, `take`,
    `distinct`, `find`, `flatMap`), each proved to do what its name says. */
module Seqs {
  import opened Wrappers

  /** No element occurs twice. */
  predicate NoDup<T(==)>(xs: seq<T>) {
    forall i, j :: 0 <= i < j < |xs| ==> xs[i] != xs[j]
  }

  /** `xs.filter(p)`: the elements satisfying `p`, in their original order. */
  function Filter<T>(xs: seq<T>, p: T -> bool): (r: seq<T>)
    ensures |r| <= |xs|
    ensures forall i :: 0 <= i < |r| ==> r[i] in xs && p(r[i])
    ensures forall i :: 0 <= i < |xs| && p(xs[i]) ==> xs[i] in r
  {
    if xs == [] then [] else (if p(xs[0]) then [xs[0]] else []) + Filter(xs[1..], p)
  }

  /** Filtering distributes over concatenation: the kept elements stay in order. */
  lemma {:induction false} FilterAppend<T>(a: seq<T>, b: seq<T>, p: T -> bool)
    ensures Filter(a + b, p) == Filter(a, p) + Filter(b, p)
  {
    if a == [] {
      assert a + b == b;
    } else {
      assert (a + b)[1..] == a[1..] + b;
      FilterAppend(a[1..], b, p);
    }
  }

  /** When every element satisfies `p`, filtering changes nothing. */
  lemma {:induction false} FilterAll<T>(xs: seq<T>, p: T -> bool)
    requires forall i :: 0 <= i < |xs| ==> p(xs[i])
    ensures Filter(xs, p) == xs
  {
    if xs != [] {
      FilterAll(xs[1..], p);
    }
  }

  /** `xs.take(n)` for `n >= 0`: the first `n` elements, or all of them. */
  function Take<T>(xs: seq<T>, n: nat): (r: seq<T>)
    ensures |r| == if n < |xs| then n else |xs|
    ensures r <= xs
  {
    if n < |xs| then xs[..n] else xs
  }

  /** `xs.flatMap(f)`: the lists `f` gives for each element, one after another. */
  function FlatMap<T, U>(xs: seq<T>, f: T -> seq<U>): seq<U>
  {
    if xs == [] then [] else f(xs[0]) + FlatMap(xs[1..], f)
  }

  lemma {:induction false} FlatMapAppend<T, U>(a: seq<T>, b: seq<T>, f: T -> seq<U>)
    ensures FlatMap(a + b, f) == FlatMap(a, f) + FlatMap(b, f)
  {
    if a == [] {
      assert a + b == b;
    } else {
      assert (a + b)[0] == a[0];
      assert (a + b)[1..] == a[1..] + b;
      FlatMapAppend(a[1..], b, f);
    }
  }

  /** Every element of a `flatMap` comes from the list of some element. */
  lemma {:induction false} FlatMapAll<T, U>(xs: seq<T>, f: T -> seq<U>, p: U -> bool)
    requires forall k, j :: 0 <= k < |xs| && 0 <= j < |f(xs[k])| ==> p(f(xs[k])[j])
    ensures forall i :: 0 <= i < |FlatMap(xs, f)| ==> p(FlatMap(xs, f)[i])
  {
    if xs != [] {
      var h, t := f(xs[0]), FlatMap(xs[1..], f);
      assert forall k, j :: 0 <= k < |xs[1..]| && 0 <= j < |f(xs[1..][k])| ==> p(f(xs[1..][k])[j]) by {
        forall k, j | 0 <= k < |xs[1..]| && 0 <= j < |f(xs[1..][k])| ensures p(f(xs[1..][k])[j]) {
          assert xs[1..][k] == xs[k + 1];
        }
      }
      FlatMapAll(xs[1..], f, p);
      assert forall j :: 0 <= j < |h| ==> p(h[j]) by {
        forall j | 0 <= j < |h| ensures p(h[j]) {
          assert h == f(xs[0]);
        }
      }
      assert forall i :: 0 <= i < |h + t| ==> (h + t)[i] == if i < |h| then h[i] else t[i - |h|];
    }
  }

  /** The list of every element is part of the `flatMap`. */
  lemma {:induction false} FlatMapIncludes<T, U>(xs: seq<T>, f: T -> seq<U>, k: nat, y: U)
    requires k < |xs| && y in f(xs[k])
    ensures y in FlatMap(xs, f)
  {
    if k > 0 {
      assert xs[1..][k - 1] == xs[k];
      FlatMapIncludes(xs[1..], f, k - 1, y);
    }
  }

  /** Index of the first occurrence of `x` in `xs`. */
  function FirstIndex<T(==)>(xs: seq<T>, x: T): (k: nat)
    requires x in xs
    ensures k < |xs| && xs[k] == x
    ensures forall j :: 0 <= j < k ==> xs[j] != x
  {
    if xs[0] == x then 0 else 1 + FirstIndex(xs[1..], x)
  }

  /** `distinct()` over the elements not already in `seen`: each element is kept
      at its first occurrence. */
  function DistinctFrom<T(==)>(xs: seq<T>, seen: set<T>): seq<T>
  {
    if xs == [] then []
    else if xs[0] in seen then DistinctFrom(xs[1..], seen)
    else [xs[0]] + DistinctFrom(xs[1..], seen + {xs[0]})
  }

  /** Every kept element comes from `xs` and was not seen before. */
  lemma {:induction false} DistinctFromMember<T>(xs: seq<T>, seen: set<T>, k: nat)
    requires k < |DistinctFrom(xs, seen)|
    ensures DistinctFrom(xs, seen)[k] in xs && DistinctFrom(xs, seen)[k] !in seen
  {
    var r := DistinctFrom(xs, seen);
    if xs[0] in seen {
      DistinctFromMember(xs[1..], seen, k);
    } else if k > 0 {
      var rest := DistinctFrom(xs[1..], seen + {xs[0]});
      assert r[k] == rest[k - 1];
      DistinctFromMember(xs[1..], seen + {xs[0]}, k - 1);
    }
  }

  /** No element is kept twice. */
  lemma {:induction false} DistinctFromNoDup<T>(xs: seq<T>, seen: set<T>)
    ensures NoDup(DistinctFrom(xs, seen))
  {
    if xs != [] {
      if xs[0] in seen {
        DistinctFromNoDup(xs[1..], seen);
      } else {
        var rest := DistinctFrom(xs[1..], seen + {xs[0]});
        DistinctFromNoDup(xs[1..], seen + {xs[0]});
        forall k | 0 <= k < |rest| ensures rest[k] != xs[0] {
          DistinctFromMember(xs[1..], seen + {xs[0]}, k);
        }
        NoDupCons(xs[0], rest);
      }
    }
  }

  lemma NoDupCons<T>(x: T, xs: seq<T>)
    requires NoDup(xs) && forall k :: 0 <= k < |xs| ==> xs[k] != x
    ensures NoDup([x] + xs)
  {
    var ys := [x] + xs;
    forall i, j | 0 <= i < j < |ys| ensures ys[i] != ys[j] {
      assert ys[j] == xs[j - 1];
      if i > 0 {
        assert ys[i] == xs[i - 1];
      }
    }
  }

  /** Nothing outside `seen` is dropped. */
  lemma {:induction false} DistinctFromComplete<T>(xs: seq<T>, seen: set<T>, x: T)
    requires x in xs && x !in seen
    ensures x in DistinctFrom(xs, seen)
  {
    if xs[0] != x {
      assert x in xs[1..];
      if xs[0] in seen {
        DistinctFromComplete(xs[1..], seen, x);
      } else {
        DistinctFromComplete(xs[1..], seen + {xs[0]}, x);
      }
    }
  }

  /** `xs.distinct()`: Kotlin keeps the first occurrence of each element. */
  function Distinct<T(==)>(xs: seq<T>): (r: seq<T>)
    ensures NoDup(r)
    ensures forall i :: 0 <= i < |r| ==> r[i] in xs
    ensures forall x :: x in xs ==> x in r
  {
    DistinctFromNoDup(xs, {});
    forall i | 0 <= i < |DistinctFrom(xs, {})| ensures DistinctFrom(xs, {})[i] in xs {
      DistinctFromMember(xs, {}, i);
    }
    forall x | x in xs ensures x in DistinctFrom(xs, {}) {
      DistinctFromComplete(xs, {}, x);
    }
    DistinctFrom(xs, {})
  }

  /** Past a different head, the first index moves by one. */
  lemma FirstIndexTail<T>(xs: seq<T>, y: T)
    requires y in xs && xs[0] != y
    ensures y in xs[1..] && FirstIndex(xs, y) == 1 + FirstIndex(xs[1..], y)
  {
  }

  /** The kept elements appear in the order of their first occurrences. */
  lemma {:induction false} DistinctFromOrder<T>(xs: seq<T>, seen: set<T>, i: nat, j: nat)
    requires i < j < |DistinctFrom(xs, seen)|
    ensures DistinctFrom(xs, seen)[i] in xs && DistinctFrom(xs, seen)[j] in xs
    ensures FirstIndex(xs, DistinctFrom(xs, seen)[i]) < FirstIndex(xs, DistinctFrom(xs, seen)[j])
    decreases |xs|, 1
  {
    if xs[0] in seen {
      DistinctFromOrderSkip(xs, seen, i, j);
    } else {
      DistinctFromOrderKeep(xs, seen, i, j);
    }
  }

  /** The step of `DistinctFromOrder` when the head was already seen. */
  lemma {:induction false} DistinctFromOrderSkip<T>(xs: seq<T>, seen: set<T>, i: nat, j: nat)
    requires i < j < |DistinctFrom(xs, seen)| && xs[0] in seen
    ensures DistinctFrom(xs, seen)[i] in xs && DistinctFrom(xs, seen)[j] in xs
    ensures FirstIndex(xs, DistinctFrom(xs, seen)[i]) < FirstIndex(xs, DistinctFrom(xs, seen)[j])
    decreases |xs|, 0
  {
    var r, tl := DistinctFrom(xs, seen), xs[1..];
    var r1 := DistinctFrom(tl, seen);
    assert r == r1;
    DistinctFromOrder(tl, seen, i, j);
    DistinctFromMember(tl, seen, i);
    DistinctFromMember(tl, seen, j);
    FirstIndexTail(xs, r1[i]);
    FirstIndexTail(xs, r1[j]);
  }

  /** The step of `DistinctFromOrder` when the head is kept. */
  lemma {:induction false} DistinctFromOrderKeep<T>(xs: seq<T>, seen: set<T>, i: nat, j: nat)
    requires i < j < |DistinctFrom(xs, seen)| && xs[0] !in seen
    ensures DistinctFrom(xs, seen)[i] in xs && DistinctFrom(xs, seen)[j] in xs
    ensures FirstIndex(xs, DistinctFrom(xs, seen)[i]) < FirstIndex(xs, DistinctFrom(xs, seen)[j])
    decreases |xs|, 0
  {
    var tl, seen1 := xs[1..], seen + {xs[0]};
    var rest := DistinctFrom(tl, seen1);
    DistinctFromMember(xs, seen, i);
    DistinctFromMember(xs, seen, j);
    KeptShift(xs, seen, j);
    DistinctFromMember(tl, seen1, j - 1);
    FirstIndexTail(xs, rest[j - 1]);
    if i > 0 {
      KeptShift(xs, seen, i);
      DistinctFromOrder(tl, seen1, i - 1, j - 1);
      DistinctFromMember(tl, seen1, i - 1);
      FirstIndexTail(xs, rest[i - 1]);
    } else {
      KeptShift(xs, seen, 0);
    }
  }

  /** With the head kept, position `k` holds the head or the tail's `k - 1`. */
  lemma KeptShift<T>(xs: seq<T>, seen: set<T>, k: nat)
    requires xs != [] && xs[0] !in seen && k < |DistinctFrom(xs, seen)|
    ensures k == 0 ==> DistinctFrom(xs, seen)[k] == xs[0]
    ensures k > 0 ==> k - 1 < |DistinctFrom(xs[1..], seen + {xs[0]})|
                      && DistinctFrom(xs, seen)[k] == DistinctFrom(xs[1..], seen + {xs[0]})[k - 1]
  {
  }

  lemma DistinctOrder<T>(xs: seq<T>, i: nat, j: nat)
    requires i < j < |Distinct(xs)|
    ensures Distinct(xs)[i] in xs && Distinct(xs)[j] in xs
    ensures FirstIndex(xs, Distinct(xs)[i]) < FirstIndex(xs, Distinct(xs)[j])
  {
    DistinctFromOrder(xs, {}, i, j);
  }

  /** Index of the first element satisfying `p` (Kotlin `indexOfFirst`, or the
      position `find` stops at). */
  function FindIndex<T>(xs: seq<T>, p: T -> bool): (r: Option<nat>)
    ensures r.Some? ==> r.value < |xs| && p(xs[r.value])
    ensures r.Some? ==> forall j :: 0 <= j < r.value ==> !p(xs[j])
    ensures r.None? <==> forall j :: 0 <= j < |xs| ==> !p(xs[j])
  {
    if xs == [] then None
    else if p(xs[0]) then Some(0)
    else match FindIndex(xs[1..], p)
      case None => None
      case Some(k) => Some(k + 1)
  }

  /** `indexOfFirst` stops at the first element satisfying `p`. */
  lemma FindIndexFirst<T>(xs: seq<T>, p: T -> bool, k: nat)
    requires k < |xs| && p(xs[k]) && forall j :: 0 <= j < k ==> !p(xs[j])
    ensures FindIndex(xs, p) == Some(k)
  {
    match FindIndex(xs, p) {
      case None => assert false;
      case Some(v) => assert !(v < k) && !(k < v);
    }
  }

  /** `xs.find(p)`: the first element satisfying `p`, if any. */
  function Find<T>(xs: seq<T>, p: T -> bool): (r: Option<T>)
    ensures r.Some? ==> r.value in xs && p(r.value)
    ensures r.None? <==> forall j :: 0 <= j < |xs| ==> !p(xs[j])
  {
    match FindIndex(xs, p)
    case None => None
    case Some(k) => Some(xs[k])
  }

  /** Elements before the first match do not affect `find`. */
  lemma {:induction false} FindAppend<T>(a: seq<T>, b: seq<T>, p: T -> bool)
    requires forall j :: 0 <= j < |a| ==> !p(a[j])
    ensures Find(a + b, p) == Find(b, p)
  {
    if a != [] {
      assert (a + b)[0] == a[0];
      assert (a + b)[1..] == a[1..] + b;
      FindAppend(a[1..], b, p);
      FindSkip(a + b, p);
    } else {
      assert a + b == b;
    }
  }

  /** A first element that fails `p` is skipped by `find`. */
  lemma FindSkip<T>(xs: seq<T>, p: T -> bool)
    requires xs != [] && !p(xs[0])
    ensures Find(xs, p) == Find(xs[1..], p)
  {
    match FindIndex(xs[1..], p) {
      case None =>
      case Some(k) => assert FindIndex(xs, p) == Some(k + 1);
    }
  }

  /** `xs.mapNotNull(f)`: the present results of `f`, in order. */
  function MapNotNull<T, U>(xs: seq<T>, f: T -> Option<U>): (r: seq<U>)
    ensures |r| <= |xs|
  {
    if xs == [] then []
    else (match f(xs[0]) case Some(y) => [y] case None => []) + MapNotNull(xs[1..], f)
  }

  /** `mapNotNull` of one element. */
  lemma MapNotNullOne<T, U>(x: T, f: T -> Option<U>)
    ensures MapNotNull([x], f) == match f(x) case Some(y) => [y] case None => []
  {
    assert [x][1..] == [];
  }

  /** `mapNotNull` distributes over concatenation. */
  lemma {:induction false} MapNotNullAppend<T, U>(a: seq<T>, b: seq<T>, f: T -> Option<U>)
    ensures MapNotNull(a + b, f) == MapNotNull(a, f) + MapNotNull(b, f)
  {
    if a == [] {
      assert a + b == b;
    } else {
      assert (a + b)[1..] == a[1..] + b;
      MapNotNullAppend(a[1..], b, f);
    }
  }

  /** When `f` gives a value for every element, `mapNotNull` is a plain map. */
  lemma {:induction false} MapNotNullAll<T, U>(xs: seq<T>, f: T -> Option<U>, ys: seq<U>)
    requires |xs| == |ys|
    requires forall i :: 0 <= i < |xs| ==> f(xs[i]) == Some(ys[i])
    ensures MapNotNull(xs, f) == ys
  {
    if xs != [] {
      assert f(xs[0]) == Some(ys[0]);
      MapNotNullAll(xs[1..], f, ys[1..]);
      assert ys == [ys[0]] + ys[1..];
    }
  }

  /** A present result of `f` on an element is among the results. */
  lemma {:induction false} MapNotNullIncludes<T, U>(xs: seq<T>, f: T -> Option<U>, k: nat)
    requires k < |xs| && f(xs[k]).Some?
    ensures f(xs[k]).value in MapNotNull(xs, f)
  {
    if k > 0 {
      assert xs[1..][k - 1] == xs[k];
      MapNotNullIncludes(xs[1..], f, k - 1);
    }
  }

  /** The position of the element the `i`-th result of `mapNotNull` comes from. */
  function MapNotNullOrigin<T, U>(xs: seq<T>, f: T -> Option<U>, i: nat): (k: nat)
    requires i < |MapNotNull(xs, f)|
    ensures k < |xs| && f(xs[k]) == Some(MapNotNull(xs, f)[i])
  {
    var rest := MapNotNull(xs[1..], f);
    match f(xs[0])
    case Some(y) =>
      assert MapNotNull(xs, f) == [y] + rest;
      if i == 0 then 0 else MapNotNullOrigin(xs[1..], f, i - 1) + 1
    case None =>
      assert MapNotNull(xs, f) == rest;
      MapNotNullOrigin(xs[1..], f, i) + 1
  }

  /** `mapNotNull` keeps order: a later result comes from a later element. */
  lemma {:induction false} MapNotNullOrder<T, U>(xs: seq<T>, f: T -> Option<U>, i: nat, j: nat)
    requires i < j < |MapNotNull(xs, f)|
    ensures MapNotNullOrigin(xs, f, i) < MapNotNullOrigin(xs, f, j)
  {
    var rest := MapNotNull(xs[1..], f);
    match f(xs[0]) {
      case Some(y) =>
        assert MapNotNull(xs, f) == [y] + rest;
        if i > 0 {
          MapNotNullOrder(xs[1..], f, i - 1, j - 1);
        }
      case None =>
        assert MapNotNull(xs, f) == rest;
        MapNotNullOrder(xs[1..], f, i, j);
    }
  }

  /** A property of every present result of `f` holds of every result. */
  lemma {:induction false} MapNotNullEvery<T, U>(xs: seq<T>, f: T -> Option<U>, p: U -> bool)
    requires forall k :: 0 <= k < |xs| && f(xs[k]).Some? ==> p(f(xs[k]).value)
    ensures forall i :: 0 <= i < |MapNotNull(xs, f)| ==> p(MapNotNull(xs, f)[i])
  {
    if xs != [] {
      assert forall k :: 0 <= k < |xs[1..]| ==> xs[1..][k] == xs[k + 1];
      MapNotNullEvery(xs[1..], f, p);
    }
  }
}
