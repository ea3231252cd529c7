/** Options, sums, filters and subsequences shared by the other modules. Everything here
    recurses on the last element, because the logs of this system grow at their end. */
module Sequences {

  datatype Option<+T> = None | Some(value: T)

  function SumBy<T>(f: T -> int, s: seq<T>): int {
    if s == [] then 0 else SumBy(f, s[..|s| - 1]) + f(s[|s| - 1])
  }

  function RealSumBy<T>(f: T -> real, s: seq<T>): real {
    if s == [] then 0.0 else RealSumBy(f, s[..|s| - 1]) + f(s[|s| - 1])
  }

  function Keep<T>(p: T -> bool, s: seq<T>): seq<T> {
    if s == [] then []
    else if p(s[|s| - 1]) then Keep(p, s[..|s| - 1]) + [s[|s| - 1]]
    else Keep(p, s[..|s| - 1])
  }

  function Apply<S, T>(f: S -> T, s: seq<S>): (r: seq<T>)
    ensures |r| == |s| && forall i :: 0 <= i < |s| ==> r[i] == f(s[i])
  {
    if s == [] then [] else Apply(f, s[..|s| - 1]) + [f(s[|s| - 1])]
  }

  function Flatten<T>(ss: seq<seq<T>>): seq<T> {
    if ss == [] then [] else Flatten(ss[..|ss| - 1]) + ss[|ss| - 1]
  }

  function Fold<S, T>(f: (S, T) -> S, init: S, s: seq<T>): S {
    if s == [] then init else f(Fold(f, init, s[..|s| - 1]), s[|s| - 1])
  }

  predicate Every<T>(p: T -> bool, s: seq<T>) {
    s == [] || (Every(p, s[..|s| - 1]) && p(s[|s| - 1]))
  }

  /** `xs` can be read off `ys` from left to right, skipping entries. */
  predicate Subsequence<T(==)>(xs: seq<T>, ys: seq<T>)
    decreases |ys|
  {
    xs == [] ||
    (ys != [] &&
     ((xs[|xs| - 1] == ys[|ys| - 1] && Subsequence(xs[..|xs| - 1], ys[..|ys| - 1])) ||
      Subsequence(xs, ys[..|ys| - 1])))
  }

  /** `ys` is `xs` and `zs` shuffled together, each of them in its own order. */
  predicate Interleaves<T(==)>(ys: seq<T>, xs: seq<T>, zs: seq<T>)
    decreases |ys|
  {
    if ys == [] then xs == [] && zs == []
    else
      var init, last := ys[..|ys| - 1], ys[|ys| - 1];
      (xs != [] && xs[|xs| - 1] == last && Interleaves(init, xs[..|xs| - 1], zs)) ||
      (zs != [] && zs[|zs| - 1] == last && Interleaves(init, xs, zs[..|zs| - 1]))
  }

  lemma {:induction false} InterleavesCounts<T>(ys: seq<T>, xs: seq<T>, zs: seq<T>)
    requires Interleaves(ys, xs, zs)
    ensures multiset(ys) == multiset(xs) + multiset(zs)
    decreases |ys|
  {
    if ys != [] {
      var init, last := ys[..|ys| - 1], ys[|ys| - 1];
      assert ys == init + [last];
      if xs != [] && xs[|xs| - 1] == last && Interleaves(init, xs[..|xs| - 1], zs) {
        InterleavesCounts(init, xs[..|xs| - 1], zs);
        assert xs == xs[..|xs| - 1] + [last];
      } else {
        InterleavesCounts(init, xs, zs[..|zs| - 1]);
        assert zs == zs[..|zs| - 1] + [last];
      }
    }
  }

  lemma {:induction false} InterleavesOrders<T>(ys: seq<T>, xs: seq<T>, zs: seq<T>)
    requires Interleaves(ys, xs, zs)
    ensures Subsequence(xs, ys) && Subsequence(zs, ys)
    decreases |ys|
  {
    if ys != [] {
      var init, last := ys[..|ys| - 1], ys[|ys| - 1];
      if xs != [] && xs[|xs| - 1] == last && Interleaves(init, xs[..|xs| - 1], zs) {
        InterleavesOrders(init, xs[..|xs| - 1], zs);
      } else {
        InterleavesOrders(init, xs, zs[..|zs| - 1]);
      }
    }
  }

  lemma {:induction false} InterleavesLength<T>(ys: seq<T>, xs: seq<T>, zs: seq<T>)
    requires Interleaves(ys, xs, zs)
    ensures |ys| == |xs| + |zs|
    decreases |ys|
  {
    if ys != [] {
      var init, last := ys[..|ys| - 1], ys[|ys| - 1];
      if xs != [] && xs[|xs| - 1] == last && Interleaves(init, xs[..|xs| - 1], zs) {
        InterleavesLength(init, xs[..|xs| - 1], zs);
      } else {
        InterleavesLength(init, xs, zs[..|zs| - 1]);
      }
    }
  }

  /** What a split loses: nothing, not even the order. */
  lemma InterleavesMeans<T>(ys: seq<T>, xs: seq<T>, zs: seq<T>)
    requires Interleaves(ys, xs, zs)
    ensures Subsequence(xs, ys) && Subsequence(zs, ys)
    ensures multiset(ys) == multiset(xs) + multiset(zs)
  {
    InterleavesCounts(ys, xs, zs);
    InterleavesOrders(ys, xs, zs);
  }

  lemma FoldSnoc<S, T>(f: (S, T) -> S, init: S, s: seq<T>, x: T)
    ensures Fold(f, init, s + [x]) == f(Fold(f, init, s), x)
  {
    assert (s + [x])[..|s|] == s;
  }

  lemma FoldOne<S, T>(f: (S, T) -> S, init: S, x: T)
    ensures Fold(f, init, [x]) == f(init, x)
  {
    assert [x][..0] == [];
  }

  lemma {:induction false} FoldConcat<S, T>(f: (S, T) -> S, init: S, a: seq<T>, b: seq<T>)
    ensures Fold(f, init, a + b) == Fold(f, Fold(f, init, a), b)
    decreases |b|
  {
    if b == [] {
      assert a + b == a;
    } else {
      assert (a + b)[..|a + b| - 1] == a + b[..|b| - 1];
      FoldConcat(f, init, a, b[..|b| - 1]);
    }
  }

  /** What the start satisfies and every step keeps, the whole fold satisfies. */
  lemma {:induction false} FoldKeeps<S(!new), T(!new)>(f: (S, T) -> S, init: S, s: seq<T>, inv: (seq<T>, S) -> bool)
    requires inv([], init)
    requires forall prefix, state, x :: inv(prefix, state) ==> inv(prefix + [x], f(state, x))
    ensures inv(s, Fold(f, init, s))
  {
    if s != [] {
      var prefix := s[..|s| - 1];
      FoldKeeps(f, init, prefix, inv);
      assert s == prefix + [s[|s| - 1]];
    }
  }

  lemma {:induction false} SumByConcat<T>(f: T -> int, a: seq<T>, b: seq<T>)
    ensures SumBy(f, a + b) == SumBy(f, a) + SumBy(f, b)
    decreases |b|
  {
    if b == [] {
      assert a + b == a;
    } else {
      assert (a + b)[..|a + b| - 1] == a + b[..|b| - 1];
      SumByConcat(f, a, b[..|b| - 1]);
    }
  }

  lemma {:induction false} RealSumByConcat<T>(f: T -> real, a: seq<T>, b: seq<T>)
    ensures RealSumBy(f, a + b) == RealSumBy(f, a) + RealSumBy(f, b)
    decreases |b|
  {
    if b == [] {
      assert a + b == a;
    } else {
      assert (a + b)[..|a + b| - 1] == a + b[..|b| - 1];
      RealSumByConcat(f, a, b[..|b| - 1]);
    }
  }

  /** A filter and its opposite share out a sum. */
  lemma {:induction false} SumBySplit<T>(f: T -> int, p: T -> bool, q: T -> bool, s: seq<T>)
    requires forall x :: x in s ==> q(x) == !p(x)
    ensures SumBy(f, s) == SumBy(f, Keep(p, s)) + SumBy(f, Keep(q, s))
  {
    if s != [] {
      var init, last := s[..|s| - 1], s[|s| - 1];
      SumBySplit(f, p, q, init);
      assert last in s;
      assert (Keep(p, init) + [last])[..|Keep(p, init)|] == Keep(p, init);
      assert (Keep(q, init) + [last])[..|Keep(q, init)|] == Keep(q, init);
    }
  }

  lemma {:induction false} RealSumBySplit<T>(f: T -> real, p: T -> bool, q: T -> bool, s: seq<T>)
    requires forall x :: x in s ==> q(x) == !p(x)
    ensures RealSumBy(f, s) == RealSumBy(f, Keep(p, s)) + RealSumBy(f, Keep(q, s))
  {
    if s != [] {
      var init, last := s[..|s| - 1], s[|s| - 1];
      RealSumBySplit(f, p, q, init);
      assert last in s;
      assert (Keep(p, init) + [last])[..|Keep(p, init)|] == Keep(p, init);
      assert (Keep(q, init) + [last])[..|Keep(q, init)|] == Keep(q, init);
    }
  }

  /** Changing one entry changes a sum by exactly the difference. */
  lemma {:induction false} SumAfterUpdate<T>(f: T -> int, s: seq<T>, i: nat, x: T)
    requires i < |s|
    ensures SumBy(f, s[i := x]) == SumBy(f, s) - f(s[i]) + f(x)
  {
    var n := |s| - 1;
    if i < n {
      SumAfterUpdate(f, s[..n], i, x);
      assert s[i := x][..n] == s[..n][i := x];
    } else {
      assert s[i := x][..n] == s[..n];
    }
  }

  lemma Appended<T>(a: seq<T>, b: seq<T>, c: seq<T>)
    ensures a + (b + c) == a + b + c
  {
  }

  lemma {:induction false} KeepConcat<T>(p: T -> bool, a: seq<T>, b: seq<T>)
    ensures Keep(p, a + b) == Keep(p, a) + Keep(p, b)
    decreases |b|
  {
    if b == [] {
      assert a + b == a;
    } else {
      assert (a + b)[..|a + b| - 1] == a + b[..|b| - 1];
      KeepConcat(p, a, b[..|b| - 1]);
    }
  }

  lemma KeepOne<T>(p: T -> bool, x: T)
    ensures Keep(p, [x]) == if p(x) then [x] else []
  {
    assert [x][..0] == [];
  }

  lemma {:induction false} KeepSame<T>(p: T -> bool, q: T -> bool, s: seq<T>)
    requires forall x :: x in s ==> p(x) == q(x)
    ensures Keep(p, s) == Keep(q, s)
  {
    if s != [] {
      KeepSame(p, q, s[..|s| - 1]);
      assert s[|s| - 1] in s;
    }
  }

  lemma {:induction false} EveryConcat<T>(p: T -> bool, a: seq<T>, b: seq<T>)
    ensures Every(p, a + b) <==> Every(p, a) && Every(p, b)
    decreases |b|
  {
    if b == [] {
      assert a + b == a;
    } else {
      assert (a + b)[..|a + b| - 1] == a + b[..|b| - 1];
      EveryConcat(p, a, b[..|b| - 1]);
    }
  }

  lemma {:induction false} EveryKept<T>(p: T -> bool, q: T -> bool, s: seq<T>)
    requires Every(p, s)
    ensures Every(p, Keep(q, s))
  {
    if s != [] {
      var kept := Keep(q, s[..|s| - 1]);
      EveryKept(p, q, s[..|s| - 1]);
      assert (kept + [s[|s| - 1]])[..|kept|] == kept;
    }
  }

  lemma {:induction false} EveryMeans<T>(p: T -> bool, s: seq<T>)
    ensures Every(p, s) <==> forall i :: 0 <= i < |s| ==> p(s[i])
  {
    if s != [] {
      var n := |s| - 1;
      EveryMeans(p, s[..n]);
      assert forall i :: 0 <= i < n ==> s[..n][i] == s[i];
    }
  }

  lemma {:induction false} KeepNone<T>(p: T -> bool, q: T -> bool, s: seq<T>)
    requires Every(q, s) && forall x :: x in s && q(x) ==> !p(x)
    ensures Keep(p, s) == []
  {
    if s != [] {
      KeepNone(p, q, s[..|s| - 1]);
      assert s[|s| - 1] in s;
    }
  }

  /** Every kept element satisfies the predicate and comes from the sequence. */
  lemma {:induction false} KeepAll<T>(p: T -> bool, s: seq<T>)
    requires forall x :: x in s ==> p(x)
    ensures Keep(p, s) == s
  {
    if s != [] {
      KeepAll(p, s[..|s| - 1]);
      assert s[|s| - 1] in s;
      assert s == s[..|s| - 1] + [s[|s| - 1]];
    }
  }

  lemma {:induction false} KeepSound<T>(p: T -> bool, s: seq<T>)
    ensures forall x :: x in Keep(p, s) <==> x in s && p(x)
  {
    if s != [] {
      var init := s[..|s| - 1];
      KeepSound(p, init);
      forall x ensures x in Keep(p, s) <==> x in s && p(x) {
        assert x in s <==> x in init || x == s[|s| - 1];
      }
    }
  }

  lemma KeepHas<T>(p: T -> bool, s: seq<T>, x: T)
    ensures x in Keep(p, s) <==> x in s && p(x)
  {
    KeepSound(p, s);
  }

  /** What passes both filters is found behind them. */
  lemma KeptTwice<S, T>(p: S -> bool, f: S -> T, q: T -> bool, s: seq<S>, x: S)
    requires x in s && p(x) && q(f(x))
    ensures f(x) in Keep(q, Apply(f, Keep(p, s)))
  {
    KeepHas(p, s, x);
    ApplyMember(f, Keep(p, s), x);
    KeepHas(q, Apply(f, Keep(p, s)), f(x));
  }

  lemma ApplyMember<S, T>(f: S -> T, s: seq<S>, x: S)
    requires x in s
    ensures f(x) in Apply(f, s)
  {
    var k :| 0 <= k < |s| && s[k] == x;
    assert Apply(f, s)[k] == f(x);
  }

  lemma {:induction false} KeepIsSubsequence<T>(p: T -> bool, s: seq<T>)
    ensures Subsequence(Keep(p, s), s)
  {
    if s != [] {
      KeepIsSubsequence(p, s[..|s| - 1]);
      if p(s[|s| - 1]) {
        assert Keep(p, s)[..|Keep(p, s)| - 1] == Keep(p, s[..|s| - 1]);
      } else {
        assert Keep(p, s) == Keep(p, s[..|s| - 1]);
      }
    }
  }

  lemma {:induction false} SubsequenceMembers<T>(xs: seq<T>, ys: seq<T>)
    requires Subsequence(xs, ys)
    ensures forall x :: x in xs ==> x in ys
    decreases |ys|
  {
    if xs != [] {
      if xs[|xs| - 1] == ys[|ys| - 1] && Subsequence(xs[..|xs| - 1], ys[..|ys| - 1]) {
        SubsequenceMembers(xs[..|xs| - 1], ys[..|ys| - 1]);
        assert xs == xs[..|xs| - 1] + [xs[|xs| - 1]];
      } else {
        SubsequenceMembers(xs, ys[..|ys| - 1]);
      }
    }
  }

  lemma ApplySnoc<S, T>(f: S -> T, s: seq<S>, x: S)
    ensures Apply(f, s + [x]) == Apply(f, s) + [f(x)]
  {
    assert (s + [x])[..|s|] == s;
  }

  lemma {:induction false} KeepOfReadings<S, T>(read: S -> T, items: seq<S>, keepS: S -> bool, keepT: T -> bool)
    requires forall x :: x in items ==> keepT(read(x)) == keepS(x)
    ensures Keep(keepT, Apply(read, items)) == Apply(read, Keep(keepS, items))
  {
    if items != [] {
      var init, last := items[..|items| - 1], items[|items| - 1];
      KeepOfReadings(read, init, keepS, keepT);
      assert Apply(read, items)[..|items| - 1] == Apply(read, init);
      assert last in items;
      ApplySnoc(read, Keep(keepS, init), last);
    }
  }

  /** `w` is the end of `all`. */
  predicate EndsWith<T(==)>(all: seq<T>, w: seq<T>) {
    |w| <= |all| && all[|all| - |w|..] == w
  }

  /* ---- distinct entries ---- */

  /** What the entries of a list map to. */
  function Images<T, K(==)>(f: T -> K, s: seq<T>): set<K> {
    if s == [] then {} else Images(f, s[..|s| - 1]) + {f(s[|s| - 1])}
  }

  /** No two entries map to the same thing. */
  predicate Distinct<T, K(==)>(f: T -> K, s: seq<T>) {
    s == [] || (Distinct(f, s[..|s| - 1]) && f(s[|s| - 1]) !in Images(f, s[..|s| - 1]))
  }

  lemma {:induction false} ImagesAreThere<T, K>(f: T -> K, s: seq<T>)
    ensures forall x :: x in s ==> f(x) in Images(f, s)
    ensures forall k :: k in Images(f, s) ==> exists x :: x in s && f(x) == k
  {
    if s != [] {
      var init, last := s[..|s| - 1], s[|s| - 1];
      ImagesAreThere(f, init);
      assert s == init + [last];
      forall k | k in Images(f, s) ensures exists x :: x in s && f(x) == k {
        if k in Images(f, init) {
          var x :| x in init && f(x) == k;
          assert x in s;
        } else {
          assert last in s;
        }
      }
    }
  }

  lemma {:induction false} DistinctMeans<T, K>(f: T -> K, s: seq<T>)
    ensures Distinct(f, s) <==> forall i, j :: 0 <= i < j < |s| ==> f(s[i]) != f(s[j])
  {
    if s != [] {
      var n := |s| - 1;
      DistinctMeans(f, s[..n]);
      ImagesAreThere(f, s[..n]);
      assert forall i :: 0 <= i < n ==> s[..n][i] == s[i] && s[i] in s[..n];
      if forall i, j :: 0 <= i < j < |s| ==> f(s[i]) != f(s[j]) {
        assert forall x :: x in s[..n] ==> f(x) != f(s[n]);
      }
    }
  }

  /** Distinct entries cannot share what they map to. */
  lemma {:induction false} DistinctDecides<T, K>(f: T -> K, s: seq<T>, x: T, y: T)
    requires Distinct(f, s) && x in s && y in s && f(x) == f(y)
    ensures x == y
  {
    var init, last := s[..|s| - 1], s[|s| - 1];
    ImagesAreThere(f, init);
    assert s == init + [last];
    if x in init && y in init {
      DistinctDecides(f, init, x, y);
    }
  }

  lemma {:induction false} DistinctSubsequence<T, K>(f: T -> K, xs: seq<T>, ys: seq<T>)
    requires Subsequence(xs, ys) && Distinct(f, ys)
    ensures Distinct(f, xs) && Images(f, xs) <= Images(f, ys)
    decreases |ys|
  {
    if xs != [] {
      if xs[|xs| - 1] == ys[|ys| - 1] && Subsequence(xs[..|xs| - 1], ys[..|ys| - 1]) {
        DistinctSubsequence(f, xs[..|xs| - 1], ys[..|ys| - 1]);
      } else {
        DistinctSubsequence(f, xs, ys[..|ys| - 1]);
      }
    }
  }

  lemma {:induction false} DistinctPrefix<T, K>(f: T -> K, a: seq<T>, b: seq<T>)
    requires Distinct(f, a + b)
    ensures Distinct(f, a)
    decreases |b|
  {
    if b == [] {
      assert a + b == a;
    } else {
      assert (a + b)[..|a + b| - 1] == a + b[..|b| - 1];
      DistinctPrefix(f, a, b[..|b| - 1]);
    }
  }

  lemma {:induction false} NotOnBothSides<T, K>(f: T -> K, a: seq<T>, b: seq<T>, x: T)
    requires Distinct(f, a + b) && x in a
    ensures x !in b
    decreases |b|
  {
    if b != [] {
      var init := b[..|b| - 1];
      assert (a + b)[..|a + b| - 1] == a + init;
      NotOnBothSides(f, a, init, x);
      ImagesAreThere(f, a + init);
      assert x in a + init;
      assert b == init + [b[|b| - 1]];
    }
  }

  lemma {:induction false} DistinctOnce<T, K>(f: T -> K, s: seq<T>, x: T)
    requires Distinct(f, s)
    ensures multiset(s)[x] <= 1
  {
    if s != [] {
      var init, last := s[..|s| - 1], s[|s| - 1];
      DistinctOnce(f, init, x);
      ImagesAreThere(f, init);
      assert s == init + [last];
    }
  }

  /** Distinct entries that are shared out are each on one side. */
  lemma SplitOnce<T, K>(f: T -> K, ys: seq<T>, xs: seq<T>, zs: seq<T>, x: T)
    requires Interleaves(ys, xs, zs) && Distinct(f, ys) && x in ys
    ensures x in xs <==> x !in zs
  {
    InterleavesCounts(ys, xs, zs);
    DistinctOnce(f, ys, x);
    assert x in multiset(ys);
    assert x in multiset(xs) <==> x in xs;
    assert x in multiset(zs) <==> x in zs;
  }

  lemma {:induction false} ImagesOfReadings<S, T, K>(read: S -> T, items: seq<S>, idS: S -> K, idT: T -> K)
    requires forall x :: x in items ==> idT(read(x)) == idS(x)
    ensures Images(idT, Apply(read, items)) == Images(idS, items)
  {
    if items != [] {
      ImagesOfReadings(read, items[..|items| - 1], idS, idT);
      assert Apply(read, items)[..|items| - 1] == Apply(read, items[..|items| - 1]);
      assert items[|items| - 1] in items;
    }
  }

  /* ---- the other way round ---- */

  function Reverse<T>(s: seq<T>): (r: seq<T>)
    ensures |r| == |s|
  {
    if s == [] then [] else [s[|s| - 1]] + Reverse(s[..|s| - 1])
  }

  method Reversed<T>(s: seq<T>) returns (r: seq<T>)
    ensures r == Reverse(s)
  {
    r := [];
    for i := 0 to |s|
      invariant r == Reverse(s[..i])
    {
      assert s[..i + 1][..i] == s[..i];
      r := [s[i]] + r;
    }
    assert s[..|s|] == s;
  }

  lemma {:induction false} ReverseConcat<T>(a: seq<T>, b: seq<T>)
    ensures Reverse(a + b) == Reverse(b) + Reverse(a)
    decreases |b|
  {
    if b == [] {
      assert a + b == a;
      assert Reverse(b) + Reverse(a) == Reverse(a);
    } else {
      assert (a + b)[..|a + b| - 1] == a + b[..|b| - 1];
      ReverseConcat(a, b[..|b| - 1]);
      assert [b[|b| - 1]] + (Reverse(b[..|b| - 1]) + Reverse(a)) == [b[|b| - 1]] + Reverse(b[..|b| - 1]) + Reverse(a);
    }
  }

  lemma ReversePrepend<T>(x: T, s: seq<T>)
    ensures Reverse([x] + s) == Reverse(s) + [x]
  {
    ReverseConcat([x], s);
    assert [x][..0] == [];
    assert Reverse([x]) == [x];
  }

  lemma ApplyPrepend<S, T>(f: S -> T, x: S, s: seq<S>)
    ensures Apply(f, [x] + s) == [f(x)] + Apply(f, s)
  {
  }

  lemma KeepApplyPrepend<S, T>(p: T -> bool, f: S -> T, x: S, s: seq<S>)
    ensures Keep(p, Apply(f, [x] + s)) ==
            if p(f(x)) then [f(x)] + Keep(p, Apply(f, s)) else Keep(p, Apply(f, s))
  {
    ApplyPrepend(f, x, s);
    KeepConcat(p, [f(x)], Apply(f, s));
    assert [f(x)][..0] == [];
    if p(f(x)) {
      assert Keep(p, [f(x)]) == [f(x)];
    } else {
    }
  }

  lemma ReverseHas<T>(s: seq<T>, x: T)
    ensures x in Reverse(s) <==> x in s
  {
    ReverseMembers(s);
    assert x in multiset(Reverse(s)) <==> x in multiset(s);
  }

  lemma {:induction false} ReverseMembers<T>(s: seq<T>)
    ensures multiset(Reverse(s)) == multiset(s)
  {
    if s != [] {
      ReverseMembers(s[..|s| - 1]);
      assert s == s[..|s| - 1] + [s[|s| - 1]];
    }
  }

  lemma {:induction false} SumOfReverse<T>(f: T -> int, s: seq<T>)
    ensures SumBy(f, Reverse(s)) == SumBy(f, s)
  {
    if s != [] {
      SumOfReverse(f, s[..|s| - 1]);
      SumByConcat(f, [s[|s| - 1]], Reverse(s[..|s| - 1]));
      assert [s[|s| - 1]][..0] == [];
    }
  }

  lemma {:induction false} SubsequencePrepend<T>(x: T, xs: seq<T>, ys: seq<T>)
    requires Subsequence(xs, ys)
    ensures Subsequence([x] + xs, [x] + ys) && Subsequence(xs, [x] + ys)
    decreases |ys|
  {
    if ys == [] {
      assert ([x] + ys)[..0] == [] && ([x] + xs)[..0] == [];
    } else {
      var init := ys[..|ys| - 1];
      assert ([x] + ys)[..|ys|] == [x] + init;
      if xs == [] {
        SubsequencePrepend(x, xs, init);
      } else if xs[|xs| - 1] == ys[|ys| - 1] && Subsequence(xs[..|xs| - 1], init) {
        SubsequencePrepend(x, xs[..|xs| - 1], init);
        assert ([x] + xs)[..|xs|] == [x] + xs[..|xs| - 1];
      } else {
        SubsequencePrepend(x, xs, init);
      }
    }
  }

  lemma {:induction false} SubsequenceReversed<T>(xs: seq<T>, ys: seq<T>)
    requires Subsequence(xs, ys)
    ensures Subsequence(Reverse(xs), Reverse(ys))
    decreases |ys|
  {
    if xs != [] {
      var init, last := ys[..|ys| - 1], ys[|ys| - 1];
      if xs[|xs| - 1] == last && Subsequence(xs[..|xs| - 1], init) {
        SubsequenceReversed(xs[..|xs| - 1], init);
        SubsequencePrepend(last, Reverse(xs[..|xs| - 1]), Reverse(init));
      } else {
        SubsequenceReversed(xs, init);
        SubsequencePrepend(last, Reverse(xs), Reverse(init));
      }
    }
  }

  lemma {:induction false} ReverseTwice<T>(s: seq<T>)
    ensures Reverse(Reverse(s)) == s
  {
    if s != [] {
      var init, last := s[..|s| - 1], s[|s| - 1];
      ReverseTwice(init);
      ReverseConcat([last], Reverse(init));
      assert [last][..0] == [];
      assert Reverse([last]) == [last];
      assert s == init + [last];
    }
  }

  lemma {:induction false} SubsequenceChain<T>(xs: seq<T>, ys: seq<T>, zs: seq<T>)
    requires Subsequence(xs, ys) && Subsequence(ys, zs)
    ensures Subsequence(xs, zs)
    decreases |zs|
  {
    if xs != [] {
      var init := zs[..|zs| - 1];
      if ys[|ys| - 1] == zs[|zs| - 1] && Subsequence(ys[..|ys| - 1], init) {
        if xs[|xs| - 1] == ys[|ys| - 1] && Subsequence(xs[..|xs| - 1], ys[..|ys| - 1]) {
          SubsequenceChain(xs[..|xs| - 1], ys[..|ys| - 1], init);
        } else {
          SubsequenceChain(xs, ys[..|ys| - 1], init);
        }
      } else {
        SubsequenceChain(xs, ys, init);
      }
    }
  }

  lemma {:induction false} ReverseAt<T>(s: seq<T>)
    ensures forall i :: 0 <= i < |s| ==> Reverse(s)[i] == s[|s| - 1 - i]
  {
    if s != [] {
      ReverseAt(s[..|s| - 1]);
    }
  }
}
