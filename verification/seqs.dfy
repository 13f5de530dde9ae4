/** Sequence helpers shared by the crawl model: Python slicing with a
    cap, duplicate-free lists and "first occurrence" order. */
module Seqs {

  function Min(a: int, b: int): int {
    if a <= b then a else b
  }

  /** Python's `xs[:n]` for `n >= 0`. */
  function Take<T>(xs: seq<T>, n: nat): (r: seq<T>)
    ensures |r| == Min(n, |xs|)
    ensures r == xs[..|r|]
    ensures |xs| <= n ==> r == xs
  {
    if |xs| <= n then xs else xs[..n]
  }

  /** Python's `xs[-n:]` for `n > 0`: the last (at most) `n` elements. */
  function LastN<T>(xs: seq<T>, n: nat): (r: seq<T>)
    ensures |r| == Min(n, |xs|)
    ensures r == xs[|xs| - |r|..]
  {
    if |xs| <= n then xs else xs[|xs| - n..]
  }

  /** The set of elements of a sequence. */
  function Elems<T>(xs: seq<T>): set<T> {
    set x | x in xs
  }

  /** No element occurs twice. */
  predicate NoDup<T(==)>(xs: seq<T>) {
    forall i, j :: 0 <= i < j < |xs| ==> xs[i] != xs[j]
  }

  /** The first occurrences of the elements of `xs`, in order: what a
      loop that appends `x` only when `x not in result` builds. */
  function Distinct<T(==,!new)>(xs: seq<T>): (r: seq<T>)
    ensures NoDup(r)
    ensures forall x :: x in r <==> x in xs
    ensures |r| <= |xs|
  {
    if |xs| == 0 then []
    else
      var init := Distinct(xs[..|xs| - 1]);
      var last := xs[|xs| - 1];
      if last in init then init else init + [last]
  }

  /** The elements of `xs` that are not in `s`, in order. */
  function Without<T(==,!new)>(xs: seq<T>, s: set<T>): (r: seq<T>)
    ensures forall x :: x in r <==> x in xs && x !in s
    ensures |r| <= |xs|
  {
    if |xs| == 0 then []
    else
      var init := Without(xs[..|xs| - 1], s);
      var last := xs[|xs| - 1];
      if last in s then init else init + [last]
  }

  /** The concatenation of a list of lists, built from the back so that
      appending one more list is a single definitional step. */
  function Flatten<T>(xss: seq<seq<T>>): seq<T> {
    if |xss| == 0 then [] else Flatten(xss[..|xss| - 1]) + xss[|xss| - 1]
  }

  /** `a` is an initial segment of `b`. */
  predicate IsPrefix<T(==)>(a: seq<T>, b: seq<T>) {
    |a| <= |b| && b[..|a|] == a
  }

  /** Index of the first occurrence of `x` in `xs`. */
  function FirstIndex<T(==)>(xs: seq<T>, x: T): (i: nat)
    requires x in xs
    ensures i < |xs| && xs[i] == x
    ensures forall j :: 0 <= j < i ==> xs[j] != x
  {
    if xs[0] == x then 0 else 1 + FirstIndex(xs[1..], x)
  }

  /** A duplicate-free sequence has as many elements as its set. */
  lemma {:induction false} NoDupCard<T>(xs: seq<T>)
    requires NoDup(xs)
    ensures |Elems(xs)| == |xs|
  {
    if |xs| > 0 {
      var init := xs[..|xs| - 1];
      var last := xs[|xs| - 1];
      assert NoDup(init);
      NoDupCard(init);
      assert last !in Elems(init) by {
        forall i | 0 <= i < |init| ensures init[i] != last {
          assert xs[i] == init[i];
        }
      }
      assert Elems(xs) == Elems(init) + {last} by {
        assert xs == init + [last];
      }
    }
  }

  /** Extending a list never changes the first occurrences already seen:
      `Distinct(xs)` is an initial segment of `Distinct(xs + ys)`. */
  lemma {:induction false} DistinctPrefix<T(!new)>(xs: seq<T>, ys: seq<T>)
    ensures IsPrefix(Distinct(xs), Distinct(xs + ys))
    decreases |ys|
  {
    if |ys| == 0 {
      assert xs + ys == xs;
    } else {
      var zs := xs + ys[..|ys| - 1];
      DistinctPrefix(xs, ys[..|ys| - 1]);
      assert (xs + ys)[..|xs + ys| - 1] == zs;
      var a, b := Distinct(xs), Distinct(zs);
      var c := Distinct(xs + ys);
      assert c == b || c == b + [ys[|ys| - 1]];
      assert c[..|b|] == b;
      assert c[..|a|] == b[..|a|];
    }
  }

  /** `Distinct` keeps first occurrences in their original order. */
  lemma {:induction false} DistinctOrder<T(!new)>(xs: seq<T>, i: int, j: int)
    requires 0 <= i < j < |Distinct(xs)|
    ensures FirstIndex(xs, Distinct(xs)[i]) < FirstIndex(xs, Distinct(xs)[j])
    decreases |xs|
  {
    var init := xs[..|xs| - 1];
    var last := xs[|xs| - 1];
    assert xs == init + [last];
    var d := Distinct(init);
    var D := Distinct(xs);
    if j < |d| {
      assert D[i] == d[i] && D[j] == d[j];
      DistinctOrder(init, i, j);
      FirstIndexOfPrefix(init, last, d[i]);
      FirstIndexOfPrefix(init, last, d[j]);
    } else {
      assert D == d + [last] && last !in init;
      assert D[i] == d[i] && D[j] == last;
      FirstIndexOfPrefix(init, last, d[i]);
      LastFirstIndex(init, last);
    }
  }

  lemma FirstIndexOfPrefix<T>(init: seq<T>, last: T, x: T)
    requires x in init
    ensures FirstIndex(init + [last], x) == FirstIndex(init, x)
  {
    var xs := init + [last];
    var k := FirstIndex(init, x);
    assert xs[k] == x;
    assert forall j :: 0 <= j < k ==> xs[j] == init[j];
  }

  lemma LastFirstIndex<T>(init: seq<T>, last: T)
    requires last !in init
    ensures FirstIndex(init + [last], last) == |init|
  {
    var xs := init + [last];
    assert forall j :: 0 <= j < |init| ==> xs[j] == init[j];
  }

  lemma DropOfConcat<T>(x: seq<T>, y: seq<T>, k: nat)
    requires k <= |x|
    ensures (x + y)[k..] == x[k..] + y
  {
  }

  lemma ConsAssoc<T>(a: T, x: seq<T>, y: seq<T>)
    ensures [a] + (x + y) == ([a] + x) + y
  {
  }

  /** Filtering keeps the relative order of first occurrences. */
  lemma {:induction false} WithoutOrder<T(!new)>(xs: seq<T>, s: set<T>, x: T, y: T)
    requires x in Without(xs, s) && y in Without(xs, s)
    requires FirstIndex(Without(xs, s), x) < FirstIndex(Without(xs, s), y)
    ensures FirstIndex(xs, x) < FirstIndex(xs, y)
    decreases |xs|
  {
    var init := xs[..|xs| - 1];
    var last := xs[|xs| - 1];
    assert xs == init + [last];
    var w := Without(init, s);
    var W := Without(xs, s);
    var ix := FirstIndex(W, x);
    var iy := FirstIndex(W, y);
    if last in s || y in w {
      assert ix < |w| && W[ix] == w[ix];
      assert x in w;
      assert W == w || W == w + [last];
      FirstIndexOfPrefixOrSame(w, W, x);
      FirstIndexOfPrefixOrSame(w, W, y);
      WithoutOrder(init, s, x, y);
      FirstIndexOfPrefix(init, last, x);
      FirstIndexOfPrefix(init, last, y);
    } else {
      assert W == w + [last];
      assert y == last && y !in init;
      assert W[ix] == w[ix];
      assert x in init;
      FirstIndexOfPrefix(init, last, x);
      LastFirstIndex(init, last);
    }
  }

  lemma FirstIndexOfPrefixOrSame<T>(w: seq<T>, W: seq<T>, x: T)
    requires x in w
    requires W == w || (|W| == |w| + 1 && W[..|w|] == w)
    ensures FirstIndex(W, x) == FirstIndex(w, x)
  {
    if W != w {
      assert W == w + [W[|w|]];
      FirstIndexOfPrefix(w, W[|w|], x);
    }
  }

  /** A duplicate-free list is its own list of first occurrences. */
  lemma {:induction false} DistinctOfNoDup<T(!new)>(xs: seq<T>)
    requires NoDup(xs)
    ensures Distinct(xs) == xs
  {
    if |xs| > 0 {
      var init := xs[..|xs| - 1];
      assert NoDup(init);
      DistinctOfNoDup(init);
      assert xs[|xs| - 1] !in init by {
        forall i | 0 <= i < |init| ensures init[i] != xs[|xs| - 1] {
          assert init[i] == xs[i];
        }
      }
      assert xs == init + [xs[|xs| - 1]];
    }
  }

  /** Filtering out nothing that occurs changes nothing. */
  lemma {:induction false} WithoutDisjoint<T(!new)>(xs: seq<T>, s: set<T>)
    requires forall i :: 0 <= i < |xs| ==> xs[i] !in s
    ensures Without(xs, s) == xs
  {
    if |xs| > 0 {
      WithoutDisjoint(xs[..|xs| - 1], s);
      assert xs == xs[..|xs| - 1] + [xs[|xs| - 1]];
    }
  }

  /** Concatenation distributes over appending lists of lists. */
  lemma {:induction false} FlattenAppend<T>(a: seq<seq<T>>, b: seq<seq<T>>)
    ensures Flatten(a + b) == Flatten(a) + Flatten(b)
    decreases |b|
  {
    if |b| == 0 {
      assert a + b == a;
    } else {
      var init, last := b[..|b| - 1], b[|b| - 1];
      FlattenAppend(a, init);
      assert (a + b)[..|a + b| - 1] == a + init && (a + b)[|a + b| - 1] == last;
      assert Flatten(a + b) == Flatten(a) + Flatten(init) + last;
      Cat3(Flatten(a), Flatten(init), last);
    }
  }

  /** The concatenation of one list is that list. */
  lemma FlattenOne<T>(x: seq<T>)
    ensures Flatten([x]) == x
  {
    assert [x][..0] == [];
  }

  /** The concatenation of `[x] + xs` is `x` followed by that of `xs`. */
  lemma FlattenCons<T>(x: seq<T>, xs: seq<seq<T>>)
    ensures Flatten([x] + xs) == x + Flatten(xs)
  {
    FlattenAppend([x], xs);
    FlattenOne(x);
  }

  /** List `i` of a list of lists sits between the concatenations of the
      lists before it and the lists after it. */
  lemma FlattenAt<T>(xs: seq<seq<T>>, i: nat)
    requires i < |xs|
    ensures Flatten(xs) == Flatten(xs[..i]) + xs[i] + Flatten(xs[i + 1..])
  {
    var a, x, b := xs[..i], xs[i], xs[i + 1..];
    assert xs[i..] == [x] + b;
    assert xs == a + xs[i..];
    FlattenAppend(a, [x] + b);
    FlattenCons(x, b);
    Cat3(Flatten(a), x, Flatten(b));
  }

  lemma Cat3<T>(a: seq<T>, b: seq<T>, c: seq<T>)
    ensures a + (b + c) == a + b + c
  {
  }

  /** Behind a heading `h`, piece `i` of a flattened run sits between the
      pieces before and after it. */
  lemma FlattenAfter<T>(h: seq<T>, xs: seq<seq<T>>, i: nat)
    requires i < |xs|
    ensures h + Flatten(xs) == h + Flatten(xs[..i]) + xs[i] + Flatten(xs[i + 1..])
  {
    FlattenAt(xs, i);
    Cat4(h, Flatten(xs[..i]), xs[i], Flatten(xs[i + 1..]));
  }

  lemma Cat4<T>(h: seq<T>, a: seq<T>, x: seq<T>, b: seq<T>)
    ensures h + (a + x + b) == h + a + x + b
  {
  }

  /** A prefix `r` of a suffix `l` of `s` is the middle piece of `s`
      between them. */
  lemma PrefixOfSuffix<T>(s: seq<T>, l: seq<T>, r: seq<T>)
    requires |l| <= |s| && l == s[|s| - |l|..]
    requires |r| <= |l| && r == l[..|r|]
    ensures s[|s| - |l|..|s| - |l| + |r|] == r
    ensures s[|s| - |l| + |r|..] == l[|r|..]
  {
  }

  /** The first list of a non-empty list of lists starts its concatenation. */
  lemma {:induction false} FlattenHead<T>(xss: seq<seq<T>>)
    requires |xss| > 0
    ensures IsPrefix(xss[0], Flatten(xss))
  {
    var init := xss[..|xss| - 1];
    if |xss| > 1 {
      FlattenHead(init);
      assert init[0] == xss[0];
    } else {
      assert init == [];
    }
  }

  /** The first occurrences of two prefixes of one list agree wherever
      both are defined. */
  lemma DistinctPrefixesAgree<T(!new)>(xs: seq<T>, i: nat, j: nat, k: nat)
    requires i <= |xs| && j <= |xs|
    requires k < |Distinct(xs[..i])| && k < |Distinct(xs[..j])|
    ensures Distinct(xs[..i])[k] == Distinct(xs[..j])[k]
  {
    if i <= j {
      assert xs[..i] + xs[i..j] == xs[..j];
      DistinctPrefix(xs[..i], xs[i..j]);
    } else {
      assert xs[..j] + xs[j..i] == xs[..i];
      DistinctPrefix(xs[..j], xs[j..i]);
    }
  }
}
