/** Generic list operations the scripts build on: mapping-and-flattening, the
    order-preserving de-duplication `list(dict.fromkeys(xs))`, and first
    occurrences. */
module Seqs {

  /** `[y for x in xs for y in f(x)]`. */
  function FlatMap<A, B>(xs: seq<A>, f: A -> seq<B>): seq<B>
  {
    if xs == [] then [] else FlatMap(xs[..|xs| - 1], f) + f(xs[|xs| - 1])
  }

  lemma FlatMapStep<A, B>(xs: seq<A>, i: nat, f: A -> seq<B>)
    requires i < |xs|
    ensures FlatMap(xs[..i + 1], f) == FlatMap(xs[..i], f) + f(xs[i])
  {
    assert xs[..i + 1][..i] == xs[..i];
  }

  lemma FlatMapSnoc<A, B>(xs: seq<A>, x: A, f: A -> seq<B>)
    ensures FlatMap(xs + [x], f) == FlatMap(xs, f) + f(x)
  {
    assert (xs + [x])[..|xs|] == xs;
  }

  lemma {:induction false} FlatMapConcat<A, B>(xs: seq<A>, ys: seq<A>, f: A -> seq<B>)
    ensures FlatMap(xs + ys, f) == FlatMap(xs, f) + FlatMap(ys, f)
  {
    if ys == [] {
      assert xs + ys == xs;
    } else {
      var init := ys[..|ys| - 1];
      assert (xs + ys)[..|xs + ys| - 1] == xs + init;
      FlatMapConcat(xs, init, f);
    }
  }

  /** An element is produced exactly when some input produces it. */
  lemma {:induction false} FlatMapMembers<A, B>(xs: seq<A>, f: A -> seq<B>, y: B)
    ensures y in FlatMap(xs, f) <==> exists k :: 0 <= k < |xs| && y in f(xs[k])
  {
    if xs != [] {
      var init := xs[..|xs| - 1];
      FlatMapMembers(init, f, y);
      if y in FlatMap(init, f) {
        var k :| 0 <= k < |init| && y in f(init[k]);
        assert xs[k] == init[k];
      }
      if exists k :: 0 <= k < |xs| && y in f(xs[k]) {
        var k :| 0 <= k < |xs| && y in f(xs[k]);
        if k < |init| {
          assert init[k] == xs[k];
        }
      }
    }
  }

  predicate NoDuplicates<T(==)>(xs: seq<T>)
  {
    forall i, j :: 0 <= i < j < |xs| ==> xs[i] != xs[j]
  }

  /** `list(dict.fromkeys(xs))`, equivalently appending each element only when it
      is not yet present: each element of `xs` once. */
  function Dedupe<T(==)>(xs: seq<T>): (r: seq<T>)
    ensures forall i :: 0 <= i < |r| ==> r[i] in xs
    ensures forall i :: 0 <= i < |xs| ==> xs[i] in r
    ensures NoDuplicates(r)
    ensures |r| <= |xs|
  {
    if xs == [] then []
    else
      var d := Dedupe(xs[..|xs| - 1]);
      assert xs == xs[..|xs| - 1] + [xs[|xs| - 1]];
      if xs[|xs| - 1] in d then d else d + [xs[|xs| - 1]]
  }

  lemma DedupeStep<T>(xs: seq<T>, x: T)
    ensures Dedupe(xs + [x]) == if x in Dedupe(xs) then Dedupe(xs) else Dedupe(xs) + [x]
  {
    assert (xs + [x])[..|xs|] == xs;
  }

  /** Appending at most one element to a de-duplicated list. */
  lemma DedupeAppendOne<T>(xs: seq<T>, extra: seq<T>)
    requires |extra| <= 1
    ensures Dedupe(xs + extra) == if extra == [] || extra[0] in Dedupe(xs) then Dedupe(xs) else Dedupe(xs) + extra
  {
    if extra == [] {
      assert xs + extra == xs;
    } else {
      assert extra == [extra[0]];
      DedupeStep(xs, extra[0]);
    }
  }

  /** The position of the first occurrence of `x` in `xs`. */
  function FirstIndex<T(==)>(xs: seq<T>, x: T): (k: nat)
    requires x in xs
    ensures k < |xs| && xs[k] == x && x !in xs[..k]
  {
    if xs[0] == x then 0 else 1 + FirstIndex(xs[1..], x)
  }

  lemma FirstIndexExtend<T>(xs: seq<T>, y: T, x: T)
    requires x in xs
    ensures FirstIndex(xs + [y], x) == FirstIndex(xs, x)
  {
    if xs[0] != x {
      assert (xs + [y])[1..] == xs[1..] + [y];
      FirstIndexExtend(xs[1..], y, x);
    }
  }

  /** `dict.fromkeys` keeps elements in the order of their first occurrence. */
  lemma {:induction false} DedupeOrder<T>(xs: seq<T>)
    ensures forall i, j :: 0 <= i < j < |Dedupe(xs)| ==>
      FirstIndex(xs, Dedupe(xs)[i]) < FirstIndex(xs, Dedupe(xs)[j])
  {
    if xs != [] {
      var init, x := xs[..|xs| - 1], xs[|xs| - 1];
      assert xs == init + [x];
      DedupeOrder(init);
      DedupeOrderSnoc(init, x);
    }
  }

  /** Appending one element keeps the de-duplicated list in first-occurrence order. */
  lemma DedupeOrderSnoc<T>(init: seq<T>, x: T)
    requires forall i, j :: 0 <= i < j < |Dedupe(init)| ==>
      FirstIndex(init, Dedupe(init)[i]) < FirstIndex(init, Dedupe(init)[j])
    ensures forall i, j :: 0 <= i < j < |Dedupe(init + [x])| ==>
      FirstIndex(init + [x], Dedupe(init + [x])[i]) < FirstIndex(init + [x], Dedupe(init + [x])[j])
  {
    var xs := init + [x];
    var d := Dedupe(init);
    var e := Dedupe(xs);
    DedupeStep(init, x);
    FirstIndicesKept(init, x, d);
    if x !in d {
      assert e == d + [x];
      assert FirstIndex(xs, x) == |init| by {
        assert x !in xs[..|init|] by {
          assert xs[..|init|] == init;
        }
      }
      forall i, j | 0 <= i < j < |e|
        ensures FirstIndex(xs, e[i]) < FirstIndex(xs, e[j])
      {
        assert e[i] == d[i];
        if j < |d| {
          assert e[j] == d[j];
        }
      }
    }
  }

  lemma FirstIndicesKept<T>(init: seq<T>, x: T, d: seq<T>)
    requires forall i :: 0 <= i < |d| ==> d[i] in init
    ensures forall i :: 0 <= i < |d| ==> FirstIndex(init + [x], d[i]) == FirstIndex(init, d[i])
  {
    forall i | 0 <= i < |d|
      ensures FirstIndex(init + [x], d[i]) == FirstIndex(init, d[i])
    {
      FirstIndexExtend(init, x, d[i]);
    }
  }

  /** De-duplicating a list that has no repeats returns it unchanged. */
  lemma {:induction false} DedupeOfDistinct<T>(xs: seq<T>)
    requires NoDuplicates(xs)
    ensures Dedupe(xs) == xs
  {
    if xs != [] {
      var init := xs[..|xs| - 1];
      DedupeOfDistinct(init);
      assert xs[|xs| - 1] !in init;
      assert xs == init + [xs[|xs| - 1]];
    }
  }

  lemma DedupeIdempotent<T>(xs: seq<T>)
    ensures Dedupe(Dedupe(xs)) == Dedupe(xs)
  {
    DedupeOfDistinct(Dedupe(xs));
  }
}
