/** Sequence helpers: nested iteration (`FlatMap`) and first-occurrence de-duplication (`Distinct`),
    with the facts about order and multiplicity the serializers rely on. */
module Seqs {

  /** The concatenation of `f(x)` over `xs`, in order: what a nested `for ... yield` loop produces. */
  function FlatMap<A, B>(xs: seq<A>, f: A -> seq<B>): seq<B>
    decreases |xs|
  {
    if |xs| == 0 then [] else f(xs[0]) + FlatMap(xs[1..], f)
  }

  lemma {:induction false} FlatMapAppend<A, B>(xs: seq<A>, ys: seq<A>, f: A -> seq<B>)
    ensures FlatMap(xs + ys, f) == FlatMap(xs, f) + FlatMap(ys, f)
    decreases |xs|
  {
    if |xs| == 0 {
      assert xs + ys == ys;
    } else {
      assert (xs + ys)[1..] == xs[1..] + ys;
      FlatMapAppend(xs[1..], ys, f);
    }
  }

  lemma AppendAssociative<B>(x: seq<B>, y: seq<B>, z: seq<B>)
    ensures x + (y + z) == x + y + z
  {
  }

  lemma FlatMapSingle<A, B>(x: A, f: A -> seq<B>)
    ensures FlatMap([x], f) == f(x)
  {
    assert FlatMap([x], f) == f(x) + FlatMap([x][1..], f);
    assert [x][1..] == [];
  }

  lemma FlatMapAround<A, B>(xs: seq<A>, a: seq<A>, x: A, b: seq<A>, f: A -> seq<B>)
    requires xs == a + [x] + b
    ensures FlatMap(xs, f) == FlatMap(a, f) + f(x) + FlatMap(b, f)
  {
    FlatMapAppend(a + [x], b, f);
    FlatMapAppend(a, [x], f);
    FlatMapSingle(x, f);
  }

  /** Whatever earlier items produce precedes `f(xs[i])`, which precedes whatever later items produce. */
  lemma FlatMapSplit<A, B>(xs: seq<A>, i: nat, f: A -> seq<B>)
    requires i < |xs|
    ensures FlatMap(xs, f) == FlatMap(xs[..i], f) + f(xs[i]) + FlatMap(xs[i + 1..], f)
  {
    SplitAt(xs, i);
    FlatMapAround(xs, xs[..i], xs[i], xs[i + 1..], f);
  }

  lemma SplitAt<A>(xs: seq<A>, i: nat)
    requires i < |xs|
    ensures xs == xs[..i] + [xs[i]] + xs[i + 1..]
  {
  }

  /** Flattening sees only each item's output. */
  lemma {:induction false} FlatMapCongruent<A, B>(xs: seq<A>, ys: seq<A>, f: A -> seq<B>)
    requires |xs| == |ys| && forall i :: 0 <= i < |xs| ==> f(xs[i]) == f(ys[i])
    ensures FlatMap(xs, f) == FlatMap(ys, f)
    decreases |xs|
  {
    if |xs| > 0 {
      assert f(xs[0]) == f(ys[0]);
      forall i | 0 <= i < |xs| - 1 ensures f(xs[1..][i]) == f(ys[1..][i]) {
        assert xs[1..][i] == xs[i + 1] && ys[1..][i] == ys[i + 1];
      }
      FlatMapCongruent(xs[1..], ys[1..], f);
    }
  }

  /** An element of the flattening comes from some item, and every item's output is in it. */
  lemma {:induction false} FlatMapMember<A, B>(xs: seq<A>, f: A -> seq<B>, y: B)
    ensures y in FlatMap(xs, f) <==> exists i :: 0 <= i < |xs| && y in f(xs[i])
    decreases |xs|
  {
    if |xs| > 0 {
      FlatMapMember(xs[1..], f, y);
      if y in FlatMap(xs[1..], f) {
        var i :| 0 <= i < |xs[1..]| && y in f(xs[1..][i]);
        assert y in f(xs[i + 1]);
      }
      if exists i :: 0 <= i < |xs| && y in f(xs[i]) {
        var i :| 0 <= i < |xs| && y in f(xs[i]);
        if i > 0 {
          assert y in f(xs[1..][i - 1]);
        }
      }
    }
  }

  /** An item's output is part of the flattening. */
  lemma FlatMapContains<A, B>(xs: seq<A>, f: A -> seq<B>, x: A, y: B)
    requires x in xs && y in f(x)
    ensures y in FlatMap(xs, f)
  {
    var i :| 0 <= i < |xs| && xs[i] == x;
    FlatMapMember(xs, f, y);
  }

  /** Flattening a permutation yields a permutation: the output's multiset ignores the input's order. */
  lemma {:induction false} FlatMapPermutation<A, B>(xs: seq<A>, ys: seq<A>, f: A -> seq<B>)
    requires multiset(xs) == multiset(ys)
    ensures multiset(FlatMap(xs, f)) == multiset(FlatMap(ys, f))
    decreases |xs|
  {
    if |xs| == 0 {
      assert |ys| == |multiset(ys)| == 0;
    } else {
      assert xs[0] in multiset(ys);
      var k :| 0 <= k < |ys| && ys[k] == xs[0];
      var a, b := ys[..k], ys[k + 1..];
      RemoveMatching(xs, ys, k);
      FlatMapPermutation(xs[1..], a + b, f);
      FlatMapAppend(a, b, f);
      FlatMapSplit(ys, k, f);
      assert FlatMap(xs, f) == f(xs[0]) + FlatMap(xs[1..], f);
      assert multiset(FlatMap(ys, f)) == multiset(FlatMap(a, f)) + multiset(f(xs[0])) + multiset(FlatMap(b, f));
    }
  }

  /** Taking the first element of `xs` out of a permutation `ys` of it leaves a permutation of the rest. */
  lemma RemoveMatching<A>(xs: seq<A>, ys: seq<A>, k: nat)
    requires multiset(xs) == multiset(ys) && |xs| > 0 && k < |ys| && ys[k] == xs[0]
    ensures multiset(ys[..k] + ys[k + 1..]) == multiset(xs[1..])
  {
    var x, rest := xs[0], ys[..k] + ys[k + 1..];
    assert ys == ys[..k] + [x] + ys[k + 1..];
    assert xs == [x] + xs[1..];
    assert multiset(ys) == multiset(rest) + multiset{x};
    assert multiset(xs) == multiset{x} + multiset(xs[1..]);
    assert multiset(rest) == multiset(ys) - multiset{x} == multiset(xs[1..]);
  }

  /** Flattening the flattening equals flattening once over the composed expansion. */
  lemma {:induction false} FlatMapAssoc<A, B, C>(xs: seq<A>, f: A -> seq<B>, g: B -> seq<C>, h: A -> seq<C>)
    requires forall x :: h(x) == FlatMap(f(x), g)
    ensures FlatMap(FlatMap(xs, f), g) == FlatMap(xs, h)
    decreases |xs|
  {
    if |xs| > 0 {
      FlatMapAppend(f(xs[0]), FlatMap(xs[1..], f), g);
      FlatMapAssoc(xs[1..], f, g, h);
    }
  }

  predicate NoDup<T(==)>(xs: seq<T>) {
    forall i, j :: 0 <= i < j < |xs| ==> xs[i] != xs[j]
  }

  /** `acc` followed by the elements of `xs` not seen before, each at its first occurrence. */
  function AddNew<T(==)>(acc: seq<T>, xs: seq<T>): seq<T>
    decreases |xs|
  {
    if |xs| == 0 then acc
    else AddNew(if xs[0] in acc then acc else acc + [xs[0]], xs[1..])
  }

  /** The elements of `xs` without repeats, each where it first occurs. */
  function Distinct<T(==)>(xs: seq<T>): seq<T> {
    AddNew([], xs)
  }

  lemma {:induction false} AddNewSpec<T>(acc: seq<T>, xs: seq<T>)
    requires NoDup(acc)
    ensures NoDup(AddNew(acc, xs))
    ensures forall x :: x in AddNew(acc, xs) <==> x in acc || x in xs
    ensures |acc| <= |AddNew(acc, xs)| && AddNew(acc, xs)[..|acc|] == acc
    decreases |xs|
  {
    if |xs| > 0 {
      var acc' := if xs[0] in acc then acc else acc + [xs[0]];
      AddNewSpec(acc', xs[1..]);
      assert forall x :: x in xs <==> x == xs[0] || x in xs[1..] by {
        assert xs == [xs[0]] + xs[1..];
      }
      assert AddNew(acc, xs)[..|acc'|][..|acc|] == acc;
    }
  }

  /** Running `AddNew` twice is running it once over the concatenation. */
  lemma {:induction false} AddNewConcat<T>(acc: seq<T>, xs: seq<T>, ys: seq<T>)
    ensures AddNew(AddNew(acc, xs), ys) == AddNew(acc, xs + ys)
    decreases |xs|
  {
    if |xs| == 0 {
      assert xs + ys == ys;
    } else {
      assert (xs + ys)[0] == xs[0];
      assert (xs + ys)[1..] == xs[1..] + ys;
      AddNewConcat(if xs[0] in acc then acc else acc + [xs[0]], xs[1..], ys);
    }
  }

  /** A duplicate-free sequence gains nothing from `AddNew` over itself. */
  lemma {:induction false} AddNewNoDup<T>(xs: seq<T>)
    requires NoDup(xs)
    ensures Distinct(xs) == xs
  {
    AddNewPrefix([], xs);
  }

  lemma {:induction false} AddNewPrefix<T>(acc: seq<T>, xs: seq<T>)
    requires NoDup(acc + xs)
    ensures AddNew(acc, xs) == acc + xs
    decreases |xs|
  {
    if |xs| > 0 {
      forall i | 0 <= i < |acc| ensures acc[i] != xs[0] {
        assert (acc + xs)[i] == acc[i] && (acc + xs)[|acc|] == xs[0];
      }
      assert acc + xs == (acc + [xs[0]]) + xs[1..];
      AddNewPrefix(acc + [xs[0]], xs[1..]);
    }
  }

  predicate SameElements<T(==)>(a: seq<T>, b: seq<T>) {
    (forall i :: 0 <= i < |a| ==> a[i] in b) && (forall j :: 0 <= j < |b| ==> b[j] in a)
  }

  /** In a duplicate-free sequence every element occurs exactly once. */
  lemma {:induction false} NoDupCount<T>(a: seq<T>)
    requires NoDup(a)
    ensures forall x :: multiset(a)[x] == if x in a then 1 else 0
    decreases |a|
  {
    if |a| > 0 {
      assert a == [a[0]] + a[1..];
      assert NoDup(a[1..]) by {
        forall i, j | 0 <= i < j < |a[1..]| ensures a[1..][i] != a[1..][j] {
          assert a[1..][i] == a[i + 1] && a[1..][j] == a[j + 1];
        }
      }
      NoDupCount(a[1..]);
      forall i | 0 <= i < |a[1..]| ensures a[1..][i] != a[0] {
        assert a[1..][i] == a[i + 1];
      }
    }
  }

  /** Two duplicate-free sequences with the same elements are permutations of each other. */
  lemma NoDupSameElements<T>(a: seq<T>, b: seq<T>)
    requires NoDup(a) && NoDup(b)
    requires SameElements(a, b)
    ensures multiset(a) == multiset(b)
  {
    NoDupCount(a);
    NoDupCount(b);
    forall x ensures multiset(a)[x] == multiset(b)[x] {
      if x in a {
        var i :| 0 <= i < |a| && a[i] == x;
        assert a[i] in b;
      }
      if x in b {
        var j :| 0 <= j < |b| && b[j] == x;
        assert b[j] in a;
      }
    }
  }

  /** `Distinct` of two permutations are permutations of each other. */
  lemma DistinctPermutation<T>(xs: seq<T>, ys: seq<T>)
    requires multiset(xs) == multiset(ys)
    ensures multiset(Distinct(xs)) == multiset(Distinct(ys))
  {
    AddNewSpec([], xs);
    AddNewSpec([], ys);
    assert SameElements(Distinct(xs), Distinct(ys)) by {
      forall x ensures x in Distinct(xs) <==> x in Distinct(ys) {
      assert x in xs <==> x in multiset(xs);
        assert x in ys <==> x in multiset(ys);
      }
    }
    NoDupSameElements(Distinct(xs), Distinct(ys));
  }
}
