/** Optional values, and sums, distinctness and permutations of sequences. */
module Sequences {
  datatype Option<+T> = None | Some(value: T)

  function Last<T>(xs: seq<T>): T
    requires xs != []
  {
    xs[|xs| - 1]
  }

  function Front<T>(xs: seq<T>): seq<T>
    requires xs != []
  {
    xs[..|xs| - 1]
  }

  function RemoveAt<T>(xs: seq<T>, i: nat): (r: seq<T>)
    requires i < |xs|
    ensures multiset(r) == multiset(xs) - multiset{xs[i]}
    ensures |r| == |xs| - 1
  {
    assert xs == xs[..i] + [xs[i]] + xs[i + 1..];
    xs[..i] + xs[i + 1..]
  }

  function Sum<T>(xs: seq<T>, f: T -> nat): nat {
    if xs == [] then 0 else f(xs[0]) + Sum(xs[1..], f)
  }

  lemma {:induction false} SumConcat<T>(xs: seq<T>, ys: seq<T>, f: T -> nat)
    ensures Sum(xs + ys, f) == Sum(xs, f) + Sum(ys, f)
  {
    if xs == [] {
      assert xs + ys == ys;
    } else {
      assert (xs + ys)[1..] == xs[1..] + ys;
      SumConcat(xs[1..], ys, f);
    }
  }

  lemma SumOne<T>(x: T, f: T -> nat)
    ensures Sum([x], f) == f(x)
  {
    assert [x][1..] == [];
  }

  lemma SumSnoc<T>(xs: seq<T>, x: T, f: T -> nat)
    ensures Sum(xs + [x], f) == Sum(xs, f) + f(x)
  {
    SumConcat(xs, [x], f);
    SumOne(x, f);
  }

  lemma SumSplit<T>(a: seq<T>, x: T, b: seq<T>, f: T -> nat)
    ensures Sum(a + [x] + b, f) == Sum(a + b, f) + f(x)
  {
    SumConcat(a + [x], b, f);
    SumSnoc(a, x, f);
    SumConcat(a, b, f);
  }

  lemma SumRemoveAt<T>(xs: seq<T>, i: nat, f: T -> nat)
    requires i < |xs|
    ensures Sum(xs, f) == Sum(RemoveAt(xs, i), f) + f(xs[i])
  {
    CutAt(xs, i);
    hide Sum, RemoveAt;
    SumSplit(xs[..i], xs[i], xs[i + 1..], f);
  }

  lemma CutAt<T>(xs: seq<T>, i: nat)
    requires i < |xs|
    ensures xs[..i] + [xs[i]] + xs[i + 1..] == xs && RemoveAt(xs, i) == xs[..i] + xs[i + 1..]
  {
    assert |RemoveAt(xs, i)| == |xs| - 1;
  }

  /** A sum depends only on which elements are added, not on their order. */
  lemma {:induction false} SumPermutation<T>(xs: seq<T>, ys: seq<T>, f: T -> nat)
    requires multiset(xs) == multiset(ys)
    ensures Sum(xs, f) == Sum(ys, f)
    decreases |xs|
  {
    if xs == [] {
      assert |ys| == |multiset(ys)| == |multiset(xs)|;
    } else {
      assert xs == [xs[0]] + xs[1..];
      assert xs[0] in multiset(ys);
      var i :| 0 <= i < |ys| && ys[i] == xs[0];
      SumRemoveAt(ys, i, f);
      SumPermutation(xs[1..], RemoveAt(ys, i), f);
    }
  }

  lemma {:induction false} SumSame<T>(xs: seq<T>, f: T -> nat, g: T -> nat)
    requires forall x :: x in xs ==> f(x) == g(x)
    ensures Sum(xs, f) == Sum(xs, g)
  {
    if xs != [] { SumSame(xs[1..], f, g); }
  }

  lemma {:induction false} SumAtMost<T>(xs: seq<T>, f: T -> nat, g: T -> nat)
    requires forall x :: x in xs ==> f(x) <= g(x)
    ensures Sum(xs, f) <= Sum(xs, g)
  {
    if xs != [] { SumAtMost(xs[1..], f, g); }
  }

  lemma SumMember<T>(xs: seq<T>, x: T, f: T -> nat)
    requires x in xs
    ensures f(x) <= Sum(xs, f)
  {
    var i :| 0 <= i < |xs| && xs[i] == x;
    SumRemoveAt(xs, i, f);
  }

  ghost predicate DistinctBy<T, K>(xs: seq<T>, f: T -> K) {
    forall i, j :: 0 <= i < j < |xs| ==> f(xs[i]) != f(xs[j])
  }

  lemma {:induction false} DistinctOnce<T, K>(xs: seq<T>, f: T -> K, x: T)
    requires DistinctBy(xs, f)
    ensures multiset(xs)[x] <= 1
  {
    if xs != [] {
      assert xs == [xs[0]] + xs[1..];
      DistinctOnce(xs[1..], f, x);
      forall j | 0 <= j < |xs[1..]|
        ensures xs[1..][j] != xs[0]
      {
        assert f(xs[0]) != f(xs[j + 1]);
      }
    }
  }

  /** Distinctness survives any sub-collection, in particular any reordering. */
  lemma DistinctSubset<T, K>(xs: seq<T>, ys: seq<T>, f: T -> K)
    requires DistinctBy(xs, f) && multiset(ys) <= multiset(xs)
    ensures DistinctBy(ys, f)
  {
    forall i, j | 0 <= i < j < |ys|
      ensures f(ys[i]) != f(ys[j])
    {
      assert ys[i] in multiset(ys) && ys[j] in multiset(ys);
      assert ys[i] in multiset(xs) && ys[j] in multiset(xs);
      assert ys[i] != ys[j] by {
        assert ys == ys[..i] + [ys[i]] + ys[i + 1..j] + [ys[j]] + ys[j + 1..];
        DistinctOnce(xs, f, ys[i]);
      }
      DistinctMember(xs, f, ys[i], ys[j]);
    }
  }

  /** In a collection without repeated keys the key identifies the element. */
  lemma DistinctMember<T, K>(xs: seq<T>, f: T -> K, x: T, y: T)
    requires DistinctBy(xs, f) && x in xs && y in xs
    ensures f(x) == f(y) ==> x == y
  {
    var i :| 0 <= i < |xs| && xs[i] == x;
    var j :| 0 <= j < |xs| && xs[j] == y;
    if i < j { assert f(xs[i]) != f(xs[j]); } else if j < i { assert f(xs[j]) != f(xs[i]); }
  }

  lemma DistinctAppend<T, K>(xs: seq<T>, ys: seq<T>, f: T -> K)
    requires DistinctBy(xs, f) && DistinctBy(ys, f)
    requires forall x, y :: x in xs && y in ys ==> f(x) != f(y)
    ensures DistinctBy(xs + ys, f)
  {
    forall i, j | 0 <= i < j < |xs + ys|
      ensures f((xs + ys)[i]) != f((xs + ys)[j])
    {
      if j < |xs| {
        assert f(xs[i]) != f(xs[j]);
      } else if i < |xs| {
        assert xs[i] in xs && ys[j - |xs|] in ys;
      } else {
        assert f(ys[i - |xs|]) != f(ys[j - |xs|]);
      }
    }
  }
}
