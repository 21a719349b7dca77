/**
 * The list operations the scraper relies on: Python's `list.remove` (drop
 * the first occurrence), removing a whole list of values one after another,
 * and a reference filter that the removals are shown to agree with.
 */
module Lists {

  /** No value occurs twice. */
  predicate NoDuplicates<T(==)>(xs: seq<T>)
  {
    forall i, j :: 0 <= i < j < |xs| ==> xs[i] != xs[j]
  }

  /** In a list without duplicates, no value occurs before its own position. */
  lemma NotBefore<T>(xs: seq<T>, i: nat)
    requires NoDuplicates(xs) && i < |xs|
    ensures xs[i] !in xs[..i]
  {
  }

  lemma NotInSubMultiset<T>(x: T, a: seq<T>, b: seq<T>)
    requires multiset(a) <= multiset(b) && x !in b
    ensures x !in a
  {
    assert multiset(a)[x] <= multiset(b)[x] == 0;
  }

  lemma PrefixSnoc<T>(xs: seq<T>, n: nat)
    requires 0 < n <= |xs|
    ensures xs[..n] == xs[..n - 1] + [xs[n - 1]]
  {
  }

  /** The position of the first occurrence of `x`, as `list.index` gives it. */
  function IndexOf<T(==)>(xs: seq<T>, x: T): (i: nat)
    requires x in xs
    ensures i < |xs| && xs[i] == x && x !in xs[..i]
  {
    if xs[0] == x then 0
    else
      var j := IndexOf(xs[1..], x);
      assert xs[..j + 1] == [xs[0]] + xs[1..][..j];
      j + 1
  }

  /**
   * `list.remove(x)`: the list without the first occurrence of `x`. (Python
   * raises ValueError when `x` is absent; callers here never let that happen.)
   */
  function RemoveFirst<T(==)>(xs: seq<T>, x: T): (r: seq<T>)
    requires x in xs
    ensures r == xs[..IndexOf(xs, x)] + xs[IndexOf(xs, x) + 1..]
  {
    if xs[0] == x then xs[1..]
    else
      IndexOfStep(xs, x);
      [xs[0]] + RemoveFirst(xs[1..], x)
  }

  lemma IndexOfStep<T>(xs: seq<T>, x: T)
    requires x in xs && xs[0] != x
    ensures var j := IndexOf(xs[1..], x);
      && IndexOf(xs, x) == j + 1
      && xs[..j + 1] == [xs[0]] + xs[1..][..j]
      && xs[j + 2..] == xs[1..][j + 1..]
  {
  }

  /** `list.remove(x)` takes away one occurrence of `x` and nothing else. */
  lemma RemoveFirstMultiset<T>(xs: seq<T>, x: T)
    requires x in xs
    ensures multiset(xs) == multiset(RemoveFirst(xs, x)) + multiset{x}
  {
    var i := IndexOf(xs, x);
    assert xs == xs[..i] + [x] + xs[i + 1..];
  }

  lemma SubMultisetCancel<T>(a: multiset<T>, b: multiset<T>, x: T)
    requires multiset{x} + a <= b + multiset{x}
    ensures a <= b
  {
    forall y ensures a[y] <= b[y] {
      assert (multiset{x} + a)[y] <= (b + multiset{x})[y];
    }
  }

  /** Removes the values of `drop` one after another, each with `list.remove`. */
  function RemoveEach<T(==)>(xs: seq<T>, drop: seq<T>): (r: seq<T>)
    requires multiset(drop) <= multiset(xs)
    ensures multiset(xs) == multiset(r) + multiset(drop)
    decreases |drop|
  {
    if drop == [] then xs
    else
      assert drop == [drop[0]] + drop[1..];
      assert drop[0] in multiset(drop);
      RemoveFirstMultiset(xs, drop[0]);
      SubMultisetCancel(multiset(drop[1..]), multiset(RemoveFirst(xs, drop[0])), drop[0]);
      RemoveEach(RemoveFirst(xs, drop[0]), drop[1..])
  }

  /** Reference filter: the values of `xs` that are not in `d`, in their original order. */
  function FilterOut<T(==, !new)>(xs: seq<T>, d: set<T>): (r: seq<T>)
    ensures forall x :: x in r <==> x in xs && x !in d
    ensures |r| <= |xs|
  {
    if xs == [] then []
    else
      assert forall x :: x in xs <==> x == xs[0] || x in xs[1..];
      (if xs[0] in d then [] else [xs[0]]) + FilterOut(xs[1..], d)
  }

  lemma {:induction false} FilterOutNothing<T(!new)>(xs: seq<T>, d: set<T>)
    requires forall x :: x in xs ==> x !in d
    ensures FilterOut(xs, d) == xs
  {
    if xs != [] {
      FilterOutNothing(xs[1..], d);
      assert xs == [xs[0]] + xs[1..];
    }
  }

  lemma {:induction false} FilterOutTwice<T(!new)>(xs: seq<T>, a: set<T>, b: set<T>)
    ensures FilterOut(FilterOut(xs, a), b) == FilterOut(xs, a + b)
  {
    if xs != [] {
      FilterOutTwice(xs[1..], a, b);
      var head := if xs[0] in a then [] else [xs[0]];
      var rest := FilterOut(xs[1..], a);
      if xs[0] !in a {
        assert FilterOut(xs, a) == [xs[0]] + rest;
        assert (([xs[0]] + rest)[1..]) == rest;
      } else {
        assert FilterOut(xs, a) == rest;
      }
    }
  }

  lemma {:induction false} FilterOutNoDuplicates<T(!new)>(xs: seq<T>, d: set<T>)
    requires NoDuplicates(xs)
    ensures NoDuplicates(FilterOut(xs, d))
  {
    if xs != [] {
      assert NoDuplicates(xs[1..]);
      FilterOutNoDuplicates(xs[1..], d);
      var rest := FilterOut(xs[1..], d);
      if xs[0] !in d {
        assert xs[0] !in xs[1..];
        ConsNoDuplicates(xs[0], rest);
      }
    }
  }

  lemma ConsNoDuplicates<T>(x: T, xs: seq<T>)
    requires x !in xs && NoDuplicates(xs)
    ensures NoDuplicates([x] + xs)
  {
    var ys := [x] + xs;
    forall i, j | 0 <= i < j < |ys| ensures ys[i] != ys[j] {
      assert ys[j] == xs[j - 1];
      if i > 0 { assert ys[i] == xs[i - 1]; }
    }
  }

  /** On a list without duplicates, `list.remove(x)` drops exactly the value `x`. */
  lemma {:induction false} RemoveFirstIsFilter<T(!new)>(xs: seq<T>, x: T)
    requires NoDuplicates(xs) && x in xs
    ensures RemoveFirst(xs, x) == FilterOut(xs, {x})
  {
    assert NoDuplicates(xs[1..]);
    if xs[0] == x {
      assert x !in xs[1..];
      FilterOutNothing(xs[1..], {x});
    } else {
      RemoveFirstIsFilter(xs[1..], x);
    }
  }

  /** The set of values a list holds. */
  function Elements<T(!new)>(xs: seq<T>): (s: set<T>)
    ensures forall x :: x in s <==> x in xs
  {
    set x | x in xs
  }

  lemma ElementsCons<T(!new)>(x: T, xs: seq<T>)
    ensures Elements([x] + xs) == {x} + Elements(xs)
  {
  }

  /**
   * On a list without duplicates, removing the values of `drop` one after
   * another keeps exactly the other values, in their original order.
   */
  lemma {:induction false} RemoveEachIsFilter<T(!new)>(xs: seq<T>, drop: seq<T>)
    requires NoDuplicates(xs) && multiset(drop) <= multiset(xs)
    ensures RemoveEach(xs, drop) == FilterOut(xs, Elements(drop))
  {
    if drop == [] {
      assert Elements(drop) == {};
      FilterOutNothing(xs, {});
    } else {
      var d0, rest := drop[0], drop[1..];
      assert drop == [d0] + rest;
      assert d0 in multiset(drop);
      var ys := RemoveFirst(xs, d0);
      RemoveFirstMultiset(xs, d0);
      SubMultisetCancel(multiset(rest), multiset(ys), d0);
      assert RemoveEach(xs, drop) == RemoveEach(ys, rest);
      RemoveFirstIsFilter(xs, d0);
      FilterOutNoDuplicates(xs, {d0});
      RemoveEachIsFilter(ys, rest);
      FilterOutTwice(xs, {d0}, Elements(rest));
      ElementsCons(d0, rest);
    }
  }
}
