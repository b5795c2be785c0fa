/** The array methods the handlers use to rewrite their lists: `filter`,
    `map` that replaces matching elements, `[...new Set(xs)]`, `includes`, and
    `reduce` as a sum. */
module Lists {

  predicate NoDuplicates<T(==)>(xs: seq<T>)
  {
    forall i, j | 0 <= i < j < |xs| :: xs[i] != xs[j]
  }

  /** `xs.filter(p)`: exactly the elements satisfying p, each as often as in xs. */
  function Filter<T(!new)>(xs: seq<T>, p: T -> bool): (r: seq<T>)
    ensures |r| <= |xs|
    ensures forall x :: x in r <==> x in xs && p(x)
  {
    if xs == [] then []
    else
      assert xs == [xs[0]] + xs[1..];
      Head(xs[0], p) + Filter(xs[1..], p)
  }

  function Head<T>(x: T, p: T -> bool): (r: seq<T>)
  {
    if p(x) then [x] else []
  }

  /** Each element is kept exactly as often as it occurs, or not at all. */
  lemma {:induction false} FilterCount<T(!new)>(xs: seq<T>, p: T -> bool, x: T)
    ensures multiset(Filter(xs, p))[x] == if p(x) then multiset(xs)[x] else 0
  {
    if xs != [] {
      FilterCount(xs[1..], p, x);
      assert xs == [xs[0]] + xs[1..];
    }
  }

  /** Filtering keeps the relative order: it distributes over concatenation. */
  lemma {:induction false} FilterAppend<T(!new)>(xs: seq<T>, ys: seq<T>, p: T -> bool)
    ensures Filter(xs + ys, p) == Filter(xs, p) + Filter(ys, p)
  {
    if xs == [] {
      assert xs + ys == ys;
    } else {
      var zs := xs + ys;
      assert zs != [] && zs[0] == xs[0];
      calc {
        Filter(zs, p);
        Head(zs[0], p) + Filter(zs[1..], p);
        { assert (xs + ys)[1..] == xs[1..] + ys; }
        Head(xs[0], p) + Filter(xs[1..] + ys, p);
        { FilterAppend(xs[1..], ys, p); }
        Head(xs[0], p) + (Filter(xs[1..], p) + Filter(ys, p));
      }
    }
  }

  /** A predicate that holds of every element filters nothing out. */
  lemma {:induction false} FilterAll<T(!new)>(xs: seq<T>, p: T -> bool)
    requires forall x | x in xs :: p(x)
    ensures Filter(xs, p) == xs
  {
    if xs != [] {
      FilterAll(xs[1..], p);
      assert xs == [xs[0]] + xs[1..];
    }
  }

  /** A predicate that holds of no element filters everything out. */
  lemma {:induction false} FilterNone<T(!new)>(xs: seq<T>, p: T -> bool)
    requires forall x | x in xs :: !p(x)
    ensures Filter(xs, p) == []
  {
    if xs != [] {
      FilterNone(xs[1..], p);
    }
  }

  /** Filtering out the single element that fails the predicate. */
  lemma FilterDropsOne<T(!new)>(a: seq<T>, x: T, b: seq<T>, p: T -> bool)
    requires forall y | y in a :: p(y)
    requires forall y | y in b :: p(y)
    requires !p(x)
    ensures Filter(a + [x] + b, p) == a + b
  {
    FilterAll(a, p);
    FilterAll(b, p);
    FilterJoin(a, x, b, p);
  }

  lemma FilterJoin<T(!new)>(a: seq<T>, x: T, b: seq<T>, p: T -> bool)
    requires !p(x) && Filter(a, p) == a && Filter(b, p) == b
    ensures Filter(a + [x] + b, p) == a + b
  {
    assert Filter([x], p) == [] by {
      assert [x][1..] == [];
    }
    FilterAppend(a + [x], b, p);
    FilterAppend(a, [x], p);
    assert a + [] == a;
  }

  /** Filtering with a stronger predicate keeps fewer elements, in the same order. */
  lemma {:induction false} FilterNarrows<T(!new)>(xs: seq<T>, p: T -> bool, q: T -> bool)
    requires forall x | x in xs :: p(x) ==> q(x)
    ensures Filter(xs, p) == Filter(Filter(xs, q), p)
  {
    if xs != [] {
      FilterNarrows(xs[1..], p, q);
      var rest := Filter(xs[1..], q);
      assert Filter(xs, p) == Head(xs[0], p) + Filter(xs[1..], p);
      if q(xs[0]) {
        var ys := [xs[0]] + rest;
        assert Filter(xs, q) == ys;
        assert ys[0] == xs[0] && ys[1..] == rest;
        assert Filter(ys, p) == Head(xs[0], p) + Filter(rest, p);
      } else {
        assert !p(xs[0]) && Head(xs[0], p) == [];
        assert Filter(xs, q) == rest;
      }
    }
  }

  /** Filtering with two predicates that agree on every element gives the same list. */
  lemma {:induction false} FilterSame<T(!new)>(xs: seq<T>, p: T -> bool, q: T -> bool)
    requires forall x | x in xs :: p(x) == q(x)
    ensures Filter(xs, p) == Filter(xs, q)
  {
    if xs != [] {
      FilterSame(xs[1..], p, q);
    }
  }

  /** Filtering a list without duplicates leaves a list without duplicates. */
  lemma {:induction false} FilterNoDuplicates<T(!new)>(xs: seq<T>, p: T -> bool)
    requires NoDuplicates(xs)
    ensures NoDuplicates(Filter(xs, p))
  {
    if xs != [] {
      var rest := Filter(xs[1..], p);
      FilterNoDuplicates(xs[1..], p);
      assert xs[0] !in xs[1..] by {
        forall i | 0 <= i < |xs[1..]| ensures xs[1..][i] != xs[0] {
          assert xs[1..][i] == xs[i + 1];
        }
      }
      assert xs[0] !in rest;
      if p(xs[0]) {
        var r := [xs[0]] + rest;
        forall i, j | 0 <= i < j < |r| ensures r[i] != r[j] {
          if i == 0 {
            assert r[j] == rest[j - 1];
          } else {
            assert r[i] == rest[i - 1] && r[j] == rest[j - 1];
          }
        }
      }
    }
  }

  /** `[...new Set(xs)]`: the distinct elements, in order of first occurrence. */
  function Distinct<T(==,!new)>(xs: seq<T>): (r: seq<T>)
    ensures NoDuplicates(r)
    ensures forall x :: x in r <==> x in xs
    decreases |xs|
  {
    if xs == [] then []
    else
      var prefix := xs[..|xs| - 1];
      var seen := Distinct(prefix);
      assert xs == prefix + [xs[|xs| - 1]];
      if xs[|xs| - 1] in seen then seen else seen + [xs[|xs| - 1]]
  }

  /** Later elements never move an earlier one: the distinct elements of xs come
      first, in the same order, among those of any extension of xs. */
  lemma {:induction false} DistinctPrefix<T(!new)>(xs: seq<T>, ys: seq<T>)
    ensures |Distinct(xs)| <= |Distinct(xs + ys)|
    ensures Distinct(xs + ys)[..|Distinct(xs)|] == Distinct(xs)
    decreases |ys|
  {
    if ys == [] {
      assert xs + ys == xs;
    } else {
      var ys' := ys[..|ys| - 1];
      DistinctPrefix(xs, ys');
      assert (xs + ys)[..|xs + ys| - 1] == xs + ys';
    }
  }

  /** `xs.map(x => hit(x) ? f(x) : x)`. */
  function ReplaceWhere<T>(xs: seq<T>, hit: T -> bool, f: T -> T): (r: seq<T>)
    ensures |r| == |xs|
    ensures forall i | 0 <= i < |xs| :: r[i] == if hit(xs[i]) then f(xs[i]) else xs[i]
  {
    seq(|xs|, i requires 0 <= i < |xs| => if hit(xs[i]) then f(xs[i]) else xs[i])
  }

  /** `xs.map(f)`. */
  function Map<T, U>(xs: seq<T>, f: T -> U): (r: seq<U>)
    ensures |r| == |xs|
    ensures forall i | 0 <= i < |xs| :: r[i] == f(xs[i])
  {
    seq(|xs|, i requires 0 <= i < |xs| => f(xs[i]))
  }

  /** `xs.reduce((sum, x) => sum + f(x), 0)`. */
  function Sum<T>(xs: seq<T>, f: T -> real): real
  {
    if xs == [] then 0.0 else Sum(xs[..|xs| - 1], f) + f(xs[|xs| - 1])
  }

  lemma {:induction false} SumAppend<T>(xs: seq<T>, ys: seq<T>, f: T -> real)
    ensures Sum(xs + ys, f) == Sum(xs, f) + Sum(ys, f)
    decreases |ys|
  {
    if ys == [] {
      assert xs + ys == xs;
    } else {
      var ys' := ys[..|ys| - 1];
      assert (xs + ys)[..|xs + ys| - 1] == xs + ys';
      SumAppend(xs, ys', f);
    }
  }

  /** The sum of non-negative terms is non-negative. */
  lemma {:induction false} SumNonNegative<T>(xs: seq<T>, f: T -> real)
    requires forall x | x in xs :: f(x) >= 0.0
    ensures Sum(xs, f) >= 0.0
    decreases |xs|
  {
    if xs != [] {
      SumNonNegative(xs[..|xs| - 1], f);
    }
  }

  /** `x => p(x) ? f(x) : 0`. */
  function Mask<T>(p: T -> bool, f: T -> real): T -> real
  {
    x => if p(x) then f(x) else 0.0
  }

  /** Summing over the elements that pass a filter is summing `p(x) ? f(x) : 0`
      over all of them. */
  lemma {:induction false} SumFilter<T(!new)>(xs: seq<T>, p: T -> bool, f: T -> real)
    ensures Sum(Filter(xs, p), f) == Sum(xs, Mask(p, f))
    decreases |xs|
  {
    if xs != [] {
      var init, last := xs[..|xs| - 1], xs[|xs| - 1];
      assert xs == init + [last];
      FilterAppend(init, [last], p);
      SumFilter(init, p, f);
      SumAppend(Filter(init, p), Filter([last], p), f);
      assert [last][1..] == [];
      assert Filter([last], p) == Head(last, p);
      assert Sum(Head(last, p), f) == Mask(p, f)(last) by {
        assert [last][..0] == [];
      }
      calc {
        Sum(Filter(xs, p), f);
        Sum(Filter(init, p), f) + Sum(Filter([last], p), f);
        Sum(init, Mask(p, f)) + Mask(p, f)(last);
        Sum(xs, Mask(p, f));
      }
    }
  }
}
