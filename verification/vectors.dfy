/**
 * Vectors of reals and the element-wise arithmetic that retrofitting does
 * with numpy arrays, plus the sum of the vectors of a set of words.
 * Exact reals stand in for double-precision floats.
 */
module Vectors {

  type Vector = seq<real>

  /** Word to vector. */
  type Table = map<string, Vector>

  /** Every vector of the table has `dim` coordinates. */
  predicate Uniform(t: Table, dim: nat)
  {
    forall w :: w in t ==> |t[w]| == dim
  }

  function Zero(dim: nat): Vector
  {
    seq(dim, i => 0.0)
  }

  /** `a + b` on numpy arrays of equal length. */
  function Add(a: Vector, b: Vector): Vector
    requires |a| == |b|
  {
    seq(|a|, i requires 0 <= i < |a| => a[i] + b[i])
  }

  /** `k * a` for a scalar `k`. */
  function Scale(k: real, a: Vector): Vector
  {
    seq(|a|, i requires 0 <= i < |a| => k * a[i])
  }

  /** `a / d` for a non-zero scalar `d`. */
  function Div(a: Vector, d: real): Vector
    requires d != 0.0
  {
    seq(|a|, i requires 0 <= i < |a| => a[i] / d)
  }

  lemma AddZero(a: Vector)
    ensures Add(a, Zero(|a|)) == a
  {
  }

  lemma AddAssociative(a: Vector, b: Vector, c: Vector)
    requires |a| == |b| == |c|
    ensures Add(Add(a, b), c) == Add(a, Add(b, c))
  {
  }

  lemma AddCommutative(a: Vector, b: Vector)
    requires |a| == |b|
    ensures Add(a, b) == Add(b, a)
  {
  }

  lemma AddLeftCommute(a: Vector, b: Vector, c: Vector)
    requires |a| == |b| == |c|
    ensures Add(a, Add(b, c)) == Add(b, Add(a, c))
  {
  }

  /** A fixed choice of an element of a non-empty set. */
  ghost function Pick(s: set<string>): (x: string)
    requires s != {}
    ensures x in s
  {
    var x :| x in s; x
  }

  /**
   * The sum of the vectors `t[w]` for `w` in `s`, as the neighbour loop of
   * retrofitting accumulates it; over the reals the order of the summands
   * does not matter, see SumOverRemove.
   */
  ghost function SumOver(t: Table, s: set<string>, dim: nat): (r: Vector)
    requires s <= t.Keys && Uniform(t, dim)
    ensures |r| == dim
    decreases s
  {
    if s == {} then Zero(dim)
    else
      var x := Pick(s);
      Add(t[x], SumOver(t, s - {x}, dim))
  }

  /** Any element may be taken out of the sum first. */
  lemma {:induction false} SumOverRemove(t: Table, s: set<string>, x: string, dim: nat)
    requires s <= t.Keys && Uniform(t, dim) && x in s
    ensures SumOver(t, s, dim) == Add(t[x], SumOver(t, s - {x}, dim))
    decreases s
  {
    var y := Pick(s);
    if y != x {
      SumOverRemove(t, s - {y}, x, dim);
      SumOverRemove(t, s - {x}, y, dim);
      assert s - {y} - {x} == s - {x} - {y};
      AddLeftCommute(t[y], t[x], SumOver(t, s - {x} - {y}, dim));
    }
  }

  /** Adding one more word to the summed set adds its vector. */
  lemma SumOverInsert(t: Table, s: set<string>, x: string, dim: nat)
    requires s <= t.Keys && Uniform(t, dim) && x in t && x !in s
    ensures SumOver(t, s + {x}, dim) == Add(SumOver(t, s, dim), t[x])
  {
    SumOverRemove(t, s + {x}, x, dim);
    assert s + {x} - {x} == s;
    AddCommutative(t[x], SumOver(t, s, dim));
  }

  lemma SumOverSingleton(t: Table, x: string, dim: nat)
    requires x in t && Uniform(t, dim)
    ensures SumOver(t, {x}, dim) == t[x]
  {
    SumOverRemove(t, {x}, x, dim);
    assert {x} - {x} == {};
    AddZero(t[x]);
  }

  /** `n * x`, written as `n` additions of `x` so that bounds on sums stay linear. */
  function Repeat(n: nat, x: real): (r: real)
  {
    if n == 0 then 0.0 else Repeat(n - 1, x) + x
  }

  lemma {:induction false} RepeatIsProduct(n: nat, x: real)
    ensures Repeat(n, x) == n as real * x
  {
    if n > 0 {
      RepeatIsProduct(n - 1, x);
    }
  }

  /**
   * If coordinate `i` of every summed vector lies in `[lo, hi]`, the sum's
   * coordinate lies in `[|s| * lo, |s| * hi]`.
   */
  lemma {:induction false} SumOverBounds(t: Table, s: set<string>, dim: nat, i: nat, lo: real, hi: real)
    requires s <= t.Keys && Uniform(t, dim) && i < dim
    requires forall w :: w in s ==> lo <= t[w][i] <= hi
    ensures Repeat(|s|, lo) <= SumOver(t, s, dim)[i] <= Repeat(|s|, hi)
    decreases s
  {
    if s != {} {
      var x := Pick(s);
      SumOverBounds(t, s - {x}, dim, i, lo, hi);
      SumOverBoundsStep(t, s, x, dim, i, lo, hi);
    }
  }

  lemma SumOverBoundsStep(t: Table, s: set<string>, x: string, dim: nat, i: nat, lo: real, hi: real)
    requires s <= t.Keys && Uniform(t, dim) && i < dim && s != {} && x == Pick(s)
    requires lo <= t[x][i] <= hi
    requires Repeat(|s - {x}|, lo) <= SumOver(t, s - {x}, dim)[i] <= Repeat(|s - {x}|, hi)
    ensures Repeat(|s|, lo) <= SumOver(t, s, dim)[i] <= Repeat(|s|, hi)
  {
    assert |s| == |s - {x}| + 1;
  }
}
