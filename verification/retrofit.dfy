/**
 * Retrofitting word vectors to a lexicon (retrofit.py, `retrofit`).
 *
 * The working table starts as a copy of the input table.  The active words
 * are those with a vector and a lexicon entry, fixed before the first
 * round.  In every round each active word with at least one neighbour that
 * has a vector is overwritten, in place, with the average of its original
 * vector (weight k, the neighbour count) and the current vectors of its
 * neighbours (weight 1 each).  Words later in a round see the values
 * written earlier in the same round, so the result depends on the order in
 * which the active words are visited; that order is the `order` parameter.
 */
module Retrofitting {
  import opened Vectors
  import Lexicon

  type Graph = Lexicon.Graph

  /** `loop_vocab`: words with both a vector and a lexicon entry. */
  function Active(v: Table, g: Graph): (r: set<string>)
    ensures forall w :: w in r <==> w in v && w in g
  {
    v.Keys * g.Keys
  }

  /** `word_neighbours`: the lexicon neighbours of `w` that have a vector in the input table. */
  function Neighbours(v: Table, g: Graph, w: string): (r: set<string>)
    requires w in g
    ensures forall u :: u in r <==> u in g[w] && u in v
  {
    g[w] * v.Keys
  }

  /** `w` is never overwritten: it has no lexicon entry, or none of its neighbours has a vector. */
  predicate Isolated(v: Table, g: Graph, w: string)
  {
    w !in g || Neighbours(v, g, w) == {}
  }

  /** `order` visits every word of `s` exactly once, as iterating the set does. */
  predicate IsEnumeration(order: seq<string>, s: set<string>)
  {
    && (forall i :: 0 <= i < |order| ==> order[i] in s)
    && (forall w :: w in s ==> w in order)
    && (forall i, j :: 0 <= i < j < |order| ==> order[i] != order[j])
  }

  predicate InActive(v: Table, g: Graph, ws: seq<string>)
  {
    forall i :: 0 <= i < |ws| ==> ws[i] in Active(v, g)
  }

  /** The working table has the input's keys, and every vector has the input's length. */
  predicate Conforms(v: Table, cur: Table, dim: nat)
  {
    Uniform(v, dim) && cur.Keys == v.Keys && Uniform(cur, dim)
  }

  /**
   * The new vector of an active word `w` with k >= 1 neighbours:
   * (k * v[w] + the sum of the current neighbour vectors) / (2 * k).
   * The data term comes from the input table, the neighbours from the
   * working table.
   */
  ghost function Averaged(v: Table, g: Graph, cur: Table, dim: nat, w: string): (r: Vector)
    requires Conforms(v, cur, dim) && w in Active(v, g) && Neighbours(v, g, w) != {}
    ensures |r| == dim
  {
    var k := |Neighbours(v, g, w)| as real;
    Div(Add(Scale(k, v[w]), SumOver(cur, Neighbours(v, g, w), dim)), 2.0 * k)
  }

  /** One pass of the inner loop body for word `w`. */
  ghost function Visit(v: Table, g: Graph, dim: nat, cur: Table, w: string): (r: Table)
    requires Conforms(v, cur, dim) && w in Active(v, g)
    ensures Conforms(v, r, dim)
  {
    if Neighbours(v, g, w) == {} then cur else cur[w := Averaged(v, g, cur, dim, w)]
  }

  /** The working table after visiting the words of `ws` in turn. */
  ghost function Sweep(v: Table, g: Graph, dim: nat, cur: Table, ws: seq<string>): (r: Table)
    requires Conforms(v, cur, dim) && InActive(v, g, ws)
    ensures Conforms(v, r, dim)
  {
    if ws == [] then cur
    else Visit(v, g, dim, Sweep(v, g, dim, cur, ws[..|ws| - 1]), ws[|ws| - 1])
  }

  /** The working table after `n` rounds, each visiting the words of `order`. */
  ghost function Iterate(v: Table, g: Graph, dim: nat, order: seq<string>, n: nat): (r: Table)
    requires Uniform(v, dim) && InActive(v, g, order)
    ensures Conforms(v, r, dim)
  {
    if n == 0 then v else Sweep(v, g, dim, Iterate(v, g, dim, order, n - 1), order)
  }

  /**
   * retrofit.py `retrofit`.  The input table is a value, so the working
   * table is an independent copy from the start and the input is never
   * changed.
   */
  method Retrofit(v: Table, g: Graph, iterations: nat, order: seq<string>, ghost dim: nat)
    returns (r: Table)
    requires Uniform(v, dim)
    requires IsEnumeration(order, Active(v, g))
    ensures r == Iterate(v, g, dim, order, iterations)
    ensures r.Keys == v.Keys && Uniform(r, dim)
    ensures iterations == 0 ==> r == v
    ensures forall w :: w in v && Isolated(v, g, w) ==> r[w] == v[w]
  {
    assert InActive(v, g, order);
    r := v;
    var round := 0;
    while round < iterations
      invariant 0 <= round <= iterations
      invariant r == Iterate(v, g, dim, order, round)
    {
      r := Round(v, g, order, r, dim);
      round := round + 1;
    }
    forall w | w in v && Isolated(v, g, w) ensures r[w] == v[w] {
      IteratePassThrough(v, g, dim, order, iterations, w);
    }
  }

  /** One round: `for word in loop_vocab`, updating the working table in place. */
  method Round(v: Table, g: Graph, order: seq<string>, cur: Table, ghost dim: nat)
    returns (r: Table)
    requires Conforms(v, cur, dim) && InActive(v, g, order)
    ensures r == Sweep(v, g, dim, cur, order)
  {
    r := cur;
    var j := 0;
    while j < |order|
      invariant 0 <= j <= |order|
      invariant Conforms(v, r, dim)
      invariant r == Sweep(v, g, dim, cur, order[..j])
    {
      r := UpdateWord(v, g, order[j], r, dim);
      SweepExtend(v, g, dim, cur, order, j);
      j := j + 1;
    }
    assert order[..j] == order;
  }

  /**
   * The body of `for word in loop_vocab`: a word with neighbours in the
   * vocabulary gets the average of its data term and their current vectors;
   * any other word is left as it is.
   */
  method UpdateWord(v: Table, g: Graph, w: string, cur: Table, ghost dim: nat)
    returns (r: Table)
    requires Conforms(v, cur, dim) && w in Active(v, g)
    ensures r == Visit(v, g, dim, cur, w)
  {
    r := cur;
    var neighbours := g[w] * v.Keys;
    if |neighbours| != 0 {
      var k := |neighbours| as real;
      var acc := WeightedSum(v[w], k, cur, neighbours, dim);
      assert neighbours == Neighbours(v, g, w);
      r := cur[w := Div(acc, 2.0 * k)];
    }
  }

  /**
   * The neighbour sum: start from the data vector scaled by the neighbour
   * count, then add the current vector of each neighbour, taking the
   * neighbours in whatever order the set yields them.
   */
  method WeightedSum(data: Vector, k: real, cur: Table, neighbours: set<string>, ghost dim: nat)
    returns (acc: Vector)
    requires |data| == dim && Uniform(cur, dim) && neighbours <= cur.Keys
    ensures acc == Add(Scale(k, data), SumOver(cur, neighbours, dim))
  {
    acc := Scale(k, data);
    AddZero(acc);
    var rest := neighbours;
    while rest != {}
      invariant rest <= neighbours
      invariant acc == Add(Scale(k, data), SumOver(cur, neighbours - rest, dim))
      decreases rest
    {
      var n :| n in rest;
      SumOverInsert(cur, neighbours - rest, n, dim);
      AddAssociative(Scale(k, data), SumOver(cur, neighbours - rest, dim), cur[n]);
      assert neighbours - (rest - {n}) == neighbours - rest + {n};
      acc := Add(acc, cur[n]);
      rest := rest - {n};
    }
    assert neighbours - rest == neighbours;
  }

  lemma SweepExtend(v: Table, g: Graph, dim: nat, cur: Table, ws: seq<string>, j: nat)
    requires Conforms(v, cur, dim) && InActive(v, g, ws) && j < |ws|
    ensures InActive(v, g, ws[..j]) && InActive(v, g, ws[..j + 1])
    ensures Sweep(v, g, dim, cur, ws[..j + 1]) == Visit(v, g, dim, Sweep(v, g, dim, cur, ws[..j]), ws[j])
  {
    assert InActive(v, g, ws[..j]) && InActive(v, g, ws[..j + 1]);
    assert ws[..j + 1][..j] == ws[..j];
  }

  /** A sweep leaves alone every word it does not visit and every isolated word. */
  lemma {:induction false} SweepLeaves(v: Table, g: Graph, dim: nat, cur: Table, ws: seq<string>, w: string)
    requires Conforms(v, cur, dim) && InActive(v, g, ws) && w in cur
    requires w !in ws || Isolated(v, g, w)
    ensures Sweep(v, g, dim, cur, ws)[w] == cur[w]
    decreases |ws|
  {
    if ws != [] {
      var front := ws[..|ws| - 1];
      assert InActive(v, g, front);
      assert w !in ws ==> w !in front;
      SweepLeaves(v, g, dim, cur, front, w);
    }
  }

  /**
   * A word with no lexicon entry, or whose neighbours have no vectors,
   * keeps its input vector however many rounds are run.
   */
  lemma {:induction false} IteratePassThrough(v: Table, g: Graph, dim: nat, order: seq<string>, n: nat, w: string)
    requires Uniform(v, dim) && InActive(v, g, order) && w in v && Isolated(v, g, w)
    ensures Iterate(v, g, dim, order, n)[w] == v[w]
  {
    if n > 0 {
      IteratePassThrough(v, g, dim, order, n - 1, w);
      SweepLeaves(v, g, dim, Iterate(v, g, dim, order, n - 1), order, w);
    }
  }

  /**
   * Gauss–Seidel: when the words of a round are distinct, the value a word
   * ends the round with is the average computed from the working table as
   * it stood when the word was reached, i.e. after the words before it.
   */
  lemma {:induction false} SweepValue(v: Table, g: Graph, dim: nat, cur: Table, ws: seq<string>, j: nat)
    requires Conforms(v, cur, dim) && InActive(v, g, ws)
    requires forall a, b :: 0 <= a < b < |ws| ==> ws[a] != ws[b]
    requires j < |ws| && Neighbours(v, g, ws[j]) != {}
    ensures InActive(v, g, ws[..j])
    ensures Sweep(v, g, dim, cur, ws)[ws[j]] == Averaged(v, g, Sweep(v, g, dim, cur, ws[..j]), dim, ws[j])
    decreases |ws|
  {
    assert InActive(v, g, ws[..j]);
    var m := |ws| - 1;
    var front := ws[..m];
    assert InActive(v, g, front);
    var before := Sweep(v, g, dim, cur, front);
    assert Sweep(v, g, dim, cur, ws) == Visit(v, g, dim, before, ws[m]);
    if j == m {
      assert front == ws[..j];
    } else {
      assert front[j] == ws[j] && front[..j] == ws[..j];
      SweepValue(v, g, dim, cur, front, j);
      VisitOther(v, g, dim, before, ws[m], ws[j]);
    }
  }

  lemma VisitOther(v: Table, g: Graph, dim: nat, cur: Table, w: string, u: string)
    requires Conforms(v, cur, dim) && w in Active(v, g) && u in cur && u != w
    ensures Visit(v, g, dim, cur, w)[u] == cur[u]
  {
  }

  /** With a single neighbour `u` the new vector is (v[w] + cur[u]) / 2. */
  lemma AveragedOneNeighbour(v: Table, g: Graph, cur: Table, dim: nat, w: string, u: string)
    requires Conforms(v, cur, dim) && w in Active(v, g) && Neighbours(v, g, w) == {u}
    ensures Averaged(v, g, cur, dim, w) == Div(Add(v[w], cur[u]), 2.0)
  {
    SumOverSingleton(cur, u, dim);
    assert |Neighbours(v, g, w)| == 1;
    assert Scale(1.0, v[w]) == v[w];
  }

  /** Coordinate `i` of every vector of `t` lies in `[lo, hi]`. */
  predicate CoordinateWithin(t: Table, i: nat, lo: real, hi: real)
  {
    forall w :: w in t ==> i < |t[w]| && lo <= t[w][i] <= hi
  }

  /** Coordinate form of the update: `(k * a + sum) / (2k)`. */
  function Mix(k: real, a: real, sum: real): real
    requires k > 0.0
  {
    (k * a + sum) / (2.0 * k)
  }

  lemma MixBounds(k: real, a: real, sum: real, lo: real, hi: real)
    requires k > 0.0 && lo <= a <= hi && k * lo <= sum <= k * hi
    ensures lo <= Mix(k, a, sum) <= hi
  {
    var x := k * a + sum;
    assert k * lo <= k * a <= k * hi;
    assert 2.0 * k * lo <= x <= 2.0 * k * hi;
  }

  lemma AverageBounds(n: nat, a: real, sum: real, lo: real, hi: real)
    requires n > 0 && lo <= a <= hi && Repeat(n, lo) <= sum <= Repeat(n, hi)
    ensures lo <= Mix(n as real, a, sum) <= hi
  {
    RepeatIsProduct(n, lo);
    RepeatIsProduct(n, hi);
    MixBounds(n as real, a, sum, lo, hi);
  }

  lemma AveragedAt(v: Table, g: Graph, cur: Table, dim: nat, w: string, i: nat)
    requires Conforms(v, cur, dim) && w in Active(v, g) && Neighbours(v, g, w) != {} && i < dim
    ensures var nb := Neighbours(v, g, w);
            Averaged(v, g, cur, dim, w)[i] == Mix(|nb| as real, v[w][i], SumOver(cur, nb, dim)[i])
  {
  }

  lemma NeighbourSumWithin(v: Table, g: Graph, cur: Table, dim: nat, w: string, i: nat, lo: real, hi: real)
    requires Conforms(v, cur, dim) && w in Active(v, g)
    requires i < dim && CoordinateWithin(cur, i, lo, hi)
    ensures var nb := Neighbours(v, g, w);
            Repeat(|nb|, lo) <= SumOver(cur, nb, dim)[i] <= Repeat(|nb|, hi)
  {
    SumOverBounds(cur, Neighbours(v, g, w), dim, i, lo, hi);
  }

  /** The new vector is a convex combination, so it stays inside the bounds of its inputs. */
  lemma AveragedWithin(v: Table, g: Graph, cur: Table, dim: nat, w: string, i: nat, lo: real, hi: real)
    requires Conforms(v, cur, dim) && w in Active(v, g) && Neighbours(v, g, w) != {}
    requires i < dim && CoordinateWithin(v, i, lo, hi) && CoordinateWithin(cur, i, lo, hi)
    ensures lo <= Averaged(v, g, cur, dim, w)[i] <= hi
  {
    NeighbourSumWithin(v, g, cur, dim, w, i, lo, hi);
    AveragedAt(v, g, cur, dim, w, i);
    var nb := Neighbours(v, g, w);
    AverageBounds(|nb|, v[w][i], SumOver(cur, nb, dim)[i], lo, hi);
  }

  lemma {:induction false} SweepWithin(v: Table, g: Graph, dim: nat, cur: Table, ws: seq<string>, i: nat, lo: real, hi: real)
    requires Conforms(v, cur, dim) && InActive(v, g, ws)
    requires i < dim && CoordinateWithin(v, i, lo, hi) && CoordinateWithin(cur, i, lo, hi)
    ensures CoordinateWithin(Sweep(v, g, dim, cur, ws), i, lo, hi)
    decreases |ws|
  {
    if ws != [] {
      var front := ws[..|ws| - 1];
      var w := ws[|ws| - 1];
      assert InActive(v, g, front);
      SweepWithin(v, g, dim, cur, front, i, lo, hi);
      var before := Sweep(v, g, dim, cur, front);
      if Neighbours(v, g, w) != {} {
        AveragedWithin(v, g, before, dim, w, i, lo, hi);
      }
    }
  }

  /**
   * Every coordinate of every output vector stays within the smallest and
   * largest value of that coordinate over the input vectors.
   */
  lemma {:induction false} IterateWithin(v: Table, g: Graph, dim: nat, order: seq<string>, n: nat, i: nat, lo: real, hi: real)
    requires Uniform(v, dim) && InActive(v, g, order)
    requires i < dim && CoordinateWithin(v, i, lo, hi)
    ensures CoordinateWithin(Iterate(v, g, dim, order, n), i, lo, hi)
  {
    if n > 0 {
      IterateWithin(v, g, dim, order, n - 1, i, lo, hi);
      SweepWithin(v, g, dim, Iterate(v, g, dim, order, n - 1), order, i, lo, hi);
    }
  }
}

/**
 * A three-word example: "pet" has a vector but no lexicon entry, "cat" has
 * one neighbour and "dog" two.  One round visiting cat then dog differs from
 * one round visiting dog then cat, so the result depends on the order.
 */
module RetrofittingExample {
  import opened Vectors
  import opened Retrofitting

  const Vecs: Table := map["cat" := [1.0, 0.0], "dog" := [0.0, 1.0], "pet" := [0.5, 0.5]]
  const Links: Graph := map["cat" := {"dog"}, "dog" := {"cat", "pet"}]

  lemma ExampleShape()
    ensures Uniform(Vecs, 2) && Active(Vecs, Links) == {"cat", "dog"}
    ensures Neighbours(Vecs, Links, "cat") == {"dog"}
    ensures Neighbours(Vecs, Links, "dog") == {"cat", "pet"}
    ensures IsEnumeration(["cat", "dog"], Active(Vecs, Links))
    ensures IsEnumeration(["dog", "cat"], Active(Vecs, Links))
  {
    assert Vecs.Keys == {"cat", "dog", "pet"};
  }

  /** Sum of the vectors of "cat" and "pet" in a table `t`. */
  lemma SumCatPet(t: Table)
    requires Conforms(Vecs, t, 2)
    ensures SumOver(t, {"cat", "pet"}, 2) == Add(t["cat"], t["pet"])
  {
    ExampleShape();
    SumOverRemove(t, {"cat", "pet"}, "cat", 2);
    assert {"cat", "pet"} - {"cat"} == {"pet"};
    SumOverSingleton(t, "pet", 2);
  }

  lemma CatAveraged(t: Table)
    requires Conforms(Vecs, t, 2)
    ensures "cat" in Active(Vecs, Links) && Neighbours(Vecs, Links, "cat") == {"dog"}
    ensures Averaged(Vecs, Links, t, 2, "cat") == Div(Add(Vecs["cat"], t["dog"]), 2.0)
  {
    ExampleShape();
    AveragedOneNeighbour(Vecs, Links, t, 2, "cat", "dog");
  }

  lemma DogAveraged(t: Table)
    requires Conforms(Vecs, t, 2)
    ensures "dog" in Active(Vecs, Links) && Neighbours(Vecs, Links, "dog") == {"cat", "pet"}
    ensures Averaged(Vecs, Links, t, 2, "dog") == Div(Add(Scale(2.0, Vecs["dog"]), Add(t["cat"], t["pet"])), 4.0)
  {
    ExampleShape();
    SumCatPet(t);
  }

  /** One visit of `w` as the first word of a round. */
  lemma SweepOne(t: Table, w: string)
    requires Conforms(Vecs, t, 2) && w in Active(Vecs, Links)
    ensures InActive(Vecs, Links, [w])
    ensures Sweep(Vecs, Links, 2, t, [w]) == Visit(Vecs, Links, 2, t, w)
  {
    assert [w][..0] == [];
  }

  /** A second visit, of `w2`, after `w1`. */
  lemma SweepTwo(t: Table, w1: string, w2: string)
    requires Conforms(Vecs, t, 2) && w1 in Active(Vecs, Links) && w2 in Active(Vecs, Links)
    ensures InActive(Vecs, Links, [w1]) && InActive(Vecs, Links, [w1, w2])
    ensures Sweep(Vecs, Links, 2, t, [w1, w2]) == Visit(Vecs, Links, 2, Sweep(Vecs, Links, 2, t, [w1]), w2)
  {
    assert [w1, w2][..1] == [w1];
  }

  lemma CatFirst()
    ensures Uniform(Vecs, 2) && InActive(Vecs, Links, ["cat"])
    ensures Sweep(Vecs, Links, 2, Vecs, ["cat"]) == Vecs["cat" := [0.5, 0.5]]
  {
    ExampleShape();
    SweepOne(Vecs, "cat");
    CatAveraged(Vecs);
    assert Div(Add([1.0, 0.0], [0.0, 1.0]), 2.0) == [0.5, 0.5];
  }

  lemma DogAfterCat()
    ensures Conforms(Vecs, Vecs["cat" := [0.5, 0.5]], 2) && "dog" in Active(Vecs, Links)
    ensures Visit(Vecs, Links, 2, Vecs["cat" := [0.5, 0.5]], "dog") ==
              Vecs["cat" := [0.5, 0.5]]["dog" := [0.25, 0.75]]
  {
    ExampleShape();
    var afterCat := Vecs["cat" := [0.5, 0.5]];
    DogAveraged(afterCat);
    assert Add(afterCat["cat"], afterCat["pet"]) == [1.0, 1.0];
    assert Div(Add(Scale(2.0, [0.0, 1.0]), [1.0, 1.0]), 4.0) == [0.25, 0.75];
  }

  lemma CatThenDog()
    ensures Uniform(Vecs, 2) && InActive(Vecs, Links, ["cat", "dog"])
    ensures Iterate(Vecs, Links, 2, ["cat", "dog"], 1) ==
              map["cat" := [0.5, 0.5], "dog" := [0.25, 0.75], "pet" := [0.5, 0.5]]
  {
    ExampleShape();
    CatFirst();
    SweepTwo(Vecs, "cat", "dog");
    DogAfterCat();
  }

  lemma DogFirst()
    ensures Uniform(Vecs, 2) && InActive(Vecs, Links, ["dog"])
    ensures Sweep(Vecs, Links, 2, Vecs, ["dog"]) == Vecs["dog" := [0.375, 0.625]]
  {
    ExampleShape();
    SweepOne(Vecs, "dog");
    DogAveraged(Vecs);
    assert Add(Vecs["cat"], Vecs["pet"]) == [1.5, 0.5];
    assert Div(Add(Scale(2.0, [0.0, 1.0]), [1.5, 0.5]), 4.0) == [0.375, 0.625];
  }

  lemma CatAfterDog()
    ensures Conforms(Vecs, Vecs["dog" := [0.375, 0.625]], 2) && "cat" in Active(Vecs, Links)
    ensures Visit(Vecs, Links, 2, Vecs["dog" := [0.375, 0.625]], "cat") ==
              Vecs["dog" := [0.375, 0.625]]["cat" := [0.6875, 0.3125]]
  {
    ExampleShape();
    var afterDog := Vecs["dog" := [0.375, 0.625]];
    CatAveraged(afterDog);
    assert Div(Add([1.0, 0.0], [0.375, 0.625]), 2.0) == [0.6875, 0.3125];
  }

  lemma DogThenCat()
    ensures Uniform(Vecs, 2) && InActive(Vecs, Links, ["dog", "cat"])
    ensures Iterate(Vecs, Links, 2, ["dog", "cat"], 1) ==
              map["cat" := [0.6875, 0.3125], "dog" := [0.375, 0.625], "pet" := [0.5, 0.5]]
  {
    ExampleShape();
    DogFirst();
    SweepTwo(Vecs, "dog", "cat");
    CatAfterDog();
  }

  /**
   * Two orders that each list the active words exactly once, so both are
   * possible iteration orders of the set, give "cat" different vectors.
   */
  lemma OrderMatters()
    ensures Uniform(Vecs, 2)
    ensures IsEnumeration(["cat", "dog"], Active(Vecs, Links)) && IsEnumeration(["dog", "cat"], Active(Vecs, Links))
    ensures InActive(Vecs, Links, ["cat", "dog"]) && InActive(Vecs, Links, ["dog", "cat"])
    ensures Iterate(Vecs, Links, 2, ["cat", "dog"], 1)["cat"] != Iterate(Vecs, Links, 2, ["dog", "cat"], 1)["cat"]
  {
    ExampleShape();
    CatThenDog();
    DogThenCat();
  }
}
