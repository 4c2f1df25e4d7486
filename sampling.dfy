/**
 * The three uses of Python's `random` module, with the random draw made an
 * explicit input. A draw is an arbitrary natural number; each operation maps
 * it onto the set of outcomes the library function can return, and every
 * outcome is reached by some draw.
 */
module Sampling {

  /** `random.choice(xs)` for a non-empty list. */
  function Choice<T>(xs: seq<T>, draw: nat): T
    requires |xs| > 0
  {
    xs[draw % |xs|]
  }

  /** `random.randint(lo, hi)`: an integer in the closed range [lo, hi]. */
  function RandInt(lo: int, hi: int, draw: nat): (r: int)
    requires lo <= hi
    ensures lo <= r <= hi
  {
    lo + draw % (hi - lo + 1)
  }

  /** A choice is always an element of the list. */
  lemma ChoiceIn<T>(xs: seq<T>, draw: nat)
    requires |xs| > 0
    ensures Choice(xs, draw) in xs
  {
    assert xs[draw % |xs|] == Choice(xs, draw);
  }

  /** Every element of the list is the outcome of some draw. */
  lemma ChoiceCovers<T>(xs: seq<T>, k: nat)
    requires k < |xs|
    ensures Choice(xs, k) == xs[k]
  {
  }

  /** Every integer of the range is the outcome of some draw. */
  lemma RandIntCovers(lo: int, hi: int, v: int)
    requires lo <= v <= hi
    ensures RandInt(lo, hi, (v - lo) as nat) == v
  {
  }

  predicate Distinct<T(==)>(xs: seq<T>) {
    forall i, j :: 0 <= i < j < |xs| ==> xs[i] != xs[j]
  }

  /** The list without its j-th element. */
  function RemoveAt<T>(xs: seq<T>, j: nat): (r: seq<T>)
    requires j < |xs|
    ensures |r| == |xs| - 1
  {
    xs[..j] + xs[j + 1..]
  }

  /** Removing an element keeps the others and, in a list without repeats, drops that element. */
  lemma RemoveAtProperties<T>(xs: seq<T>, j: nat)
    requires j < |xs|
    ensures forall x :: x in RemoveAt(xs, j) ==> x in xs
    ensures Distinct(xs) ==> Distinct(RemoveAt(xs, j)) && xs[j] !in RemoveAt(xs, j)
  {
    var r := RemoveAt(xs, j);
    assert forall i :: 0 <= i < |r| ==> r[i] == if i < j then xs[i] else xs[i + 1];
  }

  /**
   * `random.sample(population, k)`: k elements drawn one after another
   * without replacement, one draw per element.
   */
  function Sample<T>(population: seq<T>, k: nat, draws: seq<nat>): (r: seq<T>)
    requires k <= |population| && k <= |draws|
    ensures |r| == k
    decreases k
  {
    if k == 0 then []
    else
      var j := draws[0] % |population|;
      [population[j]] + Sample(RemoveAt(population, j), k - 1, draws[1..])
  }

  /** A sample draws only from the population and, from a population without repeats, never repeats. */
  lemma {:induction false} SampleProperties<T>(population: seq<T>, k: nat, draws: seq<nat>)
    requires k <= |population| && k <= |draws|
    ensures forall x :: x in Sample(population, k, draws) ==> x in population
    ensures Distinct(population) ==> Distinct(Sample(population, k, draws))
    decreases k
  {
    if k > 0 {
      var j := draws[0] % |population|;
      var rest := RemoveAt(population, j);
      RemoveAtProperties(population, j);
      SampleProperties(rest, k - 1, draws[1..]);
      var r := Sample(population, k, draws);
      assert r == [population[j]] + Sample(rest, k - 1, draws[1..]);
    }
  }
}
