/**
 * Python's process-wide `random` module. The values the seeded generator
 * produces are supplied by the caller; the source keeps a log of the calls
 * that returned (a `random.sample` that raises ValueError leaves no entry),
 * which is what the draw-order guarantees are about.
 */
module Randomness {
  import opened Common

  /** One call on the generator. */
  datatype Draw =
    | Seeded(seed: int)                    // random.seed(seed)
    | Sampled(populationSize: nat, k: nat) // random.sample(population, k)
    | IntDrawn(lo: int, hi: int)           // random.randint(lo, hi)

  /** `picks` are `k` distinct positions of a population of size `n`. */
  predicate IsSampleChoice(picks: seq<nat>, n: nat, k: nat)
  {
    |picks| == k && Distinct(picks) && forall i :: 0 <= i < |picks| ==> picks[i] < n
  }

  /**
   * `random.sample(population, k)` when the generator chooses the positions `picks`:
   * ValueError unless `0 <= k <= len(population)`.
   */
  function SampleOf<T>(population: seq<T>, k: int, picks: seq<nat>): (r: Result<seq<T>>)
    requires 0 <= k <= |population| ==> IsSampleChoice(picks, |population|, k)
    ensures r.Ok? <==> 0 <= k <= |population|
    ensures r.Err? ==> r.error == SampleLargerThanPopulation
    ensures r.Ok? ==> |r.value| == k && forall i :: 0 <= i < k ==> r.value[i] == population[picks[i]]
  {
    if 0 <= k <= |population| then Ok(seq(k, i requires 0 <= i < k => population[picks[i]]))
    else Err(SampleLargerThanPopulation)
  }

  /** Sampling is without replacement: from a population without repeats, the sample has none. */
  lemma SampleDistinct<T>(population: seq<T>, k: int, picks: seq<nat>)
    requires 0 <= k <= |population| ==> IsSampleChoice(picks, |population|, k)
    requires Distinct(population)
    ensures SampleOf(population, k, picks).Ok? ==> Distinct(SampleOf(population, k, picks).value)
  {
    if 0 <= k <= |population| {
      var s := SampleOf(population, k, picks).value;
      forall i, j | 0 <= i < j < |s| ensures s[i] != s[j] {
        assert picks[i] != picks[j];
      }
    }
  }

  /** The log of `n` calls `random.randint(lo, hi)`. */
  function IntDraws(n: nat, lo: int, hi: int): seq<Draw>
  {
    seq(n, _ => IntDrawn(lo, hi))
  }

  class RandomSource {
    /** The calls that returned so far, oldest first (a refused `sample` is not logged). */
    var history: seq<Draw>

    constructor ()
      ensures history == []
    {
      history := [];
    }

    /** `random.seed(seed)` */
    method Seed(seed: int)
      modifies this
      ensures history == old(history) + [Seeded(seed)]
    {
      history := history + [Seeded(seed)];
    }

    /** `random.sample(population, k)`, the generator choosing `picks`; a refused call draws nothing. */
    method Sample<T>(population: seq<T>, k: int, picks: seq<nat>) returns (r: Result<seq<T>>)
      requires 0 <= k <= |population| ==> IsSampleChoice(picks, |population|, k)
      modifies this
      ensures r == SampleOf(population, k, picks)
      ensures history == old(history) + (if r.Ok? then [Sampled(|population|, k)] else [])
    {
      r := SampleOf(population, k, picks);
      if r.Ok? {
        history := history + [Sampled(|population|, k)];
      }
    }

    /** `random.randint(lo, hi)`, the generator choosing `value`. */
    method RandInt(lo: int, hi: int, value: int) returns (v: int)
      requires lo <= value <= hi
      modifies this
      ensures v == value && lo <= v <= hi
      ensures history == old(history) + [IntDrawn(lo, hi)]
    {
      v := value;
      history := history + [IntDrawn(lo, hi)];
    }
  }
}
