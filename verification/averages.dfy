/**
 * The averages of a score list: the plain mean of the defined scores and
 * the mean weighted by each score's weight. Undefined (`nan`) entries are
 * skipped; with nothing to average the result is `None` (`nan`).
 *
 * A score list is a dictionary keyed by label or category name whose values
 * are the (score, weight) pairs the score functions return; since the
 * averages do not depend on the order of its entries, it is modelled as the
 * sequence of its values.
 */
module Averages {
  import opened Wrappers
  import opened Scores

  /** A value of a score list: `(nan, nan)` or a score with its weight. */
  datatype Entry = NaN | Scored(score: real, weight: real)

  /** The pair a score function returns for `x`. */
  function AsEntry(x: Score): (e: Entry)
    ensures e.NaN? <==> x.Undefined?
    ensures e.Scored? ==> e.weight == x.Weight()
  {
    if x.Undefined? then NaN else Scored(x.Value(), x.Weight())
  }

  /** A score list as the pairs it holds. */
  function Entries(xs: seq<Score>): (es: seq<Entry>)
    ensures |es| == |xs|
    ensures forall k :: 0 <= k < |xs| ==> es[k] == AsEntry(xs[k])
  {
    seq(|xs|, k requires 0 <= k < |xs| => AsEntry(xs[k]))
  }

  // ---------------------------------------------------------------------
  // Definitions, by recursion on the last entry.
  // ---------------------------------------------------------------------

  /** The number of defined entries. */
  function DefinedCount(xs: seq<Entry>): (c: nat)
    ensures c <= |xs|
    ensures c == 0 <==> forall k :: 0 <= k < |xs| ==> xs[k].NaN?
  {
    if |xs| == 0 then 0
    else
      var n := |xs| - 1;
      DefinedCount(xs[..n]) + (if xs[n].Scored? then 1 else 0)
  }

  /** The sum of the defined scores. */
  function DefinedSum(xs: seq<Entry>): real
  {
    if |xs| == 0 then 0.0
    else
      var n := |xs| - 1;
      DefinedSum(xs[..n]) + (if xs[n].Scored? then xs[n].score else 0.0)
  }

  /** The sum of the weights of the defined entries. */
  function DefinedWeight(xs: seq<Entry>): real
  {
    if |xs| == 0 then 0.0
    else
      var n := |xs| - 1;
      DefinedWeight(xs[..n]) + (if xs[n].Scored? then xs[n].weight else 0.0)
  }

  /** What an entry adds to the weighted sum: score times weight, or nothing when undefined. */
  function Contribution(x: Entry): real
  {
    if x.Scored? then x.score * x.weight else 0.0
  }

  /** The sum of score times weight over the defined entries. */
  function WeightedSum(xs: seq<Entry>): real
  {
    if |xs| == 0 then 0.0
    else
      var n := |xs| - 1;
      WeightedSum(xs[..n]) + Contribution(xs[n])
  }

  /** The mean of the defined scores; `None` when every entry is undefined. */
  function Mean(xs: seq<Entry>): (r: Option<real>)
    ensures r.None? <==> forall k :: 0 <= k < |xs| ==> xs[k].NaN?
  {
    var n := DefinedCount(xs);
    if n == 0 then None else Some(DefinedSum(xs) / n as real)
  }

  /** The weighted mean of the defined scores; `None` when their weights sum to 0. */
  function FreqMean(xs: seq<Entry>): (r: Option<real>)
    ensures r.None? <==> DefinedWeight(xs) == 0.0
  {
    var w := DefinedWeight(xs);
    if w == 0.0 then None else Some(WeightedSum(xs) / w)
  }

  // ---------------------------------------------------------------------
  // The loops of the source.
  // ---------------------------------------------------------------------

  /** `getScoreAverage`: counts and sums the defined scores, then divides. */
  method ScoreAverage(xs: seq<Entry>) returns (r: Option<real>)
    ensures r == Mean(xs)
  {
    var validScores: nat := 0;
    var scoreSum := 0.0;
    var k := 0;
    while k < |xs|
      invariant k <= |xs|
      invariant validScores == DefinedCount(xs[..k])
      invariant scoreSum == DefinedSum(xs[..k])
    {
      assert xs[..k + 1][..k] == xs[..k];
      if xs[k].Scored? {
        validScores := validScores + 1;
        scoreSum := scoreSum + xs[k].score;
      }
      k := k + 1;
    }
    assert xs[..k] == xs;
    if validScores == 0 {
      return None;
    }
    return Some(scoreSum / validScores as real);
  }

  /** `getFreqScoreAverage`: sums the weights and the weighted scores of the defined entries, then divides. */
  method FreqScoreAverage(xs: seq<Entry>) returns (r: Option<real>)
    ensures r == FreqMean(xs)
  {
    var validScores := 0.0;
    var scoreSum := 0.0;
    var k := 0;
    while k < |xs|
      invariant k <= |xs|
      invariant validScores == DefinedWeight(xs[..k])
      invariant scoreSum == WeightedSum(xs[..k])
    {
      assert xs[..k + 1][..k] == xs[..k];
      if xs[k].Scored? {
        validScores := validScores + xs[k].weight;
        scoreSum := scoreSum + xs[k].score * xs[k].weight;
      }
      k := k + 1;
    }
    assert xs[..k] == xs;
    if validScores == 0.0 {
      return None;
    }
    return Some(scoreSum / validScores);
  }

  // ---------------------------------------------------------------------
  // Properties.
  // ---------------------------------------------------------------------

  /** Every defined score lies in [0, 1]. */
  predicate UnitScores(xs: seq<Entry>) {
    forall k :: 0 <= k < |xs| && xs[k].Scored? ==> 0.0 <= xs[k].score <= 1.0
  }

  /** Every defined entry has a non-negative weight. */
  predicate NonNegativeWeights(xs: seq<Entry>) {
    forall k :: 0 <= k < |xs| && xs[k].Scored? ==> xs[k].weight >= 0.0
  }

  /** Every defined score equals `v`. */
  predicate Uniform(xs: seq<Entry>, v: real) {
    forall k :: 0 <= k < |xs| && xs[k].Scored? ==> xs[k].score == v
  }

  lemma {:induction false} DefinedSumBounds(xs: seq<Entry>)
    requires UnitScores(xs)
    ensures 0.0 <= DefinedSum(xs) <= DefinedCount(xs) as real
  {
    if |xs| > 0 {
      var n := |xs| - 1;
      assert UnitScores(xs[..n]);
      DefinedSumBounds(xs[..n]);
    }
  }

  /** The mean of scores in [0, 1] lies in [0, 1]. */
  lemma MeanBounded(xs: seq<Entry>)
    requires UnitScores(xs) && Mean(xs).Some?
    ensures 0.0 <= Mean(xs).value <= 1.0
  {
    DefinedSumBounds(xs);
    RatioFacts(DefinedSum(xs), DefinedCount(xs) as real);
  }

  /** `v` added up `n` times. */
  function Repeat(v: real, n: nat): real
  {
    if n == 0 then 0.0 else Repeat(v, n - 1) + v
  }

  lemma {:induction false} RepeatIsProduct(v: real, n: nat)
    ensures Repeat(v, n) == v * n as real
  {
    if n > 0 {
      RepeatIsProduct(v, n - 1);
      AddOneMore(v, (n - 1) as real, n as real);
    }
  }

  lemma {:induction false} UniformSum(xs: seq<Entry>, v: real)
    requires Uniform(xs, v)
    ensures DefinedSum(xs) == Repeat(v, DefinedCount(xs))
  {
    if |xs| > 0 {
      var n := |xs| - 1;
      assert Uniform(xs[..n], v);
      UniformSum(xs[..n], v);
    }
  }

  /** When every defined score is `v`, their mean is `v`. */
  lemma MeanUniform(xs: seq<Entry>, v: real)
    requires Uniform(xs, v) && Mean(xs).Some?
    ensures Mean(xs).value == v
  {
    UniformSum(xs, v);
    RepeatIsProduct(v, DefinedCount(xs));
    Cancel(DefinedSum(xs), v, DefinedCount(xs) as real);
  }

  /** A score in [0, 1] with a non-negative weight contributes between 0 and its weight. */
  lemma ContributionBounds(x: Entry)
    requires x.Scored? ==> 0.0 <= x.score <= 1.0 && x.weight >= 0.0
    ensures 0.0 <= Contribution(x) <= (if x.Scored? then x.weight else 0.0)
  {
    if x.Scored? {
      assert x.weight - x.score * x.weight == (1.0 - x.score) * x.weight;
    }
  }

  lemma {:induction false} WeightedSumBounds(xs: seq<Entry>)
    requires UnitScores(xs) && NonNegativeWeights(xs)
    ensures 0.0 <= WeightedSum(xs) <= DefinedWeight(xs)
  {
    if |xs| > 0 {
      var n := |xs| - 1;
      assert UnitScores(xs[..n]) && NonNegativeWeights(xs[..n]);
      WeightedSumBounds(xs[..n]);
      ContributionBounds(xs[n]);
    }
  }

  lemma Cancel(s: real, v: real, c: real)
    requires c != 0.0 && s == v * c
    ensures s / c == v
  {
  }

  lemma AddOneMore(v: real, c: real, d: real)
    requires d == c + 1.0
    ensures v * d == v * c + v
  {
  }

  /** The weighted mean of scores in [0, 1] with non-negative weights lies in [0, 1]. */
  lemma FreqMeanBounded(xs: seq<Entry>)
    requires UnitScores(xs) && NonNegativeWeights(xs) && FreqMean(xs).Some?
    ensures 0.0 <= FreqMean(xs).value <= 1.0
  {
    WeightedSumBounds(xs);
    RatioFacts(WeightedSum(xs), DefinedWeight(xs));
  }

  lemma {:induction false} UniformWeightedSum(xs: seq<Entry>, v: real)
    requires Uniform(xs, v)
    ensures WeightedSum(xs) == v * DefinedWeight(xs)
  {
    if |xs| > 0 {
      var n := |xs| - 1;
      assert Uniform(xs[..n], v);
      UniformWeightedSum(xs[..n], v);
      var w := if xs[n].Scored? then xs[n].weight else 0.0;
      UniformContribution(xs[n], v);
      ScaledStep(WeightedSum(xs), DefinedWeight(xs), DefinedWeight(xs[..n]), w, v);
    }
  }

  /** One more entry of weight `w` scored `v` keeps the weighted sum at `v` times the weight. */
  lemma ScaledStep(sum: real, weight: real, before: real, w: real, v: real)
    requires sum == v * before + v * w && weight == before + w
    ensures sum == v * weight
  {
  }

  lemma UniformContribution(x: Entry, v: real)
    requires x.Scored? ==> x.score == v
    ensures Contribution(x) == v * (if x.Scored? then x.weight else 0.0)
  {
  }

  /** When every defined score is `v`, their weighted mean is `v`. */
  lemma FreqMeanUniform(xs: seq<Entry>, v: real)
    requires Uniform(xs, v) && FreqMean(xs).Some?
    ensures FreqMean(xs).value == v
  {
    UniformWeightedSum(xs, v);
    Cancel(WeightedSum(xs), v, DefinedWeight(xs));
  }

  lemma {:induction false} UnitWeightSums(xs: seq<Entry>)
    requires forall k :: 0 <= k < |xs| && xs[k].Scored? ==> xs[k].weight == 1.0
    ensures DefinedWeight(xs) == DefinedCount(xs) as real
    ensures WeightedSum(xs) == DefinedSum(xs)
  {
    if |xs| > 0 {
      var n := |xs| - 1;
      UnitWeightSums(xs[..n]);
    }
  }

  /** With every weight 1 the weighted mean is the plain mean. */
  lemma FreqMeanUnitWeights(xs: seq<Entry>)
    requires forall k :: 0 <= k < |xs| && xs[k].Scored? ==> xs[k].weight == 1.0
    ensures FreqMean(xs) == Mean(xs)
  {
    UnitWeightSums(xs);
  }

  /** Every defined score of a list lies in [0, 1] and has a non-negative weight. */
  ghost predicate ScoresInRange(xs: seq<Score>) {
    forall k :: 0 <= k < |xs| && xs[k].Defined? ==> 0.0 <= xs[k].Value() <= 1.0 && xs[k].Weight() >= 0.0
  }

  /** Both averages of a list of scores in [0, 1] with non-negative weights lie in [0, 1]. */
  lemma AveragesBounded(xs: seq<Score>)
    requires ScoresInRange(xs)
    ensures Mean(Entries(xs)).Some? ==> 0.0 <= Mean(Entries(xs)).value <= 1.0
    ensures FreqMean(Entries(xs)).Some? ==> 0.0 <= FreqMean(Entries(xs)).value <= 1.0
  {
    var es := Entries(xs);
    assert UnitScores(es) && NonNegativeWeights(es);
    if Mean(es).Some? {
      MeanBounded(es);
    }
    if FreqMean(es).Some? {
      FreqMeanBounded(es);
    }
  }
}
