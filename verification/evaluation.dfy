/**
 * One evaluation run: every image pair is accumulated into the confusion
 * matrix and the instance statistics (`evaluatePair`), then the result
 * dictionary is built from them (`evaluateImgLists`, `createResultDict`).
 */
module Evaluation {
  import opened Wrappers
  import opened SeqMath
  import opened Taxonomy
  import opened Matrix
  import opened Confusion
  import opened Instances
  import opened Scores
  import opened Averages

  /** A decoded single-channel image: `width * height` values, row by row. */
  datatype Image = Image(width: nat, height: nat, pixels: seq<nat>)

  predicate Decoded(img: Image) {
    |img.pixels| == img.width * img.height
  }

  /** Why one image pair cannot be evaluated. */
  datatype PairError =
    | WidthMismatch                    // "Image widths of ... are not equal."
    | HeightMismatch                   // "Image heights of ... are not equal."
    | Pixel(pixel: PixelError)         // the per-pixel loop
    | Instance(instance: InstanceError) // the instance block

  /** Why a run aborts. */
  datatype EvalError =
    | ListLengthMismatch               // "List of images for prediction and groundtruth are not of equal size."
    | Setup(setup: SetupError)         // `generateMatrix`
    | Pair(index: nat, pair: PairError)

  /**
   * What the run reports (`createResultDict`), with each name-keyed
   * dictionary as the list of its values: priors and class scores follow the
   * evaluated ids, category scores follow the categories. The weighted
   * averages are the ones the run prints.
   */
  datatype Results = Results(
    confMatrix: seq<seq<nat>>,
    priors: seq<Option<real>>,
    classScores: seq<Score>,
    classInstScores: seq<Score>,
    categoryScores: seq<Score>,
    categoryInstScores: seq<Score>,
    averageScoreClasses: Option<real>,
    averageScoreInstClasses: Option<real>,
    averageScoreCategories: Option<real>,
    averageScoreInstCategories: Option<real>,
    freqScoreClasses: Option<real>,
    freqScoreInstClasses: Option<real>,
    freqScoreCategories: Option<real>,
    freqScoreInstCategories: Option<real>)

  // ---------------------------------------------------------------------
  // What a run computes.
  // ---------------------------------------------------------------------

  /** The first `n` pairs have prediction, ground truth and instance maps of one size. */
  predicate SameSizes(preds: seq<Image>, gts: seq<Image>, insts: seq<Image>, n: nat) {
    && n <= |preds| && n <= |gts| && n <= |insts|
    && forall k :: 0 <= k < n ==> |gts[k].pixels| == |preds[k].pixels| == |insts[k].pixels|
  }

  /** Among the first `n` pairs, the pixels whose ground truth is `i` and whose prediction is `j`. */
  ghost function PairsCount(preds: seq<Image>, gts: seq<Image>, insts: seq<Image>, n: nat, i: nat, j: nat): nat
    requires SameSizes(preds, gts, insts, n)
  {
    if n == 0 then 0
    else PairsCount(preds, gts, insts, n - 1, i, j) + Count(gts[n - 1].pixels, preds[n - 1].pixels, |gts[n - 1].pixels|, i, j)
  }

  /** The number of pixels of the first `n` ground-truth images. */
  ghost function PixelTotal(gts: seq<Image>, n: nat): nat
    requires n <= |gts|
  {
    if n == 0 then 0 else PixelTotal(gts, n - 1) + |gts[n - 1].pixels|
  }

  /** The instance statistics after the instance blocks of the first `n` pairs. */
  function ProcessImages(labels: seq<Label>, s: Stats, preds: seq<Image>, gts: seq<Image>, insts: seq<Image>, n: nat)
    : Result<Stats, InstanceError>
    requires SameSizes(preds, gts, insts, n)
  {
    if n == 0 then Success(s)
    else
      match ProcessImages(labels, s, preds, gts, insts, n - 1)
      case Failure(e) => Failure(e)
      case Success(t) => ProcessImage(labels, AvgClassSize, t, insts[n - 1].pixels, preds[n - 1].pixels)
  }

  /** With the positive average sizes, the instance blocks never decrease a counter. */
  lemma {:induction false} ProcessImagesGrows(labels: seq<Label>, s: Stats, preds: seq<Image>, gts: seq<Image>,
                                              insts: seq<Image>, n: nat)
    requires SameSizes(preds, gts, insts, n)
    requires ProcessImages(labels, s, preds, gts, insts, n).Success?
    ensures Grows(s, ProcessImages(labels, s, preds, gts, insts, n).value)
  {
    if n > 0 {
      assert SameSizes(preds, gts, insts, n - 1);
      ProcessImagesGrows(labels, s, preds, gts, insts, n - 1);
      var t := ProcessImages(labels, s, preds, gts, insts, n - 1).value;
      AvgClassSizeNonNegative();
      ProcessImageGrows(labels, AvgClassSize, t, insts[n - 1].pixels, preds[n - 1].pixels);
      GrowsTransitive(s, t, ProcessImages(labels, s, preds, gts, insts, n).value);
    }
  }

  /**
   * `res` is the result dictionary for matrix `m` and instance statistics
   * `s`: the matrix itself, the prior and both scores of every evaluated id,
   * both scores of every category, and the averages of each score list.
   */
  ghost predicate Reports(labels: seq<Label>, m: seq<seq<nat>>, s: Stats, res: Results) {
    var ids := NonNegativeIds(labels);
    var cats := Categories(labels);
    && res.confMatrix == m
    && IsSquare(m) && Indexes(m, ids) && AllKnown(labels, ids)
    && (forall c :: c in s.categories ==> Indexes(m, s.categories[c].labelIds))
    && |res.priors| == |ids| && |res.classScores| == |ids| && |res.classInstScores| == |ids|
    && (forall k :: 0 <= k < |ids| ==> res.priors[k] == Prior(m, ids[k]))
    && (forall k :: 0 <= k < |ids| ==> res.classScores[k] == IouForLabel(labels, ids, m, ids[k]))
    && (forall k :: 0 <= k < |ids| ==> res.classInstScores[k] == InstanceIouForLabel(labels, ids, m, s, ids[k]))
    && |res.categoryScores| == |cats| && |res.categoryInstScores| == |cats|
    && (forall k :: 0 <= k < |cats| ==> res.categoryScores[k] == IouForCategory(labels, ids, m, cats[k]))
    && (forall k :: 0 <= k < |cats| ==> res.categoryInstScores[k] == InstanceIouForCategory(labels, ids, m, s, cats[k]))
    && res.averageScoreClasses == Mean(Entries(res.classScores))
    && res.averageScoreInstClasses == Mean(Entries(res.classInstScores))
    && res.averageScoreCategories == Mean(Entries(res.categoryScores))
    && res.averageScoreInstCategories == Mean(Entries(res.categoryInstScores))
    && res.freqScoreClasses == FreqMean(Entries(res.classScores))
    && res.freqScoreInstClasses == FreqMean(Entries(res.classInstScores))
    && res.freqScoreCategories == FreqMean(Entries(res.categoryScores))
    && res.freqScoreInstCategories == FreqMean(Entries(res.categoryInstScores))
  }

  /**
   * `res` is what a complete run over the pairs reports: its matrix counts,
   * cell by cell, the pixel pairs of all images and holds as many pixels as
   * they have, and its scores are computed from that matrix and from the
   * instance statistics all instance blocks produce.
   */
  ghost predicate Evaluated(labels: seq<Label>, preds: seq<Image>, gts: seq<Image>, insts: seq<Image>, res: Results)
    requires SameSizes(preds, gts, insts, |gts|)
  {
    var ids := NonNegativeIds(labels);
    var m := res.confMatrix;
    var run := ProcessImages(labels, InitialStats(labels), preds, gts, insts, |gts|);
    && ids != [] && |m| == Max(ids) + 1
    && run.Success?
    && Holds(m, run.value, labels, preds, gts, insts, InitialStats(labels), |gts|, Total(m))
    && Reports(labels, m, run.value, res)
  }

  // ---------------------------------------------------------------------
  // The score lists of `evaluateImgLists` and `createResultDict`.
  // ---------------------------------------------------------------------

  /** `getPrior` of every evaluated id. */
  method PriorList(m: seq<seq<nat>>, ids: seq<nat>) returns (xs: seq<Option<real>>)
    requires Indexes(m, ids)
    ensures |xs| == |ids| && forall k :: 0 <= k < |ids| ==> xs[k] == Prior(m, ids[k])
  {
    xs := [];
    var k := 0;
    while k < |ids|
      invariant 0 <= k <= |ids|
      invariant |xs| == k && forall a :: 0 <= a < k ==> xs[a] == Prior(m, ids[a])
    {
      xs := xs + [Prior(m, ids[k])];
      k := k + 1;
    }
  }

  /** `classScoreList`: `getIouScoreForLabel` of every evaluated id. */
  method ClassScoreList(labels: seq<Label>, m: seq<seq<nat>>, ids: seq<nat>) returns (xs: seq<Score>)
    requires IsSquare(m) && Indexes(m, ids) && AllKnown(labels, ids)
    ensures |xs| == |ids| && forall k :: 0 <= k < |ids| ==> xs[k] == IouForLabel(labels, ids, m, ids[k])
  {
    xs := [];
    var k := 0;
    while k < |ids|
      invariant 0 <= k <= |ids|
      invariant |xs| == k && forall a :: 0 <= a < k ==> xs[a] == IouForLabel(labels, ids, m, ids[a])
    {
      xs := xs + [IouForLabel(labels, ids, m, ids[k])];
      k := k + 1;
    }
  }

  /** `classInstScoreList`: `getInstanceIouScoreForLabel` of every evaluated id. */
  method ClassInstScoreList(labels: seq<Label>, m: seq<seq<nat>>, s: Stats, ids: seq<nat>) returns (xs: seq<Score>)
    requires IsSquare(m) && Indexes(m, ids) && AllKnown(labels, ids)
    ensures |xs| == |ids| && forall k :: 0 <= k < |ids| ==> xs[k] == InstanceIouForLabel(labels, ids, m, s, ids[k])
  {
    xs := [];
    var k := 0;
    while k < |ids|
      invariant 0 <= k <= |ids|
      invariant |xs| == k && forall a :: 0 <= a < k ==> xs[a] == InstanceIouForLabel(labels, ids, m, s, ids[a])
    {
      xs := xs + [InstanceIouForLabel(labels, ids, m, s, ids[k])];
      k := k + 1;
    }
  }

  /** `categoryScoreList`: `getIouScoreForCategory` of every category. */
  method CategoryScoreList(labels: seq<Label>, m: seq<seq<nat>>, ids: seq<nat>, cats: seq<string>) returns (xs: seq<Score>)
    requires IsSquare(m) && Indexes(m, ids)
    ensures |xs| == |cats| && forall k :: 0 <= k < |cats| ==> xs[k] == IouForCategory(labels, ids, m, cats[k])
  {
    ghost var scores := seq(|cats|, a requires 0 <= a < |cats| => IouForCategory(labels, ids, m, cats[a]));
    xs := [];
    var k := 0;
    while k < |cats|
      invariant 0 <= k <= |cats|
      invariant xs == scores[..k]
    {
      assert scores[..k + 1] == scores[..k] + [scores[k]];
      xs := xs + [IouForCategory(labels, ids, m, cats[k])];
      k := k + 1;
    }
    assert xs == scores;
  }

  /** `categoryInstScoreList`: `getInstanceIouScoreForCategory` of every category. */
  method CategoryInstScoreList(labels: seq<Label>, m: seq<seq<nat>>, s: Stats, ids: seq<nat>, cats: seq<string>)
    returns (xs: seq<Score>)
    requires IsSquare(m) && Indexes(m, ids)
    requires forall c :: c in s.categories ==> Indexes(m, s.categories[c].labelIds)
    ensures |xs| == |cats| && forall k :: 0 <= k < |cats| ==> xs[k] == InstanceIouForCategory(labels, ids, m, s, cats[k])
  {
    xs := [];
    var k := 0;
    while k < |cats|
      invariant 0 <= k <= |cats|
      invariant |xs| == k && forall a :: 0 <= a < k ==> xs[a] == InstanceIouForCategory(labels, ids, m, s, cats[a])
    {
      xs := xs + [InstanceIouForCategory(labels, ids, m, s, cats[k])];
      k := k + 1;
    }
  }

  /** The score lists, priors and averages for matrix `m` and statistics `s`. */
  method BuildResults(labels: seq<Label>, m: seq<seq<nat>>, s: Stats) returns (res: Results)
    requires IsSquare(m) && Indexes(m, NonNegativeIds(labels))
    requires forall c :: c in s.categories ==> Indexes(m, s.categories[c].labelIds)
    ensures Reports(labels, m, s, res)
  {
    var ids := NonNegativeIds(labels);
    var cats := Categories(labels);
    EvalLabelsKnown(labels);
    var priors := PriorList(m, ids);
    var classScores := ClassScoreList(labels, m, ids);
    var classInstScores := ClassInstScoreList(labels, m, s, ids);
    var categoryScores := CategoryScoreList(labels, m, ids, cats);
    var categoryInstScores := CategoryInstScoreList(labels, m, s, ids, cats);
    var a1 := ScoreAverage(Entries(classScores));
    var a2 := ScoreAverage(Entries(classInstScores));
    var a3 := ScoreAverage(Entries(categoryScores));
    var a4 := ScoreAverage(Entries(categoryInstScores));
    var w1 := FreqScoreAverage(Entries(classScores));
    var w2 := FreqScoreAverage(Entries(classInstScores));
    var w3 := FreqScoreAverage(Entries(categoryScores));
    var w4 := FreqScoreAverage(Entries(categoryInstScores));
    res := Results(m, priors, classScores, classInstScores, categoryScores, categoryInstScores,
                   a1, a2, a3, a4, w1, w2, w3, w4);
  }

  /** Every class score lies in [0, 1] and weighs the label's ground-truth pixels. */
  lemma ClassScoresInRange(labels: seq<Label>, m: seq<seq<nat>>, ids: seq<nat>, xs: seq<Score>)
    requires IsSquare(m) && Indexes(m, ids) && AllKnown(labels, ids)
    requires |xs| == |ids| && forall k :: 0 <= k < |ids| ==> xs[k] == IouForLabel(labels, ids, m, ids[k])
    ensures ScoresInRange(xs)
  {
    forall k | 0 <= k < |xs| && xs[k].Defined?
      ensures 0.0 <= xs[k].Value() <= 1.0 && xs[k].Weight() >= 0.0
    {
      IouForLabelBounded(labels, ids, m, ids[k]);
    }
  }

  /** With non-negative counters every instance class score lies in [0, 1] with a non-negative weight. */
  lemma ClassInstScoresInRange(labels: seq<Label>, m: seq<seq<nat>>, s: Stats, ids: seq<nat>, xs: seq<Score>)
    requires IsSquare(m) && Indexes(m, ids) && AllKnown(labels, ids) && NonNegative(s)
    requires |xs| == |ids| && forall k :: 0 <= k < |ids| ==> xs[k] == InstanceIouForLabel(labels, ids, m, s, ids[k])
    ensures ScoresInRange(xs)
  {
    forall k | 0 <= k < |xs| && xs[k].Defined?
      ensures 0.0 <= xs[k].Value() <= 1.0 && xs[k].Weight() >= 0.0
    {
      InstanceIouForLabelBounded(labels, ids, m, s, ids[k]);
    }
  }

  /** In a table with unique ids every category score lies in [0, 1] with a non-negative weight. */
  lemma CategoryScoresInRange(labels: seq<Label>, m: seq<seq<nat>>, ids: seq<nat>, cats: seq<string>, xs: seq<Score>)
    requires IsSquare(m) && Indexes(m, ids) && UniqueIds(labels)
    requires |xs| == |cats| && forall k :: 0 <= k < |cats| ==> xs[k] == IouForCategory(labels, ids, m, cats[k])
    ensures ScoresInRange(xs)
  {
    forall k | 0 <= k < |xs| && xs[k].Defined?
      ensures 0.0 <= xs[k].Value() <= 1.0 && xs[k].Weight() >= 0.0
    {
      IouForCategoryBounded(labels, ids, m, cats[k]);
    }
  }

  /** With non-negative counters every instance category score lies in [0, 1] with a non-negative weight. */
  lemma CategoryInstScoresInRange(labels: seq<Label>, m: seq<seq<nat>>, s: Stats, ids: seq<nat>, cats: seq<string>,
                                  xs: seq<Score>)
    requires IsSquare(m) && Indexes(m, ids) && NonNegative(s)
    requires forall c :: c in s.categories ==> Indexes(m, s.categories[c].labelIds)
    requires |xs| == |cats| && forall k :: 0 <= k < |cats| ==> xs[k] == InstanceIouForCategory(labels, ids, m, s, cats[k])
    ensures ScoresInRange(xs)
  {
    forall k | 0 <= k < |xs| && xs[k].Defined?
      ensures 0.0 <= xs[k].Value() <= 1.0 && xs[k].Weight() >= 0.0
    {
      InstanceIouForCategoryBounded(labels, ids, m, s, cats[k]);
    }
  }

  /** Every average in a result dictionary built from non-negative counters over a table with unique ids lies in [0, 1]. */
  lemma ReportedAveragesBounded(labels: seq<Label>, m: seq<seq<nat>>, s: Stats, res: Results)
    requires Reports(labels, m, s, res) && UniqueIds(labels) && NonNegative(s)
    ensures AveragesInRange(res)
  {
    var ids := NonNegativeIds(labels);
    var cats := Categories(labels);
    ClassScoresInRange(labels, m, ids, res.classScores);
    ClassInstScoresInRange(labels, m, s, ids, res.classInstScores);
    CategoryScoresInRange(labels, m, ids, cats, res.categoryScores);
    CategoryInstScoresInRange(labels, m, s, ids, cats, res.categoryInstScores);
    AveragesBounded(res.classScores);
    AveragesBounded(res.classInstScores);
    AveragesBounded(res.categoryScores);
    AveragesBounded(res.categoryInstScores);
  }

  /** `x` is `nan` or lies in [0, 1]. */
  predicate InUnitRange(x: Option<real>) {
    x.Some? ==> 0.0 <= x.value <= 1.0
  }

  /** The eight averages of a result dictionary are each `nan` or in [0, 1]. */
  predicate AveragesInRange(res: Results) {
    && InUnitRange(res.averageScoreClasses) && InUnitRange(res.averageScoreInstClasses)
    && InUnitRange(res.averageScoreCategories) && InUnitRange(res.averageScoreInstCategories)
    && InUnitRange(res.freqScoreClasses) && InUnitRange(res.freqScoreInstClasses)
    && InUnitRange(res.freqScoreCategories) && InUnitRange(res.freqScoreInstCategories)
  }

  /** The averages a complete run reports over a table with unique ids are each `nan` or in [0, 1]. */
  lemma EvaluatedAveragesBounded(labels: seq<Label>, preds: seq<Image>, gts: seq<Image>, insts: seq<Image>, res: Results)
    requires SameSizes(preds, gts, insts, |gts|) && UniqueIds(labels)
    requires Evaluated(labels, preds, gts, insts, res)
    ensures AveragesInRange(res)
  {
    var initial := InitialStats(labels);
    var s := ProcessImages(labels, initial, preds, gts, insts, |gts|).value;
    ProcessImagesGrows(labels, initial, preds, gts, insts, |gts|);
    GrowsPreserves(labels, initial, s);
    ReportedAveragesBounded(labels, res.confMatrix, s, res);
  }

  // ---------------------------------------------------------------------
  // The run.
  // ---------------------------------------------------------------------

  /** `after` is `before` with the pixel pairs of one image counted, cell by cell. */
  ghost predicate Added(before: seq<seq<nat>>, after: seq<seq<nat>>, gt: seq<nat>, pred: seq<nat>) {
    && IsSquare(before) && IsSquare(after) && |after| == |before| && |gt| == |pred|
    && Total(after) == Total(before) + |gt|
    && forall i, j :: 0 <= i < |before| && 0 <= j < |before| ==>
         after[i][j] == before[i][j] + Count(gt, pred, |gt|, i, j)
  }

  /**
   * The pair passes the checks of `evaluatePair`: the two images have the same
   * width and height, every ground-truth value is an evaluated id and every
   * predicted value has a column.
   */
  predicate PairOk(pred: Image, gt: Image, ids: seq<nat>, size: nat) {
    && pred.width == gt.width && pred.height == gt.height && |pred.pixels| == |gt.pixels|
    && forall k :: 0 <= k < |gt.pixels| ==> gt.pixels[k] in ids && pred.pixels[k] < size
  }

  /**
   * The pair fails with `e` on top of statistics `t`, in the order
   * `evaluatePair` checks: the width, the height, a pixel whose ground truth
   * is not evaluated or whose prediction has no column, then the instance
   * block of a pair that passed all pixel checks.
   */
  predicate PairFails(labels: seq<Label>, ids: seq<nat>, size: nat, t: Stats, pred: Image, gt: Image, inst: Image,
                      e: PairError) {
    match e
    case WidthMismatch => pred.width != gt.width
    case HeightMismatch => pred.width == gt.width && pred.height != gt.height
    case Pixel(pe) =>
      && pred.width == gt.width && pred.height == gt.height
      && exists k :: 0 <= k < |gt.pixels| && FirstUncountable(gt.pixels, pred.pixels, ids, size, k, pe)
    case Instance(ie) =>
      && PairOk(pred, gt, ids, size) && |inst.pixels| == |pred.pixels|
      && ProcessImage(labels, AvgClassSize, t, inst.pixels, pred.pixels) == Failure(ie)
  }

  /**
   * Pixel `k` is the first one the per-pixel loop cannot count, and `e` is
   * the error it raises there: an unknown ground truth is checked before
   * the prediction's column.
   */
  predicate FirstUncountable(gt: seq<nat>, pred: seq<nat>, ids: seq<nat>, size: nat, k: nat, e: PixelError) {
    && k < |gt| && k < |pred|
    && (forall j :: 0 <= j < k ==> gt[j] in ids && pred[j] < size)
    && if gt[k] !in ids then e == UnknownLabel(gt[k])
       else pred[k] >= size && e == PredictionOutOfRange(pred[k])
  }

  /** The loop's order fixes the reported pixel error: there is only one first uncountable pixel. */
  lemma FirstUncountableUnique(gt: seq<nat>, pred: seq<nat>, ids: seq<nat>, size: nat,
                               k1: nat, e1: PixelError, k2: nat, e2: PixelError)
    requires FirstUncountable(gt, pred, ids, size, k1, e1) && FirstUncountable(gt, pred, ids, size, k2, e2)
    ensures k1 == k2 && e1 == e2
  {
  }

  /** A pair that `PairFails` explains is not one that passes every check and its instance block. */
  lemma PairFailsExcludesSuccess(labels: seq<Label>, ids: seq<nat>, size: nat, t: Stats, pred: Image, gt: Image,
                                 inst: Image, e: PairError)
    requires PairFails(labels, ids, size, t, pred, gt, inst, e)
    ensures !(&& PairOk(pred, gt, ids, size) && |inst.pixels| == |pred.pixels|
              && ProcessImage(labels, AvgClassSize, t, inst.pixels, pred.pixels).Success?)
  {
  }

  /**
   * `evaluatePair`: after the size checks, the per-pixel loop adds every
   * pixel pair to the matrix, then the instance block adds every instance
   * of the ground truth to the statistics. Returns the number of pixels.
   */
  method EvaluatePair(cm: ConfusionMatrix, stats: InstanceStats, labels: seq<Label>, pred: Image, gt: Image, inst: Image)
    returns (r: Result<nat, PairError>)
    requires cm.Valid() && Decoded(pred) && Decoded(gt) && Decoded(inst)
    requires inst.width == gt.width && inst.height == gt.height
    modifies cm.counts, stats
    ensures cm.Valid()
    ensures r == Failure(WidthMismatch) <==> pred.width != gt.width
    ensures r == Failure(HeightMismatch) <==> pred.width == gt.width && pred.height != gt.height
    ensures r.Success? ==> r.value == |gt.pixels| == |pred.pixels| == |inst.pixels|
    ensures r.Success? ==> PairOk(pred, gt, cm.evalLabels, cm.size)
    ensures r.Success? ==> Added(old(cm.Cells()), cm.Cells(), gt.pixels, pred.pixels)
    ensures r.Success? ==> ProcessImage(labels, AvgClassSize, old(stats.Value()), inst.pixels, pred.pixels) == Success(stats.Value())
    ensures r.Failure? ==> PairFails(labels, cm.evalLabels, cm.size, old(stats.Value()), pred, gt, inst, r.error)
  {
    if pred.width != gt.width {
      return Failure(WidthMismatch);
    }
    if pred.height != gt.height {
      return Failure(HeightMismatch);
    }
    var nbPixels := pred.width * pred.height;
    ghost var start := stats.Value();
    var added := CountPixels(cm, gt.pixels, pred.pixels);
    if added.Failure? {
      return Failure(Pixel(added.error));
    }
    assert stats.Value() == start;
    assert PairOk(pred, gt, cm.evalLabels, cm.size);
    ghost var counts := cm.Cells();
    var counted := stats.AddInstances(labels, AvgClassSize, inst.pixels, pred.pixels);
    assert cm.Cells() == counts;
    if counted.Fail? {
      return Failure(Instance(counted.error));
    }
    return Success(nbPixels);
  }

  /** The per-pixel loop of `evaluatePair`, with what it does to each cell and what its errors point at. */
  method CountPixels(cm: ConfusionMatrix, gt: seq<nat>, pred: seq<nat>) returns (r: Result<nat, PixelError>)
    requires cm.Valid() && |gt| == |pred|
    modifies cm.counts
    ensures cm.Valid()
    ensures r.Success? ==> forall k :: 0 <= k < |gt| ==> gt[k] in cm.evalLabels && pred[k] < cm.size
    ensures r.Success? ==> Added(old(cm.Cells()), cm.Cells(), gt, pred)
    ensures r.Failure? && r.error.UnknownLabel? ==> r.error.id in gt && r.error.id !in cm.evalLabels
    ensures r.Failure? && r.error.PredictionOutOfRange? ==> r.error.id in pred && r.error.id >= cm.size
    ensures r.Failure? ==> exists k :: 0 <= k < |gt| && FirstUncountable(gt, pred, cm.evalLabels, cm.size, k, r.error)
  {
    ghost var before := cm.Cells();
    r := cm.AddPair(gt, pred);
    if r.Failure? {
      var k :| && 0 <= k < |gt| && cm.AllCountable(gt, pred, k) && !cm.Countable(gt[k], pred[k])
               && r.error == (if gt[k] !in cm.evalLabels then UnknownLabel(gt[k]) else PredictionOutOfRange(pred[k]));
      assert FirstUncountable(gt, pred, cm.evalLabels, cm.size, k, r.error);
    }
    if r.Success? {
      assert Fits(before, gt, pred, |gt|) by {
        forall k | 0 <= k < |gt|
          ensures gt[k] < |before| && pred[k] < |before|
        {
          assert cm.Countable(gt[k], pred[k]);
        }
      }
      PairAccumulated(before, cm.Cells(), gt, pred);
    }
  }

  /** What accumulating a whole pair does to each cell and to the total. */
  lemma PairAccumulated(before: seq<seq<nat>>, after: seq<seq<nat>>, gt: seq<nat>, pred: seq<nat>)
    requires IsSquare(before) && Fits(before, gt, pred, |gt|)
    requires after == Accumulate(before, gt, pred, |gt|)
    ensures Added(before, after, gt, pred)
  {
    AccumulateTotal(before, gt, pred, |gt|);
    forall i, j | 0 <= i < |before| && 0 <= j < |before|
      ensures after[i][j] == before[i][j] + Count(gt, pred, |gt|, i, j)
    {
      AccumulateCell(before, gt, pred, |gt|, i, j);
    }
  }

  /** The ids a category lists are evaluated ids. */
  lemma MemberIdsEvaluated(labels: seq<Label>, c: string, x: nat)
    requires x in NonNegativeIds(CategoryMembers(labels, c))
    ensures x in NonNegativeIds(labels)
  {
    var l :| l in CategoryMembers(labels, c) && l.id == x;
  }

  /** Every id a tracked category lists addresses a row of a matrix that covers all evaluated ids. */
  lemma TrackedIdsFit(labels: seq<Label>, s: Stats, m: seq<seq<nat>>)
    requires CategoriesMatch(labels, s) && Indexes(m, NonNegativeIds(labels))
    ensures forall c :: c in s.categories ==> Indexes(m, s.categories[c].labelIds)
  {
    forall c, k | c in s.categories && 0 <= k < |s.categories[c].labelIds|
      ensures s.categories[c].labelIds[k] < |m|
    {
      var lst := s.categories[c].labelIds;
      assert lst[k] in NonNegativeIds(CategoryMembers(labels, c));
      MemberIdFits(labels, c, m, lst[k]);
    }
  }

  /** An id a category lists addresses a row of a matrix that covers all evaluated ids. */
  lemma MemberIdFits(labels: seq<Label>, c: string, m: seq<seq<nat>>, x: nat)
    requires Indexes(m, NonNegativeIds(labels)) && x in NonNegativeIds(CategoryMembers(labels, c))
    ensures x < |m|
  {
    MemberIdsEvaluated(labels, c, x);
    var ids := NonNegativeIds(labels);
    var j :| 0 <= j < |ids| && ids[j] == x;
  }

  /**
   * `evaluateImgLists`: checks the lists match, builds the matrix and the
   * statistics, evaluates every pair in order (a failing pair aborts the
   * run), checks the matrix holds every pixel, and reports.
   */
  method EvaluateImgLists(labels: seq<Label>, preds: seq<Image>, gts: seq<Image>, insts: seq<Image>)
    returns (r: Result<Results, EvalError>)
    requires |insts| == |gts|
    requires forall k :: 0 <= k < |preds| ==> Decoded(preds[k])
    requires forall k :: 0 <= k < |gts| ==>
               Decoded(gts[k]) && Decoded(insts[k]) && insts[k].width == gts[k].width && insts[k].height == gts[k].height
    ensures r == Failure(ListLengthMismatch) <==> |preds| != |gts|
    ensures r == Failure(Setup(NoEvalLabels)) <==> |preds| == |gts| && NonNegativeIds(labels) == []
    ensures r.Failure? && r.error.Pair? ==>
              NonNegativeIds(labels) != []
              && Explains(labels, preds, gts, insts, InitialStats(labels), Max(NonNegativeIds(labels)) + 1,
                          r.error.index, r.error.pair)
    ensures r.Success? ==> |preds| == |gts| && SameSizes(preds, gts, insts, |gts|)
    ensures r.Success? ==> Evaluated(labels, preds, gts, insts, r.value)
  {
    if |preds| != |gts| {
      return Failure(ListLengthMismatch);
    }
    var generated := GenerateMatrix(labels);
    if generated.Failure? {
      assert generated.error == NoEvalLabels;
      return Failure(Setup(generated.error));
    }
    var cm := generated.value;
    var stats := new InstanceStats(labels);
    var run := EvaluatePairs(cm, stats, labels, preds, gts, insts);
    if run.Failure? {
      return Failure(Pair(run.error.0, run.error.1));
    }
    var res := ReportRun(cm, stats, labels, preds, gts, insts, run.value);
    return Success(res);
  }

  /** Lists of equal length whose images all decode, each instance image the size of its ground truth. */
  predicate Loadable(preds: seq<Image>, gts: seq<Image>, insts: seq<Image>) {
    && |preds| == |gts| == |insts|
    && forall k :: 0 <= k < |gts| ==>
         Decoded(preds[k]) && Decoded(gts[k]) && Decoded(insts[k])
         && insts[k].width == gts[k].width && insts[k].height == gts[k].height
  }

  /**
   * Pair `i` is the first pair the run rejects, and `e` is why: every pair
   * before it passed the checks of `evaluatePair` and its instance block, and
   * pair `i` fails on top of the statistics they produced.
   */
  predicate Explains(labels: seq<Label>, preds: seq<Image>, gts: seq<Image>, insts: seq<Image>, initial: Stats,
                     size: nat, i: nat, e: PairError) {
    && i < |gts| && i < |preds| && i < |insts|
    && SameSizes(preds, gts, insts, i)
    && (forall k :: 0 <= k < i ==> PairOk(preds[k], gts[k], NonNegativeIds(labels), size))
    && ProcessImages(labels, initial, preds, gts, insts, i).Success?
    && PairFails(labels, NonNegativeIds(labels), size, ProcessImages(labels, initial, preds, gts, insts, i).value,
                 preds[i], gts[i], insts[i], e)
  }

  /** Before the first pair: an all-zero matrix and the statistics as they are. */
  lemma NoPairsYet(m: seq<seq<nat>>, s: Stats, labels: seq<Label>, preds: seq<Image>, gts: seq<Image>, insts: seq<Image>)
    requires m == Zero(|m|)
    ensures Holds(m, s, labels, preds, gts, insts, s, 0, 0)
  {
    ZeroTotal(m);
  }

  /**
   * The state of the loop of `evaluateImgLists` after its first `i` pairs:
   * the pixel count, the matrix and the statistics hold exactly those pairs.
   */
  ghost predicate Progress(cm: ConfusionMatrix, stats: InstanceStats, labels: seq<Label>,
                           preds: seq<Image>, gts: seq<Image>, insts: seq<Image>, initial: Stats, i: nat, nbPixels: nat)
    reads cm, cm.counts, stats
  {
    cm.Valid() && Holds(cm.Cells(), stats.Value(), labels, preds, gts, insts, initial, i, nbPixels)
  }

  /**
   * `m` and `s` are the matrix and the statistics of the first `i` pairs,
   * which have `nbPixels` pixels and all passed the checks of `evaluatePair`.
   */
  ghost predicate Holds(m: seq<seq<nat>>, s: Stats, labels: seq<Label>,
                        preds: seq<Image>, gts: seq<Image>, insts: seq<Image>, initial: Stats, i: nat, nbPixels: nat)
  {
    && IsSquare(m) && SameSizes(preds, gts, insts, i)
    && (forall k :: 0 <= k < i ==> PairOk(preds[k], gts[k], NonNegativeIds(labels), |m|))
    && nbPixels == Total(m) == PixelTotal(gts, i)
    && (forall a, b :: 0 <= a < |m| && 0 <= b < |m| ==> m[a][b] == PairsCount(preds, gts, insts, i, a, b))
    && ProcessImages(labels, initial, preds, gts, insts, i) == Success(s)
  }

  /** The matrix of the first `i` pairs holds as many pixels as they have. */
  lemma SumSoFar(m: seq<seq<nat>>, s: Stats, labels: seq<Label>,
                 preds: seq<Image>, gts: seq<Image>, insts: seq<Image>, initial: Stats, i: nat, nbPixels: nat)
    requires Holds(m, s, labels, preds, gts, insts, initial, i, nbPixels)
    ensures Total(m) == nbPixels == PixelTotal(gts, i)
  {
  }

  /** Evaluating pair `i` on top of the first `i` pairs gives the first `i + 1` pairs. */
  lemma NextHolds(before: seq<seq<nat>>, after: seq<seq<nat>>, sBefore: Stats, sAfter: Stats, labels: seq<Label>,
                  preds: seq<Image>, gts: seq<Image>, insts: seq<Image>, initial: Stats, i: nat, nbPixels: nat)
    requires i < |preds| == |gts| == |insts|
    requires |gts[i].pixels| == |preds[i].pixels| == |insts[i].pixels|
    requires Holds(before, sBefore, labels, preds, gts, insts, initial, i, nbPixels)
    requires PairOk(preds[i], gts[i], NonNegativeIds(labels), |before|)
    requires Added(before, after, gts[i].pixels, preds[i].pixels)
    requires ProcessImage(labels, AvgClassSize, sBefore, insts[i].pixels, preds[i].pixels) == Success(sAfter)
    ensures Holds(after, sAfter, labels, preds, gts, insts, initial, i + 1, nbPixels + |gts[i].pixels|)
  {
    NextPairCounts(before, after, preds, gts, insts, i);
    NextPairTotal(nbPixels, nbPixels + |gts[i].pixels|, gts, i);
    NextPairsOk(before, after, labels, preds, gts, i);
    assert ProcessImages(labels, initial, preds, gts, insts, i + 1) == Success(sAfter);
  }

  /** The pairs that passed the checks stay passed once one more passes against a matrix of the same size. */
  lemma NextPairsOk(before: seq<seq<nat>>, after: seq<seq<nat>>, labels: seq<Label>,
                    preds: seq<Image>, gts: seq<Image>, i: nat)
    requires i < |preds| && i < |gts| && |after| == |before|
    requires forall k :: 0 <= k < i ==> PairOk(preds[k], gts[k], NonNegativeIds(labels), |before|)
    requires PairOk(preds[i], gts[i], NonNegativeIds(labels), |before|)
    ensures forall k :: 0 <= k < i + 1 ==> PairOk(preds[k], gts[k], NonNegativeIds(labels), |after|)
  {
  }

  /**
   * The loop of `evaluateImgLists`: evaluates every pair in order into the
   * fresh matrix and statistics, checking after each pair that the matrix
   * holds exactly the pixels seen so far. Fails with the index of the first
   * pair that cannot be evaluated.
   */
  method EvaluatePairs(cm: ConfusionMatrix, stats: InstanceStats, labels: seq<Label>,
                       preds: seq<Image>, gts: seq<Image>, insts: seq<Image>)
    returns (r: Result<nat, (nat, PairError)>)
    requires Loadable(preds, gts, insts)
    requires cm.Valid() && cm.Cells() == Zero(cm.size) && cm.evalLabels == NonNegativeIds(labels)
    modifies cm.counts, stats
    ensures cm.Valid()
    ensures r.Failure? ==> Explains(labels, preds, gts, insts, old(stats.Value()), cm.size, r.error.0, r.error.1)
    ensures r.Success? ==> Progress(cm, stats, labels, preds, gts, insts, old(stats.Value()), |gts|, r.value)
  {
    ghost var initial := stats.Value();
    var nbPixels := 0;
    var i := 0;
    NoPairsYet(cm.Cells(), stats.Value(), labels, preds, gts, insts);
    while i < |gts|
      invariant 0 <= i <= |gts|
      invariant Progress(cm, stats, labels, preds, gts, insts, initial, i, nbPixels)
    {
      var pair := EvaluatePairAt(cm, stats, labels, preds, gts, insts, initial, i, nbPixels);
      if pair.Failure? {
        assert Explains(labels, preds, gts, insts, initial, cm.size, i, pair.error);
        return Failure((i, pair.error));
      }
      nbPixels := pair.value;
      i := i + 1;
    }
    return Success(nbPixels);
  }

  /** The sanity check of the loop: the matrix holds exactly the pixels seen so far, so it never fails. */
  method CheckSum(cm: ConfusionMatrix, nbPixels: nat)
    requires cm.Valid() && Total(cm.Cells()) == nbPixels
    ensures cm.Valid() && cm.Cells() == old(cm.Cells())
  {
    var sum := cm.Sum();
    assert sum == nbPixels;
  }

  /**
   * Pair `i` after the pairs before it: the running pixel count, matrix and
   * statistics move on by one pair, and the sum check after the pair passes.
   */
  method EvaluatePairAt(cm: ConfusionMatrix, stats: InstanceStats, labels: seq<Label>,
                        preds: seq<Image>, gts: seq<Image>, insts: seq<Image>, ghost initial: Stats, i: nat, nbPixels: nat)
    returns (r: Result<nat, PairError>)
    requires Loadable(preds, gts, insts) && i < |gts|
    requires cm.evalLabels == NonNegativeIds(labels)
    requires Progress(cm, stats, labels, preds, gts, insts, initial, i, nbPixels)
    modifies cm.counts, stats
    ensures cm.Valid()
    ensures r.Failure? ==> Explains(labels, preds, gts, insts, initial, cm.size, i, r.error)
    ensures r.Success? ==> Progress(cm, stats, labels, preds, gts, insts, initial, i + 1, r.value)
  {
    ghost var before, sBefore := cm.Cells(), stats.Value();
    var pair := EvaluatePair(cm, stats, labels, preds[i], gts[i], insts[i]);
    if pair.Failure? {
      return Failure(pair.error);
    }
    var total := nbPixels + pair.value;
    ghost var after, sAfter := cm.Cells(), stats.Value();
    CheckSum(cm, total);
    NextHolds(before, after, sBefore, sAfter, labels, preds, gts, insts, initial, i, nbPixels);
    assert Progress(cm, stats, labels, preds, gts, insts, initial, i + 1, total);
    return Success(total);
  }

  /** The counts after pair `i` are those of the first `i + 1` pairs. */
  lemma NextPairCounts(before: seq<seq<nat>>, after: seq<seq<nat>>, preds: seq<Image>, gts: seq<Image>, insts: seq<Image>, i: nat)
    requires i < |preds| == |gts| == |insts| && SameSizes(preds, gts, insts, i)
    requires |gts[i].pixels| == |preds[i].pixels| == |insts[i].pixels|
    requires Added(before, after, gts[i].pixels, preds[i].pixels)
    requires forall a, b :: 0 <= a < |before| && 0 <= b < |before| ==> before[a][b] == PairsCount(preds, gts, insts, i, a, b)
    ensures SameSizes(preds, gts, insts, i + 1)
    ensures forall a, b :: 0 <= a < |after| && 0 <= b < |after| ==> after[a][b] == PairsCount(preds, gts, insts, i + 1, a, b)
  {
    assert SameSizes(preds, gts, insts, i + 1);
    forall a, b | 0 <= a < |after| && 0 <= b < |after|
      ensures after[a][b] == PairsCount(preds, gts, insts, i + 1, a, b)
    {
      assert after[a][b] == before[a][b] + Count(gts[i].pixels, preds[i].pixels, |gts[i].pixels|, a, b);
    }
  }

  /** The pixel total after pair `i` is that of the first `i + 1` pairs. */
  lemma NextPairTotal(before: nat, after: nat, gts: seq<Image>, i: nat)
    requires i < |gts| && before == PixelTotal(gts, i) && after == before + |gts[i].pixels|
    ensures after == PixelTotal(gts, i + 1)
  {
  }

  /** The result dictionary of a run whose pairs have all been evaluated into `cm` and `stats`. */
  method ReportRun(cm: ConfusionMatrix, stats: InstanceStats, labels: seq<Label>,
                   preds: seq<Image>, gts: seq<Image>, insts: seq<Image>, ghost nbPixels: nat)
    returns (res: Results)
    requires NonNegativeIds(labels) != [] && cm.size == Max(NonNegativeIds(labels)) + 1
    requires Progress(cm, stats, labels, preds, gts, insts, InitialStats(labels), |gts|, nbPixels)
    ensures Evaluated(labels, preds, gts, insts, res)
  {
    var m := cm.Snapshot();
    var s := stats.Value();
    ReportReady(labels, preds, gts, insts, m, s, nbPixels);
    res := BuildResults(labels, m, s);
  }

  /** After a complete run the matrix covers every evaluated id and every id a tracked category lists. */
  lemma ReportReady(labels: seq<Label>, preds: seq<Image>, gts: seq<Image>, insts: seq<Image>, m: seq<seq<nat>>, s: Stats,
                    nbPixels: nat)
    requires NonNegativeIds(labels) != [] && |m| == Max(NonNegativeIds(labels)) + 1
    requires Holds(m, s, labels, preds, gts, insts, InitialStats(labels), |gts|, nbPixels)
    ensures IsSquare(m) && Indexes(m, NonNegativeIds(labels))
    ensures forall c :: c in s.categories ==> Indexes(m, s.categories[c].labelIds)
    ensures nbPixels == Total(m) && ProcessImages(labels, InitialStats(labels), preds, gts, insts, |gts|) == Success(s)
  {
    var ids := NonNegativeIds(labels);
    ProcessImagesGrows(labels, InitialStats(labels), preds, gts, insts, |gts|);
    GrowsPreserves(labels, InitialStats(labels), s);
    assert Indexes(m, ids) by {
      forall k | 0 <= k < |ids| ensures ids[k] < |m| {
        assert ids[k] in ids;
      }
    }
    TrackedIdsFit(labels, s, m);
  }
}
