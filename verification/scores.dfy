/**
 * Scores derived from the confusion matrix and the instance statistics:
 * per-label and per-category IoU and instance-weighted IoU (nIoU), the
 * prior of a label and the (row-normalised) matrix cell. Python's
 * `float('nan')` sentinel is the `Undefined` score or `None`.
 */
module Scores {
  import opened Wrappers
  import opened SeqMath
  import opened Taxonomy
  import opened Matrix
  import opened Instances

  /**
   * An IoU score, kept as the three counts it is computed from, or `nan`.
   * Its value is tp / (tp + fp + fn) and its weight in the frequency
   * average is tp + fn, the ground-truth pixels.
   */
  datatype Score = Undefined | Defined(tp: real, fp: real, fn: real)
  {
    /** The float the score functions return (0 for a zero denominator, which `Iou` never builds). */
    function Value(): real
      requires Defined?
    {
      var denom := tp + fp + fn;
      if denom == 0.0 then 0.0 else tp / denom
    }

    /** The weight the score functions return alongside the value. */
    function Weight(): real
      requires Defined?
    {
      tp + fn
    }
  }

  /** Every evaluated id names a label: `id2label[l]` does not raise. */
  predicate AllKnown(labels: seq<Label>, ids: seq<nat>) {
    forall k :: 0 <= k < |ids| ==> LabelOf(labels, ids[k]).Some?
  }

  /** The evaluated ids built by `generateMatrix` all name a label. */
  lemma EvalLabelsKnown(labels: seq<Label>)
    ensures AllKnown(labels, NonNegativeIds(labels))
  {
    var ids := NonNegativeIds(labels);
    forall k | 0 <= k < |ids|
      ensures LabelOf(labels, ids[k]).Some?
    {
      assert ids[k] in ids;
    }
  }

  /** Facts about the ratio `a / b` of a score. */
  lemma RatioFacts(a: real, b: real)
    requires b != 0.0
    ensures a >= 0.0 && b > 0.0 ==> a / b >= 0.0
    ensures 0.0 <= a <= b ==> a / b <= 1.0
    ensures a / b == 1.0 <==> a == b
  {
  }

  lemma SumOfRatios(a: real, c: real, b: real)
    requires b > 0.0
    ensures a / b + c / b == (a + c) / b
  {
  }

  /**
   * The score shared by all four IoU variants: tp / (tp + fp + fn), weighted
   * by tp + fn (the ground truth), undefined when the denominator is 0.
   */
  function Iou(tp: real, fp: real, fn: real): (r: Score)
    ensures r.Undefined? <==> tp + fp + fn == 0.0
    ensures r.Defined? ==> r.tp == tp && r.fp == fp && r.fn == fn
    ensures r.Defined? ==> r.Weight() == tp + fn
  {
    if tp + fp + fn == 0.0 then Undefined else Defined(tp, fp, fn)
  }

  /** With non-negative counts a defined score lies in [0, 1], and is 1 exactly when fp and fn are 0. */
  lemma ValueBounds(x: Score)
    requires x.Defined? && x.tp >= 0.0 && x.fp >= 0.0 && x.fn >= 0.0 && x.tp + x.fp + x.fn != 0.0
    ensures 0.0 <= x.Value() <= 1.0
    ensures x.Value() == 1.0 <==> x.fp == 0.0 && x.fn == 0.0
  {
    RatioFacts(x.tp, x.tp + x.fp + x.fn);
  }

  /** A list of ids each of which is in an in-range list is in range. */
  lemma SubIndexes(m: seq<seq<nat>>, sub: seq<nat>, ids: seq<nat>)
    requires Indexes(m, ids) && forall k :: 0 <= k < |sub| ==> sub[k] in ids
    ensures Indexes(m, sub)
  {
  }

  // ---------------------------------------------------------------------
  // The rows and columns the scores sum over.
  // ---------------------------------------------------------------------

  /** `[l for l in evalLabels if not id2label[l].ignoreInEval and not l == label]` */
  function NotIgnoredExcept(labels: seq<Label>, evalLabels: seq<nat>, labelId: nat): (rows: seq<nat>)
    ensures forall k :: 0 <= k < |rows| ==> rows[k] in evalLabels
  {
    if |evalLabels| == 0 then []
    else
      var n := |evalLabels| - 1;
      var l := evalLabels[n];
      assert evalLabels == evalLabels[..n] + [l];
      NotIgnoredExcept(labels, evalLabels[..n], labelId) + (if l != labelId && Counted(labels, l) then [l] else [])
  }

  /** `[l for l in evalLabels if not id2label[l].ignoreInEval and id2label[l].category != category]` */
  function NotIgnoredOutside(labels: seq<Label>, evalLabels: seq<nat>, c: string): (rows: seq<nat>)
    ensures forall k :: 0 <= k < |rows| ==> rows[k] in evalLabels
  {
    if |evalLabels| == 0 then []
    else
      var n := |evalLabels| - 1;
      var l := evalLabels[n];
      assert evalLabels == evalLabels[..n] + [l];
      NotIgnoredOutside(labels, evalLabels[..n], c)
        + (if Counted(labels, l) && LabelOf(labels, l).value.category != c then [l] else [])
  }

  /** The fp rows of a label are exactly the evaluated, counted ids other than the label. */
  lemma {:induction false} NotIgnoredExceptMembers(labels: seq<Label>, evalLabels: seq<nat>, labelId: nat, x: nat)
    ensures x in NotIgnoredExcept(labels, evalLabels, labelId) <==> x in evalLabels && x != labelId && Counted(labels, x)
  {
    if |evalLabels| > 0 {
      var n := |evalLabels| - 1;
      assert evalLabels == evalLabels[..n] + [evalLabels[n]];
      NotIgnoredExceptMembers(labels, evalLabels[..n], labelId, x);
    }
  }

  /** The fp rows of a category are exactly the evaluated, counted ids of other categories. */
  lemma {:induction false} NotIgnoredOutsideMembers(labels: seq<Label>, evalLabels: seq<nat>, c: string, x: nat)
    ensures x in NotIgnoredOutside(labels, evalLabels, c)
            <==> x in evalLabels && Counted(labels, x) && LabelOf(labels, x).value.category != c
  {
    if |evalLabels| > 0 {
      var n := |evalLabels| - 1;
      assert evalLabels == evalLabels[..n] + [evalLabels[n]];
      NotIgnoredOutsideMembers(labels, evalLabels[..n], c, x);
    }
  }

  /** `[label.id for label in category2labels[c] if not label.ignoreInEval and label.id in evalLabels]` */
  function CategoryEvalIds(members: seq<Label>, evalLabels: seq<nat>): (ids: seq<nat>)
    ensures forall k :: 0 <= k < |ids| ==> ids[k] in evalLabels
  {
    if |members| == 0 then []
    else
      var n := |members| - 1;
      var l := members[n];
      CategoryEvalIds(members[..n], evalLabels)
        + (if !l.ignoreInEval && l.id >= 0 && l.id in evalLabels then [l.id] else [])
  }

  /** An id is among a category's evaluated ids iff it is evaluated and a non-ignored member carries it. */
  lemma {:induction false} CategoryEvalIdsMembers(members: seq<Label>, evalLabels: seq<nat>, x: nat)
    ensures x in CategoryEvalIds(members, evalLabels)
            <==> x in evalLabels && exists l :: l in members && !l.ignoreInEval && l.id == x
  {
    if |members| > 0 {
      var n := |members| - 1;
      var last := members[n];
      assert members == members[..n] + [last];
      CategoryEvalIdsMembers(members[..n], evalLabels, x);
    }
  }

  /** A category's evaluated ids are distinct when its members' ids are. */
  lemma {:induction false} CategoryEvalIdsDistinct(members: seq<Label>, evalLabels: seq<nat>)
    requires UniqueIds(members)
    ensures Distinct(CategoryEvalIds(members, evalLabels))
  {
    if |members| > 0 {
      var n := |members| - 1;
      var l := members[n];
      CategoryEvalIdsDistinct(members[..n], evalLabels);
      var init := CategoryEvalIds(members[..n], evalLabels);
      if !l.ignoreInEval && l.id >= 0 && l.id in evalLabels {
        CategoryEvalIdsMembers(members[..n], evalLabels, l.id);
        assert UniqueIds(members[..n]);
        forall o | o in members[..n]
          ensures o.id != l.id
        {
          var k :| 0 <= k < n && members[k] == o;
        }
        DistinctAppend(init, l.id);
      }
    }
  }

  /** The members of a category of a table with unique ids have unique ids. */
  lemma {:induction false} CategoryMembersUniqueIds(labels: seq<Label>, c: string)
    requires UniqueIds(labels)
    ensures UniqueIds(CategoryMembers(labels, c))
  {
    if |labels| > 0 {
      var n := |labels| - 1;
      assert UniqueIds(labels[..n]);
      CategoryMembersUniqueIds(labels[..n], c);
      var ms := CategoryMembers(labels, c);
      var init := CategoryMembers(labels[..n], c);
      assert ms == init || ms == init + [labels[n]];
      if ms != init {
        forall i | 0 <= i < |init|
          ensures init[i].id != labels[n].id
        {
          assert init[i] in labels[..n];
        }
      }
    }
  }

  // ---------------------------------------------------------------------
  // Per-label scores.
  // ---------------------------------------------------------------------

  /**
   * False positives of `labelId`: pixels predicted as it whose ground truth
   * is another evaluated label that is not ignored.
   */
  function LabelFp(labels: seq<Label>, evalLabels: seq<nat>, m: seq<seq<nat>>, labelId: nat): nat
    requires IsSquare(m) && Indexes(m, evalLabels) && labelId < |m|
  {
    var rows := NotIgnoredExcept(labels, evalLabels, labelId);
    SubIndexes(m, rows, evalLabels);
    BlockSum(m, rows, [labelId])
  }

  /**
   * `getIouScoreForLabel`: tp is the diagonal cell, fn the rest of the row,
   * fp as in `LabelFp`; the weight is the row sum. Undefined for an ignored
   * label and for an empty denominator.
   */
  function IouForLabel(labels: seq<Label>, evalLabels: seq<nat>, m: seq<seq<nat>>, labelId: nat): (r: Score)
    requires IsSquare(m) && Indexes(m, evalLabels) && labelId < |m|
    requires LabelOf(labels, labelId).Some?
    ensures r.Undefined? <==>
              LabelOf(labels, labelId).value.ignoreInEval
              || (RowSum(m[labelId]) == 0 && LabelFp(labels, evalLabels, m, labelId) == 0)
    ensures r.Defined? ==> r.Weight() == RowSum(m[labelId]) as real
  {
    if LabelOf(labels, labelId).value.ignoreInEval then Undefined
    else
      var tp := m[labelId][labelId];
      CellWithinRow(m[labelId], labelId);
      Iou(tp as real, LabelFp(labels, evalLabels, m, labelId) as real, (RowSum(m[labelId]) - tp) as real)
  }

  /** A label score lies in [0, 1]. */
  lemma IouForLabelBounded(labels: seq<Label>, evalLabels: seq<nat>, m: seq<seq<nat>>, labelId: nat)
    requires IsSquare(m) && Indexes(m, evalLabels) && labelId < |m|
    requires LabelOf(labels, labelId).Some?
    requires IouForLabel(labels, evalLabels, m, labelId).Defined?
    ensures 0.0 <= IouForLabel(labels, evalLabels, m, labelId).Value() <= 1.0
  {
    var r := IouForLabel(labels, evalLabels, m, labelId);
    CountedIou(labels, evalLabels, m, labelId);
    ValueBounds(r);
  }

  /** A label scores exactly 1 iff it has no false positives and no false negatives. */
  lemma IouForLabelPerfect(labels: seq<Label>, evalLabels: seq<nat>, m: seq<seq<nat>>, labelId: nat)
    requires IsSquare(m) && Indexes(m, evalLabels) && labelId < |m|
    requires LabelOf(labels, labelId).Some?
    requires IouForLabel(labels, evalLabels, m, labelId).Defined?
    ensures IouForLabel(labels, evalLabels, m, labelId).Value() == 1.0
            <==> LabelFp(labels, evalLabels, m, labelId) == 0 && m[labelId][labelId] == RowSum(m[labelId])
  {
    var r := IouForLabel(labels, evalLabels, m, labelId);
    CountedIou(labels, evalLabels, m, labelId);
    ValueBounds(r);
  }

  /**
   * `getInstanceIouScoreForLabel`: as `IouForLabel`, with tp and fn the
   * instance-weighted counters of the label's class; undefined also when
   * the class is not tracked.
   */
  function InstanceIouForLabel(labels: seq<Label>, evalLabels: seq<nat>, m: seq<seq<nat>>, s: Stats, labelId: nat): (r: Score)
    requires IsSquare(m) && Indexes(m, evalLabels) && labelId < |m|
    requires LabelOf(labels, labelId).Some?
    ensures r.Defined? ==> !LabelOf(labels, labelId).value.ignoreInEval && LabelOf(labels, labelId).value.name in s.classes
    ensures r.Defined? ==> r.Weight() == s.classes[LabelOf(labels, labelId).value.name].tpWeighted
                                       + s.classes[LabelOf(labels, labelId).value.name].fnWeighted
    ensures var lbl := LabelOf(labels, labelId).value;
            r.Undefined? <==> || lbl.ignoreInEval || lbl.name !in s.classes
                              || s.classes[lbl.name].tpWeighted + LabelFp(labels, evalLabels, m, labelId) as real
                                 + s.classes[lbl.name].fnWeighted == 0.0
  {
    var lbl := LabelOf(labels, labelId).value;
    if lbl.ignoreInEval || lbl.name !in s.classes then Undefined
    else
      var c := s.classes[lbl.name];
      Iou(c.tpWeighted, LabelFp(labels, evalLabels, m, labelId) as real, c.fnWeighted)
  }

  /** With non-negative counters an instance score lies in [0, 1]. */
  lemma InstanceIouForLabelBounded(labels: seq<Label>, evalLabels: seq<nat>, m: seq<seq<nat>>, s: Stats, labelId: nat)
    requires IsSquare(m) && Indexes(m, evalLabels) && labelId < |m|
    requires LabelOf(labels, labelId).Some? && NonNegative(s)
    requires InstanceIouForLabel(labels, evalLabels, m, s, labelId).Defined?
    ensures 0.0 <= InstanceIouForLabel(labels, evalLabels, m, s, labelId).Value() <= 1.0
  {
    var c := s.classes[LabelOf(labels, labelId).value.name];
    assert c.tpWeighted >= 0.0 && c.fnWeighted >= 0.0;
    ValueBounds(InstanceIouForLabel(labels, evalLabels, m, s, labelId));
  }

  /** The score of a label that is not ignored, spelled out. */
  lemma CountedIou(labels: seq<Label>, evalLabels: seq<nat>, m: seq<seq<nat>>, labelId: nat)
    requires IsSquare(m) && Indexes(m, evalLabels) && labelId < |m|
    requires LabelOf(labels, labelId).Some? && !LabelOf(labels, labelId).value.ignoreInEval
    ensures m[labelId][labelId] <= RowSum(m[labelId])
    ensures IouForLabel(labels, evalLabels, m, labelId)
         == Iou(m[labelId][labelId] as real, LabelFp(labels, evalLabels, m, labelId) as real,
                (RowSum(m[labelId]) - m[labelId][labelId]) as real)
  {
    CellWithinRow(m[labelId], labelId);
  }

  /**
   * When the weighted counters of a class hold its raw pixel counts (every
   * weight 1), the instance score is the plain score: both share fp.
   */
  lemma InstanceIouUnweighted(labels: seq<Label>, evalLabels: seq<nat>, m: seq<seq<nat>>, s: Stats, labelId: nat)
    requires IsSquare(m) && Indexes(m, evalLabels) && labelId < |m|
    requires LabelOf(labels, labelId).Some? && LabelOf(labels, labelId).value.name in s.classes
    requires s.classes[LabelOf(labels, labelId).value.name].tpWeighted == m[labelId][labelId] as real
    requires s.classes[LabelOf(labels, labelId).value.name].fnWeighted == (RowSum(m[labelId]) - m[labelId][labelId]) as real
    ensures InstanceIouForLabel(labels, evalLabels, m, s, labelId) == IouForLabel(labels, evalLabels, m, labelId)
  {
    var lbl := LabelOf(labels, labelId).value;
    if !lbl.ignoreInEval {
      CountedIou(labels, evalLabels, m, labelId);
    }
  }

  // ---------------------------------------------------------------------
  // Per-category scores.
  // ---------------------------------------------------------------------

  /** False positives of a category: its columns `cols`, rows of counted labels of other categories. */
  function CategoryFp(labels: seq<Label>, evalLabels: seq<nat>, m: seq<seq<nat>>, c: string, cols: seq<nat>): nat
    requires IsSquare(m) && Indexes(m, evalLabels) && Indexes(m, cols)
  {
    var rows := NotIgnoredOutside(labels, evalLabels, c);
    SubIndexes(m, rows, evalLabels);
    BlockSum(m, rows, cols)
  }

  /**
   * The category score over evaluated ids `ids`: tp is the sum of their
   * block, fn the rest of their rows, fp as in `CategoryFp`; the weight is
   * tp + fn.
   */
  function CategoryIou(labels: seq<Label>, evalLabels: seq<nat>, m: seq<seq<nat>>, c: string, ids: seq<nat>): (r: Score)
    requires IsSquare(m) && Indexes(m, evalLabels) && Indexes(m, ids)
    ensures r.Defined? ==> r.Weight() == RowsSum(m, ids) as real
  {
    var tp := BlockSum(m, ids, ids);
    Iou(tp as real, CategoryFp(labels, evalLabels, m, c, ids) as real, (RowsSum(m, ids) - tp) as real)
  }

  /**
   * `getIouScoreForCategory`: `CategoryIou` over the category's evaluated,
   * non-ignored ids; undefined when it has none.
   */
  function IouForCategory(labels: seq<Label>, evalLabels: seq<nat>, m: seq<seq<nat>>, c: string): (r: Score)
    requires IsSquare(m) && Indexes(m, evalLabels)
    ensures CategoryEvalIds(CategoryMembers(labels, c), evalLabels) == [] ==> r.Undefined?
  {
    var ids := CategoryEvalIds(CategoryMembers(labels, c), evalLabels);
    if ids == [] then Undefined
    else
      SubIndexes(m, ids, evalLabels);
      CategoryIou(labels, evalLabels, m, c, ids)
  }

  /** In a table with unique ids a category score lies in [0, 1] and weighs the category's ground-truth pixels. */
  lemma IouForCategoryBounded(labels: seq<Label>, evalLabels: seq<nat>, m: seq<seq<nat>>, c: string)
    requires IsSquare(m) && Indexes(m, evalLabels) && UniqueIds(labels)
    requires IouForCategory(labels, evalLabels, m, c).Defined?
    ensures var ids := CategoryEvalIds(CategoryMembers(labels, c), evalLabels);
            Indexes(m, ids)
            && 0.0 <= IouForCategory(labels, evalLabels, m, c).Value() <= 1.0
            && IouForCategory(labels, evalLabels, m, c).Weight() == RowsSum(m, ids) as real
  {
    var ids := CategoryEvalIds(CategoryMembers(labels, c), evalLabels);
    SubIndexes(m, ids, evalLabels);
    CategoryMembersUniqueIds(labels, c);
    CategoryEvalIdsDistinct(CategoryMembers(labels, c), evalLabels);
    BlockWithinRows(m, ids, ids);
    EvaluatedCategoryIou(labels, evalLabels, m, c);
    SpelledCategoryIou(labels, evalLabels, m, c, ids);
    ValueBounds(IouForCategory(labels, evalLabels, m, c));
  }

  /**
   * A category score is undefined exactly when the category has no counted
   * evaluated ids, or when its rows and its fp cells are all empty.
   */
  lemma IouForCategoryUndefined(labels: seq<Label>, evalLabels: seq<nat>, m: seq<seq<nat>>, c: string)
    requires IsSquare(m) && Indexes(m, evalLabels)
    ensures var ids := CategoryEvalIds(CategoryMembers(labels, c), evalLabels);
            IouForCategory(labels, evalLabels, m, c).Undefined?
            <==> ids == [] || (Indexes(m, ids) && RowsSum(m, ids) == 0 && CategoryFp(labels, evalLabels, m, c, ids) == 0)
  {
    var ids := CategoryEvalIds(CategoryMembers(labels, c), evalLabels);
    if ids != [] {
      EvaluatedCategoryIou(labels, evalLabels, m, c);
      SpelledCategoryIou(labels, evalLabels, m, c, ids);
    }
  }

  /** A category with evaluated ids is scored over them. */
  lemma EvaluatedCategoryIou(labels: seq<Label>, evalLabels: seq<nat>, m: seq<seq<nat>>, c: string)
    requires IsSquare(m) && Indexes(m, evalLabels)
    requires CategoryEvalIds(CategoryMembers(labels, c), evalLabels) != []
    ensures Indexes(m, CategoryEvalIds(CategoryMembers(labels, c), evalLabels))
    ensures IouForCategory(labels, evalLabels, m, c)
         == CategoryIou(labels, evalLabels, m, c, CategoryEvalIds(CategoryMembers(labels, c), evalLabels))
  {
    SubIndexes(m, CategoryEvalIds(CategoryMembers(labels, c), evalLabels), evalLabels);
  }

  /** The category score over `ids`, spelled out. */
  lemma SpelledCategoryIou(labels: seq<Label>, evalLabels: seq<nat>, m: seq<seq<nat>>, c: string, ids: seq<nat>)
    requires IsSquare(m) && Indexes(m, evalLabels) && Indexes(m, ids)
    ensures CategoryIou(labels, evalLabels, m, c, ids)
         == Iou(BlockSum(m, ids, ids) as real, CategoryFp(labels, evalLabels, m, c, ids) as real,
                (RowsSum(m, ids) - BlockSum(m, ids, ids)) as real)
  {
  }

  /** The two row filters agree when, among counted ids, exactly `labelId` lies in category `c`. */
  lemma {:induction false} RowFiltersAgree(labels: seq<Label>, evalLabels: seq<nat>, labelId: nat, c: string)
    requires forall k :: 0 <= k < |evalLabels| && Counted(labels, evalLabels[k]) ==>
               (LabelOf(labels, evalLabels[k]).value.category == c <==> evalLabels[k] == labelId)
    ensures NotIgnoredOutside(labels, evalLabels, c) == NotIgnoredExcept(labels, evalLabels, labelId)
  {
    if |evalLabels| > 0 {
      var n := |evalLabels| - 1;
      RowFiltersAgree(labels, evalLabels[..n], labelId, c);
    }
  }

  /**
   * When `labelId` is the only evaluated, non-ignored id of category `c`, it
   * names a counted label of `c`, and the rows outside `c` are the rows other
   * than `labelId`.
   */
  lemma SingletonRows(labels: seq<Label>, evalLabels: seq<nat>, c: string, labelId: nat)
    requires UniqueIds(labels)
    requires CategoryEvalIds(CategoryMembers(labels, c), evalLabels) == [labelId]
    ensures Counted(labels, labelId)
    ensures NotIgnoredOutside(labels, evalLabels, c) == NotIgnoredExcept(labels, evalLabels, labelId)
  {
    var ids := [labelId];
    CategoryEvalIdsMembers(CategoryMembers(labels, c), evalLabels, labelId);
    var l :| l in CategoryMembers(labels, c) && !l.ignoreInEval && l.id == labelId;
    LabelOfFinds(labels, l);
    forall k | 0 <= k < |evalLabels| && Counted(labels, evalLabels[k])
      ensures LabelOf(labels, evalLabels[k]).value.category == c <==> evalLabels[k] == labelId
    {
      var x := evalLabels[k];
      var o := LabelOf(labels, x).value;
      if o.category == c {
        assert o in CategoryMembers(labels, c);
        CategoryEvalIdsMembers(CategoryMembers(labels, c), evalLabels, x);
      }
    }
    RowFiltersAgree(labels, evalLabels, labelId, c);
  }

  /** The block and the rows of a single id are its cell and its row. */
  lemma SingleBlock(m: seq<seq<nat>>, i: nat)
    requires IsSquare(m) && i < |m|
    ensures BlockSum(m, [i], [i]) == m[i][i]
    ensures RowsSum(m, [i]) == RowSum(m[i])
  {
    assert [i][..0] == [];
    assert Pick(m[i], [i]) == m[i][i];
  }

  /**
   * A category whose only evaluated, non-ignored label is `labelId` scores
   * exactly as that label.
   */
  lemma SingletonCategory(labels: seq<Label>, evalLabels: seq<nat>, m: seq<seq<nat>>, c: string, labelId: nat)
    requires IsSquare(m) && Indexes(m, evalLabels) && labelId < |m| && UniqueIds(labels)
    requires CategoryEvalIds(CategoryMembers(labels, c), evalLabels) == [labelId]
    ensures LabelOf(labels, labelId).Some?
    ensures IouForCategory(labels, evalLabels, m, c) == IouForLabel(labels, evalLabels, m, labelId)
  {
    SingletonRows(labels, evalLabels, c, labelId);
    OneIdCategoryIou(labels, evalLabels, m, c, labelId);
    assert IouForCategory(labels, evalLabels, m, c) == CategoryIou(labels, evalLabels, m, c, [labelId]);
  }

  /** Over the single id of a counted label, with the same fp rows, the category score is the label's. */
  lemma OneIdCategoryIou(labels: seq<Label>, evalLabels: seq<nat>, m: seq<seq<nat>>, c: string, labelId: nat)
    requires IsSquare(m) && Indexes(m, evalLabels) && labelId < |m| && Counted(labels, labelId)
    requires NotIgnoredOutside(labels, evalLabels, c) == NotIgnoredExcept(labels, evalLabels, labelId)
    ensures CategoryIou(labels, evalLabels, m, c, [labelId]) == IouForLabel(labels, evalLabels, m, labelId)
  {
    SingleBlock(m, labelId);
    assert CategoryFp(labels, evalLabels, m, c, [labelId]) == LabelFp(labels, evalLabels, m, labelId);
  }

  /**
   * `getInstanceIouScoreForCategory`: tp and fn are the category's weighted
   * counters, fp is `CategoryFp` over its recorded label ids; undefined
   * when the category is not tracked or the denominator is empty.
   */
  function InstanceIouForCategory(labels: seq<Label>, evalLabels: seq<nat>, m: seq<seq<nat>>, s: Stats, c: string): (r: Score)
    requires IsSquare(m) && Indexes(m, evalLabels)
    requires c in s.categories ==> Indexes(m, s.categories[c].labelIds)
    ensures r.Defined? ==> c in s.categories
    ensures r.Defined? ==> r.Weight() == s.categories[c].counters.tpWeighted + s.categories[c].counters.fnWeighted
    ensures r.Undefined? <==> || c !in s.categories
                              || s.categories[c].counters.tpWeighted
                                 + CategoryFp(labels, evalLabels, m, c, s.categories[c].labelIds) as real
                                 + s.categories[c].counters.fnWeighted == 0.0
  {
    if c !in s.categories then Undefined
    else
      var entry := s.categories[c];
      Iou(entry.counters.tpWeighted, CategoryFp(labels, evalLabels, m, c, entry.labelIds) as real, entry.counters.fnWeighted)
  }

  /** With non-negative counters a category instance score lies in [0, 1]. */
  lemma InstanceIouForCategoryBounded(labels: seq<Label>, evalLabels: seq<nat>, m: seq<seq<nat>>, s: Stats, c: string)
    requires IsSquare(m) && Indexes(m, evalLabels)
    requires c in s.categories ==> Indexes(m, s.categories[c].labelIds)
    requires NonNegative(s) && InstanceIouForCategory(labels, evalLabels, m, s, c).Defined?
    ensures 0.0 <= InstanceIouForCategory(labels, evalLabels, m, s, c).Value() <= 1.0
  {
    var entry := s.categories[c];
    assert entry.counters.tpWeighted >= 0.0 && entry.counters.fnWeighted >= 0.0;
    ValueBounds(InstanceIouForCategory(labels, evalLabels, m, s, c));
  }

  // ---------------------------------------------------------------------
  // Prior and matrix cells.
  // ---------------------------------------------------------------------

  /** `getPrior`: the share of all pixels whose ground truth is `label` (`nan` for an empty matrix). */
  function Prior(m: seq<seq<nat>>, labelId: nat): (r: Option<real>)
    requires labelId < |m|
    ensures r.Some? <==> Total(m) > 0
    ensures r.Some? ==> 0.0 <= r.value <= 1.0
  {
    if Total(m) == 0 then None
    else
      RowWithinTotal(m, labelId);
      Some(RowSum(m[labelId]) as real / Total(m) as real)
  }

  /** The priors of the first `k` labels, summed. */
  ghost function PriorSum(m: seq<seq<nat>>, k: nat): real
    requires k <= |m| && Total(m) > 0
  {
    if k == 0 then 0.0 else PriorSum(m, k - 1) + Prior(m, k - 1).value
  }

  /** The first `k` rows of `m` hold `Total(m[..k])` pixels. */
  lemma {:induction false} PriorSumPrefix(m: seq<seq<nat>>, k: nat)
    requires k <= |m| && Total(m) > 0
    ensures PriorSum(m, k) == Total(m[..k]) as real / Total(m) as real
  {
    if k > 0 {
      PriorSumPrefix(m, k - 1);
      assert m[..k][..k - 1] == m[..k - 1];
      assert Total(m[..k]) == Total(m[..k - 1]) + RowSum(m[k - 1]);
      SumOfRatios(Total(m[..k - 1]) as real, RowSum(m[k - 1]) as real, Total(m) as real);
    }
  }

  /** On a non-empty matrix the priors of all labels sum to 1. */
  lemma PriorsSumToOne(m: seq<seq<nat>>)
    requires Total(m) > 0
    ensures PriorSum(m, |m|) == 1.0
  {
    PriorSumPrefix(m, |m|);
    assert m[..|m|] == m;
    RatioFacts(Total(m) as real, Total(m) as real);
  }

  /**
   * `getMatrixFieldValue`: the cell itself, or with `normalized` its share
   * of its row (`nan` for an empty row).
   */
  function MatrixFieldValue(m: seq<seq<nat>>, i: nat, j: nat, normalized: bool): (r: Option<real>)
    requires i < |m| && j < |m[i]|
    ensures !normalized ==> r == Some(m[i][j] as real)
    ensures normalized ==> (r.None? <==> RowSum(m[i]) == 0)
    ensures normalized && r.Some? ==> 0.0 <= r.value <= 1.0
  {
    if normalized then
      if RowSum(m[i]) == 0 then None
      else
        CellWithinRow(m[i], j);
        Some(m[i][j] as real / RowSum(m[i]) as real)
    else Some(m[i][j] as real)
  }

  /** The normalised values of the first `k` cells of row `i`, summed. */
  ghost function NormalizedRowSum(m: seq<seq<nat>>, i: nat, k: nat): real
    requires i < |m| && k <= |m[i]| && RowSum(m[i]) > 0
  {
    if k == 0 then 0.0 else NormalizedRowSum(m, i, k - 1) + MatrixFieldValue(m, i, k - 1, true).value
  }

  lemma {:induction false} NormalizedRowPrefix(m: seq<seq<nat>>, i: nat, k: nat)
    requires i < |m| && k <= |m[i]| && RowSum(m[i]) > 0
    ensures NormalizedRowSum(m, i, k) == RowSum(m[i][..k]) as real / RowSum(m[i]) as real
  {
    if k > 0 {
      NormalizedRowPrefix(m, i, k - 1);
      assert m[i][..k][..k - 1] == m[i][..k - 1];
      assert RowSum(m[i][..k]) == RowSum(m[i][..k - 1]) + m[i][k - 1];
      SumOfRatios(RowSum(m[i][..k - 1]) as real, m[i][k - 1] as real, RowSum(m[i]) as real);
    }
  }

  /** A non-empty row of the normalised matrix sums to 1. */
  lemma NormalizedRowSumsToOne(m: seq<seq<nat>>, i: nat)
    requires i < |m| && RowSum(m[i]) > 0
    ensures NormalizedRowSum(m, i, |m[i]|) == 1.0
  {
    NormalizedRowPrefix(m, i, |m[i]|);
    assert m[i][..|m[i]|] == m[i];
    RatioFacts(RowSum(m[i]) as real, RowSum(m[i]) as real);
  }
}
