/**
 * Instance-level statistics: per tracked class and per tracked category,
 * raw and size-weighted true-positive / false-negative pixel counts,
 * accumulated instance by instance from the ground-truth instance map.
 * The step for one instance is the function `AddInstance`; the dictionary
 * the evaluation mutates in place is the class `InstanceStats`.
 */
module Instances {
  import opened Wrappers
  import opened SeqMath
  import opened Taxonomy

  /** Raw and weighted true-positive / false-negative pixel counts. */
  datatype Counters = Counters(tp: nat, fn: nat, tpWeighted: real, fnWeighted: real)

  const NoCounts := Counters(0, 0, 0.0, 0.0)

  /** A tracked category: its counters and the ids of its member labels. */
  datatype CategoryEntry = CategoryEntry(counters: Counters, labelIds: seq<nat>)

  /** `instanceStats["classes"]` (keyed by label name) and `instanceStats["categories"]`. */
  datatype Stats = Stats(classes: map<string, Counters>, categories: map<string, CategoryEntry>)

  /** Fatal lookups of the instance loop (Python's KeyError). */
  datatype InstanceError =
    | UnknownInstanceLabel(labelId: nat)   // `id2label[labelId]`
    | MissingAverageSize(name: string)     // `args.avgClassSize[label.name]`
    | UntrackedClass(name: string)         // `instanceStats["classes"][label.name]`

  /** Instance ids are `labelId * 1000 + index`; values up to 1000 lie outside every instance. */
  const InstanceBase: nat := 1000

  /** `args.avgClassSize`: the dataset-wide average pixel size of one instance, per class. */
  const AvgClassSize: map<string, real> := map[
    "bicycle"    :=  4672.3249222261,
    "caravan"    := 36771.8241758242,
    "motorcycle" :=  6298.7200839748,
    "rider"      :=  3930.4788056518,
    "bus"        := 35732.1511111111,
    "train"      := 67583.7075812274,
    "car"        := 12794.0202738185,
    "person"     :=  3462.4756337644,
    "truck"      := 27855.1264367816,
    "trailer"    := 16926.9763313609
  ]

  /** No average size is negative, so weights are never negative. */
  predicate NonNegativeSizes(avg: map<string, real>) {
    forall name :: name in avg ==> avg[name] >= 0.0
  }

  /** A label whose instances are scored. */
  predicate TrackedClass(l: Label) {
    l.hasInstances && !l.ignoreInEval
  }

  /** Every member with a non-negative id has instances. */
  predicate AllHaveInstances(members: seq<Label>) {
    forall k :: 0 <= k < |members| && members[k].id >= 0 ==> members[k].hasInstances
  }

  // ---------------------------------------------------------------------
  // Pixel counts over one instance mask (numpy's count_nonzero).
  // ---------------------------------------------------------------------

  /** `np.count_nonzero(instanceNp == id)`: the size of the instance. */
  function Occurrences(inst: seq<nat>, id: nat): (c: nat)
    ensures c <= |inst|
    ensures c > 0 <==> id in inst
  {
    if |inst| == 0 then 0
    else
      var n := |inst| - 1;
      assert inst == inst[..n] + [inst[n]];
      Occurrences(inst[..n], id) + (if inst[n] == id then 1 else 0)
  }

  /** The pixels of instance `id` whose prediction is one of `targets`. */
  function MaskCount(inst: seq<nat>, pred: seq<nat>, id: nat, targets: seq<nat>): (c: nat)
    requires |inst| == |pred|
    ensures c <= Occurrences(inst, id)
  {
    if |inst| == 0 then 0
    else
      var n := |inst| - 1;
      MaskCount(inst[..n], pred[..n], id, targets) + (if inst[n] == id && pred[n] in targets then 1 else 0)
  }

  /** Predicting into a larger set of labels can only cover more of the instance. */
  lemma {:induction false} MaskCountMonotone(inst: seq<nat>, pred: seq<nat>, id: nat, small: seq<nat>, large: seq<nat>)
    requires |inst| == |pred|
    requires forall x :: x in small ==> x in large
    ensures MaskCount(inst, pred, id, small) <= MaskCount(inst, pred, id, large)
  {
    if |inst| > 0 {
      var n := |inst| - 1;
      MaskCountMonotone(inst[..n], pred[..n], id, small, large);
    }
  }

  /** The values of `inst` in `[lo, hi)`, each once, ascending. */
  function IdsFrom(inst: seq<nat>, lo: nat, hi: nat): (r: seq<nat>)
    ensures forall v :: v in r <==> v in inst && lo <= v < hi
    ensures forall i :: 0 <= i < |r| ==> lo <= r[i]
    ensures forall i, j :: 0 <= i < j < |r| ==> r[i] < r[j]
    decreases hi - lo
  {
    if lo >= hi then []
    else (if lo in inst then [lo] else []) + IdsFrom(inst, lo + 1, hi)
  }

  /** `np.unique(instanceNp[instanceNp > 1000])`: the instance ids present, ascending. */
  function InstanceIds(inst: seq<nat>): (r: seq<nat>)
    ensures forall v :: v in r <==> v in inst && v > InstanceBase
    ensures forall i, j :: 0 <= i < j < |r| ==> r[i] < r[j]
  {
    if |inst| == 0 then [] else IdsFrom(inst, InstanceBase + 1, Max(inst) + 1)
  }

  // ---------------------------------------------------------------------
  // One instance, and all instances of an image.
  // ---------------------------------------------------------------------

  /** Counters after adding `tp` and `fn` pixels, each weighted by `weight`. */
  function AddCounts(c: Counters, tp: nat, fn: nat, weight: real): Counters {
    Counters(c.tp + tp, c.fn + fn, c.tpWeighted + tp as real * weight, c.fnWeighted + fn as real * weight)
  }

  /**
   * The statistics after instance `instId` of the image: an instance whose
   * label is unknown aborts, one of an ignored label is skipped, the others
   * are counted by `AddTracked`.
   */
  function AddInstance(labels: seq<Label>, avg: map<string, real>, s: Stats,
                       inst: seq<nat>, pred: seq<nat>, instId: nat): (r: Result<Stats, InstanceError>)
    requires |inst| == |pred| && instId in inst
    ensures r.Success? ==> r.value.classes.Keys == s.classes.Keys && r.value.categories.Keys == s.categories.Keys
  {
    var labelId := instId / InstanceBase;
    match LabelOf(labels, labelId)
    case None => Failure(UnknownInstanceLabel(labelId))
    case Some(lbl) =>
      if lbl.ignoreInEval then Success(s) else AddTracked(lbl, labelId, avg, s, inst, pred, instId)
  }

  /**
   * Instance `instId` of label `lbl` (id `labelId`): its class gets the
   * pixels predicted as `labelId` as true positives, the rest as false
   * negatives, both weighted by `avg[name] / instSize`; a tracked category
   * gets the pixels predicted as any of its labels.
   */
  function AddTracked(lbl: Label, labelId: nat, avg: map<string, real>, s: Stats,
                      inst: seq<nat>, pred: seq<nat>, instId: nat): (r: Result<Stats, InstanceError>)
    requires |inst| == |pred| && instId in inst
    ensures r.Success? ==> r.value.classes.Keys == s.classes.Keys && r.value.categories.Keys == s.categories.Keys
  {
    var instSize := Occurrences(inst, instId);
    var tp := MaskCount(inst, pred, instId, [labelId]);
    if lbl.name !in avg then Failure(MissingAverageSize(lbl.name))
    else
      var weight := avg[lbl.name] / instSize as real;
      if lbl.name !in s.classes then Failure(UntrackedClass(lbl.name))
      else
        var classes := s.classes[lbl.name := AddCounts(s.classes[lbl.name], tp, instSize - tp, weight)];
        if lbl.category !in s.categories then Success(Stats(classes, s.categories))
        else
          var entry := s.categories[lbl.category];
          var catTp := MaskCount(inst, pred, instId, entry.labelIds);
          var entry' := entry.(counters := AddCounts(entry.counters, catTp, instSize - catTp, weight));
          Success(Stats(classes, s.categories[lbl.category := entry']))
  }

  /** The statistics after the instances `ids`, in order; the first failing lookup aborts. */
  function ApplyInstances(labels: seq<Label>, avg: map<string, real>, s: Stats,
                          inst: seq<nat>, pred: seq<nat>, ids: seq<nat>): Result<Stats, InstanceError>
    requires |inst| == |pred| && forall k :: 0 <= k < |ids| ==> ids[k] in inst
  {
    if |ids| == 0 then Success(s)
    else
      match ApplyInstances(labels, avg, s, inst, pred, ids[..|ids| - 1])
      case Failure(e) => Failure(e)
      case Success(s') => AddInstance(labels, avg, s', inst, pred, ids[|ids| - 1])
  }

  /** The instance block of `evaluatePair`: every instance of the image, ascending. */
  function ProcessImage(labels: seq<Label>, avg: map<string, real>, s: Stats,
                        inst: seq<nat>, pred: seq<nat>): Result<Stats, InstanceError>
    requires |inst| == |pred|
  {
    ApplyInstances(labels, avg, s, inst, pred, InstanceIds(inst))
  }

  // ---------------------------------------------------------------------
  // What one instance contributes.
  // ---------------------------------------------------------------------

  /** An instance of an ignored label changes nothing. */
  lemma IgnoredInstanceSkipped(labels: seq<Label>, avg: map<string, real>, s: Stats,
                               inst: seq<nat>, pred: seq<nat>, instId: nat)
    requires |inst| == |pred| && instId in inst
    requires LabelOf(labels, instId / InstanceBase).Some? && LabelOf(labels, instId / InstanceBase).value.ignoreInEval
    ensures AddInstance(labels, avg, s, inst, pred, instId) == Success(s)
  {
  }

  /** `tp * (a / size) + fn * (a / size) == a` when `tp + fn == size > 0`. */
  lemma WeightsAddUp(tp: nat, fn: nat, a: real, size: nat)
    requires size > 0 && tp + fn == size
    ensures tp as real * (a / size as real) + fn as real * (a / size as real) == a
  {
    calc {
      tp as real * (a / size as real) + fn as real * (a / size as real);
      (tp + fn) as real * (a / size as real);
      size as real * (a / size as real);
      a;
    }
  }

  /** The raw counters grow by `size` and the weighted ones by `a` when `tp + fn == size > 0`. */
  lemma AddCountsTotals(c: Counters, tp: nat, fn: nat, a: real, size: nat)
    requires size > 0 && tp + fn == size
    ensures var c' := AddCounts(c, tp, fn, a / size as real);
            && c'.tp + c'.fn == c.tp + c.fn + size
            && c'.tpWeighted + c'.fnWeighted == c.tpWeighted + c.fnWeighted + a
  {
    WeightsAddUp(tp, fn, a, size);
  }

  /**
   * A counted instance failing no lookup adds exactly its size to its
   * class's raw counters and exactly the class's average size to its
   * weighted counters: every instance carries the same total weight,
   * whatever its size.
   */
  lemma InstanceClassTotals(lbl: Label, labelId: nat, avg: map<string, real>, s: Stats,
                            inst: seq<nat>, pred: seq<nat>, instId: nat)
    requires |inst| == |pred| && instId in inst
    requires AddTracked(lbl, labelId, avg, s, inst, pred, instId).Success?
    ensures lbl.name in avg && lbl.name in s.classes
    ensures var before := s.classes[lbl.name];
            var after := AddTracked(lbl, labelId, avg, s, inst, pred, instId).value.classes[lbl.name];
            && after.tp + after.fn == before.tp + before.fn + Occurrences(inst, instId)
            && after.tpWeighted + after.fnWeighted == before.tpWeighted + before.fnWeighted + avg[lbl.name]
  {
    var instSize := Occurrences(inst, instId);
    var tp := MaskCount(inst, pred, instId, [labelId]);
    AddCountsTotals(s.classes[lbl.name], tp, instSize - tp, avg[lbl.name], instSize);
  }

  /** Every tracked category lists exactly its members with a non-negative id. */
  ghost predicate CategoriesMatch(labels: seq<Label>, s: Stats) {
    forall c :: c in s.categories ==> s.categories[c].labelIds == NonNegativeIds(CategoryMembers(labels, c))
  }

  /**
   * For the tracked category of a label of the dataset, the instance adds its
   * size to catTp + catFn and the label's average size to the weighted pair,
   * and its catTp (pixels predicted as any label of the category) is at least
   * its class tp (pixels predicted as its own label).
   */
  lemma InstanceCategoryTotals(labels: seq<Label>, lbl: Label, labelId: nat, avg: map<string, real>, s: Stats,
                               inst: seq<nat>, pred: seq<nat>, instId: nat)
    requires |inst| == |pred| && instId in inst
    requires lbl in labels && lbl.id == labelId && CategoriesMatch(labels, s)
    requires AddTracked(lbl, labelId, avg, s, inst, pred, instId).Success?
    requires lbl.category in s.categories
    ensures var s' := AddTracked(lbl, labelId, avg, s, inst, pred, instId).value;
            var before := s.categories[lbl.category].counters;
            var after := s'.categories[lbl.category].counters;
            && after.tp + after.fn == before.tp + before.fn + Occurrences(inst, instId)
            && after.tpWeighted + after.fnWeighted == before.tpWeighted + before.fnWeighted + avg[lbl.name]
            && after.tp - before.tp >= s'.classes[lbl.name].tp - s.classes[lbl.name].tp
  {
    var instSize := Occurrences(inst, instId);
    var entry := s.categories[lbl.category];
    CategoryListsLabel(labels, s, lbl);
    MaskCountMonotone(inst, pred, instId, [labelId], entry.labelIds);
    var tp := MaskCount(inst, pred, instId, [labelId]);
    var catTp := MaskCount(inst, pred, instId, entry.labelIds);
    var s' := AddTracked(lbl, labelId, avg, s, inst, pred, instId).value;
    assert s'.classes[lbl.name].tp == s.classes[lbl.name].tp + tp;
    CategoryCountersAdded(lbl, labelId, avg, s, inst, pred, instId);
    CategoryWeightsAdded(lbl, labelId, avg, s, inst, pred, instId);
  }

  /** The weighted pair of a label's tracked category grows by the label's average size. */
  lemma CategoryWeightsAdded(lbl: Label, labelId: nat, avg: map<string, real>, s: Stats,
                             inst: seq<nat>, pred: seq<nat>, instId: nat)
    requires |inst| == |pred| && instId in inst
    requires AddTracked(lbl, labelId, avg, s, inst, pred, instId).Success? && lbl.category in s.categories
    ensures lbl.name in avg
    ensures var before := s.categories[lbl.category].counters;
            var after := AddTracked(lbl, labelId, avg, s, inst, pred, instId).value.categories[lbl.category].counters;
            after.tpWeighted + after.fnWeighted == before.tpWeighted + before.fnWeighted + avg[lbl.name]
  {
    var entry := s.categories[lbl.category];
    var instSize := Occurrences(inst, instId);
    var catTp := MaskCount(inst, pred, instId, entry.labelIds);
    CategoryCountersAdded(lbl, labelId, avg, s, inst, pred, instId);
    AddCountsTotals(entry.counters, catTp, instSize - catTp, avg[lbl.name], instSize);
  }

  /** The counters of a label's tracked category after `AddTracked`, spelled out. */
  lemma CategoryCountersAdded(lbl: Label, labelId: nat, avg: map<string, real>, s: Stats,
                              inst: seq<nat>, pred: seq<nat>, instId: nat)
    requires |inst| == |pred| && instId in inst
    requires AddTracked(lbl, labelId, avg, s, inst, pred, instId).Success? && lbl.category in s.categories
    ensures lbl.name in avg
    ensures var entry := s.categories[lbl.category];
            var instSize := Occurrences(inst, instId);
            var catTp := MaskCount(inst, pred, instId, entry.labelIds);
            catTp <= instSize
            && AddTracked(lbl, labelId, avg, s, inst, pred, instId).value.categories[lbl.category].counters
               == AddCounts(entry.counters, catTp, instSize - catTp, avg[lbl.name] / instSize as real)
  {
  }

  /** A tracked category lists the id of each of its labels that has a non-negative id. */
  lemma CategoryListsLabel(labels: seq<Label>, s: Stats, lbl: Label)
    requires lbl in labels && lbl.id >= 0 && CategoriesMatch(labels, s) && lbl.category in s.categories
    ensures lbl.id in s.categories[lbl.category].labelIds
  {
    assert lbl in CategoryMembers(labels, lbl.category);
  }

  // ---------------------------------------------------------------------
  // The counters only grow.
  // ---------------------------------------------------------------------

  ghost predicate CountersGrow(a: Counters, b: Counters) {
    a.tp <= b.tp && a.fn <= b.fn && a.tpWeighted <= b.tpWeighted && a.fnWeighted <= b.fnWeighted
  }

  /** Same keys and category label lists, no counter smaller. */
  ghost predicate Grows(s: Stats, s': Stats) {
    && s'.classes.Keys == s.classes.Keys
    && s'.categories.Keys == s.categories.Keys
    && (forall n :: n in s.classes ==> CountersGrow(s.classes[n], s'.classes[n]))
    && (forall c :: c in s.categories ==>
          CountersGrow(s.categories[c].counters, s'.categories[c].counters)
          && s'.categories[c].labelIds == s.categories[c].labelIds)
  }

  /** No weighted counter is negative. */
  ghost predicate NonNegative(s: Stats) {
    && (forall n :: n in s.classes ==> s.classes[n].tpWeighted >= 0.0 && s.classes[n].fnWeighted >= 0.0)
    && (forall c :: c in s.categories ==>
          s.categories[c].counters.tpWeighted >= 0.0 && s.categories[c].counters.fnWeighted >= 0.0)
  }

  lemma GrowsTransitive(s1: Stats, s2: Stats, s3: Stats)
    requires Grows(s1, s2) && Grows(s2, s3)
    ensures Grows(s1, s3)
  {
  }

  lemma AddCountsGrows(c: Counters, tp: nat, fn: nat, weight: real)
    requires weight >= 0.0
    ensures CountersGrow(c, AddCounts(c, tp, fn, weight))
  {
    assert tp as real * weight >= 0.0 && fn as real * weight >= 0.0;
  }

  /** With non-negative average sizes, a counted instance never decreases a counter. */
  lemma AddTrackedGrows(lbl: Label, labelId: nat, avg: map<string, real>, s: Stats,
                        inst: seq<nat>, pred: seq<nat>, instId: nat)
    requires |inst| == |pred| && instId in inst && NonNegativeSizes(avg)
    requires AddTracked(lbl, labelId, avg, s, inst, pred, instId).Success?
    ensures Grows(s, AddTracked(lbl, labelId, avg, s, inst, pred, instId).value)
  {
    var instSize := Occurrences(inst, instId);
    var weight := avg[lbl.name] / instSize as real;
    assert weight >= 0.0;
    var tp := MaskCount(inst, pred, instId, [labelId]);
    AddCountsGrows(s.classes[lbl.name], tp, instSize - tp, weight);
    if lbl.category in s.categories {
      var entry := s.categories[lbl.category];
      var catTp := MaskCount(inst, pred, instId, entry.labelIds);
      AddCountsGrows(entry.counters, catTp, instSize - catTp, weight);
    }
  }

  /** With non-negative average sizes, processing instances never decreases a counter. */
  lemma {:induction false} ApplyInstancesGrows(labels: seq<Label>, avg: map<string, real>, s: Stats,
                                               inst: seq<nat>, pred: seq<nat>, ids: seq<nat>)
    requires |inst| == |pred| && (forall k :: 0 <= k < |ids| ==> ids[k] in inst) && NonNegativeSizes(avg)
    requires ApplyInstances(labels, avg, s, inst, pred, ids).Success?
    ensures Grows(s, ApplyInstances(labels, avg, s, inst, pred, ids).value)
  {
    if |ids| > 0 {
      var init := ids[..|ids| - 1];
      ApplyInstancesGrows(labels, avg, s, inst, pred, init);
      var mid := ApplyInstances(labels, avg, s, inst, pred, init).value;
      var instId := ids[|ids| - 1];
      var labelId := instId / InstanceBase;
      var lbl := LabelOf(labels, labelId).value;
      if !lbl.ignoreInEval {
        AddTrackedGrows(lbl, labelId, avg, mid, inst, pred, instId);
      }
      GrowsTransitive(s, mid, ApplyInstances(labels, avg, s, inst, pred, ids).value);
    }
  }

  /** Growing keeps counters non-negative and category label lists as they were. */
  lemma GrowsPreserves(labels: seq<Label>, s: Stats, s': Stats)
    requires Grows(s, s')
    ensures NonNegative(s) ==> NonNegative(s')
    ensures CategoriesMatch(labels, s) ==> CategoriesMatch(labels, s')
  {
  }

  /** Processing one more instance is one more step of `AddInstance`. */
  lemma ApplyInstancesStep(labels: seq<Label>, avg: map<string, real>, s: Stats,
                           inst: seq<nat>, pred: seq<nat>, ids: seq<nat>, k: nat)
    requires |inst| == |pred| && (forall x :: 0 <= x < |ids| ==> ids[x] in inst) && k < |ids|
    requires ApplyInstances(labels, avg, s, inst, pred, ids[..k]).Success?
    ensures ApplyInstances(labels, avg, s, inst, pred, ids[..k + 1])
            == AddInstance(labels, avg, ApplyInstances(labels, avg, s, inst, pred, ids[..k]).value, inst, pred, ids[k])
  {
    assert ids[..k + 1][..k] == ids[..k];
  }

  /** An instance whose lookup fails ends the whole image with that failure. */
  lemma FailureAt(labels: seq<Label>, avg: map<string, real>, s: Stats,
                  inst: seq<nat>, pred: seq<nat>, ids: seq<nat>, k: nat, e: InstanceError)
    requires |inst| == |pred| && (forall x :: 0 <= x < |ids| ==> ids[x] in inst) && k < |ids|
    requires ApplyInstances(labels, avg, s, inst, pred, ids[..k]).Success?
    requires AddInstance(labels, avg, ApplyInstances(labels, avg, s, inst, pred, ids[..k]).value, inst, pred, ids[k]) == Failure(e)
    ensures ApplyInstances(labels, avg, s, inst, pred, ids) == Failure(e)
  {
    ApplyInstancesStep(labels, avg, s, inst, pred, ids, k);
    FailureSticks(labels, avg, s, inst, pred, ids, k + 1);
  }

  /** Once an instance lookup has failed, later instances are not processed. */
  lemma {:induction false} FailureSticks(labels: seq<Label>, avg: map<string, real>, s: Stats,
                                         inst: seq<nat>, pred: seq<nat>, ids: seq<nat>, k: nat)
    requires |inst| == |pred| && (forall x :: 0 <= x < |ids| ==> ids[x] in inst) && k <= |ids|
    requires ApplyInstances(labels, avg, s, inst, pred, ids[..k]).Failure?
    ensures ApplyInstances(labels, avg, s, inst, pred, ids) == ApplyInstances(labels, avg, s, inst, pred, ids[..k])
  {
    if k < |ids| {
      var init := ids[..|ids| - 1];
      assert init[..k] == ids[..k];
      FailureSticks(labels, avg, s, inst, pred, init, k);
    } else {
      assert ids[..k] == ids;
    }
  }

  // ---------------------------------------------------------------------
  // Building the dictionaries (`generateInstanceStats`).
  // ---------------------------------------------------------------------

  /** Zero counters for every label that has instances and is not ignored. */
  method TrackedClasses(labels: seq<Label>) returns (cl: map<string, Counters>)
    ensures forall name :: name in cl <==> exists l :: l in labels && l.name == name && TrackedClass(l)
    ensures forall name :: name in cl ==> cl[name] == NoCounts
    ensures cl == InitialStats(labels).classes
  {
    cl := map[];
    var i := 0;
    while i < |labels|
      invariant 0 <= i <= |labels|
      invariant forall name :: name in cl <==> exists l :: l in labels[..i] && l.name == name && TrackedClass(l)
      invariant forall name :: name in cl ==> cl[name] == NoCounts
    {
      assert labels[..i + 1] == labels[..i] + [labels[i]];
      if labels[i].hasInstances && !labels[i].ignoreInEval {
        cl := cl[labels[i].name := NoCounts];
      }
      i := i + 1;
    }
    assert labels[..i] == labels;
    SameClasses(cl, InitialStats(labels).classes);
  }

  lemma SameClasses(a: map<string, Counters>, b: map<string, Counters>)
    requires forall name :: name in a <==> name in b
    requires forall name :: name in a ==> a[name] == NoCounts && b[name] == NoCounts
    ensures a == b
  {
  }

  /**
   * Scans the members of a category: whether all of those with a
   * non-negative id have instances and, if so, their ids.
   */
  method CategoryIds(members: seq<Label>) returns (all: bool, ids: seq<nat>)
    ensures all <==> AllHaveInstances(members)
    ensures all ==> ids == NonNegativeIds(members)
  {
    ids := [];
    all := true;
    var j := 0;
    while j < |members|
      invariant 0 <= j <= |members|
      invariant AllHaveInstances(members[..j]) && ids == NonNegativeIds(members[..j])
    {
      assert members[..j + 1][..j] == members[..j];
      if members[j].id >= 0 {
        if !members[j].hasInstances {
          all := false;
          assert !members[j].hasInstances;
          return;
        }
        ids := ids + [members[j].id];
      }
      j := j + 1;
    }
    assert members[..j] == members;
  }

  /** Zero counters and member ids for every category whose labels all have instances. */
  method TrackedCategories(labels: seq<Label>) returns (ct: map<string, CategoryEntry>)
    ensures forall c :: c in ct <==> c in Categories(labels) && AllHaveInstances(CategoryMembers(labels, c))
    ensures forall c :: c in ct ==> ct[c] == CategoryEntry(NoCounts, NonNegativeIds(CategoryMembers(labels, c)))
    ensures ct == InitialStats(labels).categories
  {
    var cats := Categories(labels);
    ct := map[];
    var k := 0;
    while k < |cats|
      invariant 0 <= k <= |cats|
      invariant forall c :: c in ct <==> c in cats[..k] && AllHaveInstances(CategoryMembers(labels, c))
      invariant forall c :: c in ct ==> ct[c] == CategoryEntry(NoCounts, NonNegativeIds(CategoryMembers(labels, c)))
    {
      var all, ids := CategoryIds(CategoryMembers(labels, cats[k]));
      assert cats[..k + 1] == cats[..k] + [cats[k]];
      if all {
        ct := ct[cats[k] := CategoryEntry(NoCounts, ids)];
      }
      k := k + 1;
    }
    assert cats[..k] == cats;
    SameCategories(labels, ct);
  }

  lemma SameCategories(labels: seq<Label>, ct: map<string, CategoryEntry>)
    requires forall c :: c in ct <==> c in Categories(labels) && AllHaveInstances(CategoryMembers(labels, c))
    requires forall c :: c in ct ==> ct[c] == CategoryEntry(NoCounts, NonNegativeIds(CategoryMembers(labels, c)))
    ensures ct == InitialStats(labels).categories
  {
    var b := InitialStats(labels).categories;
    assert forall c :: c in ct <==> c in b;
  }

  /** The names of the tracked classes. */
  function TrackedNames(labels: seq<Label>): set<string> {
    set l | l in labels && TrackedClass(l) :: l.name
  }

  /**
   * The statistics `generateInstanceStats` builds: zero counters for every
   * tracked class and for every category whose labels all have instances,
   * each such category listing its members' non-negative ids.
   */
  function InitialStats(labels: seq<Label>): (s: Stats)
    ensures NonNegative(s) && CategoriesMatch(labels, s)
    ensures forall name :: name in s.classes <==> exists l :: l in labels && l.name == name && TrackedClass(l)
    ensures forall c :: c in s.categories <==> c in Categories(labels) && AllHaveInstances(CategoryMembers(labels, c))
    ensures forall name :: name in s.classes ==> s.classes[name] == NoCounts
    ensures forall c :: c in s.categories ==> s.categories[c].counters == NoCounts
  {
    Stats(
      map name | name in TrackedNames(labels) :: NoCounts,
      map c | c in Categories(labels) && AllHaveInstances(CategoryMembers(labels, c))
            :: CategoryEntry(NoCounts, NonNegativeIds(CategoryMembers(labels, c))))
  }

  /** The average sizes of the evaluation are all positive. */
  lemma AvgClassSizeNonNegative()
    ensures NonNegativeSizes(AvgClassSize)
  {
  }

  /** With non-negative average sizes, the instance block of an image never decreases a counter. */
  lemma ProcessImageGrows(labels: seq<Label>, avg: map<string, real>, s: Stats, inst: seq<nat>, pred: seq<nat>)
    requires |inst| == |pred| && NonNegativeSizes(avg)
    requires ProcessImage(labels, avg, s, inst, pred).Success?
    ensures Grows(s, ProcessImage(labels, avg, s, inst, pred).value)
  {
    ApplyInstancesGrows(labels, avg, s, inst, pred, InstanceIds(inst));
  }

  // ---------------------------------------------------------------------
  // The dictionary the evaluation updates in place.
  // ---------------------------------------------------------------------

  class InstanceStats {
    var classes: map<string, Counters>
    var categories: map<string, CategoryEntry>

    function Value(): Stats
      reads this
    {
      Stats(classes, categories)
    }

    /** `generateInstanceStats`: all counters zero, category member ids recorded. */
    constructor (labels: seq<Label>)
      ensures Value() == InitialStats(labels)
    {
      var cl := TrackedClasses(labels);
      var ct := TrackedCategories(labels);
      classes, categories := cl, ct;
    }

    /**
     * One instance of the image, updating the counters in place; a failed
     * lookup leaves them unchanged.
     */
    method AddOne(labels: seq<Label>, avg: map<string, real>, inst: seq<nat>, pred: seq<nat>, instId: nat)
      returns (r: Outcome<InstanceError>)
      requires |inst| == |pred| && instId in inst
      modifies this
      ensures r.Pass? ==> AddInstance(labels, avg, old(Value()), inst, pred, instId) == Success(Value())
      ensures r.Fail? ==> AddInstance(labels, avg, old(Value()), inst, pred, instId) == Failure(r.error)
      ensures r.Fail? ==> Value() == old(Value())
    {
      var labelId := instId / InstanceBase;
      var found := LabelOf(labels, labelId);
      if found.None? {
        return Fail(UnknownInstanceLabel(labelId));
      }
      var lbl := found.value;
      if lbl.ignoreInEval {
        return Pass;
      }
      var instSize := Occurrences(inst, instId);
      var tp := MaskCount(inst, pred, instId, [labelId]);
      var fn := instSize - tp;
      if lbl.name !in avg {
        return Fail(MissingAverageSize(lbl.name));
      }
      var weight := avg[lbl.name] / instSize as real;
      if lbl.name !in classes {
        return Fail(UntrackedClass(lbl.name));
      }
      classes := classes[lbl.name := AddCounts(classes[lbl.name], tp, fn, weight)];
      if lbl.category in categories {
        var entry := categories[lbl.category];
        var catTp := MaskCount(inst, pred, instId, entry.labelIds);
        var catFn := instSize - catTp;
        categories := categories[lbl.category := entry.(counters := AddCounts(entry.counters, catTp, catFn, weight))];
      }
      return Pass;
    }

    /**
     * Instance `ids[k]` after the instances before it: processing goes on
     * from the new counters, or the failure is that of the whole image.
     */
    method AddAt(labels: seq<Label>, avg: map<string, real>, inst: seq<nat>, pred: seq<nat>,
                 ghost start: Stats, ids: seq<nat>, k: nat)
      returns (r: Outcome<InstanceError>)
      requires |inst| == |pred| && (forall x :: 0 <= x < |ids| ==> ids[x] in inst) && k < |ids|
      requires ApplyInstances(labels, avg, start, inst, pred, ids[..k]) == Success(Value())
      modifies this
      ensures r.Pass? ==> ApplyInstances(labels, avg, start, inst, pred, ids[..k + 1]) == Success(Value())
      ensures r.Fail? ==> ApplyInstances(labels, avg, start, inst, pred, ids) == Failure(r.error)
    {
      r := AddOne(labels, avg, inst, pred, ids[k]);
      if r.Fail? {
        FailureAt(labels, avg, start, inst, pred, ids, k, r.error);
      } else {
        ApplyInstancesStep(labels, avg, start, inst, pred, ids, k);
      }
    }

    /**
     * The instance block of `evaluatePair`: visits the image's instance ids
     * in ascending order; a failed lookup aborts, leaving the instances
     * before it counted.
     */
    method AddInstances(labels: seq<Label>, avg: map<string, real>, inst: seq<nat>, pred: seq<nat>)
      returns (r: Outcome<InstanceError>)
      requires |inst| == |pred|
      modifies this
      ensures r.Pass? ==> ProcessImage(labels, avg, old(Value()), inst, pred) == Success(Value())
      ensures r.Fail? ==> ProcessImage(labels, avg, old(Value()), inst, pred) == Failure(r.error)
    {
      var ids := InstanceIds(inst);
      ghost var start := Value();
      var k := 0;
      while k < |ids|
        invariant 0 <= k <= |ids|
        invariant ApplyInstances(labels, avg, start, inst, pred, ids[..k]) == Success(Value())
      {
        var step := AddAt(labels, avg, inst, pred, start, ids, k);
        if step.Fail? {
          return step;
        }
        k := k + 1;
      }
      assert ids[..k] == ids;
      return Pass;
    }
  }
}
