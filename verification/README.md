# Cityscapes pixel-level evaluation: a verified model of the scoring core

This project models the scoring engine of the Cityscapes pixel-level
semantic labelling evaluation
(`cityscapesscripts/evaluation/evalPixelLevelSemanticLabelingCustomAllBetween.py`)
in Dafny, and proves properties of it.

- **Confusion matrix** (`confusion.dfy`, `matrix.dfy`). `generateMatrix`
  collects the non-negative taxonomy ids (`evalLabels`) and allocates a zero
  matrix of side `max + 1`. It is a class over an `array2<nat>` that the
  pure-Python per-pixel loop of `evaluatePair` updates in place. Matrix values
  (`seq<seq<nat>>`) and the functions `Accumulate`, `Count` and `Total` are
  the specification of that loop.
- **Instance statistics** (`instances.dfy`). `generateInstanceStats` builds
  the tracked classes and categories. The instance block of `evaluatePair`
  visits every instance id above 1000 in ascending order. It adds raw and
  size-weighted tp/fn counts per class and per category. The step is the pure
  function `AddInstance`; the class `InstanceStats` holds the dictionaries
  the loop updates.
- **Scores** (`scores.dfy`). Per-label and per-category IoU and
  instance-weighted IoU, the prior and the (row-normalised) matrix field.
  They are functions over row, column and sub-matrix sums. A score keeps its
  three counts: its value is tp / (tp + fp + fn) and its weight is tp + fn.
  Python's `nan` is `Undefined`.
- **Averages** (`averages.dfy`). `getScoreAverage` and
  `getFreqScoreAverage` are loop methods proved equal to recursive
  specifications `Mean` and `FreqMean`. Their properties are proved about
  those: bounds, uniform lists, unit weights.
- **The run** (`evaluation.dfy`). `evaluatePair` and `evaluateImgLists`
  drive everything.
  - After every pair, the matrix holds exactly the pixel pairs seen so far,
    cell by cell, and its sum equals the running pixel count. So the sanity
    check of lines 582/595 can never fire.
  - The statistics are the fold of the instance block over the images.
  - The result holds every score list and average, computed from that matrix
    and those statistics.
  - Over a table with unique ids, every reported average is `nan` or lies in
    [0, 1].
- **The label taxonomy** (`taxonomy.dfy`). It is an immutable parameter: a
  sequence of `{id, name, category, hasInstances, ignoreInEval}` records.
  `id2label` and `category2labels` are lookups into it.

Fatal `printError` exits and Python exceptions are `Failure` results:
- unequal list lengths;
- `max([])`;
- unequal widths or heights;
- an unknown ground-truth label;
- a prediction past the last matrix column (numpy's `IndexError`);
- a failed dictionary lookup in the instance block.

A predicted value past the last matrix column aborts the run with numpy's
`IndexError` (line 710); it is not counted.

## Model

| member | source | states |
|---|---|---|
| SeqMath.Max | cityscapesscripts/evaluation/evalPixelLevelSemanticLabelingCustomAllBetween.py:188 | `max(args.evalLabels)` is an element of the list and no element exceeds it |
| Taxonomy.NonNegativeIds | cityscapesscripts/evaluation/evalPixelLevelSemanticLabelingCustomAllBetween.py:182-187 | an id is in `evalLabels` iff some label carries it and it is non-negative (ignored labels included); at most one entry per label |
| Taxonomy.NonNegativeIdsDistinct | cityscapesscripts/evaluation/evalPixelLevelSemanticLabelingCustomAllBetween.py:182-187 | with unique taxonomy ids, `evalLabels` has no duplicates |
| Taxonomy.LabelOf | cityscapesscripts/evaluation/evalPixelLevelSemanticLabelingCustomAllBetween.py:238 | `id2label[id]` yields a label of the table with that id, and fails exactly when no label has it |
| Taxonomy.LabelOfFinds | cityscapesscripts/evaluation/evalPixelLevelSemanticLabelingCustomAllBetween.py:721 | with unique ids, looking up a label's own id finds that label |
| Taxonomy.EvaluatedNamesDistinct | cityscapesscripts/evaluation/evalPixelLevelSemanticLabelingCustomAllBetween.py:384-386 | with unique ids and names, two evaluated ids have labels with different names, so the name-keyed result dictionaries hold one entry per evaluated id |
| Taxonomy.CategoryMembers | cityscapesscripts/evaluation/evalPixelLevelSemanticLabelingCustomAllBetween.py:323 | `category2labels[c]` holds exactly the labels of category `c` |
| Taxonomy.Categories | cityscapesscripts/evaluation/evalPixelLevelSemanticLabelingCustomAllBetween.py:634 | the keys of `category2labels`: every category of the table, each once |
| Matrix.Zero | cityscapesscripts/evaluation/evalPixelLevelSemanticLabelingCustomAllBetween.py:190 | an `n` x `n` matrix whose every cell is 0 |
| Matrix.Increment | cityscapesscripts/evaluation/evalPixelLevelSemanticLabelingCustomAllBetween.py:710 | `confMatrix[gt][pred] += 1` adds 1 to that cell and changes no other cell |
| Matrix.RowSumIncrement | cityscapesscripts/evaluation/evalPixelLevelSemanticLabelingCustomAllBetween.py:710 | one more pixel in a cell adds 1 to its row sum |
| Matrix.TotalIncrement | cityscapesscripts/evaluation/evalPixelLevelSemanticLabelingCustomAllBetween.py:710 | one more pixel in a cell adds 1 to the matrix sum |
| Matrix.AccumulateTotal | cityscapesscripts/evaluation/evalPixelLevelSemanticLabelingCustomAllBetween.py:706-710 | after the per-pixel loop has visited `n` pixels the matrix sum has grown by exactly `n` |
| Matrix.AccumulateCell | cityscapesscripts/evaluation/evalPixelLevelSemanticLabelingCustomAllBetween.py:706-710 | each cell grows by exactly the number of visited pixels with that ground truth and that prediction |
| Matrix.ZeroTotal | cityscapesscripts/evaluation/evalPixelLevelSemanticLabelingCustomAllBetween.py:190 | the fresh zero matrix sums to 0, matching `nbPixels = 0` at line 569 |
| Matrix.CellWithinRow | cityscapesscripts/evaluation/evalPixelLevelSemanticLabelingCustomAllBetween.py:243-249 | the diagonal cell never exceeds its row sum, so `fn = gt - tp` is never negative |
| Matrix.RowWithinTotal | cityscapesscripts/evaluation/evalPixelLevelSemanticLabelingCustomAllBetween.py:292 | a row sum never exceeds the matrix sum, so a prior is at most 1 |
| Matrix.PickWithinRow | cityscapesscripts/evaluation/evalPixelLevelSemanticLabelingCustomAllBetween.py:333 | summing distinct columns of a row never exceeds the row sum |
| Matrix.PickCovers | cityscapesscripts/evaluation/evalPixelLevelSemanticLabelingCustomAllBetween.py:333 | a listed column contributes its whole cell to the row's selection sum |
| Matrix.BlockWithinRows | cityscapesscripts/evaluation/evalPixelLevelSemanticLabelingCustomAllBetween.py:333-338 | with distinct category ids, the category's tp never exceeds the sum of its rows, so its fn is never negative |
| Matrix.BlockOfEmptyRows | cityscapesscripts/evaluation/evalPixelLevelSemanticLabelingCustomAllBetween.py:333 | rows that sum to zero give a zero sub-matrix |
| Confusion.ConfusionMatrix.constructor | cityscapesscripts/evaluation/evalPixelLevelSemanticLabelingCustomAllBetween.py:190 | a fresh `size` x `size` array, all zero |
| Confusion.ConfusionMatrix.AddPair | cityscapesscripts/evaluation/evalPixelLevelSemanticLabelingCustomAllBetween.py:706-710 | on success every pixel pair is countable and the matrix is `Accumulate` of the old one over all of them; on failure the first uncountable pixel is named (unknown ground truth before an out-of-range prediction) and exactly the pixels before it have been counted |
| Confusion.ConfusionMatrix.Bump | cityscapesscripts/evaluation/evalPixelLevelSemanticLabelingCustomAllBetween.py:710 | the in-place `+= 1` leaves the matrix equal to `Increment` of the old one |
| Confusion.ConfusionMatrix.Snapshot | cityscapesscripts/evaluation/evalPixelLevelSemanticLabelingCustomAllBetween.py:381 | `confMatrix.tolist()` returns exactly the current cells |
| Confusion.ConfusionMatrix.Sum | cityscapesscripts/evaluation/evalPixelLevelSemanticLabelingCustomAllBetween.py:582 | `confMatrix.sum()` returns the sum of the current cells |
| Confusion.GenerateMatrix | cityscapesscripts/evaluation/evalPixelLevelSemanticLabelingCustomAllBetween.py:181-190 | fails iff the table has no non-negative id; otherwise `evalLabels` is the non-negative ids in table order and the matrix is zero with side `max + 1` |
| Instances.Occurrences | cityscapesscripts/evaluation/evalPixelLevelSemanticLabelingCustomAllBetween.py:725-726 | the instance size is at most the image size and is positive iff the id occurs |
| Instances.MaskCount | cityscapesscripts/evaluation/evalPixelLevelSemanticLabelingCustomAllBetween.py:728 | the instance pixels predicted as one of the targets never exceed the instance size |
| Instances.MaskCountMonotone | cityscapesscripts/evaluation/evalPixelLevelSemanticLabelingCustomAllBetween.py:743 | predicting into a larger label set covers at least as many instance pixels, hence catTp >= tp |
| Instances.InstanceIds | cityscapesscripts/evaluation/evalPixelLevelSemanticLabelingCustomAllBetween.py:718 | `np.unique(instanceNp[instanceNp > 1000])`: exactly the values above 1000 that occur, strictly ascending |
| Instances.AddInstance | cityscapesscripts/evaluation/evalPixelLevelSemanticLabelingCustomAllBetween.py:720-723 | one instance step never adds or removes a tracked class or category |
| Instances.AddTracked | cityscapesscripts/evaluation/evalPixelLevelSemanticLabelingCustomAllBetween.py:725-752 | counting an instance never adds or removes a tracked class or category |
| Instances.IgnoredInstanceSkipped | cityscapesscripts/evaluation/evalPixelLevelSemanticLabelingCustomAllBetween.py:722-723 | an instance of an ignored label leaves the statistics unchanged |
| Instances.WeightsAddUp | cityscapesscripts/evaluation/evalPixelLevelSemanticLabelingCustomAllBetween.py:731-733 | tpWeighted + fnWeighted of an instance equals the class's average size |
| Instances.AddCountsTotals | cityscapesscripts/evaluation/evalPixelLevelSemanticLabelingCustomAllBetween.py:735-738 | the raw counters grow by the instance size in total and the weighted ones by the average size |
| Instances.InstanceClassTotals | cityscapesscripts/evaluation/evalPixelLevelSemanticLabelingCustomAllBetween.py:725-738 | a counted instance adds tp + fn = instance size and tpWeighted + fnWeighted = average size to its class |
| Instances.InstanceCategoryTotals | cityscapesscripts/evaluation/evalPixelLevelSemanticLabelingCustomAllBetween.py:740-752 | for a tracked category, catTp + catFn = instance size, the weighted catTp + catFn of the category grows by the average size of the class, and catTp >= the class tp |
| Instances.CategoryListsLabel | cityscapesscripts/evaluation/evalPixelLevelSemanticLabelingCustomAllBetween.py:206-212 | a tracked category lists the id of each of its labels with a non-negative id |
| Instances.AddCountsGrows | cityscapesscripts/evaluation/evalPixelLevelSemanticLabelingCustomAllBetween.py:735-738 | with a non-negative weight no counter decreases |
| Instances.AddTrackedGrows | cityscapesscripts/evaluation/evalPixelLevelSemanticLabelingCustomAllBetween.py:735-752 | counting one instance never decreases a counter and keeps every category's label list |
| Instances.ApplyInstancesGrows | cityscapesscripts/evaluation/evalPixelLevelSemanticLabelingCustomAllBetween.py:719-752 | counting any run of instances never decreases a counter |
| Instances.GrowsPreserves | cityscapesscripts/evaluation/evalPixelLevelSemanticLabelingCustomAllBetween.py:735-752 | growing statistics keep non-negative counters and unchanged category label lists |
| Instances.FailureAt | cityscapesscripts/evaluation/evalPixelLevelSemanticLabelingCustomAllBetween.py:721 | a failing lookup ends the instance block of the image with that error |
| Instances.FailureSticks | cityscapesscripts/evaluation/evalPixelLevelSemanticLabelingCustomAllBetween.py:719-752 | once a lookup has failed, later instances are not processed |
| Instances.TrackedClasses | cityscapesscripts/evaluation/evalPixelLevelSemanticLabelingCustomAllBetween.py:196-202 | a class is tracked iff some label of that name has instances and is not ignored; all its counters start at 0 |
| Instances.CategoryIds | cityscapesscripts/evaluation/evalPixelLevelSemanticLabelingCustomAllBetween.py:204-214 | reports whether every member with a non-negative id has instances, and then lists exactly those ids |
| Instances.TrackedCategories | cityscapesscripts/evaluation/evalPixelLevelSemanticLabelingCustomAllBetween.py:203-221 | a category is tracked iff every member with a non-negative id has instances; its counters start at 0 and it records those ids |
| Instances.InitialStats | cityscapesscripts/evaluation/evalPixelLevelSemanticLabelingCustomAllBetween.py:192-223 | the initial statistics track exactly those classes and categories, with zero, non-negative counters and matching label lists |
| Instances.AvgClassSizeNonNegative | cityscapesscripts/evaluation/evalPixelLevelSemanticLabelingCustomAllBetween.py:156-167 | every average class size is non-negative, so weights never are negative |
| Instances.ProcessImageGrows | cityscapesscripts/evaluation/evalPixelLevelSemanticLabelingCustomAllBetween.py:712-752 | the instance block of an image never decreases a counter |
| Instances.InstanceStats.constructor | cityscapesscripts/evaluation/evalPixelLevelSemanticLabelingCustomAllBetween.py:192-223 | the new statistics are the initial statistics of the table |
| Instances.InstanceStats.AddOne | cityscapesscripts/evaluation/evalPixelLevelSemanticLabelingCustomAllBetween.py:720-752 | the in-place dictionary updates for one instance leave the statistics equal to `AddInstance` of the old ones, or report its failure and leave them unchanged |
| Instances.InstanceStats.AddAt | cityscapesscripts/evaluation/evalPixelLevelSemanticLabelingCustomAllBetween.py:719 | after the loop has visited the first `k + 1` instances the statistics are the fold of `AddInstance` over them |
| Instances.InstanceStats.AddInstances | cityscapesscripts/evaluation/evalPixelLevelSemanticLabelingCustomAllBetween.py:712-752 | the instance block leaves the statistics equal to `ProcessImage` of the old ones, or reports its failure |
| Scores.EvalLabelsKnown | cityscapesscripts/evaluation/evalPixelLevelSemanticLabelingCustomAllBetween.py:606-608 | every evaluated id names a label, so `id2label[label]` never fails |
| Scores.Iou | cityscapesscripts/evaluation/evalPixelLevelSemanticLabelingCustomAllBetween.py:258-264 | the score is undefined iff its denominator is 0; otherwise it keeps its counts and weighs tp + fn |
| Scores.ValueBounds | cityscapesscripts/evaluation/evalPixelLevelSemanticLabelingCustomAllBetween.py:264 | with non-negative counts, tp / (tp + fp + fn) lies in [0, 1] and is 1 exactly when fp and fn are 0 |
| Scores.NotIgnoredExceptMembers | cityscapesscripts/evaluation/evalPixelLevelSemanticLabelingCustomAllBetween.py:255 | the fp rows of a label are exactly the evaluated, non-ignored ids other than the label |
| Scores.NotIgnoredOutsideMembers | cityscapesscripts/evaluation/evalPixelLevelSemanticLabelingCustomAllBetween.py:343 | the fp rows of a category are exactly the evaluated, non-ignored ids of other categories |
| Scores.CategoryEvalIds | cityscapesscripts/evaluation/evalPixelLevelSemanticLabelingCustomAllBetween.py:325 | every id of a category is an evaluated id |
| Scores.CategoryEvalIdsMembers | cityscapesscripts/evaluation/evalPixelLevelSemanticLabelingCustomAllBetween.py:325 | an id is among a category's ids exactly when it is evaluated and carried by a non-ignored member |
| Scores.CategoryEvalIdsDistinct | cityscapesscripts/evaluation/evalPixelLevelSemanticLabelingCustomAllBetween.py:325 | with unique member ids, a category's ids have no duplicates |
| Scores.CategoryMembersUniqueIds | cityscapesscripts/evaluation/evalPixelLevelSemanticLabelingCustomAllBetween.py:323 | the members of a category of a table with unique ids have unique ids |
| Scores.IouForLabel | cityscapesscripts/evaluation/evalPixelLevelSemanticLabelingCustomAllBetween.py:237-264 | undefined iff the label is ignored or both its row sum and its fp are 0; otherwise weighs its row sum |
| Scores.CountedIou | cityscapesscripts/evaluation/evalPixelLevelSemanticLabelingCustomAllBetween.py:243-264 | for a label that is not ignored, tp is the diagonal, fn the rest of the row and fp the non-ignored column cells of other rows |
| Scores.IouForLabelBounded | cityscapesscripts/evaluation/evalPixelLevelSemanticLabelingCustomAllBetween.py:237-264 | a defined label score lies in [0, 1] |
| Scores.IouForLabelPerfect | cityscapesscripts/evaluation/evalPixelLevelSemanticLabelingCustomAllBetween.py:237-264 | a label scores 1 iff it has no false positives and its whole row is on the diagonal |
| Scores.InstanceIouForLabel | cityscapesscripts/evaluation/evalPixelLevelSemanticLabelingCustomAllBetween.py:267-288 | `nan` exactly when the label is ignored, its class is not tracked, or tpWeighted + fp + fnWeighted is 0; a defined score weighs tpWeighted + fnWeighted |
| Scores.InstanceIouForLabelBounded | cityscapesscripts/evaluation/evalPixelLevelSemanticLabelingCustomAllBetween.py:267-288 | with non-negative counters a defined instance label score lies in [0, 1] |
| Scores.InstanceIouUnweighted | cityscapesscripts/evaluation/evalPixelLevelSemanticLabelingCustomAllBetween.py:267-288 | when the weighted counters equal the raw pixel counts, the instance score equals the plain score: both use the same fp |
| Scores.CategoryIou | cityscapesscripts/evaluation/evalPixelLevelSemanticLabelingCustomAllBetween.py:333-352 | a defined category score weighs the sum of the category's rows (tp + fn) |
| Scores.IouForCategory | cityscapesscripts/evaluation/evalPixelLevelSemanticLabelingCustomAllBetween.py:321-352 | a category without evaluated, non-ignored ids is undefined |
| Scores.IouForCategoryUndefined | cityscapesscripts/evaluation/evalPixelLevelSemanticLabelingCustomAllBetween.py:321-352 | a category score is undefined exactly when the category has no evaluated, non-ignored id or when its rows and its fp cells are all empty |
| Scores.IouForCategoryBounded | cityscapesscripts/evaluation/evalPixelLevelSemanticLabelingCustomAllBetween.py:321-352 | in a table with unique ids, a defined category score lies in [0, 1] and weighs the category's ground-truth pixels |
| Scores.RowFiltersAgree | cityscapesscripts/evaluation/evalPixelLevelSemanticLabelingCustomAllBetween.py:343 | the two fp row filters agree when, among counted ids, exactly the label lies in the category |
| Scores.SingletonRows | cityscapesscripts/evaluation/evalPixelLevelSemanticLabelingCustomAllBetween.py:325 | when one id is a category's only evaluated id, its label is counted and the category's fp rows are the label's |
| Scores.SingleBlock | cityscapesscripts/evaluation/evalPixelLevelSemanticLabelingCustomAllBetween.py:333-338 | the block and the rows of a single id are its diagonal cell and its row |
| Scores.OneIdCategoryIou | cityscapesscripts/evaluation/evalPixelLevelSemanticLabelingCustomAllBetween.py:333-352 | with the same fp rows, the category score over one id equals that label's score |
| Scores.SingletonCategory | cityscapesscripts/evaluation/evalPixelLevelSemanticLabelingCustomAllBetween.py:321-352 | a category whose only evaluated, non-ignored label is `l` scores exactly as `l` |
| Scores.InstanceIouForCategory | cityscapesscripts/evaluation/evalPixelLevelSemanticLabelingCustomAllBetween.py:355-374 | `nan` exactly when the category is not tracked or its tpWeighted + fp + fnWeighted is 0, with fp taken over its recorded ids; a defined score weighs its tpWeighted + fnWeighted |
| Scores.InstanceIouForCategoryBounded | cityscapesscripts/evaluation/evalPixelLevelSemanticLabelingCustomAllBetween.py:355-374 | with non-negative counters a defined instance category score lies in [0, 1] |
| Scores.Prior | cityscapesscripts/evaluation/evalPixelLevelSemanticLabelingCustomAllBetween.py:291-292 | a prior exists iff the matrix is not empty, and then lies in [0, 1] |
| Scores.PriorSumPrefix | cityscapesscripts/evaluation/evalPixelLevelSemanticLabelingCustomAllBetween.py:291-292 | the priors of the first `k` labels add up to the share of all pixels in the first `k` rows |
| Scores.PriorsSumToOne | cityscapesscripts/evaluation/evalPixelLevelSemanticLabelingCustomAllBetween.py:291-292 | on a non-empty matrix the priors of all rows sum to 1 |
| Scores.MatrixFieldValue | cityscapesscripts/evaluation/evalPixelLevelSemanticLabelingCustomAllBetween.py:227-234 | the raw value is the cell itself; the normalised one is undefined iff its row is empty and otherwise lies in [0, 1] |
| Scores.NormalizedRowPrefix | cityscapesscripts/evaluation/evalPixelLevelSemanticLabelingCustomAllBetween.py:228-232 | the first `k` normalised cells of a row add up to the share of the row in them |
| Scores.NormalizedRowSumsToOne | cityscapesscripts/evaluation/evalPixelLevelSemanticLabelingCustomAllBetween.py:228-232 | a non-empty row of the normalised matrix sums to 1 |
| Averages.AsEntry | cityscapesscripts/evaluation/evalPixelLevelSemanticLabelingCustomAllBetween.py:608 | a score list holds `(nan, nan)` exactly for an undefined score, and otherwise the score's weight |
| Averages.Entries | cityscapesscripts/evaluation/evalPixelLevelSemanticLabelingCustomAllBetween.py:605-608 | the list of pairs has one entry per score, in order |
| Averages.DefinedCount | cityscapesscripts/evaluation/evalPixelLevelSemanticLabelingCustomAllBetween.py:299-301 | the number of defined scores is at most the list length and is 0 iff every entry is `nan` |
| Averages.Mean | cityscapesscripts/evaluation/evalPixelLevelSemanticLabelingCustomAllBetween.py:296-305 | the plain average is `nan` iff every entry is `nan` |
| Averages.FreqMean | cityscapesscripts/evaluation/evalPixelLevelSemanticLabelingCustomAllBetween.py:309-318 | the weighted average is `nan` iff the defined weights sum to 0 |
| Averages.ScoreAverage | cityscapesscripts/evaluation/evalPixelLevelSemanticLabelingCustomAllBetween.py:296-305 | the counting loop returns exactly `Mean` of the list |
| Averages.FreqScoreAverage | cityscapesscripts/evaluation/evalPixelLevelSemanticLabelingCustomAllBetween.py:309-318 | the weighting loop returns exactly `FreqMean` of the list |
| Averages.DefinedSumBounds | cityscapesscripts/evaluation/evalPixelLevelSemanticLabelingCustomAllBetween.py:299-302 | scores in [0, 1] sum to between 0 and their count |
| Averages.MeanBounded | cityscapesscripts/evaluation/evalPixelLevelSemanticLabelingCustomAllBetween.py:296-305 | the mean of scores in [0, 1] lies in [0, 1] |
| Averages.UniformSum | cityscapesscripts/evaluation/evalPixelLevelSemanticLabelingCustomAllBetween.py:299-302 | when every defined score is `v` their sum is `v` repeated once per defined score |
| Averages.MeanUniform | cityscapesscripts/evaluation/evalPixelLevelSemanticLabelingCustomAllBetween.py:296-305 | when every defined score is `v` the mean is `v` |
| Averages.WeightedSumBounds | cityscapesscripts/evaluation/evalPixelLevelSemanticLabelingCustomAllBetween.py:312-315 | the weighted sum of such scores lies between 0 and the sum of their weights |
| Averages.FreqMeanBounded | cityscapesscripts/evaluation/evalPixelLevelSemanticLabelingCustomAllBetween.py:309-318 | the weighted mean of scores in [0, 1] with non-negative weights lies in [0, 1] |
| Averages.UniformWeightedSum | cityscapesscripts/evaluation/evalPixelLevelSemanticLabelingCustomAllBetween.py:312-315 | when every defined score is `v` the weighted sum is `v` times the total weight |
| Averages.FreqMeanUniform | cityscapesscripts/evaluation/evalPixelLevelSemanticLabelingCustomAllBetween.py:309-318 | when every defined score is `v` the weighted mean is `v` |
| Averages.UnitWeightSums | cityscapesscripts/evaluation/evalPixelLevelSemanticLabelingCustomAllBetween.py:312-315 | with every weight 1 the weight total is the defined count and the weighted sum is the plain sum |
| Averages.FreqMeanUnitWeights | cityscapesscripts/evaluation/evalPixelLevelSemanticLabelingCustomAllBetween.py:296-318 | with every weight 1 the weighted mean equals the plain mean |
| Averages.AveragesBounded | cityscapesscripts/evaluation/evalPixelLevelSemanticLabelingCustomAllBetween.py:296-318 | both averages of scores in [0, 1] with non-negative weights are `nan` or lie in [0, 1] |
| Evaluation.ProcessImagesGrows | cityscapesscripts/evaluation/evalPixelLevelSemanticLabelingCustomAllBetween.py:575-579 | the instance blocks of any number of images never decrease a counter |
| Evaluation.PriorList | cityscapesscripts/evaluation/evalPixelLevelSemanticLabelingCustomAllBetween.py:384-385 | one prior per evaluated id, in order |
| Evaluation.ClassScoreList | cityscapesscripts/evaluation/evalPixelLevelSemanticLabelingCustomAllBetween.py:605-608 | the label score of every evaluated id, in order |
| Evaluation.ClassInstScoreList | cityscapesscripts/evaluation/evalPixelLevelSemanticLabelingCustomAllBetween.py:611-614 | the instance label score of every evaluated id, in order |
| Evaluation.CategoryScoreList | cityscapesscripts/evaluation/evalPixelLevelSemanticLabelingCustomAllBetween.py:633-635 | the category score of every category, in order |
| Evaluation.CategoryInstScoreList | cityscapesscripts/evaluation/evalPixelLevelSemanticLabelingCustomAllBetween.py:638-640 | the instance category score of every category, in order |
| Evaluation.BuildResults | cityscapesscripts/evaluation/evalPixelLevelSemanticLabelingCustomAllBetween.py:378-394 | the result holds the matrix, every prior, score list and average, each computed from the matrix and the statistics |
| Evaluation.ClassScoresInRange | cityscapesscripts/evaluation/evalPixelLevelSemanticLabelingCustomAllBetween.py:605-608 | every defined class score lies in [0, 1] with a non-negative weight |
| Evaluation.ClassInstScoresInRange | cityscapesscripts/evaluation/evalPixelLevelSemanticLabelingCustomAllBetween.py:611-614 | with non-negative counters every defined instance class score lies in [0, 1] with a non-negative weight |
| Evaluation.CategoryScoresInRange | cityscapesscripts/evaluation/evalPixelLevelSemanticLabelingCustomAllBetween.py:633-635 | in a table with unique ids every defined category score lies in [0, 1] with a non-negative weight |
| Evaluation.CategoryInstScoresInRange | cityscapesscripts/evaluation/evalPixelLevelSemanticLabelingCustomAllBetween.py:638-640 | with non-negative counters every defined instance category score lies in [0, 1] with a non-negative weight |
| Evaluation.ReportedAveragesBounded | cityscapesscripts/evaluation/evalPixelLevelSemanticLabelingCustomAllBetween.py:391-394 | every average of a result built from non-negative counters over a table with unique ids is `nan` or lies in [0, 1] |
| Evaluation.EvaluatedAveragesBounded | cityscapesscripts/evaluation/evalPixelLevelSemanticLabelingCustomAllBetween.py:563-662 | every average a complete run reports over a table with unique ids is `nan` or lies in [0, 1] |
| Evaluation.EvaluatePair | cityscapesscripts/evaluation/evalPixelLevelSemanticLabelingCustomAllBetween.py:666-762 | fails on unequal widths, then on unequal heights; on success the pair passed every check (equal sizes, every ground-truth value evaluated, every prediction inside the matrix), it returns the pixel count, the matrix gained exactly the pixel pairs of the image and the statistics are `ProcessImage` of the old ones; a failure is explained by `PairFails`: the error of the first pixel the loop cannot count (a ground-truth value that is not evaluated, checked before a prediction past the last column), or an instance block that fails on the old statistics after all pixel checks passed |
| Evaluation.PairFailsExcludesSuccess | cityscapesscripts/evaluation/evalPixelLevelSemanticLabelingCustomAllBetween.py:666-762 | a failure that `PairFails` explains cannot happen to a pair that passes every check of `evaluatePair` and whose instance block succeeds |
| Evaluation.FirstUncountableUnique | cityscapesscripts/evaluation/evalPixelLevelSemanticLabelingCustomAllBetween.py:706-710 | the loop order fixes the reported pixel error: only one pixel is the first uncountable one, so only one error can be reported |
| Evaluation.CountPixels | cityscapesscripts/evaluation/evalPixelLevelSemanticLabelingCustomAllBetween.py:706-710 | on success every ground-truth value is an evaluated id, every prediction has a column, every cell grew by its pixel pairs and the sum by the pixel count; a failure names a ground-truth id that is not evaluated or a prediction past the last column, and it is the error of the first pixel that cannot be counted (`FirstUncountable`), with the ground truth checked first |
| Evaluation.PairAccumulated | cityscapesscripts/evaluation/evalPixelLevelSemanticLabelingCustomAllBetween.py:706-710 | an accumulated image adds its pixel pairs cell by cell and its pixel count to the sum |
| Evaluation.MemberIdsEvaluated | cityscapesscripts/evaluation/evalPixelLevelSemanticLabelingCustomAllBetween.py:207-212 | the ids a tracked category lists are evaluated ids |
| Evaluation.MemberIdFits | cityscapesscripts/evaluation/evalPixelLevelSemanticLabelingCustomAllBetween.py:716 | such an id addresses a column of the matrix |
| Evaluation.TrackedIdsFit | cityscapesscripts/evaluation/evalPixelLevelSemanticLabelingCustomAllBetween.py:366 | every id a tracked category lists addresses a column of the matrix, so the instance category fp can be computed |
| Evaluation.EvaluateImgLists | cityscapesscripts/evaluation/evalPixelLevelSemanticLabelingCustomAllBetween.py:563-662 | fails iff the lists differ in length, or (lists equal) the table has no evaluated id; a pair failure names the first pair that fails: every pair before it passed all checks and its instance block, and the pair fails as `PairFails` says on top of their statistics; on success every pair passed all checks and the result is what a complete run reports |
| Evaluation.NoPairsYet | cityscapesscripts/evaluation/evalPixelLevelSemanticLabelingCustomAllBetween.py:566-569 | before any pair, the zero matrix and the initial statistics are the run over no images |
| Evaluation.NextHolds | cityscapesscripts/evaluation/evalPixelLevelSemanticLabelingCustomAllBetween.py:575-583 | one more pair that passed all checks extends the run invariant (counts, pixel total, passed pairs, statistics) to one more image |
| Evaluation.NextPairCounts | cityscapesscripts/evaluation/evalPixelLevelSemanticLabelingCustomAllBetween.py:579 | adding one image's pixel pairs makes every cell count the pairs of one more image |
| Evaluation.EvaluatePairs | cityscapesscripts/evaluation/evalPixelLevelSemanticLabelingCustomAllBetween.py:575-583 | on success every pair passed all checks, the matrix counts every pixel pair of every image, cell by cell, its sum is the pixel total, and the statistics are the fold of the instance blocks; a failure names the first failing pair and why it fails |
| Evaluation.EvaluatePairAt | cityscapesscripts/evaluation/evalPixelLevelSemanticLabelingCustomAllBetween.py:576-583 | one loop iteration: evaluates pair `i`, passes the sum check of line 582 (which leaves the matrix unchanged) and extends the run invariant to `i + 1` images, or reports pair `i` as the first failing pair together with why it fails |
| Evaluation.ReportRun | cityscapesscripts/evaluation/evalPixelLevelSemanticLabelingCustomAllBetween.py:595-658 | the result read off the matrix and statistics of a complete run is what `Evaluated` requires |
| Evaluation.ReportReady | cityscapesscripts/evaluation/evalPixelLevelSemanticLabelingCustomAllBetween.py:604-640 | after a complete run every evaluated id and every id a tracked category lists addresses the matrix, so every score can be computed |

## Left out

- Image loading, file discovery, command-line set-up, environment variables and `main` (lines 83-120, 129-172, 666-686, 765-805) are not modelled. A run takes the decoded images as parameters.
- Images are flat row-major sequences of non-negative values. The channel check (693-694) is not modelled: a decoded image is single-channel by construction.
- EvaluatePair: requires the instance image to have the ground truth's size. The source does not check this; on a mismatch numpy fails while masking the prediction.
- The Cython path `addToConfusionMatrix.cEvaluatePair` (703) is a foreign call whose source is not available. The pure-Python loop (706-710) is the reference.
- Printing, colouring and the JSON export (`printConfMatrix`, `printClassScores`, `printCategoryScores`, `getColorEntry`, `writeJSONFile`, lines 400-480 and the print blocks of `evaluateImgLists`) are not modelled. `createResultDict` (378-399) is modelled as the `Results` value, without `wholeData["labels"]` (line 386): that name-to-id map is the table's evaluated ids, which the model already holds as `NonNegativeIds`. The weighted averages, which the run only prints (623-624, 648-649), are kept in it as well.
- `evaluatePixelAccuracy`, `evaluatePixelError` and `evaluateTrueVsOtherPixError` (483-560) report only by printing and are not modelled. Neither is the per-image pixel-accuracy block (754-760), which is off by default (line 146).
- EvaluateImgLists: does not model the abort of the pixel-accuracy report, which line 601 calls unconditionally after the loop. For some taxonomies it raises: lines 504-505 divide by a plain zero when no evaluated id is at least 7 (or at least 4), and lines 531 and 557-558 look up `id2label` with a column number that no label may carry. In those cases the script stops, while the model returns `Success`.
- EvaluateImgLists: `args.evalInstLevelScore` (line 145) is fixed to its default `True`. The instance-image loading and the instance block it gates (lines 679 and 712) are modelled only with the switch on.
- Floats are exact reals; rounding and `nan` arithmetic are not modelled. `nan` is an explicit undefined case (`Undefined`, `None`, `NaN`).
- A score keeps its counts (tp, fp, fn); its float is the value tp / (tp + fp + fn).
- `getPrior` on an empty matrix divides 0 by 0, which numpy turns into `nan`; the model returns `None`.
- Dictionaries keyed by label or category name are sequences of their values in key order. The averages do not depend on that order. For labels this holds over a table with unique names (Taxonomy.EvaluatedNamesDistinct).
- EvaluateImgLists: when two evaluated labels share a name, the source's name-keyed dictionaries (lines 384-386, 605-614) keep one entry for that name and the averages count it once, while the model keeps one entry per evaluated id.
- When a run aborts, the matrix and statistics it leaves behind are not reported. The model keeps the partial counts in the objects but returns only the error.
- `numpy.ulonglong` overflow of the matrix cells is not modelled; counts are unbounded naturals.
- The taxonomy (`labels`, `id2label`, `category2labels`) comes from a helper module that is not part of this model. It is a parameter. `id2label` returns the first label with an id (identical to the dictionary under unique ids).
- Scores.IouForLabel: the [0, 1] bound and the perfect-score condition are stated in the separate lemmas IouForLabelBounded and IouForLabelPerfect, not in the function's own contract.
- Scores.IouForCategory: the [0, 1] bound needs unique taxonomy ids and is stated in IouForCategoryBounded.
