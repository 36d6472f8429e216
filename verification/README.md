# rftk core, modelled in Dafny

This project models the core of rftk, a random-forest toolkit. The core has
five parts:

- **The offline node split** (`NodeSplitter`, `NodeSplitterProperties`). It
  runs the pre-split stop checks, then has every feature extractor score its
  half-open range of candidate parameters. It picks the first candidate of
  highest impurity and builds the split record, which holds the winner's
  parameter rows with column 0 replaced by the extractor UID and the
  threshold. It then partitions the node's samples at the threshold (`>` goes
  left, `<=` goes right) and runs the post-split stop checks. Feature
  extraction, the best-split scorer and extractor UIDs are native code. They
  enter the model as the function fields of a `Natives` record.
- **The buffer collection** (`BufferCollection`). This is a string-keyed map
  of typed buffers, with its well-known key names and its typed
  add/append/get/has operations.
- **The feature-extractor interface** (`FeatureExtractor`). It covers the
  interface's default methods and the axis-aligned extractor, which is a
  matrix lookup `values[i][j] = data[sample j][dimension of test i]`.
- **Stream assignment** (`AssignStream`). In iid mode it gives one
  estimation/structure tag per sample. The Bernoulli generator is replaced by
  the sequence of draws it produces.
- **Learner configuration** (`LearnerConfig`). This is how the six
  matrix-classification learner factories resolve their keyword options into
  sampler, feature, split-point, statistics, selector and growth choices, and
  how they wire the two streams.

Shared `Option` and `Result` types live in `Wrappers`. Feature values,
impurities and thresholds are `real`.

## Model

| member | source | states |
|---|---|---|
| NodeSplitter.FirstFailing | rftk/forest_builder_offline/node_splitter.py:34-36 | The criteria are checked in order. The result is none exactly when every criterion passes; otherwise it is the index of the first criterion that fails, and every earlier one passes. |
| NodeSplitter.ArgMax | rftk/forest_builder_offline/node_splitter.py:99-101 | The chosen index holds a value at least as large as every entry, and every earlier entry is strictly smaller (numpy's first maximum). |
| NodeSplitter.FirstMaxIsUnique | rftk/forest_builder_offline/node_splitter.py:99 | At most one index is the first maximum, so the selection is determined by the impurities alone. |
| NodeSplitter.ScoreRange | rftk/forest_builder_offline/node_splitter.py:55-92 | One extractor's pass does three things. It writes the scorer's answers for its range into exactly `[start, end)`. It leaves every other entry unchanged. It appends the extractor once per candidate of the range. A reversed or empty range selects no rows and no candidates, as numpy's empty slices and `range` do. Every failure of the pass is a shape mismatch: a range that runs past the arrays, or an answer of the wrong length. |
| NodeSplitterProperties.EmptyRangeLeavesScores | rftk/forest_builder_offline/node_splitter.py:55-92 | A range whose end is at or before its start, even one past the arrays, leaves the scores and the extractor list unchanged when the scorer answers with no values. Any other answer is a shape mismatch. |
| NodeSplitter.ScoreFrom | rftk/forest_builder_offline/node_splitter.py:50-96 | Scoring keeps the arrays at the candidate count. It only extends the extractor list, and every entry it adds is one of the extractors scored. |
| NodeSplitter.Scoring | rftk/forest_builder_offline/node_splitter.py:50-96 | The whole scoring loop can fail only with a shape mismatch. On success, the impurity and threshold arrays have one entry per candidate. |
| NodeSplitterProperties.ScoreFromTiled | rftk/forest_builder_offline/node_splitter.py:54-92 | When the ranges tile the candidates, entries before the current range keep their values. Every candidate of a later range is owned by that range's extractor and holds that extractor's scorer answer. |
| NodeSplitterProperties.TiledScoringOwnership | rftk/forest_builder_offline/node_splitter.py:54-96 | With tiled ranges, the extractor list has one entry per candidate. Candidate `k` of range `j` is owned by extractor `j` and carries the scorer's impurity and threshold for offset `k - start`. |
| NodeSplitterProperties.PreCheckStopsBeforeScoring | rftk/forest_builder_offline/node_splitter.py:34-36 | A failing pre-split check, given the depth and sample count, aborts the split with that criterion's index. The outcome does not depend on the extractors, parameters or natives, so nothing was scored. |
| NodeSplitterProperties.SplitOutcome | rftk/forest_builder_offline/node_splitter.py:32-131 | A successful split implies several facts: every pre-check passed and the parameter shapes agreed; there was at least one candidate; the winner is the first maximum; the int row is the winner's with column 0 set to its extractor's UID; the float row is the winner's with column 0 set to its threshold; the children's sizes and multisets add up to the parent's; every post-check passed on the winning impurity and the child sizes. |
| NodeSplitterProperties.SplitFailureCauses | rftk/forest_builder_offline/node_splitter.py:32-131 | A stop-criterion failure has a cause. A pre-split stop names a rejecting criterion whose predecessors all passed. A post-split stop names a criterion below the list's length, and it means every pre-split check passed and there were candidates of the agreed shape. |
| NodeSplitterProperties.SplitPostStopCause | rftk/forest_builder_offline/node_splitter.py:98-129 | A post-split stop means the following. Every pre-split check passed, scoring succeeded and a winner exists. The re-extraction gave one value per sample. The named criterion is the first to reject the winner's post-split parameters: its impurity and the sizes of the two children the partition made. Every earlier criterion accepted them. |
| NodeSplitterProperties.SplitShapeFailures | rftk/forest_builder_offline/node_splitter.py:98-109 | A "no candidates" failure means the collection has none, which is where numpy `argmax` of an empty array fails. A parameter index error means a zero-column parameter row, which cannot take the UID or the threshold in column 0. |
| NodeSplitterProperties.SplitSucceeds | rftk/forest_builder_offline/node_splitter.py:32-131 | This is the converse of `SplitOutcome`. Suppose every pre-check passes, scoring succeeds with at least one candidate, both parameter rows have columns, and every post-check passes on the winner's impurity and child sizes. Then the split succeeds with the winner's rows and with the partition made by the chosen extractor at the winning threshold. |
| NodeSplitterProperties.PartitionSizes | rftk/forest_builder_offline/node_splitter.py:121-122 | The left and right child sizes sum to the parent size. |
| NodeSplitterProperties.PartitionMultiset | rftk/forest_builder_offline/node_splitter.py:121-122 | The two children together hold exactly the parent's samples, with their multiplicities. |
| NodeSplitterProperties.SelectMembership | rftk/forest_builder_offline/node_splitter.py:121-122 | A sample is on the left exactly when one of its positions has a value above the threshold. It is on the right exactly when one of its positions has a value at or below it. |
| NodeSplitterProperties.SelectAppend | rftk/forest_builder_offline/node_splitter.py:121-122 | Boolean-mask selection distributes over concatenation, so each child keeps the parent's order. |
| NodeSplitterProperties.PartitionIsDisjointCover | rftk/forest_builder_offline/node_splitter.py:121-122 | When feature values depend only on the sample, the children's sample sets are disjoint and their union is the parent's. |
| NodeSplitterProperties.SplitPartitionsByWinner | rftk/forest_builder_offline/node_splitter.py:102-122 | The corrected split partitions the samples by re-extracting with the winning candidate's own extractor and parameters, at the winning threshold. |
| NodeSplitterProperties.SplitAsWrittenPartitionsByLast | rftk/forest_builder_offline/node_splitter.py:112-122 | The split as written partitions by re-extracting with `extractor`, the last extractor of the scoring loop at line 55, whoever won. |
| NodeSplitterProperties.SingleExtractorSplitsAgree | rftk/forest_builder_offline/node_splitter.py:102-115 | With exactly one extractor, the split as written and the corrected split give the same result on every input. |
| NodeSplitterProperties.QuirkScoring | rftk/forest_builder_offline/node_splitter.py:50-92 | In the two-extractor example, scoring gives impurities `[1, 0]`, thresholds `[0.5, 0.5]` and owners `[0, 1]`. |
| NodeSplitterProperties.SelectPair | rftk/forest_builder_offline/node_splitter.py:121-122 | Masking two samples keeps each one exactly when its own value is on the selected side of the threshold, in order. |
| NodeSplitterProperties.QuirkValues | rftk/forest_builder_offline/node_splitter.py:115-120 | In the two-extractor example, extractor 0 gives the samples the values 1, 0 and extractor 1 gives them 0, 1 once flattened. |
| NodeSplitterProperties.QuirkWinner | rftk/forest_builder_offline/node_splitter.py:98-109 | In the example, the parameters fit the collection, candidate 0 is the first maximum, and the winner's rows are `[0]` (the UID of extractor 0) and `[0.5]` (its threshold). |
| NodeSplitterProperties.QuirkPartition | rftk/forest_builder_offline/node_splitter.py:112-122 | In the example, re-extracting with the winner's extractor sends sample 0 left and sample 1 right. Re-extracting with the last extractor sends them the other way. |
| NodeSplitterProperties.QuirkSplitByWinner | rftk/forest_builder_offline/node_splitter.py:102-122 | In the example, the corrected split returns `[0]`, `[0.5]`, left `[0]` and right `[1]`. |
| NodeSplitterProperties.QuirkSplitByLast | rftk/forest_builder_offline/node_splitter.py:112-122 | In the example, the split as written returns `[0]`, `[0.5]`, left `[1]` and right `[0]`. |
| NodeSplitterProperties.LastExtractorCounterexample | rftk/forest_builder_offline/node_splitter.py:102-122 | Extractor 0 wins. The corrected split sends sample 0 left and sample 1 right. The split as written sends them the other way. |
| BufferCollection.WellKnownKeys | rftk-native/buffers/BufferCollection.h:13-28 | The fifteen well-known buffer names are pairwise distinct. |
| BufferCollection.HasTypedBuffer | rftk-native/buffers/BufferCollection.h:66-73 | The typed presence test holds exactly when a buffer is stored under the name and its type is the requested one. |
| BufferCollection.AddBuffer | rftk-native/buffers/BufferCollection.h:82-86 | After an add, the name maps to the new buffer whatever it held before. The key set gains the name, and every other name keeps its buffer. |
| BufferCollection.GetBuffer | rftk-native/buffers/BufferCollection.h:99-115 | With the name present, the typed lookup succeeds exactly when the stored type matches. It then returns the stored buffer. A mismatch is the null `any_cast` that the code dereferences. |
| BufferCollection.AppendBuffer | rftk-native/buffers/BufferCollection.h:88-97 | An absent name is added. A present name of the same type gets the new contents appended after the old. A present name of another type fails. Other names are untouched. |
| BufferCollection.GetAfterAdd | rftk-native/buffers/BufferCollection.h:82-106 | A typed lookup right after an add returns exactly the added buffer. |
| BufferCollection.AppendAbsentIsAdd | rftk-native/buffers/BufferCollection.h:88-93 | Appending under an absent name equals adding. |
| BufferCollection.UpdatesFrameOtherNames | rftk-native/buffers/BufferCollection.h:82-97 | Add and append on one name leave the typed presence and lookups of every other name unchanged. |
| BufferCollection.AppendTwice | rftk-native/buffers/BufferCollection.h:88-97 | Two appends of the same type to a fresh name store the two contents concatenated, in call order. |
| FeatureExtractor.BaseInterfaceDefaults | rftk-native/feature_extractors/FeatureExtractorI.h:8-25 | The interface's defaults: a null clone, UID 0, no features, empty parameter matrices for every requested count, and one int and one float parameter column. |
| FeatureExtractor.Extract | rftk-native/feature_extractors/FeatureExtractorI.h:10-16 | The base extractor leaves the output buffer as it was. The axis-aligned extractor produces a `#tests × #samples` matrix whose entry `(i, j)` is the dimension named by test `i`, read from sample `j`. |
| FeatureExtractor.AxisAlignedIgnoresFloatParams | tests/test_axis_aligned_feature.py:15-21 | Axis-aligned values depend only on the data, the sample indices and the int parameters. |
| FeatureExtractor.RepeatedDimensionGivesSameRow | tests/test_axis_aligned_feature.py:15-23 | Two tests that name the same dimension give identical rows. |
| FeatureExtractor.AxisAlignedScenario | tests/test_axis_aligned_feature.py:11-25 | Data `[[2,21,1],[3,22,5]]` with tests selecting dimensions 1, 0, 2, 0 gives `[[21,22],[2,3],[1,5],[2,3]]`. |
| AssignStream.Create | modules/splitpoints/native/AssignStreamStep.h:51-58 | The two-argument constructor selects iid mode and names its output buffer `"StreamType"` when asking `GetBufferId` for its id. It keeps the weights id and probability it is given. |
| AssignStream.CreateWithMode | modules/splitpoints/native/AssignStreamStep.h:60-68 | The three-argument constructor keeps the mode it is given and passes the same name `"StreamType"` to `GetBufferId`. |
| AssignStream.StreamTags | modules/splitpoints/native/AssignStreamStep.h:96-99 | Tags are produced in index order, one per draw. |
| AssignStream.ProcessStep | modules/splitpoints/native/AssignStreamStep.h:83-100 | In iid mode the output has one tag per weight. Every tag is estimation (0) or structure (1). A tag is structure exactly when its draw succeeded. |
| AssignStream.WeightValuesIgnored | modules/splitpoints/native/AssignStreamStep.h:83-89 | Only the number of weights matters, not their values. |
| AssignStream.TagsDecodeToDraws | modules/splitpoints/native/AssignStreamStep.h:96-99 | Decoding the tags recovers exactly the draws that were consumed, in order. |
| LearnerConfig.IntSqrt | modules/learn/python/classification_matrix_learner.py:32 | The default feature count `r` satisfies `r² ≤ columns < (r+1)²`. |
| LearnerConfig.IntSqrtUnique | modules/learn/python/classification_matrix_learner.py:32 | That bound determines `r`, so the default is exactly ⌊√columns⌋. |
| LearnerConfig.MaxLabel | modules/learn/python/classification_matrix_learner.py:35 | The maximum is one of the labels and is at least every label. |
| LearnerConfig.OfflineSampler | modules/learn/python/classification_matrix_learner.py:39-42 | Offline learners bootstrap exactly when `bootstrap` is passed and truthy. Otherwise they use every sample. |
| LearnerConfig.OnlineSampler | modules/learn/python/classification_matrix_learner.py:339-345 | Online learners bootstrap when `bootstrap` is passed and truthy. Otherwise they use Poisson sampling with the given mean when `poisson_sample` is passed, and every sample when it is not. |
| LearnerConfig.OfflineGrowth | modules/learn/python/classification_matrix_learner.py:80-83 | Offline trees grow breadth-first exactly when `tree_order` is `"breadth_first"`, and depth-first otherwise. |
| LearnerConfig.Resolve | modules/learn/python/classification_matrix_learner.py:30-86 | Each factory resolves its options as the axis-aligned walking one does here; the others are at lines 88-149, 151-302 and 328-522. Resolution fails exactly when `x` is missing, `classes` is missing or `classes` is empty, and a missing `x` is reported first. On success: the default feature count is ⌊√columns⌋; the class count exceeds every label and is one more than some label; online learners, and only they, use the wait-for-best selector, drop the job count and grow from a frontier; only two-stream learners assign streams. |
| LearnerConfig.NumberOfClassesIsLeastUpperBound | modules/learn/python/classification_matrix_learner.py:35 | The class count is the least value above every label. |
| LearnerConfig.ResolveDefaults | modules/learn/python/classification_matrix_learner.py:328-335 | The same defaults appear at lines 31-34, 155, 234 and 431-433. Each option that is not passed takes its default, whatever else is passed: 10 trees, ⌊√columns⌋ features, the default ordering, 1 job offline, 1 split point where split points are drawn, a frontier of 10,000,000 and update period 1 online, and stream probability 0.5 for two-stream learners. Offline growth is depth-first without `tree_order`, and sampling uses all samples when neither `bootstrap` nor `poisson_sample` is passed. |
| LearnerConfig.ResolvePassedValues | modules/learn/python/classification_matrix_learner.py:328-335 | The same reads appear at lines 31-34, 155, 234 and 431-433. Each option that is passed is used as given by every factory that reads it: trees, features, ordering, jobs offline, split points where they are drawn, frontier size and update period online, and stream probability for two-stream learners. |
| LearnerConfig.TwoStreamWiring | modules/learn/python/classification_matrix_learner.py:265-291 | Two-stream learners compute impurity from the impurity stream, and their selector reads child counts and statistics from the estimator stream. The other learners use one set of statistics for both. |
| LearnerConfig.SelectorByMode | modules/learn/python/classification_matrix_learner.py:398-401 | The offline selector is at line 78, and the consistent learner's criteria and Poisson feature step at lines 449 and 504-507. Offline learners, and only they, use the plain split selector. Only the consistent learner uses the consistent should-split criteria and draws its feature count per node from a Poisson step. |
| LearnerConfig.ForestParamsDims | modules/learn/python/classification_matrix_learner.py:85-148 | The forest's int and float parameter widths are 5, except `columns + 3` for the class-pair-difference learner. |
| LearnerConfig.SamplerPrecedence | modules/learn/python/classification_matrix_learner.py:339-345 | Offline learners never use Poisson sampling (lines 39-42 offer only bootstrap or all samples). Online learners let a truthy `bootstrap` win over `poisson_sample`. |
| LearnerConfig.TreeOrderPrecedence | modules/learn/python/classification_matrix_learner.py:80-83 | Only offline learners read `tree_order`. Online learners resolve the same whatever it is. |
| LearnerConfig.StreamFilteredSplitpoints | modules/learn/python/classification_matrix_learner.py:463-466 | Walking learners use the sorted walk. Only the consistent learner hands the sliced stream-type buffer to the random split-point step. |

## Left out

- Native code with no body shown. This covers the best-split scorer, feature extraction for extractors other than axis-aligned, and extractor UIDs. These are function-valued parameters (`NodeSplitter.Natives`).
- The stop criteria's internals. `create_try_split_criteria` and `create_should_split_criteria` are opaque predicates; a check that raises is a check that answers false.
- numpy's clamping of slices that run past the array, and its broadcasting of length-1 results. A range with `start < end` whose end lies past the candidate arrays, or a scorer answer of the wrong length, is reported as `ShapeMismatch` instead. Reversed and empty ranges are modelled as numpy's empty slices.
- float32 rounding, the `dtype=int32` truncation of parameter rows, and entropy and information gain. Values are exact reals and impurity is whatever the scorer answers.
- NodeSplitter.SplitWith: builds its sample-weight and class-label node buffers (node_splitter.py:68-77) only to pass them to the native scorer, so they are not modelled.
- AssignStream.ProcessStep: models the iid branch only, hence `requires step.iid`. The other branch depends on a sampling helper whose body is not shown, and on a float-truncated count.
- AssignStream: `Clone` is a plain copy. `GetOrAddBuffer` and buffer ids are plumbing, so the step returns the tag sequence it writes.
- AssignStream.Create: records the name `"StreamType"` that is handed to `GetBufferId`, not the id derived from it. `UniqueBufferId.h` is not part of this model, so whether two instances share one buffer is not stated. The learners read the id from the instance (classification_matrix_learner.py lines 267 and 461).
- BufferCollection: the per-type legacy `Has…/Add…/Append…/Get…` wrappers are declared without bodies. The vector, matrix and tensor containers are not part of this model, so appending is concatenation of abstract contents.
- BufferCollection.GetBuffer: the C++ collection asserts presence, so this is a precondition. A wrong type is returned as an error, where the C++ collection dereferences a null pointer.
- LearnerConfig.Resolve: the default ordering is the native constant `pipeline.FEATURES_BY_DATAPOINTS`, whose value is not part of this model. It is the tag `FeaturesByDatapoints`, and a passed ordering is `Ordering(v)`. So passing that constant's own value gives a configuration the model tells apart from the default, although the Python code cannot.
- LearnerConfig.Resolve: takes integer options as already converted, so `int()`/`float()` conversion errors are not modelled. `x` stands for its column count, and `bootstrap` for its Python truthiness.
- LearnerConfig.StreamFilteredSplitpoints: records only that the sliced stream-type buffer is passed to the split-point step. That native step's body is not part of this model, so which samples it draws split points from is not stated.
- NodeSplitter.ShapesAgree: checks the width of each parameter row. A draw with no rows has no width to check, so a wrong declared width there is reported as `NoCandidates`, where the shape assertion at node_splitter.py line 48 raises first.
- LearnerConfig: the job count is recorded, but the parallel forest learner's concurrency is not modelled. The native steps the factories build are represented only by the tags in `Config`. The prediction factory and the `LearnerWrapper` glue are not modelled.
- The axis-aligned extractor's own implementation is not part of this model. Its `Extract` follows the behaviour the axis-aligned unit test fixes: one column of int parameters, and float parameters unused.
- The scaled depth-delta image feature is not part of this model. It is float `log2` bucketing and logging plumbing. Its declaration and definition disagree on the order of the scales and depths parameters (`ScaledDepthDeltaFeature.h` lines 25-30 against 66-71).
- The online forest learner and the random-threshold histogram collector are not part of this model: only their declarations exist. The forest-data `setup.py` is a build script.
- Random draws (bootstrap, Poisson, Bernoulli and feature sampling) are not modelled. They appear only as the resulting values.

## Findings

| source | as written | input that shows it | evidently intended | confidence | as-written member | corrected member |
|---|---|---|---|---|---|---|
| rftk/forest_builder_offline/node_splitter.py:115 | The samples are partitioned by re-extracting with `extractor`, the loop variable left over from the scoring loop. That is always the last extractor. | Two extractors with one candidate each. Extractor 0 sees the samples as 1, 0 and extractor 1 as 0, 1. The scorer rates by the first value with threshold 0.5. Extractor 0's candidate wins, yet sample 0 goes right and sample 1 goes left. | Re-extract with `best_extractor`, the winning candidate's own extractor (line 102). | high (not executed) | NodeSplitterProperties.LastExtractorCounterexample | NodeSplitterProperties.SplitPartitionsByWinner |

The split as written is `NodeSplitter.SplitAsWritten`, and the corrected split
is `NodeSplitter.Split`. `NodeSplitterProperties.SingleExtractorSplitsAgree`
shows that the two coincide whenever there is exactly one extractor.
