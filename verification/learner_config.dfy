/**
 * Resolution of the keyword options of the six matrix classification
 * learners into the configuration they build. The native steps the Python
 * factories construct stay opaque: the configuration records which step
 * variant is chosen and how the steps are wired, as enum tags.
 */
module LearnerConfig {
  import opened Wrappers

  /** The six learner factories. */
  datatype LearnerKind =
    | AxisAlignedWalking
    | ClassPairDifferenceWalking
    | AxisAlignedOneStream
    | AxisAlignedTwoStream
    | OnlineOneStream
    | OnlineTwoStreamConsistent

  predicate IsOnline(kind: LearnerKind)
  {
    kind.OnlineOneStream? || kind.OnlineTwoStreamConsistent?
  }

  predicate IsTwoStream(kind: LearnerKind)
  {
    kind.AxisAlignedTwoStream? || kind.OnlineTwoStreamConsistent?
  }

  predicate IsWalking(kind: LearnerKind)
  {
    kind.AxisAlignedWalking? || kind.ClassPairDifferenceWalking?
  }

  /**
   * The keyword arguments a factory reads; `None` is a key that was not
   * passed. `xColumns` is the column count of `x`, `bootstrap` the Python
   * truthiness of the value passed for `bootstrap`. Integer options are taken
   * as already converted.
   */
  datatype Options = Options(
    xColumns: Option<nat>,
    classes: Option<seq<int>>,
    numberOfTrees: Option<int>,
    numberOfFeatures: Option<int>,
    featureOrdering: Option<int>,
    numberOfJobs: Option<int>,
    numberOfSplitpoints: Option<int>,
    bootstrap: Option<bool>,
    poissonSample: Option<real>,
    treeOrder: Option<string>,
    maxFrontierSize: Option<int>,
    impurityUpdatePeriod: Option<int>,
    probabilityOfImpurityStream: Option<real>)

  const DEFAULT_NUMBER_OF_TREES: int := 10
  const DEFAULT_NUMBER_OF_JOBS: int := 1
  const DEFAULT_NUMBER_OF_SPLITPOINTS: int := 1
  const DEFAULT_MAX_FRONTIER_SIZE: int := 10000000
  const DEFAULT_IMPURITY_UPDATE_PERIOD: int := 1
  const DEFAULT_PROBABILITY_OF_IMPURITY_STREAM: real := 0.5
  const BREADTH_FIRST: string := "breadth_first"

  /** Parameter-matrix widths handed to the forest for axis-aligned features. */
  const AXIS_ALIGNED_PARAMS_DIM: int := 5

  /** Feature ordering: the pipeline's default constant, or the value passed. */
  datatype FeatureOrdering = FeaturesByDatapoints | Ordering(value: int)

  datatype Sampler = AllSamples | Bootstrap | Poisson(mean: real)

  datatype FeatureParams = AxisAlignedParams | ClassPairDifferenceParams

  /** How many features a node draws: a fixed count, or a Poisson draw with this mean per node. */
  datatype FeatureCount = Fixed(count: int) | PoissonPerNode(mean: int)

  /**
   * Where candidate split points come from: the sorted walk over all values,
   * or `count` random split points. `streamFiltered` records that the
   * split-point step is also handed the sliced stream-type buffer; what the
   * native step does with it is not modelled.
   */
  datatype Splitpoints = SortedWalk | RandomSplitpoints(count: int, streamFiltered: bool)

  /** The statistics a consumer reads: every sample, or one of the two streams. */
  datatype Stream = AllStreams | ImpurityStream | EstimatorStream

  datatype Selector = SplitSelector | WaitForBestSplitSelector

  datatype ShouldSplit = StandardCriteria | ConsistentCriteria

  datatype Growth = DepthFirst | BreadthFirst | OnlineFrontier(maxFrontierSize: int, impurityUpdatePeriod: int)

  datatype Config = Config(
    numberOfTrees: int,
    numberOfFeatures: int,
    featureOrdering: FeatureOrdering,
    numberOfClasses: int,
    numberOfJobs: Option<int>,
    sampler: Sampler,
    featureParams: FeatureParams,
    featureCount: FeatureCount,
    splitpoints: Splitpoints,
    /** Probability of the impurity stream when a stream-assignment step runs per tree. */
    streamAssignment: Option<real>,
    impurityStats: Stream,
    selectorStats: Stream,
    selector: Selector,
    shouldSplit: ShouldSplit,
    growth: Growth,
    maxIntParamsDim: int,
    maxFloatParamsDim: int)

  datatype ConfigError =
    /** `kwargs['x']` raises `KeyError`. */
    | MissingX
    /** `kwargs['classes']` raises `KeyError`. */
    | MissingClasses
    /** `np.max` of an empty label array raises `ValueError`. */
    | EmptyClasses

  // ---------------------------------------------------------------------------
  // Derived quantities

  /** The integer square root, ⌊√n⌋. */
  function IntSqrt(n: nat): (r: nat)
    ensures r * r <= n < (r + 1) * (r + 1)
  {
    if n == 0 then 0
    else
      var s := IntSqrt(n - 1);
      if (s + 1) * (s + 1) <= n then s + 1 else s
  }

  /** The largest label. */
  function MaxLabel(labels: seq<int>): (m: int)
    requires |labels| > 0
    ensures m in labels
    ensures forall i :: 0 <= i < |labels| ==> labels[i] <= m
  {
    if |labels| == 1 then labels[0]
    else
      var rest := MaxLabel(labels[1..]);
      assert forall i :: 1 <= i < |labels| ==> labels[i] == labels[1..][i - 1];
      if labels[0] >= rest then labels[0] else rest
  }

  // ---------------------------------------------------------------------------
  // Per-aspect resolution

  /** Offline learners bootstrap exactly when `bootstrap` is passed and truthy. */
  function OfflineSampler(opts: Options): (s: Sampler)
    ensures s.Bootstrap? <==> opts.bootstrap == Some(true)
    ensures s.AllSamples? <==> opts.bootstrap != Some(true)
  {
    if opts.bootstrap.Some? && opts.bootstrap.value then Bootstrap else AllSamples
  }

  /**
   * Online learners bootstrap when `bootstrap` is passed and truthy, and
   * otherwise sample with a Poisson count when `poisson_sample` is passed.
   */
  function OnlineSampler(opts: Options): (s: Sampler)
    ensures s.Bootstrap? <==> opts.bootstrap == Some(true)
    ensures s.Poisson? <==> opts.bootstrap != Some(true) && opts.poissonSample.Some?
    ensures s.Poisson? ==> s.mean == opts.poissonSample.value
    ensures s.AllSamples? <==> opts.bootstrap != Some(true) && opts.poissonSample.None?
  {
    if opts.bootstrap.Some? && opts.bootstrap.value then Bootstrap
    else if opts.poissonSample.Some? then Poisson(opts.poissonSample.value)
    else AllSamples
  }

  /** Offline trees grow breadth-first only for the exact order `"breadth_first"`. */
  function OfflineGrowth(opts: Options): (g: Growth)
    ensures g.BreadthFirst? <==> opts.treeOrder == Some(BREADTH_FIRST)
    ensures g.DepthFirst? <==> opts.treeOrder != Some(BREADTH_FIRST)
  {
    if opts.treeOrder.Some? && opts.treeOrder.value == BREADTH_FIRST then BreadthFirst else DepthFirst
  }

  /**
   * Resolves the options for one factory. `x` is read while the default for
   * `number_of_features` is built, which Python does whether or not that
   * option is passed, so a missing `x` is the first error; a missing or empty
   * `classes` follows.
   */
  function Resolve(kind: LearnerKind, opts: Options): (r: Result<Config, ConfigError>)
    ensures r.Success? <==> opts.xColumns.Some? && opts.classes.Some? && |opts.classes.value| > 0
    ensures opts.xColumns.None? ==> r == Failure(MissingX)
    ensures opts.xColumns.Some? && opts.classes.None? ==> r == Failure(MissingClasses)
    ensures opts.xColumns.Some? && opts.classes.Some? && |opts.classes.value| == 0 ==> r == Failure(EmptyClasses)
    ensures r.Success? ==>
      var c := r.value;
      && (opts.numberOfFeatures.None? ==>
            c.numberOfFeatures * c.numberOfFeatures <= opts.xColumns.value
            < (c.numberOfFeatures + 1) * (c.numberOfFeatures + 1))
      && (opts.numberOfFeatures.Some? ==> c.numberOfFeatures == opts.numberOfFeatures.value)
      && (forall i :: 0 <= i < |opts.classes.value| ==> opts.classes.value[i] < c.numberOfClasses)
      && c.numberOfClasses - 1 in opts.classes.value
      && (c.selector.WaitForBestSplitSelector? <==> IsOnline(kind))
      && (c.numberOfJobs.Some? <==> !IsOnline(kind))
      && (c.streamAssignment.Some? <==> IsTwoStream(kind))
      && (c.growth.OnlineFrontier? <==> IsOnline(kind))
  {
    if opts.xColumns.None? then Failure(MissingX)
    else if opts.classes.None? then Failure(MissingClasses)
    else if |opts.classes.value| == 0 then Failure(EmptyClasses)
    else
      var cols := opts.xColumns.value;
      var trees := opts.numberOfTrees.GetOr(DEFAULT_NUMBER_OF_TREES);
      var features := opts.numberOfFeatures.GetOr(IntSqrt(cols));
      var ordering := if opts.featureOrdering.Some? then Ordering(opts.featureOrdering.value) else FeaturesByDatapoints;
      var classes := MaxLabel(opts.classes.value) + 1;
      var splitpoints := opts.numberOfSplitpoints.GetOr(DEFAULT_NUMBER_OF_SPLITPOINTS);
      var jobs := Some(opts.numberOfJobs.GetOr(DEFAULT_NUMBER_OF_JOBS));
      var probability := opts.probabilityOfImpurityStream.GetOr(DEFAULT_PROBABILITY_OF_IMPURITY_STREAM);
      var frontier := OnlineFrontier(opts.maxFrontierSize.GetOr(DEFAULT_MAX_FRONTIER_SIZE),
                                     opts.impurityUpdatePeriod.GetOr(DEFAULT_IMPURITY_UPDATE_PERIOD));
      match kind
      case AxisAlignedWalking =>
        Success(Config(trees, features, ordering, classes, jobs, OfflineSampler(opts),
                       AxisAlignedParams, Fixed(features), SortedWalk, None, AllStreams, AllStreams,
                       SplitSelector, StandardCriteria, OfflineGrowth(opts),
                       AXIS_ALIGNED_PARAMS_DIM, AXIS_ALIGNED_PARAMS_DIM))
      case ClassPairDifferenceWalking =>
        Success(Config(trees, features, ordering, classes, jobs, OfflineSampler(opts),
                       ClassPairDifferenceParams, Fixed(features), SortedWalk, None, AllStreams, AllStreams,
                       SplitSelector, StandardCriteria, OfflineGrowth(opts),
                       cols + 3, cols + 3))
      case AxisAlignedOneStream =>
        Success(Config(trees, features, ordering, classes, jobs, OfflineSampler(opts),
                       AxisAlignedParams, Fixed(features), RandomSplitpoints(splitpoints, false), None,
                       AllStreams, AllStreams, SplitSelector, StandardCriteria, OfflineGrowth(opts),
                       AXIS_ALIGNED_PARAMS_DIM, AXIS_ALIGNED_PARAMS_DIM))
      case AxisAlignedTwoStream =>
        Success(Config(trees, features, ordering, classes, jobs, OfflineSampler(opts),
                       AxisAlignedParams, Fixed(features), RandomSplitpoints(splitpoints, false), Some(probability),
                       ImpurityStream, EstimatorStream, SplitSelector, StandardCriteria, OfflineGrowth(opts),
                       AXIS_ALIGNED_PARAMS_DIM, AXIS_ALIGNED_PARAMS_DIM))
      case OnlineOneStream =>
        Success(Config(trees, features, ordering, classes, None, OnlineSampler(opts),
                       AxisAlignedParams, Fixed(features), RandomSplitpoints(splitpoints, false), None,
                       AllStreams, AllStreams, WaitForBestSplitSelector, StandardCriteria, frontier,
                       AXIS_ALIGNED_PARAMS_DIM, AXIS_ALIGNED_PARAMS_DIM))
      case OnlineTwoStreamConsistent =>
        Success(Config(trees, features, ordering, classes, None, OnlineSampler(opts),
                       AxisAlignedParams, PoissonPerNode(features), RandomSplitpoints(splitpoints, true), Some(probability),
                       ImpurityStream, EstimatorStream, WaitForBestSplitSelector, ConsistentCriteria, frontier,
                       AXIS_ALIGNED_PARAMS_DIM, AXIS_ALIGNED_PARAMS_DIM))
  }

  // ---------------------------------------------------------------------------
  // Properties

  /** ⌊√n⌋ is the only `r` with `r² ≤ n < (r + 1)²`. */
  lemma {:induction false} IntSqrtUnique(n: nat, r: nat)
    requires r * r <= n < (r + 1) * (r + 1)
    ensures r == IntSqrt(n)
  {
    var s := IntSqrt(n);
    if r < s {
      SquareMonotone(r + 1, s);
    } else if s < r {
      SquareMonotone(s + 1, r);
    }
  }

  lemma SquareMonotone(a: nat, b: nat)
    requires a <= b
    ensures a * a <= b * b
  {
    assert a * a <= a * b <= b * b;
  }

  /** The class count is the least value above every label. */
  lemma NumberOfClassesIsLeastUpperBound(kind: LearnerKind, opts: Options, k: int)
    requires Resolve(kind, opts).Success?
    requires forall i :: 0 <= i < |opts.classes.value| ==> opts.classes.value[i] < k
    ensures Resolve(kind, opts).value.numberOfClasses <= k
  {
    var c := Resolve(kind, opts).value;
    var i :| 0 <= i < |opts.classes.value| && opts.classes.value[i] == c.numberOfClasses - 1;
  }

  /**
   * Each option that is not passed takes its documented default, whatever
   * else is passed: each factory reads every key on its own.
   */
  lemma ResolveDefaults(kind: LearnerKind, opts: Options)
    requires Resolve(kind, opts).Success?
    ensures var c := Resolve(kind, opts).value;
      && (opts.numberOfTrees.None? ==> c.numberOfTrees == 10)
      && (opts.numberOfFeatures.None? ==> c.numberOfFeatures == IntSqrt(opts.xColumns.value))
      && (opts.featureOrdering.None? ==> c.featureOrdering == FeaturesByDatapoints)
      && (opts.bootstrap.None? && opts.poissonSample.None? ==> c.sampler == AllSamples)
      && (!IsOnline(kind) && opts.numberOfJobs.None? ==> c.numberOfJobs == Some(1))
      && (!IsOnline(kind) && opts.treeOrder.None? ==> c.growth == DepthFirst)
      && (!IsWalking(kind) && opts.numberOfSplitpoints.None? ==>
            c.splitpoints.RandomSplitpoints? && c.splitpoints.count == 1)
      && (IsOnline(kind) && opts.maxFrontierSize.None? ==>
            c.growth.OnlineFrontier? && c.growth.maxFrontierSize == 10000000)
      && (IsOnline(kind) && opts.impurityUpdatePeriod.None? ==>
            c.growth.OnlineFrontier? && c.growth.impurityUpdatePeriod == 1)
      && (IsTwoStream(kind) && opts.probabilityOfImpurityStream.None? ==> c.streamAssignment == Some(0.5))
  {
  }

  /** Each option that is passed is used as given by every factory that reads it. */
  lemma ResolvePassedValues(kind: LearnerKind, opts: Options)
    requires Resolve(kind, opts).Success?
    ensures var c := Resolve(kind, opts).value;
      && (opts.numberOfTrees.Some? ==> c.numberOfTrees == opts.numberOfTrees.value)
      && (opts.numberOfFeatures.Some? ==> c.numberOfFeatures == opts.numberOfFeatures.value)
      && (opts.featureOrdering.Some? ==> c.featureOrdering == Ordering(opts.featureOrdering.value))
      && (!IsOnline(kind) && opts.numberOfJobs.Some? ==> c.numberOfJobs == opts.numberOfJobs)
      && (!IsWalking(kind) && opts.numberOfSplitpoints.Some? ==>
            c.splitpoints.RandomSplitpoints? && c.splitpoints.count == opts.numberOfSplitpoints.value)
      && (IsOnline(kind) && opts.maxFrontierSize.Some? ==>
            c.growth.OnlineFrontier? && c.growth.maxFrontierSize == opts.maxFrontierSize.value)
      && (IsOnline(kind) && opts.impurityUpdatePeriod.Some? ==>
            c.growth.OnlineFrontier? && c.growth.impurityUpdatePeriod == opts.impurityUpdatePeriod.value)
      && (IsTwoStream(kind) && opts.probabilityOfImpurityStream.Some? ==>
            c.streamAssignment == opts.probabilityOfImpurityStream)
  {
  }

  /**
   * Two-stream learners compute impurity from the impurity stream and let the
   * selector read child counts and statistics from the estimator stream; the
   * other learners use one set of statistics for both.
   */
  lemma TwoStreamWiring(kind: LearnerKind, opts: Options)
    requires Resolve(kind, opts).Success?
    ensures var c := Resolve(kind, opts).value;
      && (IsTwoStream(kind) ==> c.impurityStats == ImpurityStream && c.selectorStats == EstimatorStream)
      && (!IsTwoStream(kind) ==> c.impurityStats == AllStreams && c.selectorStats == AllStreams)
      && (c.impurityStats != c.selectorStats <==> IsTwoStream(kind))
  {
  }

  /**
   * Offline learners use the plain split selector and the standard
   * should-split criteria; the online ones wait for the best split, and only
   * the consistent learner uses the consistent criteria.
   */
  lemma SelectorByMode(kind: LearnerKind, opts: Options)
    requires Resolve(kind, opts).Success?
    ensures var c := Resolve(kind, opts).value;
      && (c.selector == SplitSelector <==> !IsOnline(kind))
      && (c.shouldSplit == ConsistentCriteria <==> kind == OnlineTwoStreamConsistent)
      && (c.featureCount.PoissonPerNode? <==> kind == OnlineTwoStreamConsistent)
      && (c.featureCount.Fixed? ==> c.featureCount.count == c.numberOfFeatures)
      && (c.featureCount.PoissonPerNode? ==> c.featureCount.mean == c.numberOfFeatures)
  {
  }

  /** The forest's parameter widths are 5 and 5, except `cols + 3` for class-pair differences. */
  lemma ForestParamsDims(kind: LearnerKind, opts: Options)
    requires Resolve(kind, opts).Success?
    ensures var c := Resolve(kind, opts).value;
      && c.maxIntParamsDim == c.maxFloatParamsDim
      && (kind == ClassPairDifferenceWalking ==> c.maxIntParamsDim == opts.xColumns.value + 3)
      && (kind != ClassPairDifferenceWalking ==> c.maxIntParamsDim == 5)
  {
  }

  /**
   * Sampler precedence: offline learners never sample with Poisson counts,
   * and for online learners a truthy `bootstrap` wins over `poisson_sample`.
   */
  lemma SamplerPrecedence(kind: LearnerKind, opts: Options)
    requires Resolve(kind, opts).Success?
    ensures var s := Resolve(kind, opts).value.sampler;
      && (s.Bootstrap? <==> opts.bootstrap == Some(true))
      && (!IsOnline(kind) ==> !s.Poisson?)
      && (IsOnline(kind) ==> (s.Poisson? <==> opts.bootstrap != Some(true) && opts.poissonSample.Some?))
  {
  }

  /**
   * Tree order only matters offline: offline trees grow breadth-first exactly
   * for `"breadth_first"`, and online forests grow from a bounded frontier
   * whatever order is asked for.
   */
  lemma TreeOrderPrecedence(kind: LearnerKind, opts: Options, order: Option<string>)
    requires Resolve(kind, opts).Success?
    ensures var c := Resolve(kind, opts).value;
      && (c.growth == BreadthFirst <==> !IsOnline(kind) && opts.treeOrder == Some(BREADTH_FIRST))
      && (IsOnline(kind) ==> Resolve(kind, opts.(treeOrder := order)) == Resolve(kind, opts))
  {
  }

  /** Only the consistent online learner hands the sliced stream-type buffer to the split-point step. */
  lemma StreamFilteredSplitpoints(kind: LearnerKind, opts: Options)
    requires Resolve(kind, opts).Success?
    ensures var sp := Resolve(kind, opts).value.splitpoints;
      && (sp.SortedWalk? <==> IsWalking(kind))
      && (sp.RandomSplitpoints? && sp.streamFiltered <==> kind == OnlineTwoStreamConsistent)
  {
  }
}
