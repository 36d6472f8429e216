/**
 * One split of one node in the offline forest builder.
 *
 * The splitter runs the pre-split stop checks, scores every candidate
 * (each feature extractor scores its own half-open range of candidates),
 * picks the first candidate of highest impurity, builds the split record,
 * partitions the node's samples by the winning threshold and runs the
 * post-split stop checks.
 *
 * Feature extraction, the best-split scorer and the extractors' UIDs are
 * native code outside this model: they enter as the function fields of
 * `Natives`, and the extractors themselves are the opaque type `E`.
 */
module NodeSplitter {
  import opened Wrappers

  /** The half-open candidate range `[start, end)` one extractor owns. */
  datatype Range = Range(start: nat, end: nat)

  datatype PreSplitParams = PreSplitParams(treeDepth: nat, numberSamples: nat)

  datatype PostSplitParams = PostSplitParams(impurityGain: real, leftNumberSamples: nat, rightNumberSamples: nat)

  /**
   * A stop criterion. Both checks are opaque; a check that answers `false`
   * is one that raises in the Python splitter, which aborts the split.
   */
  datatype StopCriterion = StopCriterion(
    preCheck: PreSplitParams -> bool,
    postCheck: PostSplitParams -> bool)

  /** What the candidate collection promises about each draw of parameters. */
  datatype CandidateCollection = CandidateCollection(
    numberOfCandidates: nat,
    maxIntParamsDim: nat,
    maxFloatParamsDim: nat)

  /** One draw of candidate parameters: a row per candidate, and each extractor's range. */
  datatype SampledParams = SampledParams(
    intParams: seq<seq<int>>,
    floatParams: seq<seq<real>>,
    featureRanges: seq<Range>)

  /**
   * The native collaborators.
   * - `uid(e)`: the extractor's UID.
   * - `extract(e, samples, ints, floats)`: the `#tests × #samples` feature values.
   * - `bestSplits(values, samples)`: per test, the best impurity and its threshold.
   */
  datatype Natives<-E> = Natives(
    uid: E -> int,
    extract: (E, seq<int>, seq<seq<int>>, seq<seq<real>>) -> seq<seq<real>>,
    bestSplits: (seq<seq<real>>, seq<int>) -> BestSplits)

  /** The scorer's answer: per test, the best impurity and the threshold that achieves it. */
  datatype BestSplits = BestSplits(impurity: seq<real>, threshold: seq<real>)

  datatype SplitError =
    /** Pre-split criterion number `criterion` rejected the node. */
    | PreSplitStop(criterion: nat)
    /** A shape assertion failed, or a native result had the wrong length. */
    | ShapeMismatch
    /** `argmax` of an empty impurity array. */
    | NoCandidates
    /** Writing column 0 of a zero-column parameter row. */
    | ParamsIndexError
    /** Post-split criterion number `criterion` rejected the split. */
    | PostSplitStop(criterion: nat)

  /** The split record and the two child sample sets. */
  datatype SplitResult = SplitResult(
    intParams: seq<int>,
    floatParams: seq<real>,
    leftIndices: seq<int>,
    rightIndices: seq<int>)

  /** Per-candidate scores, and the extractor each candidate was scored by. */
  datatype Scores<E> = Scores(impurity: seq<real>, threshold: seq<real>, owners: seq<E>)

  // ---------------------------------------------------------------------------
  // Stop checks

  /** The first criterion `passes` rejects, if any. */
  function FirstFailing(criteria: seq<StopCriterion>, passes: StopCriterion -> bool): (r: Option<nat>)
    ensures r.None? <==> forall i :: 0 <= i < |criteria| ==> passes(criteria[i])
    ensures r.Some? ==> r.value < |criteria| && !passes(criteria[r.value])
    ensures r.Some? ==> forall i :: 0 <= i < r.value ==> passes(criteria[i])
    decreases |criteria|
  {
    if |criteria| == 0 then None
    else if !passes(criteria[0]) then Some(0)
    else match FirstFailing(criteria[1..], passes)
      case None => None
      case Some(k) => Some(k + 1)
  }

  // ---------------------------------------------------------------------------
  // Selection

  /** `k` is the first index of maximum value in `a`. */
  predicate IsFirstMax(a: seq<real>, k: nat)
  {
    && k < |a|
    && (forall j :: 0 <= j < |a| ==> a[j] <= a[k])
    && (forall j :: 0 <= j < k ==> a[j] < a[k])
  }

  /** `numpy.argmax`: the first index holding the largest value. */
  function ArgMax(a: seq<real>): (k: nat)
    requires |a| > 0
    ensures IsFirstMax(a, k)
  {
    if |a| == 1 then 0
    else
      var k := ArgMax(a[..|a| - 1]);
      assert forall j :: 0 <= j < |a| - 1 ==> a[..|a| - 1][j] == a[j];
      if a[|a| - 1] > a[k] then |a| - 1 else k
  }

  /** The first maximum is unique, so `ArgMax` is the only index that qualifies. */
  lemma FirstMaxIsUnique(a: seq<real>, k: nat, k': nat)
    requires IsFirstMax(a, k) && IsFirstMax(a, k')
    ensures k == k'
  {
    assert a[k] <= a[k'] && a[k'] <= a[k];
  }

  // ---------------------------------------------------------------------------
  // Scoring

  function Zeros(n: nat): (z: seq<real>)
    ensures |z| == n && forall i :: 0 <= i < n ==> z[i] == 0.0
  {
    seq(n, _ => 0.0)
  }

  function Repeat<T>(x: T, n: nat): (r: seq<T>)
    ensures |r| == n && forall i :: 0 <= i < n ==> r[i] == x
  {
    seq(n, _ => x)
  }

  /** `a` with the slice starting at `start` replaced by `vals`; numpy's `a[start:start+len] = vals`. */
  function Overwrite(a: seq<real>, start: nat, vals: seq<real>): (r: seq<real>)
    requires start + |vals| <= |a|
    ensures |r| == |a|
    ensures forall i :: start <= i < start + |vals| ==> r[i] == vals[i - start]
    ensures forall i :: 0 <= i < |a| && !(start <= i < start + |vals|) ==> r[i] == a[i]
  {
    a[..start] + vals + a[start + |vals|..]
  }

  /** The draw has `n` rows of the promised widths. */
  predicate ShapesAgree(coll: CandidateCollection, params: SampledParams)
  {
    && |params.intParams| == coll.numberOfCandidates
    && |params.floatParams| == coll.numberOfCandidates
    && (forall i :: 0 <= i < |params.intParams| ==> |params.intParams[i]| == coll.maxIntParamsDim)
    && (forall i :: 0 <= i < |params.floatParams| ==> |params.floatParams[i]| == coll.maxFloatParamsDim)
  }

  /** The per-candidate arrays are as long as the candidate count. */
  predicate ScoresSized<E>(sc: Scores<E>, n: nat)
  {
    |sc.impurity| == n && |sc.threshold| == n
  }

  /** How many candidates `r` covers: numpy's `a[start:end]` and `range(start, end)` are empty when `end <= start`. */
  function Width(r: Range): nat
  {
    if r.start <= r.end then r.end - r.start else 0
  }

  /** The rows `r` selects: a reversed or empty range selects none. */
  function Rows<T>(rows: seq<T>, r: Range): (sel: seq<T>)
    requires r.start < r.end ==> r.end <= |rows|
    ensures |sel| == Width(r)
  {
    if r.start < r.end then rows[r.start..r.end] else []
  }

  /** What the scorer answers for extractor `e` over its range `r` of parameter rows. */
  function RangeScores<E>(natives: Natives<E>, samples: seq<int>, params: SampledParams,
                          e: E, r: Range): BestSplits
    requires r.start < r.end ==> r.end <= |params.intParams| && r.end <= |params.floatParams|
  {
    var values := natives.extract(e, samples, Rows(params.intParams, r), Rows(params.floatParams, r));
    natives.bestSplits(values, samples)
  }

  /**
   * Extractor `e` scores its range `r`: it extracts over its slice of the
   * parameter rows, the scorer rates those values, and the results land in
   * exactly `[r.start, r.end)`; the extractor is listed once per candidate of
   * the range. A reversed or empty range is an empty slice, so the pass only
   * changes anything if the scorer answers with values. A range that runs past
   * the arrays, or a scorer answer of the wrong length, is a shape error.
   */
  function ScoreRange<E>(natives: Natives<E>, samples: seq<int>, params: SampledParams,
                         e: E, r: Range, acc: Scores<E>): (res: Result<Scores<E>, SplitError>)
    requires |params.intParams| == |params.floatParams| == |acc.impurity| == |acc.threshold|
    ensures res.Failure? ==> res.error == ShapeMismatch
    ensures res.Success? ==> (r.start < r.end ==> r.end <= |acc.impurity|)
    ensures res.Success? ==> ScoresSized(res.value, |acc.impurity|)
    ensures res.Success? ==> res.value.owners == acc.owners + Repeat(e, Width(r))
    ensures res.Success? ==>
      forall i :: 0 <= i < |acc.impurity| && !(r.start <= i < r.end) ==>
        res.value.impurity[i] == acc.impurity[i] && res.value.threshold[i] == acc.threshold[i]
    ensures res.Success? ==>
      var sr := RangeScores(natives, samples, params, e, r);
      && |sr.impurity| == |sr.threshold| == Width(r)
      && forall i :: r.start <= i < r.end ==>
        res.value.impurity[i] == sr.impurity[i - r.start] && res.value.threshold[i] == sr.threshold[i - r.start]
  {
    if r.start < r.end && r.end > |acc.impurity| then Failure(ShapeMismatch)
    else
      var sr := RangeScores(natives, samples, params, e, r);
      if |sr.impurity| != Width(r) || |sr.threshold| != Width(r) then Failure(ShapeMismatch)
      else if Width(r) == 0 then Success(acc)
      else
        Success(Scores(
          Overwrite(acc.impurity, r.start, sr.impurity),
          Overwrite(acc.threshold, r.start, sr.threshold),
          acc.owners + Repeat(e, Width(r))))
  }

  /** Scores extractors `i..` in order, each over its own range, threading the arrays through. */
  function ScoreFrom<E>(natives: Natives<E>, samples: seq<int>, params: SampledParams,
                        extractors: seq<E>, i: nat, acc: Scores<E>): (res: Result<Scores<E>, SplitError>)
    requires |extractors| == |params.featureRanges|
    requires i <= |extractors|
    requires |params.intParams| == |params.floatParams| == |acc.impurity| == |acc.threshold|
    ensures res.Failure? ==> res.error == ShapeMismatch
    ensures res.Success? ==> ScoresSized(res.value, |acc.impurity|)
    ensures res.Success? ==> |acc.owners| <= |res.value.owners|
    ensures res.Success? ==> res.value.owners[..|acc.owners|] == acc.owners
    ensures res.Success? ==>
      forall k :: |acc.owners| <= k < |res.value.owners| ==> res.value.owners[k] in extractors[i..]
    decreases |extractors| - i
  {
    if i == |extractors| then Success(acc)
    else
      var next :- ScoreRange(natives, samples, params, extractors[i], params.featureRanges[i], acc);
      var res := ScoreFrom(natives, samples, params, extractors, i + 1, next);
      assert res.Success? ==> res.value.owners[..|acc.owners|] == next.owners[..|acc.owners|];
      assert forall o :: o in extractors[i + 1..] ==> o in extractors[i..];
      assert extractors[i] in extractors[i..];
      res
  }

  /** The full scoring loop, starting from zeroed arrays and an empty extractor list. */
  function Scoring<E>(natives: Natives<E>, samples: seq<int>, coll: CandidateCollection,
                      params: SampledParams, extractors: seq<E>): (res: Result<Scores<E>, SplitError>)
    requires ShapesAgree(coll, params) && |extractors| == |params.featureRanges|
    ensures res.Failure? ==> res.error == ShapeMismatch
    ensures res.Success? ==> ScoresSized(res.value, coll.numberOfCandidates)
  {
    var n := coll.numberOfCandidates;
    ScoreFrom(natives, samples, params, extractors, 0, Scores(Zeros(n), Zeros(n), []))
  }

  // ---------------------------------------------------------------------------
  // Partition

  /** `samples` at the positions whose value is above `t` (`above`) or not above it. */
  function Select(samples: seq<int>, values: seq<real>, t: real, above: bool): seq<int>
    requires |values| == |samples|
  {
    if |samples| == 0 then []
    else
      var rest := Select(samples[..|samples| - 1], values[..|values| - 1], t, above);
      if (values[|values| - 1] > t) == above then rest + [samples[|samples| - 1]] else rest
  }

  /** The left child: samples whose feature value exceeds the threshold, in order. */
  function Left(samples: seq<int>, values: seq<real>, t: real): seq<int>
    requires |values| == |samples|
  {
    Select(samples, values, t, true)
  }

  /** The right child: samples whose feature value is at most the threshold, in order. */
  function Right(samples: seq<int>, values: seq<real>, t: real): seq<int>
    requires |values| == |samples|
  {
    Select(samples, values, t, false)
  }

  /** The matrix's rows laid end to end (`flatten` of a row-major array). */
  function Flatten(m: seq<seq<real>>): seq<real>
  {
    if |m| == 0 then [] else m[0] + Flatten(m[1..])
  }

  // ---------------------------------------------------------------------------
  // The split

  /** `row` with its column 0 replaced by `v`. */
  function WithFirst<T>(row: seq<T>, v: T): (r: seq<T>)
    requires |row| > 0
  {
    [v] + row[1..]
  }

  /**
   * The split, parameterised by the extractor the partition re-extracts
   * with: the winning candidate's own extractor (`partitionByWinner`), or the
   * last extractor of the scoring loop.
   */
  function SplitWith<E>(partitionByWinner: bool, natives: Natives<E>, criteria: seq<StopCriterion>,
                        coll: CandidateCollection, extractors: seq<E>, params: SampledParams,
                        samples: seq<int>, depth: nat): Result<SplitResult, SplitError>
  {
    var pre := PreSplitParams(depth, |samples|);
    match FirstFailing(criteria, (c: StopCriterion) => c.preCheck(pre))
    case Some(i) => Failure(PreSplitStop(i))
    case None =>
      if !ShapesAgree(coll, params) || |extractors| != |params.featureRanges| then Failure(ShapeMismatch)
      else
        var sc :- Scoring(natives, samples, coll, params, extractors);
        var n := coll.numberOfCandidates;
        if |sc.owners| != n then Failure(ShapeMismatch)
        else if n == 0 then Failure(NoCandidates)
        else
          var k := ArgMax(sc.impurity);
          var winner := sc.owners[k];
          if coll.maxIntParamsDim == 0 || coll.maxFloatParamsDim == 0 then Failure(ParamsIndexError)
          else
            var intRow := WithFirst(params.intParams[k], natives.uid(winner));
            var floatRow := WithFirst(params.floatParams[k], sc.threshold[k]);
            var partitioner := if partitionByWinner then winner else extractors[|extractors| - 1];
            var values := Flatten(natives.extract(partitioner, samples, [params.intParams[k]], [params.floatParams[k]]));
            if |values| != |samples| then Failure(ShapeMismatch)
            else
              var left := Left(samples, values, sc.threshold[k]);
              var right := Right(samples, values, sc.threshold[k]);
              var post := PostSplitParams(sc.impurity[k], |left|, |right|);
              match FirstFailing(criteria, (c: StopCriterion) => c.postCheck(post))
              case Some(i) => Failure(PostSplitStop(i))
              case None => Success(SplitResult(intRow, floatRow, left, right))
  }

  /** The split as rftk writes it: the partition re-extracts with the last extractor. */
  function SplitAsWritten<E>(natives: Natives<E>, criteria: seq<StopCriterion>, coll: CandidateCollection,
                             extractors: seq<E>, params: SampledParams, samples: seq<int>, depth: nat)
    : Result<SplitResult, SplitError>
  {
    SplitWith(false, natives, criteria, coll, extractors, params, samples, depth)
  }

  /** The split as intended: the partition re-extracts with the winning candidate's extractor. */
  function Split<E>(natives: Natives<E>, criteria: seq<StopCriterion>, coll: CandidateCollection,
                    extractors: seq<E>, params: SampledParams, samples: seq<int>, depth: nat)
    : Result<SplitResult, SplitError>
  {
    SplitWith(true, natives, criteria, coll, extractors, params, samples, depth)
  }
}
