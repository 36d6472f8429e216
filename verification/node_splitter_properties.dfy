/**
 * Properties of the offline node split: the threshold partition, the
 * ownership of candidate ranges, what a successful split guarantees, and the
 * re-extraction of the partition values.
 */
module NodeSplitterProperties {
  import opened Wrappers
  import opened NodeSplitter

  // ---------------------------------------------------------------------------
  // The threshold partition

  /** Every sample goes to exactly one side, so the child sizes add up to the parent's. */
  lemma {:induction false} PartitionSizes(samples: seq<int>, values: seq<real>, t: real)
    requires |values| == |samples|
    ensures |Left(samples, values, t)| + |Right(samples, values, t)| == |samples|
  {
    if |samples| > 0 {
      var n := |samples| - 1;
      PartitionSizes(samples[..n], values[..n], t);
    }
  }

  /** The children together hold the parent's samples with their multiplicities. */
  lemma {:induction false} PartitionMultiset(samples: seq<int>, values: seq<real>, t: real)
    requires |values| == |samples|
    ensures multiset(Left(samples, values, t)) + multiset(Right(samples, values, t)) == multiset(samples)
  {
    if |samples| > 0 {
      var n := |samples| - 1;
      PartitionMultiset(samples[..n], values[..n], t);
      assert samples == samples[..n] + [samples[n]];
    }
  }

  /** A sample lands on a side exactly when some occurrence of it has a value on that side of `t`. */
  lemma {:induction false} SelectMembership(samples: seq<int>, values: seq<real>, t: real, above: bool, x: int)
    requires |values| == |samples|
    ensures x in Select(samples, values, t, above) <==>
      exists i :: 0 <= i < |samples| && samples[i] == x && (values[i] > t) == above
  {
    if |samples| > 0 {
      var n := |samples| - 1;
      var s', v' := samples[..n], values[..n];
      SelectMembership(s', v', t, above, x);
      if x in Select(samples, values, t, above) {
        if x in Select(s', v', t, above) {
          var i :| 0 <= i < n && s'[i] == x && (v'[i] > t) == above;
          assert samples[i] == x && (values[i] > t) == above;
        } else {
          assert samples[n] == x && (values[n] > t) == above;
        }
      }
      if exists i :: 0 <= i < |samples| && samples[i] == x && (values[i] > t) == above {
        var i :| 0 <= i < |samples| && samples[i] == x && (values[i] > t) == above;
        if i < n {
          assert s'[i] == x && (v'[i] > t) == above;
        }
      }
    }
  }

  /** Partitioning a concatenation partitions each part in turn: the children keep the parent's order. */
  lemma {:induction false} SelectAppend(s1: seq<int>, v1: seq<real>, s2: seq<int>, v2: seq<real>, t: real, above: bool)
    requires |v1| == |s1| && |v2| == |s2|
    ensures Select(s1 + s2, v1 + v2, t, above) == Select(s1, v1, t, above) + Select(s2, v2, t, above)
    decreases |s2|
  {
    if |s2| == 0 {
      assert s1 + s2 == s1 && v1 + v2 == v1;
    } else {
      var n := |s2| - 1;
      SelectAppend(s1, v1, s2[..n], v2[..n], t, above);
      assert (s1 + s2)[..|s1| + n] == s1 + s2[..n];
      assert (v1 + v2)[..|v1| + n] == v1 + v2[..n];
    }
  }

  /** The distinct samples a sequence holds. */
  function Elements(s: seq<int>): set<int>
  {
    set x | x in s
  }

  /** Values that depend on the sample alone. */
  predicate ValuesFollowSamples(samples: seq<int>, values: seq<real>)
    requires |values| == |samples|
  {
    forall i, j :: 0 <= i < |samples| && 0 <= j < |samples| && samples[i] == samples[j] ==> values[i] == values[j]
  }

  /**
   * When every occurrence of a sample has the same feature value, the two
   * children are disjoint sets of samples and together cover the parent.
   */
  lemma PartitionIsDisjointCover(samples: seq<int>, values: seq<real>, t: real)
    requires |values| == |samples|
    requires ValuesFollowSamples(samples, values)
    ensures Elements(Left(samples, values, t)) !! Elements(Right(samples, values, t))
    ensures Elements(Left(samples, values, t)) + Elements(Right(samples, values, t)) == Elements(samples)
  {
    forall x
      ensures !(x in Left(samples, values, t) && x in Right(samples, values, t))
      ensures x in Left(samples, values, t) || x in Right(samples, values, t) <==> x in samples
    {
      SelectMembership(samples, values, t, true, x);
      SelectMembership(samples, values, t, false, x);
      if x in samples {
        var i :| 0 <= i < |samples| && samples[i] == x;
        assert (values[i] > t) == true || (values[i] > t) == false;
      }
    }
  }

  // ---------------------------------------------------------------------------
  // Candidate ranges

  /**
   * A reversed or empty range, even one past the arrays, selects no rows and
   * no candidates: the pass leaves the scores and the extractor list as they
   * were when the scorer answers with no values, and is a shape error
   * otherwise.
   */
  lemma EmptyRangeLeavesScores<E>(natives: Natives<E>, samples: seq<int>, params: SampledParams,
                                  e: E, r: Range, acc: Scores<E>)
    requires |params.intParams| == |params.floatParams| == |acc.impurity| == |acc.threshold|
    requires r.end <= r.start
    ensures var sr := RangeScores(natives, samples, params, e, r);
      && (|sr.impurity| == 0 && |sr.threshold| == 0 ==> ScoreRange(natives, samples, params, e, r, acc) == Success(acc))
      && (|sr.impurity| != 0 || |sr.threshold| != 0 ==> ScoreRange(natives, samples, params, e, r, acc) == Failure(ShapeMismatch))
  {
  }

  /** The ranges tile `[0, n)`: each starts where the previous ends, the first at 0, the last ends at `n`. */
  predicate Tiled(ranges: seq<Range>, n: nat)
  {
    && (forall j :: 0 <= j < |ranges| ==> ranges[j].start <= ranges[j].end <= n)
    && (forall j :: 0 < j < |ranges| ==> ranges[j].start == ranges[j - 1].end)
    && (|ranges| == 0 ==> n == 0)
    && (|ranges| > 0 ==> ranges[0].start == 0 && ranges[|ranges| - 1].end == n)
  }

  /** Where range `i` starts in a tiling of `[0, n)`; `n` once all ranges are done. */
  function StartOf(ranges: seq<Range>, n: nat, i: nat): nat
    requires i <= |ranges|
  {
    if i < |ranges| then ranges[i].start else n
  }

  /**
   * Candidate `k` of `res` lies in range `j`, is owned by extractor `j`, and
   * holds the scorer's answer for that extractor's range at offset `k - start`.
   */
  ghost predicate ScoredBy<E>(natives: Natives<E>, samples: seq<int>, params: SampledParams,
                              extractors: seq<E>, res: Scores<E>, j: nat, k: nat)
  {
    && j < |extractors| && j < |params.featureRanges|
    && var r := params.featureRanges[j];
    && r.start <= k < r.end <= |params.intParams| && r.end <= |params.floatParams|
    && k < |res.owners| && k < |res.impurity| && k < |res.threshold|
    && var sr := RangeScores(natives, samples, params, extractors[j], r);
    && |sr.impurity| == r.end - r.start && |sr.threshold| == r.end - r.start
    && res.owners[k] == extractors[j]
    && res.impurity[k] == sr.impurity[k - r.start]
    && res.threshold[k] == sr.threshold[k - r.start]
  }

  /**
   * Scoring tiled ranges from extractor `i` on: candidates before range `i`
   * keep what they had, and every candidate of a later range `j` is scored by
   * extractor `j` with the scorer's answer for that range.
   */
  lemma {:induction false} ScoreFromTiled<E>(natives: Natives<E>, samples: seq<int>, params: SampledParams,
                                             extractors: seq<E>, i: nat, acc: Scores<E>)
    requires |extractors| == |params.featureRanges|
    requires i <= |extractors|
    requires |params.intParams| == |params.floatParams| == |acc.impurity| == |acc.threshold|
    requires Tiled(params.featureRanges, |acc.impurity|)
    requires |acc.owners| == StartOf(params.featureRanges, |acc.impurity|, i)
    requires ScoreFrom(natives, samples, params, extractors, i, acc).Success?
    ensures var res := ScoreFrom(natives, samples, params, extractors, i, acc).value;
      && |res.owners| == |acc.impurity|
      && (forall k :: 0 <= k < |acc.owners| ==>
            res.owners[k] == acc.owners[k] && res.impurity[k] == acc.impurity[k]
            && res.threshold[k] == acc.threshold[k])
      && (forall j, k :: i <= j < |extractors| && params.featureRanges[j].start <= k < params.featureRanges[j].end ==>
            ScoredBy(natives, samples, params, extractors, res, j, k))
    decreases |extractors| - i
  {
    var ranges := params.featureRanges;
    var n := |acc.impurity|;
    if i < |extractors| {
      var r := ranges[i];
      var next := ScoreRange(natives, samples, params, extractors[i], r, acc).value;
      assert |next.owners| == StartOf(ranges, n, i + 1);
      ScoreFromTiled(natives, samples, params, extractors, i + 1, next);
      var res := ScoreFrom(natives, samples, params, extractors, i, acc).value;
      assert res == ScoreFrom(natives, samples, params, extractors, i + 1, next).value;
      forall k | r.start <= k < r.end
        ensures ScoredBy(natives, samples, params, extractors, res, i, k)
      {
        assert next.owners[k] == extractors[i];
      }
      forall k | 0 <= k < |acc.owners|
        ensures res.owners[k] == acc.owners[k] && res.impurity[k] == acc.impurity[k]
             && res.threshold[k] == acc.threshold[k]
      {
        assert next.owners[k] == acc.owners[k];
      }
    }
  }

  /**
   * With tiled ranges, every candidate is owned by the extractor whose range
   * holds it, and its impurity and threshold are the scorer's answer for that
   * extractor.
   */
  lemma TiledScoringOwnership<E>(natives: Natives<E>, samples: seq<int>, coll: CandidateCollection,
                                 params: SampledParams, extractors: seq<E>)
    requires ShapesAgree(coll, params) && |extractors| == |params.featureRanges|
    requires Tiled(params.featureRanges, coll.numberOfCandidates)
    requires Scoring(natives, samples, coll, params, extractors).Success?
    ensures var sc := Scoring(natives, samples, coll, params, extractors).value;
      && |sc.owners| == coll.numberOfCandidates
      && forall j, k :: 0 <= j < |extractors| && params.featureRanges[j].start <= k < params.featureRanges[j].end ==>
          ScoredBy(natives, samples, params, extractors, sc, j, k)
  {
    var n := coll.numberOfCandidates;
    ScoreFromTiled(natives, samples, params, extractors, 0, Scores(Zeros(n), Zeros(n), []));
  }

  // ---------------------------------------------------------------------------
  // The split

  /** A failing pre-split check ends the split before any parameter is drawn or candidate scored. */
  lemma PreCheckStopsBeforeScoring<E>(byWinner: bool, natives: Natives<E>, natives': Natives<E>,
                                      criteria: seq<StopCriterion>, coll: CandidateCollection, coll': CandidateCollection,
                                      extractors: seq<E>, extractors': seq<E>,
                                      params: SampledParams, params': SampledParams,
                                      samples: seq<int>, depth: nat, i: nat)
    requires i < |criteria| && !criteria[i].preCheck(PreSplitParams(depth, |samples|))
    requires forall j :: 0 <= j < i ==> criteria[j].preCheck(PreSplitParams(depth, |samples|))
    ensures SplitWith(byWinner, natives, criteria, coll, extractors, params, samples, depth) == Failure(PreSplitStop(i))
    ensures SplitWith(byWinner, natives, criteria, coll, extractors, params, samples, depth)
         == SplitWith(byWinner, natives', criteria, coll', extractors', params', samples, depth)
  {
    var pre := PreSplitParams(depth, |samples|);
    var r := FirstFailing(criteria, (c: StopCriterion) => c.preCheck(pre));
    assert r.Some?;
    assert r.value == i;
  }

  /**
   * What a successful split guarantees: every pre-split check passed on the
   * node's depth and size, the shapes agree, the winner is the first candidate
   * of highest impurity, the split record copies the winner's parameter rows
   * with column 0 replaced by the winner's extractor UID and threshold, the
   * children partition the samples, and every post-split check passed on the
   * winning impurity and the child sizes.
   */
  lemma SplitOutcome<E>(byWinner: bool, natives: Natives<E>, criteria: seq<StopCriterion>,
                        coll: CandidateCollection, extractors: seq<E>, params: SampledParams,
                        samples: seq<int>, depth: nat)
    requires SplitWith(byWinner, natives, criteria, coll, extractors, params, samples, depth).Success?
    ensures forall i :: 0 <= i < |criteria| ==> criteria[i].preCheck(PreSplitParams(depth, |samples|))
    ensures ShapesAgree(coll, params) && |extractors| == |params.featureRanges|
    ensures coll.numberOfCandidates > 0 && coll.maxIntParamsDim > 0 && coll.maxFloatParamsDim > 0
    ensures Scoring(natives, samples, coll, params, extractors).Success?
    ensures
      var sc := Scoring(natives, samples, coll, params, extractors).value;
      var res := SplitWith(byWinner, natives, criteria, coll, extractors, params, samples, depth).value;
      && |sc.impurity| == |sc.threshold| == |sc.owners| == coll.numberOfCandidates
      && var k := ArgMax(sc.impurity);
      && (forall j :: 0 <= j < |sc.impurity| ==> sc.impurity[j] <= sc.impurity[k])
      && (forall j :: 0 <= j < k ==> sc.impurity[j] < sc.impurity[k])
      && |res.intParams| == coll.maxIntParamsDim
      && res.intParams[0] == natives.uid(sc.owners[k])
      && (forall c :: 1 <= c < |res.intParams| ==> res.intParams[c] == params.intParams[k][c])
      && |res.floatParams| == coll.maxFloatParamsDim
      && res.floatParams[0] == sc.threshold[k]
      && (forall c :: 1 <= c < |res.floatParams| ==> res.floatParams[c] == params.floatParams[k][c])
      && |res.leftIndices| + |res.rightIndices| == |samples|
      && multiset(res.leftIndices) + multiset(res.rightIndices) == multiset(samples)
      && (forall i :: 0 <= i < |criteria| ==>
            criteria[i].postCheck(PostSplitParams(sc.impurity[k], |res.leftIndices|, |res.rightIndices|)))
  {
    var sc := Scoring(natives, samples, coll, params, extractors).value;
    var k := ArgMax(sc.impurity);
    var partitioner := if byWinner then sc.owners[k] else extractors[|extractors| - 1];
    var values := Flatten(natives.extract(partitioner, samples, [params.intParams[k]], [params.floatParams[k]]));
    PartitionSizes(samples, values, sc.threshold[k]);
    PartitionMultiset(samples, values, sc.threshold[k]);
  }

  /**
   * The converse of `SplitOutcome`: when every pre-split check passes, the
   * shapes agree, scoring succeeds with one owner per candidate, both
   * parameter widths are positive, the re-extraction yields one value per
   * sample and every post-split check passes, the split succeeds with exactly
   * the record and children those steps determine.
   */
  lemma SplitSucceeds<E>(byWinner: bool, natives: Natives<E>, criteria: seq<StopCriterion>,
                         coll: CandidateCollection, extractors: seq<E>, params: SampledParams,
                         samples: seq<int>, depth: nat, sc: Scores<E>, k: nat, values: seq<real>,
                         left: seq<int>, right: seq<int>)
    requires forall i :: 0 <= i < |criteria| ==> criteria[i].preCheck(PreSplitParams(depth, |samples|))
    requires ShapesAgree(coll, params) && |extractors| == |params.featureRanges| && |extractors| > 0
    requires Scoring(natives, samples, coll, params, extractors) == Success(sc)
    requires |sc.owners| == coll.numberOfCandidates > 0
    requires coll.maxIntParamsDim > 0 && coll.maxFloatParamsDim > 0
    requires k == ArgMax(sc.impurity)
    requires values == Flatten(natives.extract(if byWinner then sc.owners[k] else extractors[|extractors| - 1],
                                               samples, [params.intParams[k]], [params.floatParams[k]]))
    requires |values| == |samples|
    requires left == Left(samples, values, sc.threshold[k]) && right == Right(samples, values, sc.threshold[k])
    requires forall i :: 0 <= i < |criteria| ==>
      criteria[i].postCheck(PostSplitParams(sc.impurity[k], |left|, |right|))
    ensures SplitWith(byWinner, natives, criteria, coll, extractors, params, samples, depth)
         == Success(SplitResult(WithFirst(params.intParams[k], natives.uid(sc.owners[k])),
                                WithFirst(params.floatParams[k], sc.threshold[k]), left, right))
  {
    var pre := PreSplitParams(depth, |samples|);
    assert FirstFailing(criteria, (c: StopCriterion) => c.preCheck(pre)).None?;
    var post := PostSplitParams(sc.impurity[k], |left|, |right|);
    assert FirstFailing(criteria, (c: StopCriterion) => c.postCheck(post)).None?;
  }

  /**
   * What a stop-criterion failure of the split means: the index of a rejecting
   * pre- or post-split criterion, with every earlier pre-split criterion
   * passing (and, for a post-split stop, every pre-split check passing and the
   * shapes agreeing).
   */
  lemma SplitFailureCauses<E>(byWinner: bool, natives: Natives<E>, criteria: seq<StopCriterion>,
                              coll: CandidateCollection, extractors: seq<E>, params: SampledParams,
                              samples: seq<int>, depth: nat)
    ensures var r := SplitWith(byWinner, natives, criteria, coll, extractors, params, samples, depth);
      var pre := PreSplitParams(depth, |samples|);
      && (r.Failure? && r.error.PreSplitStop? ==>
            var i := r.error.criterion;
            && i < |criteria| && !criteria[i].preCheck(pre)
            && forall j :: 0 <= j < i ==> criteria[j].preCheck(pre))
      && (r.Failure? && r.error.PostSplitStop? ==>
            && r.error.criterion < |criteria|
            && (forall j :: 0 <= j < |criteria| ==> criteria[j].preCheck(pre))
            && ShapesAgree(coll, params) && coll.numberOfCandidates > 0)
  {
    var pre := PreSplitParams(depth, |samples|);
    var r := SplitWith(byWinner, natives, criteria, coll, extractors, params, samples, depth);
    if FirstFailing(criteria, (c: StopCriterion) => c.preCheck(pre)).None? {
      assert forall j :: 0 <= j < |criteria| ==> criteria[j].preCheck(pre);
      if ShapesAgree(coll, params) && |extractors| == |params.featureRanges| {
        var scored := Scoring(natives, samples, coll, params, extractors);
        if scored.Failure? {
          assert r == Failure(ShapeMismatch);
        }
      } else {
        assert r == Failure(ShapeMismatch);
      }
    }
  }

  /**
   * A post-split stop comes from the first criterion that rejects the winner's
   * post-split parameters: the winning impurity and the sizes of the children
   * the chosen extractor's values make at the winning threshold. Every earlier
   * criterion accepts those parameters.
   */
  lemma SplitPostStopCause<E>(byWinner: bool, natives: Natives<E>, criteria: seq<StopCriterion>,
                              coll: CandidateCollection, extractors: seq<E>, params: SampledParams,
                              samples: seq<int>, depth: nat)
    requires SplitWith(byWinner, natives, criteria, coll, extractors, params, samples, depth).Failure?
    requires SplitWith(byWinner, natives, criteria, coll, extractors, params, samples, depth).error.PostSplitStop?
    ensures forall j :: 0 <= j < |criteria| ==> criteria[j].preCheck(PreSplitParams(depth, |samples|))
    ensures ShapesAgree(coll, params) && |extractors| == |params.featureRanges| && |extractors| > 0
    ensures coll.numberOfCandidates > 0 && coll.maxIntParamsDim > 0 && coll.maxFloatParamsDim > 0
    ensures Scoring(natives, samples, coll, params, extractors).Success?
    ensures
      var sc := Scoring(natives, samples, coll, params, extractors).value;
      && |sc.owners| == |sc.impurity| == coll.numberOfCandidates
      && var k := ArgMax(sc.impurity);
      && var partitioner := if byWinner then sc.owners[k] else extractors[|extractors| - 1];
      && var values := Flatten(natives.extract(partitioner, samples, [params.intParams[k]], [params.floatParams[k]]));
      && |values| == |samples|
      && var post := PostSplitParams(sc.impurity[k], |Left(samples, values, sc.threshold[k])|,
                                     |Right(samples, values, sc.threshold[k])|);
      && var i := SplitWith(byWinner, natives, criteria, coll, extractors, params, samples, depth).error.criterion;
      && i < |criteria| && !criteria[i].postCheck(post)
      && forall j :: 0 <= j < i ==> criteria[j].postCheck(post)
  {
  }

  /** A split with no candidates, or with a zero-width parameter matrix, is refused for that reason. */
  lemma SplitShapeFailures<E>(byWinner: bool, natives: Natives<E>, criteria: seq<StopCriterion>,
                              coll: CandidateCollection, extractors: seq<E>, params: SampledParams,
                              samples: seq<int>, depth: nat)
    ensures var r := SplitWith(byWinner, natives, criteria, coll, extractors, params, samples, depth);
      && (r.Failure? && r.error.NoCandidates? ==> coll.numberOfCandidates == 0)
      && (r.Failure? && r.error.ParamsIndexError? ==> coll.maxIntParamsDim == 0 || coll.maxFloatParamsDim == 0)
  {
  }

  /** The intended split partitions by the winning candidate's own extractor and threshold. */
  lemma SplitPartitionsByWinner<E>(natives: Natives<E>, criteria: seq<StopCriterion>,
                                   coll: CandidateCollection, extractors: seq<E>, params: SampledParams,
                                   samples: seq<int>, depth: nat)
    requires Split(natives, criteria, coll, extractors, params, samples, depth).Success?
    ensures ShapesAgree(coll, params) && |extractors| == |params.featureRanges|
    ensures Scoring(natives, samples, coll, params, extractors).Success?
    ensures
      var sc := Scoring(natives, samples, coll, params, extractors).value;
      var res := Split(natives, criteria, coll, extractors, params, samples, depth).value;
      && |sc.impurity| == |sc.owners| == coll.numberOfCandidates > 0
      && var k := ArgMax(sc.impurity);
      && var values := Flatten(natives.extract(sc.owners[k], samples, [params.intParams[k]], [params.floatParams[k]]));
      && |values| == |samples|
      && res.leftIndices == Left(samples, values, sc.threshold[k])
      && res.rightIndices == Right(samples, values, sc.threshold[k])
  {
  }

  /** The split as written partitions by the last extractor of the scoring loop, whoever won. */
  lemma SplitAsWrittenPartitionsByLast<E>(natives: Natives<E>, criteria: seq<StopCriterion>,
                                          coll: CandidateCollection, extractors: seq<E>, params: SampledParams,
                                          samples: seq<int>, depth: nat)
    requires SplitAsWritten(natives, criteria, coll, extractors, params, samples, depth).Success?
    ensures ShapesAgree(coll, params) && |extractors| == |params.featureRanges| && |extractors| > 0
    ensures Scoring(natives, samples, coll, params, extractors).Success?
    ensures
      var sc := Scoring(natives, samples, coll, params, extractors).value;
      var res := SplitAsWritten(natives, criteria, coll, extractors, params, samples, depth).value;
      && |sc.impurity| == coll.numberOfCandidates > 0
      && var k := ArgMax(sc.impurity);
      && var values := Flatten(natives.extract(extractors[|extractors| - 1], samples, [params.intParams[k]], [params.floatParams[k]]));
      && |values| == |samples|
      && res.leftIndices == Left(samples, values, sc.threshold[k])
      && res.rightIndices == Right(samples, values, sc.threshold[k])
  {
  }

  /** With a single extractor the last extractor is the winner's, so both splits agree. */
  lemma SingleExtractorSplitsAgree<E>(natives: Natives<E>, criteria: seq<StopCriterion>,
                                      coll: CandidateCollection, extractors: seq<E>, params: SampledParams,
                                      samples: seq<int>, depth: nat)
    requires |extractors| == 1
    ensures SplitAsWritten(natives, criteria, coll, extractors, params, samples, depth)
         == Split(natives, criteria, coll, extractors, params, samples, depth)
  {
    if ShapesAgree(coll, params) && |extractors| == |params.featureRanges| {
      var scored := Scoring(natives, samples, coll, params, extractors);
      if scored.Success? && |scored.value.owners| == coll.numberOfCandidates > 0 {
        var sc := scored.value;
        var k := ArgMax(sc.impurity);
        assert sc.owners[k] in extractors[0..];
        assert sc.owners[k] == extractors[|extractors| - 1];
      }
    }
  }

  /**
   * Natives for the counterexample, for one test at a time: extractor 0 sees
   * the two samples as values 1, 0 and extractor 1 as 0, 1; the scorer rates
   * the test by its first value and proposes threshold 0.5; UIDs are the
   * extractors themselves.
   */
  function QuirkNatives(): Natives<int>
  {
    Natives(
      (e: int) => e,
      (e: int, s: seq<int>, ints: seq<seq<int>>, floats: seq<seq<real>>) =>
        if e == 0 then [[1.0, 0.0]] else [[0.0, 1.0]],
      (values: seq<seq<real>>, s: seq<int>) =>
        if |values| > 0 && |values[0]| > 0 then BestSplits([values[0][0]], [0.5]) else BestSplits([], []))
  }

  /** Two candidates with one int and one float parameter each; extractor `j` owns candidate `j`. */
  function QuirkParams(): SampledParams
  {
    SampledParams([[0], [0]], [[0.0], [0.0]], [Range(0, 1), Range(1, 2)])
  }

  /**
   * In the counterexample the first candidate wins with impurity 1, and it is
   * extractor 0's. The example's natives and parameters are passed in as
   * arguments pinned to their values.
   */
  lemma QuirkScoring(natives: Natives<int>, params: SampledParams)
    requires natives == QuirkNatives() && params == QuirkParams()
    ensures Scoring(natives, [0, 1], CandidateCollection(2, 1, 1), params, [0, 1])
         == Success(Scores([1.0, 0.0], [0.5, 0.5], [0, 1]))
  {
    var samples := [0, 1];
    assert RangeScores(natives, samples, params, 0, Range(0, 1)) == BestSplits([1.0], [0.5]);
    assert RangeScores(natives, samples, params, 1, Range(1, 2)) == BestSplits([0.0], [0.5]);
    var acc0 := Scores(Zeros(2), Zeros(2), []);
    var acc1 := ScoreRange(natives, samples, params, 0, Range(0, 1), acc0).value;
    assert acc1 == Scores([1.0, 0.0], [0.5, 0.0], [0]);
    var acc2 := ScoreRange(natives, samples, params, 1, Range(1, 2), acc1).value;
    assert acc2 == Scores([1.0, 0.0], [0.5, 0.5], [0, 1]);
    assert ScoreFrom(natives, samples, params, [0, 1], 1, acc1) == Success(acc2);
  }

  /** The partition of two samples: each goes to the side its own value selects. */
  lemma SelectPair(a: int, b: int, va: real, vb: real, t: real, above: bool)
    ensures Select([a, b], [va, vb], t, above)
         == (if (va > t) == above then [a] else []) + (if (vb > t) == above then [b] else [])
  {
    assert [a, b][..1] == [a] && [va, vb][..1] == [va];
    assert [a][..0] == [] && [va][..0] == [];
    assert Select([], [], t, above) == [];
    assert Select([a], [va], t, above) == if (va > t) == above then [a] else [];
  }

  /** The values the counterexample's extractors give the two samples. */
  lemma QuirkValues(e: int)
    ensures Flatten(QuirkNatives().extract(e, [0, 1], [[0]], [[0.0]])) == if e == 0 then [1.0, 0.0] else [0.0, 1.0]
  {
    var m := QuirkNatives().extract(e, [0, 1], [[0]], [[0.0]]);
    assert m == if e == 0 then [[1.0, 0.0]] else [[0.0, 1.0]];
    assert m[1..] == [];
  }

  /**
   * In the counterexample the parameters fit the collection and the winner is
   * candidate 0, whose split record is `[0]`, `[0.5]`.
   */
  lemma QuirkWinner(natives: Natives<int>, params: SampledParams, sc: Scores<int>)
    requires natives == QuirkNatives() && params == QuirkParams()
    requires sc == Scores([1.0, 0.0], [0.5, 0.5], [0, 1])
    ensures ShapesAgree(CandidateCollection(2, 1, 1), params) && |params.featureRanges| == 2
    ensures 0 == ArgMax(sc.impurity) && |sc.owners| == 2
    ensures WithFirst(params.intParams[0], natives.uid(sc.owners[0])) == [0]
    ensures WithFirst(params.floatParams[0], sc.threshold[0]) == [0.5]
  {
  }

  /**
   * The partition the counterexample's winning test makes: by the winner's
   * extractor 0 sample 0 goes left, by the last extractor 1 it goes right.
   */
  lemma QuirkPartition(byWinner: bool, natives: Natives<int>, params: SampledParams, sc: Scores<int>,
                       values: seq<real>, left: seq<int>, right: seq<int>)
    requires natives == QuirkNatives() && params == QuirkParams()
    requires sc == Scores([1.0, 0.0], [0.5, 0.5], [0, 1])
    requires values == (if byWinner then [1.0, 0.0] else [0.0, 1.0])
    requires left == (if byWinner then [0] else [1]) && right == (if byWinner then [1] else [0])
    ensures values == Flatten(natives.extract(if byWinner then sc.owners[0] else [0, 1][1],
                                             [0, 1], [params.intParams[0]], [params.floatParams[0]]))
    ensures left == Left([0, 1], values, sc.threshold[0]) && right == Right([0, 1], values, sc.threshold[0])
  {
    QuirkValues(if byWinner then 0 else 1);
    SelectPair(0, 1, values[0], values[1], 0.5, true);
    SelectPair(0, 1, values[0], values[1], 0.5, false);
  }

  /**
   * Partitioning by the winner's own extractor sends sample 0 left and
   * sample 1 right. The example's natives and parameters are passed in as
   * arguments pinned to their values.
   */
  lemma QuirkSplitByWinner(natives: Natives<int>, params: SampledParams)
    requires natives == QuirkNatives() && params == QuirkParams()
    ensures Split(natives, [], CandidateCollection(2, 1, 1), [0, 1], params, [0, 1], 0)
         == Success(SplitResult([0], [0.5], [0], [1]))
  {
    var sc := Scores([1.0, 0.0], [0.5, 0.5], [0, 1]);
    QuirkScoring(natives, params);
    QuirkWinner(natives, params, sc);
    QuirkPartition(true, natives, params, sc, [1.0, 0.0], [0], [1]);
    SplitSucceeds(true, natives, [], CandidateCollection(2, 1, 1), [0, 1], params, [0, 1], 0,
                  sc, 0, [1.0, 0.0], [0], [1]);
  }

  /** Partitioning by the last extractor sends sample 0 right and sample 1 left. */
  lemma QuirkSplitByLast(natives: Natives<int>, params: SampledParams)
    requires natives == QuirkNatives() && params == QuirkParams()
    ensures SplitAsWritten(natives, [], CandidateCollection(2, 1, 1), [0, 1], params, [0, 1], 0)
         == Success(SplitResult([0], [0.5], [1], [0]))
  {
    var sc := Scores([1.0, 0.0], [0.5, 0.5], [0, 1]);
    QuirkScoring(natives, params);
    QuirkWinner(natives, params, sc);
    QuirkPartition(false, natives, params, sc, [0.0, 1.0], [1], [0]);
    SplitSucceeds(false, natives, [], CandidateCollection(2, 1, 1), [0, 1], params, [0, 1], 0,
                  sc, 0, [0.0, 1.0], [1], [0]);
  }

  /**
   * Two extractors, one candidate each. The first extractor's candidate wins,
   * but the split as written re-extracts with the second extractor and sends
   * each sample to the opposite side; the intended split does not.
   */
  lemma LastExtractorCounterexample()
    ensures Split(QuirkNatives(), [], CandidateCollection(2, 1, 1), [0, 1], QuirkParams(), [0, 1], 0)
         == Success(SplitResult([0], [0.5], [0], [1]))
    ensures SplitAsWritten(QuirkNatives(), [], CandidateCollection(2, 1, 1), [0, 1], QuirkParams(), [0, 1], 0)
         == Success(SplitResult([0], [0.5], [1], [0]))
  {
    QuirkSplitByWinner(QuirkNatives(), QuirkParams());
    QuirkSplitByLast(QuirkNatives(), QuirkParams());
  }
}
