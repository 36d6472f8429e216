/**
 * The feature-extractor interface and its axis-aligned variant.
 *
 * `Extract` fills a `#tests × #samples` matrix of feature values: one row per
 * parameter row (a "test"), one column per sample index. The interface's own
 * defaults are kept as the `Base` variant; the axis-aligned extractor reads
 * one input dimension per test.
 */
module FeatureExtractor {
  import opened Wrappers

  type Matrix<T> = seq<seq<T>>

  /** `m` has exactly `rows` rows of exactly `cols` entries each. */
  predicate IsShape<T>(m: Matrix<T>, rows: nat, cols: nat)
  {
    |m| == rows && forall i :: 0 <= i < |m| ==> |m[i]| == cols
  }

  /**
   * The closed set of extractors in this model: the interface's defaults, and
   * the axis-aligned extractor built over a data matrix (samples × dimensions).
   */
  datatype Extractor = Base | AxisAligned(data: Matrix<real>)

  // Defaults of the interface, as the base class declares them.

  /** Cloning the base interface yields a null pointer. */
  function BaseClone(): Option<Extractor>
  {
    None
  }

  function BaseUID(): int
  {
    0
  }

  function BaseNumberOfFeatures(): int
  {
    0
  }

  function BaseCreateFloatParams(numberOfFeatures: int): Matrix<real>
  {
    []
  }

  function BaseCreateIntParams(numberOfFeatures: int): Matrix<int>
  {
    []
  }

  function BaseFloatParamsDim(): int
  {
    1
  }

  function BaseIntParamsDim(): int
  {
    1
  }

  /**
   * The interface's defaults: null clone, UID 0, no features, empty parameter
   * matrices whatever count is requested, and one int and one float parameter
   * column.
   */
  lemma BaseInterfaceDefaults()
    ensures BaseClone().None?
    ensures BaseUID() == 0 && BaseNumberOfFeatures() == 0
    ensures forall n :: BaseCreateFloatParams(n) == [] && BaseCreateIntParams(n) == []
    ensures BaseFloatParamsDim() == 1 && BaseIntParamsDim() == 1
  {
  }

  /**
   * The axis-aligned lookup is well defined: every sample index names a row
   * of `data`, and every test's first int parameter names a column present in
   * each of those rows.
   */
  predicate ValidLookup(data: Matrix<real>, sampleIndices: seq<int>, intParams: Matrix<int>)
  {
    && (forall j :: 0 <= j < |sampleIndices| ==> 0 <= sampleIndices[j] < |data|)
    && (forall i :: 0 <= i < |intParams| ==> |intParams[i]| > 0)
    && (forall i, j :: 0 <= i < |intParams| && 0 <= j < |sampleIndices| ==>
          0 <= intParams[i][0] < |data[sampleIndices[j]]|)
  }

  /** The axis-aligned value of test `i` on the `j`-th sample. */
  function AxisValue(data: Matrix<real>, sampleIndices: seq<int>, intParams: Matrix<int>, i: nat, j: nat): real
    requires ValidLookup(data, sampleIndices, intParams)
    requires i < |intParams| && j < |sampleIndices|
  {
    data[sampleIndices[j]][intParams[i][0]]
  }

  /**
   * Extracts feature values for every test over the given samples. The base
   * interface does nothing and hands back the output buffer as it was given;
   * the axis-aligned extractor overwrites it with a fresh `#tests × #samples`
   * matrix whose entry `(i, j)` is dimension `intParams[i][0]` of sample
   * `sampleIndices[j]`.
   */
  function Extract(e: Extractor, sampleIndices: seq<int>, intParams: Matrix<int>,
                   floatParams: Matrix<real>, out: Matrix<real>): (r: Matrix<real>)
    requires e.AxisAligned? ==> ValidLookup(e.data, sampleIndices, intParams)
    ensures e.Base? ==> r == out
    ensures e.AxisAligned? ==> IsShape(r, |intParams|, |sampleIndices|)
    ensures e.AxisAligned? ==>
      forall i, j :: 0 <= i < |intParams| && 0 <= j < |sampleIndices| ==>
        r[i][j] == e.data[sampleIndices[j]][intParams[i][0]]
  {
    match e
    case Base => out
    case AxisAligned(data) =>
      seq(|intParams|, i requires 0 <= i < |intParams| =>
        seq(|sampleIndices|, j requires 0 <= j < |sampleIndices| =>
          AxisValue(data, sampleIndices, intParams, i, j)))
  }

  /** Float parameters and the previous output play no part in axis-aligned extraction. */
  lemma AxisAlignedIgnoresFloatParams(data: Matrix<real>, sampleIndices: seq<int>, intParams: Matrix<int>,
                                      floats1: Matrix<real>, floats2: Matrix<real>,
                                      out1: Matrix<real>, out2: Matrix<real>)
    requires ValidLookup(data, sampleIndices, intParams)
    ensures Extract(AxisAligned(data), sampleIndices, intParams, floats1, out1)
         == Extract(AxisAligned(data), sampleIndices, intParams, floats2, out2)
  {
  }

  /** Two tests that select the same dimension produce identical rows. */
  lemma RepeatedDimensionGivesSameRow(data: Matrix<real>, sampleIndices: seq<int>, intParams: Matrix<int>,
                                      floatParams: Matrix<real>, a: nat, b: nat)
    requires ValidLookup(data, sampleIndices, intParams)
    requires a < |intParams| && b < |intParams|
    requires intParams[a][0] == intParams[b][0]
    ensures var r := Extract(AxisAligned(data), sampleIndices, intParams, floatParams, []);
            r[a] == r[b]
  {
    var r := Extract(AxisAligned(data), sampleIndices, intParams, floatParams, []);
    assert |r[a]| == |r[b]|;
    forall j | 0 <= j < |sampleIndices|
      ensures r[a][j] == r[b][j]
    {
    }
  }

  /**
   * The unit-test scenario: two samples over three dimensions, four tests
   * selecting dimensions 1, 0, 2, 0, all float parameters zero.
   */
  lemma AxisAlignedScenario()
    ensures
      var data := [[2.0, 21.0, 1.0], [3.0, 22.0, 5.0]];
      var r := Extract(AxisAligned(data), [0, 1], [[1], [0], [2], [0]], [[0.0], [0.0], [0.0], [0.0]], []);
      r == [[21.0, 22.0], [2.0, 3.0], [1.0, 5.0], [2.0, 3.0]]
  {
    var data := [[2.0, 21.0, 1.0], [3.0, 22.0, 5.0]];
    var ints: Matrix<int> := [[1], [0], [2], [0]];
    assert ValidLookup(data, [0, 1], ints);
    var r := Extract(AxisAligned(data), [0, 1], ints, [[0.0], [0.0], [0.0], [0.0]], []);
    assert r[0] == [21.0, 22.0];
    assert r[1] == [2.0, 3.0];
    assert r[2] == [1.0, 5.0];
    assert r[3] == [2.0, 3.0];
  }
}
