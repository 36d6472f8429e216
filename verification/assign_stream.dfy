/**
 * The stream-assignment pipeline step: tags every sample with the stream
 * (estimation or structure) its statistics feed. Only the iid mode is
 * modelled; the Bernoulli generator is replaced by the sequence of draws it
 * would produce.
 */
module AssignStream {

  const STREAM_ESTIMATION: int := 0
  const STREAM_STRUCTURE: int := 1

  /**
   * The name every instance hands to `GetBufferId` for the buffer it writes
   * its tags to. The id `GetBufferId` derives from it is not modelled.
   */
  const STREAM_TYPE_BUFFER_NAME: string := "StreamType"

  datatype AssignStreamStep = AssignStreamStep(
    streamTypeBufferName: string,
    weightsBufferId: string,
    probabilityOfImpurityStream: real,
    iid: bool)

  /** The two-argument constructor: iid mode, with the stream-type buffer named `"StreamType"`. */
  function Create(weightsBufferId: string, probabilityOfImpurityStream: real): (s: AssignStreamStep)
    ensures s.iid
    ensures s.streamTypeBufferName == STREAM_TYPE_BUFFER_NAME
    ensures s.weightsBufferId == weightsBufferId
    ensures s.probabilityOfImpurityStream == probabilityOfImpurityStream
  {
    AssignStreamStep(STREAM_TYPE_BUFFER_NAME, weightsBufferId, probabilityOfImpurityStream, true)
  }

  /** The three-argument constructor: the mode is the caller's choice; the buffer name is the same. */
  function CreateWithMode(weightsBufferId: string, probabilityOfImpurityStream: real, iid: bool): (s: AssignStreamStep)
    ensures s.iid == iid
    ensures s.streamTypeBufferName == STREAM_TYPE_BUFFER_NAME
    ensures s.weightsBufferId == weightsBufferId
    ensures s.probabilityOfImpurityStream == probabilityOfImpurityStream
  {
    AssignStreamStep(STREAM_TYPE_BUFFER_NAME, weightsBufferId, probabilityOfImpurityStream, iid)
  }

  /** The tag one Bernoulli draw is stored as. */
  function Tag(draw: bool): int
  {
    if draw then STREAM_STRUCTURE else STREAM_ESTIMATION
  }

  /** Tags for the first `n` draws, built in index order. */
  function StreamTags(draws: seq<bool>, n: nat): (tags: seq<int>)
    requires n <= |draws|
    ensures |tags| == n
    ensures forall i :: 0 <= i < n ==> tags[i] == Tag(draws[i])
  {
    if n == 0 then [] else StreamTags(draws, n - 1) + [Tag(draws[n - 1])]
  }

  /**
   * Runs the step in iid mode: the stream-type buffer is resized to the number
   * of weights and entry `i` is set from the `i`-th draw.
   */
  function ProcessStep(step: AssignStreamStep, weights: seq<real>, draws: seq<bool>): (streamType: seq<int>)
    requires step.iid
    requires |weights| <= |draws|
    ensures |streamType| == |weights|
    ensures forall i :: 0 <= i < |streamType| ==>
      streamType[i] == STREAM_ESTIMATION || streamType[i] == STREAM_STRUCTURE
    ensures forall i :: 0 <= i < |streamType| ==> (streamType[i] == STREAM_STRUCTURE <==> draws[i])
  {
    StreamTags(draws, |weights|)
  }

  /** Only the number of weights matters, never their values. */
  lemma WeightValuesIgnored(step: AssignStreamStep, w1: seq<real>, w2: seq<real>, draws: seq<bool>)
    requires step.iid
    requires |w1| == |w2| <= |draws|
    ensures ProcessStep(step, w1, draws) == ProcessStep(step, w2, draws)
  {
  }

  /** Reading the tags back recovers exactly the draws that were consumed, in order. */
  lemma {:induction false} TagsDecodeToDraws(draws: seq<bool>, n: nat)
    requires n <= |draws|
    ensures var tags := StreamTags(draws, n);
            seq(n, i requires 0 <= i < n => tags[i] == STREAM_STRUCTURE) == draws[..n]
  {
    var tags := StreamTags(draws, n);
    var decoded := seq(n, i requires 0 <= i < n => tags[i] == STREAM_STRUCTURE);
    forall i | 0 <= i < n
      ensures decoded[i] == draws[i]
    {
    }
  }
}
