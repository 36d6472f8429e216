/**
 * The buffer collection: a string-keyed map of typed buffers that pipeline
 * stages read and write. The C++ class stores a `boost::any` per name; here
 * each stored buffer carries its element/shape kind explicitly, which plays
 * the role of the `typeid` the typed lookups compare against.
 */
module BufferCollection {
  import opened Wrappers

  // Well-known buffer names shared between stages.
  const X_FLOAT_DATA: string := "X_Float"
  const SAMPLE_WEIGHTS: string := "SampleWeights"
  const CLASS_LABELS: string := "ClassLabels"
  const FEATURE_VALUES: string := "Feature_Values"
  const HISTOGRAM_LEFT: string := "Histogram_Left"
  const HISTOGRAM_RIGHT: string := "Histogram_Right"
  const THRESHOLDS: string := "Thresholds"
  const THRESHOLD_COUNTS: string := "ThresholdCounts"
  const IMPURITY_HISTOGRAM_LEFT: string := "Impurity_Histogram_Left"
  const IMPURITY_HISTOGRAM_RIGHT: string := "Impurity_Histogram_Right"
  const YS_HISTOGRAM_LEFT: string := "Ys_Histogram_Left"
  const YS_HISTOGRAM_RIGHT: string := "Ys_Histogram_Right"
  const PIXEL_INDICES: string := "PixelIndices"
  const DEPTH_IMAGES: string := "DepthImages"
  const OFFSET_SCALES: string := "OffsetScales"

  /** The six buffer types the legacy interface is instantiated for. */
  datatype BufferKind =
    | Float32Vector | Int32Vector
    | Float32Matrix | Int32Matrix
    | Float32Tensor3 | Int32Tensor3

  /**
   * A stored buffer: its type and its contents. The vector, matrix and
   * tensor containers are not part of this model, so their contents are an
   * abstract flat sequence and appending is concatenation.
   */
  datatype TypedBuffer = TypedBuffer(kind: BufferKind, contents: seq<real>)

  type Collection = map<string, TypedBuffer>

  datatype BufferError =
    /** `any_cast` to the requested type yields a null pointer that is then dereferenced. */
    | WrongType(name: string, stored: BufferKind, requested: BufferKind)

  /** All well-known names, in declaration order; no two of them coincide. */
  function WellKnownKeys(): (keys: seq<string>)
    ensures |keys| == 15
    ensures forall i, j :: 0 <= i < j < |keys| ==> keys[i] != keys[j]
  {
    [ X_FLOAT_DATA, SAMPLE_WEIGHTS, CLASS_LABELS, FEATURE_VALUES,
      HISTOGRAM_LEFT, HISTOGRAM_RIGHT, THRESHOLDS, THRESHOLD_COUNTS,
      IMPURITY_HISTOGRAM_LEFT, IMPURITY_HISTOGRAM_RIGHT,
      YS_HISTOGRAM_LEFT, YS_HISTOGRAM_RIGHT,
      PIXEL_INDICES, DEPTH_IMAGES, OFFSET_SCALES ]
  }

  /** Untyped presence test. */
  predicate HasBuffer(c: Collection, name: string)
  {
    name in c
  }

  /** Typed presence test: a buffer is stored under `name` and its type is exactly `kind`. */
  function HasTypedBuffer(c: Collection, name: string, kind: BufferKind): (r: bool)
    ensures r <==> name in c && c[name].kind == kind
    ensures r ==> HasBuffer(c, name)
  {
    if HasBuffer(c, name) then c[name].kind == kind else false
  }

  /** Stores `b` under `name`, replacing whatever was stored there, whatever its type. */
  function AddBuffer(c: Collection, name: string, b: TypedBuffer): (r: Collection)
    ensures name in r && r[name] == b
    ensures r.Keys == c.Keys + {name}
    ensures forall n :: n in c && n != name ==> r[n] == c[n]
  {
    c[name := b]
  }

  /**
   * Looks up the buffer stored under `name` as type `kind`. The caller must
   * guarantee presence (the C++ collection asserts it); a stored buffer of another
   * type is the null `any_cast` the C++ collection dereferences.
   */
  function GetBuffer(c: Collection, name: string, kind: BufferKind): (r: Result<TypedBuffer, BufferError>)
    requires HasBuffer(c, name)
    ensures r.Success? <==> HasTypedBuffer(c, name, kind)
    ensures r.Success? ==> r.value == c[name] && r.value.kind == kind
  {
    var stored := c[name];
    if stored.kind == kind then Success(stored)
    else Failure(WrongType(name, stored.kind, kind))
  }

  /**
   * Adds `b` under `name` when nothing is stored there, and otherwise appends
   * `b` to the stored buffer in place, looked up with `b`'s own type.
   */
  function AppendBuffer(c: Collection, name: string, b: TypedBuffer): (r: Result<Collection, BufferError>)
    ensures r.Success? <==> !HasBuffer(c, name) || c[name].kind == b.kind
    ensures r.Success? ==> name in r.value && r.value.Keys == c.Keys + {name}
    ensures r.Success? ==> forall n :: n in c && n != name ==> r.value[n] == c[n]
    ensures r.Success? && name in c ==>
      r.value[name] == TypedBuffer(b.kind, c[name].contents + b.contents)
  {
    if !HasBuffer(c, name) then
      Success(AddBuffer(c, name, b))
    else
      var existing :- GetBuffer(c, name, b.kind);
      Success(c[name := TypedBuffer(existing.kind, existing.contents + b.contents)])
  }

  /** After an add, the typed lookup returns exactly the buffer that was added. */
  lemma GetAfterAdd(c: Collection, name: string, b: TypedBuffer)
    ensures HasTypedBuffer(AddBuffer(c, name, b), name, b.kind)
    ensures GetBuffer(AddBuffer(c, name, b), name, b.kind) == Success(b)
  {
  }

  /** Appending under an absent name is the same as adding. */
  lemma AppendAbsentIsAdd(c: Collection, name: string, b: TypedBuffer)
    requires !HasBuffer(c, name)
    ensures AppendBuffer(c, name, b) == Success(AddBuffer(c, name, b))
  {
  }

  /** Add and append on one name leave every other name's lookup as it was. */
  lemma UpdatesFrameOtherNames(c: Collection, name: string, other: string, b: TypedBuffer, kind: BufferKind)
    requires other != name
    ensures HasTypedBuffer(AddBuffer(c, name, b), other, kind) == HasTypedBuffer(c, other, kind)
    ensures HasBuffer(c, other) ==> GetBuffer(AddBuffer(c, name, b), other, kind) == GetBuffer(c, other, kind)
    ensures AppendBuffer(c, name, b).Success? ==>
      var c' := AppendBuffer(c, name, b).value;
      && HasTypedBuffer(c', other, kind) == HasTypedBuffer(c, other, kind)
      && (HasBuffer(c, other) ==> GetBuffer(c', other, kind) == GetBuffer(c, other, kind))
  {
  }

  /** Repeated appends accumulate: the stored contents are the concatenation, in call order. */
  lemma AppendTwice(c: Collection, name: string, b1: TypedBuffer, b2: TypedBuffer)
    requires !HasBuffer(c, name)
    requires b1.kind == b2.kind
    ensures AppendBuffer(c, name, b1).Success?
    ensures AppendBuffer(AppendBuffer(c, name, b1).value, name, b2)
         == Success(c[name := TypedBuffer(b1.kind, b1.contents + b2.contents)])
  {
    var c1 := AppendBuffer(c, name, b1).value;
    assert c1 == c[name := b1];
    var merged := TypedBuffer(b1.kind, b1.contents + b2.contents);
    assert AppendBuffer(c1, name, b2) == Success(c1[name := merged]);
    assert c1[name := merged] == c[name := merged];
  }
}
