/**
 Dimensions, their range checks and byte sizes (src/tensorrt_utils.cc:313-340 and
 406-441, src/tensorrt_utils.h:126-160, src/instance_state.cc:3850-3883).
 */
module Shapes {
  import opened Arithmetic

  const MAX_DIMS: nat := 8
  const WILDCARD_DIM: int := -1

  /** nvinfer1::Dims: a count and a fixed array, of which the first nbDims places are meant. */
  datatype RawDims = RawDims(nbDims: nat, d: seq<int>)

  type Dims = dims: RawDims | dims.nbDims <= MAX_DIMS && |dims.d| == MAX_DIMS
    witness RawDims(0, [0, 0, 0, 0, 0, 0, 0, 0])

  function Vector(dims: Dims): seq<int> {
    dims.d[..dims.nbDims]
  }

  /** The cast to int in DimVecToDims. */
  function ToInt32(x: int): int {
    (x + 0x8000_0000) % 0x1_0000_0000 - 0x8000_0000
  }

  predicate IsInt32(x: int) {
    -0x8000_0000 <= x < 0x8000_0000
  }

  predicate FitsInt32(shape: seq<int>) {
    forall i :: 0 <= i < |shape| ==> IsInt32(shape[i])
  }

  function Truncated(shape: seq<int>): (cut: seq<int>)
    ensures |cut| == |shape|
  {
    seq(|shape|, i requires 0 <= i < |shape| => ToInt32(shape[i]))
  }

  lemma TruncationExact(shape: seq<int>)
    ensures Truncated(shape) == shape <==> FitsInt32(shape)
    ensures FitsInt32(Truncated(shape))
    ensures forall i :: 0 <= i < |shape| ==> (Truncated(shape)[i] - shape[i]) % 0x1_0000_0000 == 0
  {
    forall i | 0 <= i < |shape|
      ensures ToInt32(shape[i]) == shape[i] <==> IsInt32(shape[i])
    {
    }
    if Truncated(shape) == shape {
      forall i | 0 <= i < |shape|
        ensures IsInt32(shape[i])
      {
        assert Truncated(shape)[i] == shape[i];
      }
    }
  }

  method DimsToDimVec(dims: Dims) returns (vector: seq<int>)
    ensures vector == Vector(dims)
  {
    vector := [];
    var i := 0;
    while i < dims.nbDims
      invariant i <= dims.nbDims && vector == dims.d[..i]
    {
      vector := vector + [dims.d[i]];
      i := i + 1;
    }
  }

  /** Converts a vector that is not too long; otherwise the output parameter keeps its value. */
  method DimVecToDims(vector: seq<int>, before: Dims) returns (ok: bool, dims: Dims)
    ensures ok <==> |vector| <= MAX_DIMS
    ensures ok ==> dims == Converted(vector, before)
    ensures !ok ==> dims == before
  {
    if |vector| > MAX_DIMS {
      return false, before;
    }
    var d := before.d;
    var i := 0;
    while i < |vector|
      invariant i <= |vector| && d == Truncated(vector)[..i] + before.d[i..]
    {
      d := d[i := ToInt32(vector[i])];
      i := i + 1;
    }
    assert d == Truncated(vector) + before.d[|vector|..];
    ok, dims := true, RawDims(|vector|, d);
  }

  function Converted(vector: seq<int>, before: Dims): (dims: Dims)
    requires |vector| <= MAX_DIMS
    ensures Vector(dims) == Truncated(vector)
  {
    RawDims(|vector|, Truncated(vector) + before.d[|vector|..])
  }

  predicate ContainsWildcard(dims: Dims) {
    exists i :: 0 <= i < dims.nbDims && dims.d[i] == WILDCARD_DIM
  }

  // ----- Range checks -----

  /** The strict ValidateDimension. */
  predicate InRange(shape: seq<int>, min: Dims, max: Dims) {
    |shape| == max.nbDims && forall i :: 0 <= i < |shape| ==> min.d[i] <= shape[i] <= max.d[i]
  }

  /** The ValidateDimension template, without a first dimension to skip: wildcards pass. */
  predicate InRangeOrWild(shape: seq<int>, min: Dims, max: Dims) {
    && |shape| == max.nbDims
    && forall i :: 0 <= i < |shape| ==> shape[i] == WILDCARD_DIM || min.d[i] <= shape[i] <= max.d[i]
  }

  /** The checks of SetBindingDimensions before it calls TensorRT. */
  predicate Accepted(shape: seq<int>, min: Dims, max: Dims) {
    |shape| <= MAX_DIMS && InRange(Truncated(shape), min, max)
  }

  /** The strict ValidateDimension, on the dimensions of a request. */
  method ValidateRequestDims(dims: Dims, min: Dims, max: Dims) returns (ok: bool)
    ensures ok <==> InRange(Vector(dims), min, max)
  {
    if dims.nbDims != max.nbDims {
      return false;
    }
    var i := 0;
    while i < dims.nbDims
      invariant i <= dims.nbDims && forall k :: 0 <= k < i ==> min.d[k] <= dims.d[k] <= max.d[k]
    {
      if dims.d[i] < min.d[i] || dims.d[i] > max.d[i] {
        assert Vector(dims)[i] == dims.d[i];
        return false;
      }
      i := i + 1;
    }
    ok := true;
  }

  /** The ValidateDimension template. */
  method ValidateDimension(shape: seq<int>, min: Dims, max: Dims) returns (ok: bool)
    ensures ok <==> InRangeOrWild(shape, min, max)
  {
    if |shape| != max.nbDims {
      return false;
    }
    var i := 0;
    while i < max.nbDims
      invariant i <= max.nbDims
      invariant forall k :: 0 <= k < i ==> shape[k] == WILDCARD_DIM || min.d[k] <= shape[k] <= max.d[k]
    {
      if shape[i] != WILDCARD_DIM && (shape[i] < min.d[i] || shape[i] > max.d[i]) {
        return false;
      }
      i := i + 1;
    }
    ok := true;
  }

  /** SetBindingDimensions up to its call of TensorRT: before is the Dims on its stack. */
  method SetBindingDimensions(shape: seq<int>, before: Dims, min: Dims, max: Dims) returns (ok: bool)
    ensures ok <==> Accepted(shape, min, max)
  {
    var converted, dims := DimVecToDims(shape, before);
    if !converted {
      return false;
    }
    ok := ValidateRequestDims(dims, min, max);
  }

  /** The bounds of a profile: non-negative and within int. */
  predicate Bounds(min: Dims, max: Dims) {
    forall i :: 0 <= i < max.nbDims ==> 0 <= min.d[i] && 0 <= max.d[i] && IsInt32(max.d[i])
  }

  /**
   What the check at run time is worth: of the shapes it accepts, exactly those with
   all dimensions within int are in range. Larger dimensions are cut before the check.
   */
  lemma AcceptedMeansInRange(shape: seq<int>, min: Dims, max: Dims)
    requires Bounds(min, max) && Accepted(shape, min, max)
    ensures InRange(shape, min, max) <==> FitsInt32(shape)
  {
    TruncationExact(shape);
    if InRange(shape, min, max) {
      forall i | 0 <= i < |shape|
        ensures IsInt32(shape[i])
      {
        assert min.d[i] <= shape[i] <= max.d[i];
      }
    }
  }

  /** Below 2^32 the cast makes a dimension beyond int negative, so it cannot pass. */
  lemma AcceptedBelowLimit(shape: seq<int>, min: Dims, max: Dims)
    requires Bounds(min, max) && Accepted(shape, min, max)
    requires forall i :: 0 <= i < |shape| ==> 0 <= shape[i] < 0x1_0000_0000
    ensures FitsInt32(shape)
  {
    forall i | 0 <= i < |shape|
      ensures IsInt32(shape[i])
    {
      assert min.d[i] <= Truncated(shape)[i];
    }
  }

  lemma InRangeIsAccepted(shape: seq<int>, min: Dims, max: Dims)
    requires Bounds(min, max) && InRange(shape, min, max)
    ensures Accepted(shape, min, max)
  {
    forall i | 0 <= i < |shape|
      ensures IsInt32(shape[i])
    {
      assert min.d[i] <= shape[i] <= max.d[i];
    }
    TruncationExact(shape);
  }

  // ----- Byte sizes -----

  datatype Format = Linear | Vectorized(dim: nat, components: nat)

  predicate FormatFor(format: Format, rank: nat) {
    format.Vectorized? ==> format.dim < rank && format.components > 0
  }

  /** d + (c - d % c) in the vectorized dimension. */
  function Padded(shape: seq<int>, format: Format): (padded: seq<int>)
    requires FormatFor(format, |shape|)
    ensures |padded| == |shape|
  {
    match format
    case Linear => shape
    case Vectorized(v, c) => shape[v := shape[v] + (c - shape[v] % c)]
  }

  function Product(shape: seq<int>): int {
    if shape == [] then 1 else Product(shape[..|shape| - 1]) * shape[|shape| - 1]
  }

  /** GetByteSize of a shape in this format. */
  function ByteSize(shape: seq<int>, format: Format, elementSize: nat): int
    requires FormatFor(format, |shape|)
  {
    Product(Padded(shape, format)) * elementSize
  }

  /** m is the smallest multiple of c above d. */
  ghost predicate IsNextMultiple(m: int, d: int, c: nat)
    requires c > 0
  {
    m > d && m % c == 0 && forall n :: d < n < m ==> n % c != 0
  }

  lemma NextMultiple(d: int, c: nat)
    requires c > 0
    ensures IsNextMultiple(d + (c - d % c), d, c)
  {
    Division(d, c);
    var q, next := d / c, d + (c - d % c);
    assert (q + 1) * c == q * c + c;
    RemainderIs(next, q + 1, 0, c);
    forall n | d < n < next
      ensures n % c != 0
    {
      RemainderIs(n, q, n - q * c, c);
    }
  }

  /** A vectorized dimension is padded to the next multiple of the components, also if it is one; no other changes. */
  lemma PaddedToNextMultiple(shape: seq<int>, format: Format, j: nat)
    requires FormatFor(format, |shape|) && j < |shape|
    ensures if format.Vectorized? && j == format.dim
            then IsNextMultiple(Padded(shape, format)[j], shape[j], format.components)
            else Padded(shape, format)[j] == shape[j]
  {
    if format.Vectorized? {
      NextMultiple(shape[format.dim], format.components);
    }
  }

  lemma {:induction false} ProductAppend(a: seq<int>, b: seq<int>)
    ensures Product(a + b) == Product(a) * Product(b)
  {
    if b == [] {
      assert a + b == a;
    } else {
      var last := |b| - 1;
      assert (a + b)[..|a + b| - 1] == a + b[..last];
      ProductAppend(a, b[..last]);
      assert Product(a) * (Product(b[..last]) * b[last]) == (Product(a) * Product(b[..last])) * b[last];
    }
  }

  lemma ProductOfOne(d: int)
    ensures Product([]) == 1 && Product([d]) == d
  {
    assert [d][..0] == [];
  }

  /** The byte size dimension by dimension: one element for the empty shape, and each dimension multiplies it. */
  lemma BytesAreProduct(a: seq<int>, d: int, b: seq<int>, elementSize: nat)
    ensures ByteSize([], Linear, elementSize) == elementSize
    ensures ByteSize(a + [d] + b, Linear, elementSize) == d * ByteSize(a + b, Linear, elementSize)
  {
    ProductOfOne(d);
    ProductAppend(a + [d], b);
    ProductAppend(a, [d]);
    ProductAppend(a, b);
    assert ((Product(a) * d) * Product(b)) * elementSize == d * ((Product(a) * Product(b)) * elementSize);
  }

  /** Padding counts the vectorized dimension as the next multiple of the components. */
  lemma BytesOfPadded(shape: seq<int>, v: nat, components: nat, m: int, elementSize: nat)
    requires v < |shape| && components > 0 && IsNextMultiple(m, shape[v], components)
    ensures ByteSize(shape, Vectorized(v, components), elementSize) == ByteSize(shape[v := m], Linear, elementSize)
  {
    NextMultiple(shape[v], components);
  }

  /** Position by position, non-negative and at most. */
  predicate NonNegativeBelow(a: seq<int>, b: seq<int>) {
    |a| == |b| && forall i :: 0 <= i < |a| ==> 0 <= a[i] <= b[i]
  }

  lemma {:induction false} ProductBelow(a: seq<int>, b: seq<int>)
    requires NonNegativeBelow(a, b)
    ensures 0 <= Product(a) <= Product(b)
  {
    if a != [] {
      var last := |a| - 1;
      ProductBelow(a[..last], b[..last]);
      ProductMonotone(Product(a[..last]), Product(b[..last]), a[last]);
      ProductMonotone(a[last], b[last], Product(b[..last]));
      ProductMonotone(0, Product(a[..last]), a[last]);
    }
  }

  /** Padding to the next multiple is monotone. */
  lemma PadMonotone(a: int, b: int, c: int)
    requires 0 <= a <= b && c > 0
    ensures 0 <= a + (c - a % c) <= b + (c - b % c)
  {
    Division(a, c);
    Division(b, c);
    if a / c > b / c {
      ProductMonotone(b / c + 1, a / c, c);
      assert false;
    }
    ProductMonotone(a / c, b / c, c);
  }

  lemma ByteSizeBelow(a: seq<int>, b: seq<int>, format: Format, elementSize: nat)
    requires NonNegativeBelow(a, b) && FormatFor(format, |a|)
    ensures 0 <= ByteSize(a, format, elementSize) <= ByteSize(b, format, elementSize)
  {
    if format.Vectorized? {
      PadMonotone(a[format.dim], b[format.dim], format.components);
    }
    ProductBelow(Padded(a, format), Padded(b, format));
    ProductMonotone(Product(Padded(a, format)), Product(Padded(b, format)), elementSize);
    ProductMonotone(0, Product(Padded(a, format)), elementSize);
  }

  /** Leaving the padding out, as for ragged and batch inputs, needs no more room. */
  lemma UnpaddedIsSmaller(shape: seq<int>, format: Format, elementSize: nat)
    requires FormatFor(format, |shape|) && forall i :: 0 <= i < |shape| ==> shape[i] >= 0
    ensures ByteSize(shape, Linear, elementSize) <= ByteSize(shape, format, elementSize)
  {
    if format.Vectorized? {
      Division(shape[format.dim], format.components);
    }
    ProductBelow(shape, Padded(shape, format));
    ProductMonotone(Product(shape), Product(Padded(shape, format)), elementSize);
  }

  /** A product of positive dimensions is at least each of them. */
  lemma {:induction false} ProductAtLeastEach(shape: seq<int>, j: nat)
    requires j < |shape| && forall i :: 0 <= i < |shape| ==> shape[i] >= 1
    ensures Product(shape) >= shape[j] >= 1
  {
    var last := |shape| - 1;
    if last > 0 {
      ProductAtLeastEach(shape[..last], if j < last then j else 0);
    }
    if j == last {
      ProductMonotone(1, Product(shape[..last]), shape[last]);
    } else {
      ProductMonotone(1, shape[last], Product(shape[..last]));
    }
  }

  lemma BytesAtLeastEach(shape: seq<int>, elementSize: nat, j: nat)
    requires j < |shape| && elementSize > 0 && forall i :: 0 <= i < |shape| ==> shape[i] >= 1
    ensures ByteSize(shape, Linear, elementSize) >= shape[j]
  {
    ProductAtLeastEach(shape, j);
    ProductMonotone(1, elementSize, Product(shape));
  }
}
