/**
 Shape tensors: the bytes they are kept in, and the checks and distances computed from them
 (src/shape_tensor.cc, src/tensorrt_utils.cc:368-404 and 563-588, src/tensorrt_utils.h:162-185).
 */
module ShapeTensors {
  import opened Arithmetic
  import opened Options

  type byte = x: int | 0 <= x < 256

  const SIZE_T: nat := 0x1_0000_0000_0000_0000

  // ----- Two's complement, least significant byte first -----

  function Power256(width: nat): (p: nat)
    ensures p > 0
  {
    if width == 0 then 1 else 256 * Power256(width - 1)
  }

  function Encode(value: int, width: nat): (bytes: seq<byte>)
    ensures |bytes| == width
    decreases width
  {
    if width == 0 then [] else [value % 256] + Encode(value / 256, width - 1)
  }

  function Unsigned(bytes: seq<byte>): nat {
    if bytes == [] then 0 else bytes[0] + 256 * Unsigned(bytes[1..])
  }

  /** The value that width bytes hold after a cast. */
  function Cast(value: int, width: nat): int {
    var rest := value % Power256(width);
    if 2 * rest < Power256(width) then rest else rest - Power256(width)
  }

  function Decode(bytes: seq<byte>): int {
    Cast(Unsigned(bytes), |bytes|)
  }

  /** The signed range of width bytes. */
  predicate Fits(value: int, width: nat) {
    0 <= 2 * value + Power256(width) < 2 * Power256(width)
  }

  lemma RemainderSplits(value: int, p: nat)
    requires p > 0
    ensures value % (256 * p) == value % 256 + 256 * ((value / 256) % p)
  {
    Division(value / 256, p);
    var q, r := (value / 256) / p, (value / 256) % p;
    assert value == q * (256 * p) + (value % 256 + 256 * r) by {
      assert 256 * (q * p) == q * (256 * p);
    }
    RemainderIs(value, q, value % 256 + 256 * r, 256 * p);
  }

  lemma {:induction false} UnsignedOfEncode(value: int, width: nat)
    ensures Unsigned(Encode(value, width)) == value % Power256(width)
    decreases width
  {
    if width > 0 {
      UnsignedOfEncode(value / 256, width - 1);
      assert Encode(value, width)[1..] == Encode(value / 256, width - 1);
      RemainderSplits(value, Power256(width - 1));
    }
  }

  /** Storing and loading is a cast; it changes nothing exactly when the value fits. */
  lemma DecodeOfEncode(value: int, width: nat)
    requires width > 0
    ensures Decode(Encode(value, width)) == Cast(value, width)
    ensures Cast(value, width) == value <==> Fits(value, width)
  {
    UnsignedOfEncode(value, width);
    var p := Power256(width);
    Division(value, p);
    RemainderIs(value % p, 0, value % p, p);
    assert p == 256 * Power256(width - 1);
    if 0 <= 2 * value < p {
      RemainderIs(value, 0, value, p);
    } else if -p <= 2 * value < 0 {
      RemainderIs(value, -1, value + p, p);
    }
  }

  /** The bytes themselves: byte i is the digit for 256^i. */
  lemma {:induction false} ByteOf(value: int, width: nat, i: nat)
    requires i < width
    ensures Encode(value, width)[i] == (value / Power256(i)) % 256
    decreases i
  {
    if i > 0 {
      ByteOf(value / 256, width - 1, i - 1);
      QuotientSplits(value, Power256(i - 1));
    }
  }

  lemma QuotientSplits(value: int, p: nat)
    requires p > 0
    ensures value / (256 * p) == (value / 256) / p
  {
    Division(value / 256, p);
    var q, r := (value / 256) / p, (value / 256) % p;
    assert value == q * (256 * p) + (value % 256 + 256 * r) by {
      assert 256 * (q * p) == q * (256 * p);
    }
    RemainderIs(value, q, value % 256 + 256 * r, 256 * p);
  }

  /** A cast yields the value that fits and differs by a multiple of 256^width. */
  lemma CastIs(value: int, width: nat) returns (k: int)
    requires width > 0
    ensures Fits(Cast(value, width), width) && Cast(value, width) == value + k * Power256(width)
  {
    var p := Power256(width);
    Division(value, p);
    assert p == 256 * Power256(width - 1);
    k := if 2 * (value % p) < p then -(value / p) else -(value / p) - 1;
    Negated(value / p, p);
  }

  lemma Negated(q: int, p: int)
    ensures (-q) * p == -(q * p) && (-q - 1) * p == -(q * p) - p
  {
  }

  lemma Ranges(value: int)
    ensures Fits(value, 4) <==> -0x8000_0000 <= value < 0x8000_0000
    ensures Fits(value, 8) <==> -0x8000_0000_0000_0000 <= value < 0x8000_0000_0000_0000
  {
    assert Power256(4) == 0x1_0000_0000 && Power256(8) == SIZE_T;
  }

  // ----- Sequences of values -----

  function EncodeAll(values: seq<int>, width: nat): (bytes: seq<byte>)
    ensures |bytes| == |values| * width
  {
    if values == [] then [] else EncodeAll(values[..|values| - 1], width) + Encode(values[|values| - 1], width)
  }

  lemma EncodeOneMore(values: seq<int>, i: nat, width: nat)
    requires i < |values|
    ensures EncodeAll(values[..i + 1], width) == EncodeAll(values[..i], width) + Encode(values[i], width)
  {
    assert values[..i + 1][..i] == values[..i];
  }

  lemma EncodeAllPrefix(values: seq<int>, width: nat)
    requires values != []
    ensures (|values| - 1) * width <= |EncodeAll(values, width)|
    ensures EncodeAll(values, width)[..(|values| - 1) * width] == EncodeAll(values[..|values| - 1], width)
  {
    assert EncodeAll(values, width) == EncodeAll(values[..|values| - 1], width) + Encode(values[|values| - 1], width);
  }

  /** The values held in bytes, read as an array of the given width. */
  function Values(bytes: seq<byte>, width: nat): seq<int>
    requires width > 0
  {
    if |bytes| < width then [] else [Decode(bytes[..width])] + Values(bytes[width..], width)
  }

  lemma {:induction false} ValuesAppend(n: nat, a: seq<byte>, b: seq<byte>, width: nat)
    requires width > 0 && |a| == n * width
    ensures Values(a + b, width) == Values(a, width) + Values(b, width)
  {
    if n == 0 {
      assert a + b == b;
    } else {
      ProductAtLeast(n, width);
      assert (a + b)[..width] == a[..width] && (a + b)[width..] == a[width..] + b;
      assert |a[width..]| == (n - 1) * width;
      ValuesAppend(n - 1, a[width..], b, width);
    }
  }

  lemma ValuesOfOne(bytes: seq<byte>, width: nat)
    requires width > 0 && |bytes| == width
    ensures Values(bytes, width) == [Decode(bytes)]
  {
    assert bytes[..width] == bytes;
  }

  predicate Fit(values: seq<int>, width: nat) {
    forall i :: 0 <= i < |values| ==> Fits(values[i], width)
  }

  /** Values that fit survive being stored. */
  lemma {:induction false} ValuesOfEncodeAll(values: seq<int>, width: nat)
    requires width > 0 && Fit(values, width)
    ensures Values(EncodeAll(values, width), width) == values
  {
    if values != [] {
      var n := |values| - 1;
      ValuesOfEncodeAll(values[..n], width);
      ValuesAppend(n, EncodeAll(values[..n], width), Encode(values[n], width), width);
      ValuesOfOne(Encode(values[n], width), width);
      DecodeOfEncode(values[n], width);
    }
  }

  lemma {:induction false} ValuesCount(n: nat, bytes: seq<byte>, width: nat)
    requires width > 0 && |bytes| == n * width
    ensures |Values(bytes, width)| == n
  {
    if n > 0 {
      ProductAtLeast(n, width);
      assert |bytes[width..]| == (n - 1) * width;
      ValuesCount(n - 1, bytes[width..], width);
    }
  }

  // ----- What a shape tensor says -----

  datatype ShapeTensorDataType = INT32 | INT64 {
    function Width(): nat {
      match this
      case INT32 => 4
      case INT64 => 8
    }
  }

  /** The data types a request may declare. */
  datatype TritonType = TYPE_INT32 | TYPE_INT64 | OTHER {
    function Supported(): (supported: Option<ShapeTensorDataType>)
      ensures TYPE_INT32? <==> supported.Some? && supported.value.Width() == 4
      ensures TYPE_INT64? <==> supported.Some? && supported.value.Width() == 8
    {
      match this
      case TYPE_INT32 => Some(INT32)
      case TYPE_INT64 => Some(INT64)
      case OTHER => None
    }
  }

  datatype ShapeValues = ShapeValues(datatype_: ShapeTensorDataType, values: seq<int>)

  predicate SameType(request: ShapeValues, min: ShapeValues, max: ShapeValues) {
    request.datatype_ == min.datatype_ == max.datatype_
  }

  predicate InShapeRange(request: seq<int>, min: seq<int>, max: seq<int>, n: nat)
    requires n <= |request| && n <= |min| && n <= |max|
  {
    forall i :: 0 <= i < n ==> min[i] <= request[i] <= max[i]
  }

  /** ValidateShapeValues on what the tensors hold. */
  predicate ShapeValuesValid(request: ShapeValues, min: ShapeValues, max: ShapeValues, n: nat)
    requires n <= |min.values| && n <= |max.values|
  {
    |request.values| == n && SameType(request, min, max) && InShapeRange(request.values, min.values, max.values, n)
  }

  /** ValidateBatchSize on what the tensors hold. */
  predicate BatchSizeValid(totalBatchSize: nat, min: ShapeValues, max: ShapeValues)
    requires |min.values| > 0 && |max.values| > 0
  {
    min.values[0] <= Cast(totalBatchSize, min.datatype_.Width()) <= max.values[0]
  }

  /** What a request in a batch of this size says about its shape tensor. */
  function BatchedValues(totalBatchSize: nat, datatype_: ShapeTensorDataType, bytes: seq<byte>): ShapeValues {
    ShapeValues(datatype_, [Cast(totalBatchSize, datatype_.Width())] + Values(bytes, datatype_.Width()))
  }

  /**
   Once the values of a batched request are in range, so is the batch size: the check that
   follows can only repeat the verdict, whatever the batch size is cast to.
   */
  lemma RangeCoversBatchSize(totalBatchSize: nat, datatype_: ShapeTensorDataType, bytes: seq<byte>,
                             min: ShapeValues, max: ShapeValues, n: nat)
    requires n <= |min.values| && n <= |max.values|
    requires ShapeValuesValid(BatchedValues(totalBatchSize, datatype_, bytes), min, max, n)
    ensures n > 0 && BatchSizeValid(totalBatchSize, min, max)
  {
    var request := BatchedValues(totalBatchSize, datatype_, bytes);
    assert min.values[0] <= request.values[0] <= max.values[0];
  }

  /** A request that sends exactly its values gets them back behind the batch size. */
  lemma RequestRoundTrip(totalBatchSize: nat, datatype_: ShapeTensorDataType, values: seq<int>)
    requires Fit(values, datatype_.Width()) && Fits(totalBatchSize, datatype_.Width())
    ensures BatchedValues(totalBatchSize, datatype_, EncodeAll(values, datatype_.Width())).values
         == [totalBatchSize] + values
  {
    ValuesOfEncodeAll(values, datatype_.Width());
    DecodeOfEncode(totalBatchSize, datatype_.Width());
  }

  lemma BatchedPrefix(totalBatchSize: nat, datatype_: ShapeTensorDataType, all: seq<int>)
    requires all != [] && Fit(all, datatype_.Width()) && Fits(totalBatchSize, datatype_.Width())
    ensures var width := datatype_.Width();
            && (|all| - 1) * width <= |EncodeAll(all, width)|
            && BatchedValues(totalBatchSize, datatype_, EncodeAll(all, width)[..(|all| - 1) * width]).values
               == [totalBatchSize] + all[..|all| - 1]
  {
    EncodeAllPrefix(all, datatype_.Width());
    RequestRoundTrip(totalBatchSize, datatype_, all[..|all| - 1]);
  }

  /**
   A request may also send a value for the batch size in front. The size check allows that,
   but the copy still starts at the front of the buffer: the sent value is taken as the first
   of the request's values, and the last of them is dropped.
   */
  lemma SentBatchSizeShiftsValues(totalBatchSize: nat, datatype_: ShapeTensorDataType, sent: int, values: seq<int>)
    requires Fit([sent] + values, datatype_.Width()) && Fits(totalBatchSize, datatype_.Width()) && values != []
    ensures var width := datatype_.Width();
            var memory := EncodeAll([sent] + values, width);
            var count := |[sent] + values| - 1;
            && count == |values| && count * width <= |memory|
            && BatchedValues(totalBatchSize, datatype_, memory[..count * width]).values
               == [totalBatchSize, sent] + values[..|values| - 1]
  {
    BatchedPrefix(totalBatchSize, datatype_, [sent] + values);
    assert ([sent] + values)[..|values|] == [sent] + values[..|values| - 1];
    assert [totalBatchSize] + ([sent] + values[..|values| - 1]) == [totalBatchSize, sent] + values[..|values| - 1];
  }

  function Abs(x: int): nat {
    if x < 0 then -x else x
  }

  /** The sum in GetDistance: value idx of the optimum against value idx - 1 of the request. */
  function DistanceUpTo(opt: seq<int>, values: seq<int>, totalBatchSize: int, n: nat): nat
    requires 1 <= n <= |opt| && n - 1 <= |values|
  {
    if n == 1 then Abs(opt[0] - totalBatchSize)
    else DistanceUpTo(opt, values, totalBatchSize, n - 1) + Abs(opt[n - 1] - values[n - 2])
  }

  /** y is one further away than x from what both are compared with. */
  predicate OneFurther(y: int, x: int, compared: int) {
    (x >= compared && y == x + 1) || (x <= compared && y == x - 1)
  }

  /** What value i of the optimum is compared with. */
  function ComparedWith(values: seq<int>, totalBatchSize: int, i: nat): int
    requires i <= |values|
  {
    if i == 0 then totalBatchSize else values[i - 1]
  }

  lemma {:induction false} DistanceLocal(opt: seq<int>, other: seq<int>, values: seq<int>, totalBatchSize: int, n: nat)
    requires 1 <= n <= |opt| && n <= |other| && n - 1 <= |values| && forall j :: 0 <= j < n ==> other[j] == opt[j]
    ensures DistanceUpTo(other, values, totalBatchSize, n) == DistanceUpTo(opt, values, totalBatchSize, n)
  {
    if n > 1 {
      DistanceLocal(opt, other, values, totalBatchSize, n - 1);
    }
  }

  /** On either side, a value of the optimum that is one further away makes the distance one longer. */
  lemma {:induction false} DistanceGrows(opt: seq<int>, y: int, values: seq<int>, totalBatchSize: int, n: nat, i: nat)
    requires 1 <= n <= |opt| && n - 1 <= |values| && i < n
    requires OneFurther(y, opt[i], ComparedWith(values, totalBatchSize, i))
    ensures DistanceUpTo(opt[i := y], values, totalBatchSize, n) == DistanceUpTo(opt, values, totalBatchSize, n) + 1
  {
    if i < n - 1 {
      DistanceGrows(opt, y, values, totalBatchSize, n - 1, i);
    } else if n > 1 {
      DistanceLocal(opt, opt[i := y], values, totalBatchSize, n - 1);
    }
  }

  /** The distance is zero exactly if every value of the optimum is what it is compared with. */
  lemma {:induction false} DistanceVanishes(opt: seq<int>, values: seq<int>, totalBatchSize: int, n: nat)
    requires 1 <= n <= |opt| && n - 1 <= |values|
    ensures DistanceUpTo(opt, values, totalBatchSize, n) == 0
       <==> forall i :: 0 <= i < n ==> opt[i] == ComparedWith(values, totalBatchSize, i)
  {
    if n > 1 {
      DistanceVanishes(opt, values, totalBatchSize, n - 1);
    }
  }

  /** So it is zero exactly if the optimum is the batch size followed by the values of the request. */
  lemma DistanceZero(opt: seq<int>, values: seq<int>, totalBatchSize: int, n: nat)
    requires 1 <= n <= |opt| && n - 1 <= |values|
    ensures DistanceUpTo(opt, values, totalBatchSize, n) == 0 <==> opt[..n] == [totalBatchSize] + values[..n - 1]
  {
    DistanceVanishes(opt, values, totalBatchSize, n);
    var compared := [totalBatchSize] + values[..n - 1];
    assert forall i :: 0 <= i < n ==> compared[i] == ComparedWith(values, totalBatchSize, i);
    if opt[..n] == compared {
      assert forall i :: 0 <= i < n ==> opt[i] == opt[..n][i];
    }
  }

  // ----- The class -----

  /** There is data, its type is supported and its size that of the values, with or without the batch size. */
  predicate BufferAccepted(memory: Option<seq<byte>>, tritonType: TritonType, count: nat, supportBatching: bool) {
    && memory.Some? && tritonType.Supported().Some?
    && var width := tritonType.Supported().value.Width();
       SizeAccepted(|memory.value|, (if supportBatching then count + 1 else count) * width, width)
  }

  /** ValidateDataByteSize: the size of the tensor, or that less one value. */
  predicate SizeAccepted(byteSize: nat, size: nat, width: nat) {
    byteSize == (size - width) % SIZE_T || byteSize == size
  }

  /** There are at least as many bytes as the copy takes. */
  predicate LongEnough(memory: seq<byte>, count: nat, width: nat) {
    |memory| >= count * width
  }

  /**
   The size check subtracts a value for the batch size also when there is none, so without
   batching it admits data that are one value short of what is then copied. Of the data it
   admits, exactly these are long enough: all when batching or when nothing is copied, and
   otherwise those of the full size.
   */
  lemma AcceptedIsLongEnough(memory: seq<byte>, tritonType: TritonType, count: nat, supportBatching: bool)
    requires (count + 1) * 8 < SIZE_T && BufferAccepted(Some(memory), tritonType, count, supportBatching)
    ensures var width := tritonType.Supported().value.Width();
            LongEnough(memory, count, width) <==> supportBatching || count == 0 || |memory| == count * width
  {
  }

  /** What is missing is at most one value. */
  lemma AcceptedIsAlmostLongEnough(memory: seq<byte>, tritonType: TritonType, count: nat, supportBatching: bool)
    requires (count + 1) * 8 < SIZE_T && BufferAccepted(Some(memory), tritonType, count, supportBatching)
    ensures count * tritonType.Supported().value.Width() <= |memory| + tritonType.Supported().value.Width()
  {
  }

  /** Whatever the type and the number of values, data one value short are admitted without batching. */
  lemma ShortDataIsAccepted(memory: seq<byte>, tritonType: TritonType, count: nat)
    requires (count + 1) * 8 < SIZE_T && count > 0 && tritonType.Supported().Some?
    requires |memory| == (count - 1) * tritonType.Supported().value.Width()
    ensures BufferAccepted(Some(memory), tritonType, count, false)
    ensures !LongEnough(memory, count, tritonType.Supported().value.Width())
  {
  }

  /** The bytes that are stored for a request whose data begins with these bytes. */
  function StoredBytes(memory: seq<byte>, count: nat, width: nat, supportBatching: bool, totalBatchSize: nat): seq<byte>
    requires count * width <= |memory|
  {
    if supportBatching then Encode(totalBatchSize, width) + memory[..count * width] else memory[..count * width]
  }

  /** The values of the request, with the total batch size before them when batching. */
  function RequestView(memory: seq<byte>, count: nat, datatype_: ShapeTensorDataType, supportBatching: bool,
                       totalBatchSize: nat): ShapeValues
    requires count * datatype_.Width() <= |memory|
  {
    var bytes := memory[..count * datatype_.Width()];
    if supportBatching then BatchedValues(totalBatchSize, datatype_, bytes)
    else ShapeValues(datatype_, Values(bytes, datatype_.Width()))
  }

  lemma StoredView(memory: seq<byte>, count: nat, datatype_: ShapeTensorDataType, supportBatching: bool,
                   totalBatchSize: nat)
    requires count * datatype_.Width() <= |memory|
    ensures var bytes := StoredBytes(memory, count, datatype_.Width(), supportBatching, totalBatchSize);
            ShapeValues(datatype_, Values(bytes, datatype_.Width()))
            == RequestView(memory, count, datatype_, supportBatching, totalBatchSize)
  {
    if supportBatching {
      var width := datatype_.Width();
      ValuesAppend(1, Encode(totalBatchSize, width), memory[..count * width], width);
      ValuesOfOne(Encode(totalBatchSize, width), width);
      DecodeOfEncode(totalBatchSize, width);
    }
  }

  /** The view is that of the data and what lies behind, and of the data alone if they are long enough. */
  predicate ReadsAs(view: ShapeValues, memory: seq<byte>, beyond: seq<byte>, count: nat, datatype_: ShapeTensorDataType,
                    supportBatching: bool, totalBatchSize: nat) {
    && count * datatype_.Width() <= |memory + beyond|
    && view == RequestView(memory + beyond, count, datatype_, supportBatching, totalBatchSize)
    && (LongEnough(memory, count, datatype_.Width()) ==>
          view == RequestView(memory, count, datatype_, supportBatching, totalBatchSize))
  }

  lemma StoredReadsAs(memory: seq<byte>, beyond: seq<byte>, count: nat, datatype_: ShapeTensorDataType,
                      supportBatching: bool, totalBatchSize: nat)
    requires count * datatype_.Width() <= |memory + beyond|
    ensures var bytes := StoredBytes(memory + beyond, count, datatype_.Width(), supportBatching, totalBatchSize);
            ReadsAs(ShapeValues(datatype_, Values(bytes, datatype_.Width())), memory, beyond, count, datatype_,
                    supportBatching, totalBatchSize)
  {
    StoredView(memory + beyond, count, datatype_, supportBatching, totalBatchSize);
    if LongEnough(memory, count, datatype_.Width()) {
      assert (memory + beyond)[..count * datatype_.Width()] == memory[..count * datatype_.Width()];
    }
  }

  /** Shifting a sequence down by one and putting x in front changes nothing exactly if it is x throughout. */
  lemma {:induction false} ShiftFixes(x: int, values: seq<int>)
    ensures ([x] + values)[..|values|] == values <==> forall i :: 0 <= i < |values| ==> values[i] == x
  {
    var shifted := ([x] + values)[..|values|];
    if shifted == values {
      var i := 0;
      while i < |values|
        invariant i <= |values| && forall k :: 0 <= k < i ==> values[k] == x
      {
        assert shifted[i] == values[i];
        i := i + 1;
      }
    }
  }

  lemma AppendCancels(x: int, a: seq<int>, b: seq<int>)
    ensures [x] + a == [x] + b <==> a == b
  {
    assert ([x] + a)[1..] == a && ([x] + b)[1..] == b;
  }

  lemma BothSizesAccepted(sent: nat, n: nat, width: nat)
    requires (width == 4 || width == 8) && (n + 1) * 8 < SIZE_T && (sent == n || sent == n + 1)
    ensures SizeAccepted(sent * width, (n + 1) * width, width)
  {
    if width == 4 {
      assert (n + 1) * 4 - 4 == n * 4;
    }
  }

  lemma BatchedRequestAccepted(tritonType: TritonType, sent: seq<int>, count: nat)
    requires tritonType.Supported().Some? && (count + 1) * 8 < SIZE_T
    requires |sent| == count || |sent| == count + 1
    ensures BufferAccepted(Some(EncodeAll(sent, tritonType.Supported().value.Width())), tritonType, count, true)
  {
    BothSizesAccepted(|sent|, count, tritonType.Supported().value.Width());
  }

  /** Of data that hold these values, the tensor says as many as were announced, from the front. */
  lemma BatchedView(totalBatchSize: nat, datatype_: ShapeTensorDataType, sent: seq<int>, count: nat)
    requires |sent| == count || |sent| == count + 1
    requires Fit(sent, datatype_.Width()) && Fits(totalBatchSize, datatype_.Width())
    ensures var memory := EncodeAll(sent, datatype_.Width());
            && count * datatype_.Width() <= |memory|
            && RequestView(memory, count, datatype_, true, totalBatchSize).values == [totalBatchSize] + sent[..count]
  {
    var memory := EncodeAll(sent, datatype_.Width());
    if |sent| == count {
      assert memory[..count * datatype_.Width()] == memory && sent[..count] == sent;
      RequestRoundTrip(totalBatchSize, datatype_, sent);
    } else {
      BatchedPrefix(totalBatchSize, datatype_, sent);
    }
  }

  lemma SentFixes(prefix: seq<int>, values: seq<int>)
    requires |prefix| <= 1
    ensures (prefix + values)[..|values|] == values
       <==> prefix == [] || forall i :: 0 <= i < |values| ==> values[i] == prefix[0]
  {
    if prefix == [] {
      assert prefix + values == values;
    } else {
      assert prefix == [prefix[0]];
      ShiftFixes(prefix[0], values);
    }
  }

  /**
   A batched request may send its values alone or with a value for the batch size in front:
   both are admitted. The tensor then says the total batch size followed by the values of
   the request if and only if no batch size was sent or all values are equal to it.
   */
  lemma BatchedRequestRoundTrip(totalBatchSize: nat, tritonType: TritonType, prefix: seq<int>, values: seq<int>)
    requires tritonType.Supported().Some? && |prefix| <= 1 && (|values| + 1) * 8 < SIZE_T
    requires Fit(prefix + values, tritonType.Supported().value.Width())
    requires Fits(totalBatchSize, tritonType.Supported().value.Width())
    ensures var type_ := tritonType.Supported().value;
            var memory := EncodeAll(prefix + values, type_.Width());
            && BufferAccepted(Some(memory), tritonType, |values|, true) && |values| * type_.Width() <= |memory|
            && (RequestView(memory, |values|, type_, true, totalBatchSize).values == [totalBatchSize] + values
                <==> prefix == [] || forall i :: 0 <= i < |values| ==> values[i] == prefix[0])
  {
    BatchedRequestAccepted(tritonType, prefix + values, |values|);
    BatchedView(totalBatchSize, tritonType.Supported().value, prefix + values, |values|);
    SentFixes(prefix, values);
    AppendCancels(totalBatchSize, (prefix + values)[..|values|], values);
  }

  lemma UnbatchedView(totalBatchSize: nat, datatype_: ShapeTensorDataType, values: seq<int>)
    requires Fit(values, datatype_.Width())
    ensures var memory := EncodeAll(values, datatype_.Width());
            && LongEnough(memory, |values|, datatype_.Width())
            && RequestView(memory, |values|, datatype_, false, totalBatchSize) == ShapeValues(datatype_, values)
  {
    var memory := EncodeAll(values, datatype_.Width());
    ValuesOfEncodeAll(values, datatype_.Width());
    assert memory[..|values| * datatype_.Width()] == memory;
  }

  /** Without batching, data that hold the values are admitted and the tensor says those values. */
  lemma UnbatchedRequestRoundTrip(totalBatchSize: nat, tritonType: TritonType, values: seq<int>)
    requires tritonType.Supported().Some? && Fit(values, tritonType.Supported().value.Width())
    ensures var type_ := tritonType.Supported().value;
            var memory := EncodeAll(values, type_.Width());
            && BufferAccepted(Some(memory), tritonType, |values|, false) && LongEnough(memory, |values|, type_.Width())
            && RequestView(memory, |values|, type_, false, totalBatchSize) == ShapeValues(type_, values)
  {
    UnbatchedView(totalBatchSize, tritonType.Supported().value, values);
  }

  /** memcpy of the first count bytes of source to this offset. */
  method Memcpy(data: array<byte>, offset: nat, source: seq<byte>, count: nat)
    requires offset + count <= data.Length && count <= |source|
    modifies data
    ensures data[..] == old(data[..offset]) + source[..count] + old(data[offset + count..])
  {
    var i := 0;
    while i < count
      invariant i <= count
      invariant data[..] == old(data[..offset]) + source[..i] + old(data[offset + i..])
    {
      data[offset + i] := source[i];
      i := i + 1;
    }
  }

  method CopyBytes(data: array<byte>, memory: seq<byte>)
    requires data.Length <= |memory|
    modifies data
    ensures data[..] == memory[..data.Length]
  {
    Memcpy(data, 0, memory, data.Length);
  }

  method StoreRequest(data: array<byte>, memory: seq<byte>, count: nat, width: nat, supportBatching: bool,
                      totalBatchSize: nat)
    requires data.Length == (if supportBatching then count + 1 else count) * width && count * width <= |memory|
    modifies data
    ensures data[..] == StoredBytes(memory, count, width, supportBatching, totalBatchSize)
  {
    if supportBatching {
      assert (count + 1) * width == width + count * width;
      Memcpy(data, 0, Encode(totalBatchSize, width), width);
      assert data[..width] == Encode(totalBatchSize, width);
      Memcpy(data, width, memory, data.Length - width);
    } else {
      CopyBytes(data, memory);
    }
  }

  /** Copies an array of int32 as it lies in memory. */
  method CopyInt32(data: array<byte>, values: seq<int>)
    requires data.Length == |values| * 4
    modifies data
    ensures data[..] == EncodeAll(values, 4)
  {
    CopyBytes(data, EncodeAll(values, 4));
  }

  /** Values of int32 survive in either type. */
  lemma StoredValues(values: seq<int>, datatype_: ShapeTensorDataType)
    requires Fit(values, 4)
    ensures Values(EncodeAll(values, datatype_.Width()), datatype_.Width()) == values
  {
    assert Power256(4) == 0x1_0000_0000 && Power256(8) == SIZE_T;
    ValuesOfEncodeAll(values, datatype_.Width());
  }

  /** Stores the values one after the other, eight bytes each. */
  method StoreInt64(data: array<byte>, values: seq<int>)
    requires data.Length == |values| * 8
    modifies data
    ensures data[..] == EncodeAll(values, 8)
  {
    var i := 0;
    while i < |values|
      invariant i <= |values| && data[..i * 8] == EncodeAll(values[..i], 8)
    {
      Memcpy(data, i * 8, Encode(values[i], 8), 8);
      EncodeOneMore(values, i, 8);
      assert data[..(i + 1) * 8] == EncodeAll(values[..i], 8) + Encode(values[i], 8);
      i := i + 1;
    }
    assert values[..|values|] == values && data[..|values| * 8] == data[..];
  }

  class ShapeTensor {
    var size: nat
    var nbShapeValues: nat
    var datatype_: ShapeTensorDataType
    var data: array<byte>

    constructor ()
      ensures size == 0 && nbShapeValues == 0 && datatype_ == INT32 && fresh(data) && data.Length == 0
    {
      size, nbShapeValues, datatype_, data := 0, 0, INT32, new byte[0];
    }

    /** A tensor whose data was set: the buffer holds as many values as were announced. */
    ghost predicate Valid()
      reads this, data
    {
      size == data.Length == nbShapeValues * datatype_.Width()
    }

    function View(): ShapeValues
      reads this, data
    {
      ShapeValues(datatype_, Values(data[..], datatype_.Width()))
    }

    method ValidateDataByteSize(expectedByteSize: nat, datatypeSize: nat) returns (ok: bool)
      ensures ok <==> SizeAccepted(expectedByteSize, size, datatypeSize)
    {
      ok := expectedByteSize == (size - datatypeSize) % SIZE_T || expectedByteSize == size;
    }

    /**
     memory is the data of the request, all data_byte_size bytes of it; beyond is whatever lies
     behind. The values are read from the front; when batching, the total batch size is put before
     them. Data that are admitted but too short, see AcceptedIsLongEnough, are read past their end.
     */
    method SetDataFromBuffer(memory: Option<seq<byte>>, beyond: seq<byte>, tritonType: TritonType, count: nat,
                             supportBatching: bool, totalBatchSize: nat) returns (ok: bool)
      requires (count + 1) * 8 < SIZE_T && |beyond| >= 8
      modifies this
      ensures ok <==> BufferAccepted(memory, tritonType, count, supportBatching)
      ensures ok ==>
        && Valid() && fresh(data) && nbShapeValues == (if supportBatching then count + 1 else count)
        && ReadsAs(View(), memory.value, beyond, count, tritonType.Supported().value, supportBatching, totalBatchSize)
    {
      if memory.None? {
        return false;
      }
      match tritonType {
        case TYPE_INT32 => datatype_ := INT32;
        case TYPE_INT64 => datatype_ := INT64;
        case OTHER => return false;
      }
      nbShapeValues := count;
      if supportBatching {
        nbShapeValues := nbShapeValues + 1;
      }
      var datatypeSize := datatype_.Width();
      size := nbShapeValues * datatypeSize;
      var validSize := ValidateDataByteSize(|memory.value|, datatypeSize);
      if !validSize {
        return false;
      }
      AcceptedIsAlmostLongEnough(memory.value, tritonType, count, supportBatching);
      data := new byte[size];
      StoreRequest(data, memory.value + beyond, count, datatypeSize, supportBatching, totalBatchSize);
      StoredReadsAs(memory.value, beyond, count, datatype_, supportBatching, totalBatchSize);
      ok := true;
    }

    /** Takes the bounds of a profile, which TensorRT gives as int32. */
    method SetDataFromShapeValues(shapeValues: seq<int>, tritonType: TritonType, count: nat) returns (ok: bool)
      requires count <= |shapeValues| && Fit(shapeValues, 4) && count * 8 < SIZE_T
      modifies this
      ensures ok <==> tritonType.Supported().Some?
      ensures ok ==>
        && Valid() && fresh(data) && nbShapeValues == count
        && View() == ShapeValues(tritonType.Supported().value, shapeValues[..count])
    {
      nbShapeValues := count;
      ghost var taken := shapeValues[..count];
      match tritonType {
        case TYPE_INT32 =>
          datatype_ := INT32;
          size := nbShapeValues * 4;
          data := new byte[size];
          CopyInt32(data, shapeValues[..count]);
        case TYPE_INT64 =>
          datatype_ := INT64;
          size := nbShapeValues * 8;
          data := new byte[size];
          StoreInt64(data, shapeValues[..count]);
        case OTHER =>
          return false;
      }
      StoredValues(taken, datatype_);
      ok := true;
    }

    lemma ViewCount()
      requires Valid()
      ensures |View().values| == nbShapeValues
    {
      ValuesCount(nbShapeValues, data[..], datatype_.Width());
    }

    method GetDistance(other: ShapeTensor, totalBatchSize: int) returns (distance: nat)
      requires Valid() && other.Valid() && datatype_ == other.datatype_
      requires 1 <= other.nbShapeValues <= nbShapeValues + 1
      ensures |other.View().values| == other.nbShapeValues && |View().values| == nbShapeValues
      ensures distance == DistanceUpTo(other.View().values, View().values, totalBatchSize, other.nbShapeValues)
    {
      ViewCount();
      other.ViewCount();
      distance := SumOfDifferences(other.View().values, View().values, totalBatchSize, other.nbShapeValues);
    }
  }

  /** The loop of GetDistance: the batch size against the first value, then value idx against idx - 1. */
  method SumOfDifferences(opt: seq<int>, values: seq<int>, totalBatchSize: int, count: nat) returns (distance: nat)
    requires 0 < |opt| && count <= |opt| && count <= |values| + 1
    ensures distance == DistanceUpTo(opt, values, totalBatchSize, if count == 0 then 1 else count)
  {
    distance := Abs(opt[0] - totalBatchSize);
    var idx := 1;
    while idx < count
      invariant 1 <= idx && (idx <= count || idx == 1)
      invariant distance == DistanceUpTo(opt, values, totalBatchSize, idx)
    {
      distance := distance + Abs(opt[idx] - values[idx - 1]);
      idx := idx + 1;
    }
  }

  method CheckShapeTensorInRange(values: seq<int>, low: seq<int>, high: seq<int>, count: nat) returns (ok: bool)
    requires count <= |values| && count <= |low| && count <= |high|
    ensures ok <==> InShapeRange(values, low, high, count)
  {
    var i := 0;
    while i < count
      invariant i <= count && InShapeRange(values, low, high, i)
    {
      if values[i] < low[i] || values[i] > high[i] {
        return false;
      }
      i := i + 1;
    }
    ok := true;
  }

  /** ValidateShapeValues on what the tensors hold. */
  method CheckShapeValues(request: ShapeValues, min: ShapeValues, max: ShapeValues, count: nat) returns (ok: bool)
    requires count <= |min.values| && count <= |max.values|
    ensures ok <==> ShapeValuesValid(request, min, max, count)
  {
    if |request.values| != count {
      return false;
    }
    if request.datatype_ != min.datatype_ || request.datatype_ != max.datatype_ {
      return false;
    }
    ok := CheckShapeTensorInRange(request.values, min.values, max.values, count);
  }

  method ValidateShapeValues(request: ShapeTensor, min: ShapeTensor, max: ShapeTensor, count: nat) returns (ok: bool)
    requires request.Valid() && min.Valid() && max.Valid()
    requires min.nbShapeValues == max.nbShapeValues >= count
    ensures |min.View().values| >= count && |max.View().values| >= count
    ensures ok <==> ShapeValuesValid(request.View(), min.View(), max.View(), count)
  {
    min.ViewCount();
    max.ViewCount();
    ok := CheckShapeValues(request.View(), min.View(), max.View(), count);
  }

  method ValidateBatchSize(totalBatchSize: nat, min: ShapeTensor, max: ShapeTensor) returns (ok: bool)
    requires min.Valid() && max.Valid() && min.datatype_ == max.datatype_
    requires min.nbShapeValues > 0 && max.nbShapeValues > 0
    ensures |min.View().values| > 0 && |max.View().values| > 0
    ensures ok <==> BatchSizeValid(totalBatchSize, min.View(), max.View())
  {
    min.ViewCount();
    max.ViewCount();
    var size := Cast(totalBatchSize, min.datatype_.Width());
    ok := size >= min.View().values[0] && size <= max.View().values[0];
  }
}
