/**
 Pruning of the profiles' maximum dimensions and sizing of the input buffers
 (src/instance_state.cc:1979-1989, 2592-2791 and 3764-3848).
 */
module Buffers {
  import opened Shapes

  /** The part of TensorRTContext that an optimization profile fills in, by tensor. */
  datatype TensorRTContext = TensorRTContext(minDims: seq<Dims>, maxDims: seq<Dims>, optDims: seq<Dims>)

  // ----- Pruning one profile -----

  /** The shape from the configuration, the batch dimension left open. */
  function Widened(config: seq<int>, batching: bool): (wide: seq<int>)
    requires |config| > 0
    ensures |wide| == |config|
  {
    if batching then config[0 := WILDCARD_DIM] else config
  }

  predicate CanMaximize(max: Dims, dims: seq<int>) {
    |dims| == max.nbDims && forall i :: 0 <= i < |dims| ==> dims[i] == WILDCARD_DIM || dims[i] <= max.d[i]
  }

  function Maximized(max: Dims, dims: seq<int>): (maximum: seq<int>)
    requires CanMaximize(max, dims)
    ensures |maximum| == |dims|
  {
    seq(|dims|, i requires 0 <= i < |dims| => if dims[i] == WILDCARD_DIM then max.d[i] else dims[i])
  }

  /** A configured shape, with its first dimension either open or a size. */
  predicate ConfigDims(config: seq<int>) {
    |config| > 0 && WILDCARD_DIM <= config[0]
  }

  predicate CanPrune(min: Dims, max: Dims, config: seq<int>, batching: bool)
    requires |config| > 0
  {
    InRangeOrWild(Widened(config, batching), min, max)
  }

  function PrunedVector(max: Dims, config: seq<int>, batching: bool): (vector: seq<int>)
    requires ConfigDims(config) && CanMaximize(max, Widened(config, batching))
    ensures |vector| == |config| == max.nbDims
  {
    var maximum := Maximized(max, Widened(config, batching));
    if batching && config[0] != WILDCARD_DIM && config[0] < maximum[0] then maximum[0 := config[0]] else maximum
  }

  function Pruned(max: Dims, config: seq<int>, batching: bool): Dims
    requires ConfigDims(config) && CanMaximize(max, Widened(config, batching))
  {
    Converted(PrunedVector(max, config, batching), max)
  }

  /** The cast to int loses nothing here. */
  lemma PrunedIsExact(min: Dims, max: Dims, config: seq<int>, batching: bool)
    requires ConfigDims(config) && CanPrune(min, max, config, batching) && Bounds(min, max)
    ensures CanMaximize(max, Widened(config, batching))
    ensures Vector(Pruned(max, config, batching)) == PrunedVector(max, config, batching)
    ensures Bounds(min, Pruned(max, config, batching))
  {
  }

  /** What a shape has to respect to agree with the configuration. */
  predicate WithinConfig(shape: seq<int>, config: seq<int>) {
    |shape| == |config| && forall i :: 0 <= i < |shape| ==> config[i] == WILDCARD_DIM || shape[i] <= config[i]
  }

  /** Pruning keeps exactly the shapes of the profile that respect the configuration. */
  lemma PruningNarrows(shape: seq<int>, min: Dims, max: Dims, config: seq<int>, batching: bool)
    requires ConfigDims(config) && CanPrune(min, max, config, batching) && Bounds(min, max)
    requires CanMaximize(max, Widened(config, batching))
    ensures InRange(shape, min, Pruned(max, config, batching))
       <==> InRange(shape, min, max) && WithinConfig(shape, config)
  {
    PrunedIsExact(min, max, config, batching);
    var pruned := Pruned(max, config, batching);
    forall i | 0 <= i < |config|
      ensures pruned.d[i] == PrunedVector(max, config, batching)[i]
      ensures pruned.d[i] <= max.d[i]
      ensures config[i] != WILDCARD_DIM ==> pruned.d[i] <= config[i]
      ensures pruned.d[i] == max.d[i] || pruned.d[i] == config[i] != WILDCARD_DIM
    {
      assert pruned.d[i] == Vector(pruned)[i];
    }
  }

  /** A second pass with the same configuration passes the same checks and changes nothing. */
  lemma PruningIdempotent(min: Dims, max: Dims, config: seq<int>, batching: bool)
    requires ConfigDims(config) && CanPrune(min, max, config, batching) && Bounds(min, max)
    requires CanMaximize(max, Widened(config, batching))
    ensures CanPrune(min, Pruned(max, config, batching), config, batching)
    ensures CanMaximize(Pruned(max, config, batching), Widened(config, batching))
    ensures PrunedVector(Pruned(max, config, batching), config, batching) == PrunedVector(max, config, batching)
    ensures Pruned(Pruned(max, config, batching), config, batching) == Pruned(max, config, batching)
  {
    PrunedIsExact(min, max, config, batching);
    var vector := PrunedVector(max, config, batching);
    var pruned := Pruned(max, config, batching);
    var wide := Widened(config, batching);
    forall i | 0 <= i < |config|
      ensures pruned.d[i] == vector[i]
      ensures wide[i] != WILDCARD_DIM ==> vector[i] == wide[i]
    {
      assert pruned.d[i] == Vector(pruned)[i];
    }
    assert PrunedVector(pruned, config, batching) == vector;
    assert Pruned(pruned, config, batching).d == pruned.d;
  }

  // ----- The size of a buffer -----

  /** What the engine says of a tensor; INVALID_TYPE is a data type without a counterpart in Triton. */
  datatype EngineTensor = EngineTensor(isInput: bool, dataType: nat, dims: Dims)

  const INVALID_TYPE: nat := 0

  /** What the model configuration says of an input. */
  datatype Declaration = Declaration(dataType: nat, dims: seq<int>, isControl: bool, isRagged: bool, isBatchInput: bool)

  /** An input to be bound: its index, its full configured shape, its format and element size. */
  datatype InputConfig = InputConfig(io: nat, dims: seq<int>, format: Format, elementSize: nat,
                                     isShape: bool, isState: bool, tensor: EngineTensor, declared: Declaration)

  /** Lines 2704-2722. */
  function FullConfigDims(declared: Declaration, maxBatchSize: nat): seq<int> {
    if declared.isRagged then [WILDCARD_DIM]
    else if maxBatchSize == 0 then declared.dims
    else [if declared.isBatchInput then WILDCARD_DIM else maxBatchSize] + declared.dims
  }

  /** Where the declared dimensions begin in the full shape: behind the batch dimension, if there is one. */
  function BatchDims(maxBatchSize: nat): nat {
    if maxBatchSize > 0 then 1 else 0
  }

  /**
   In terms of the declaration: which profiles support an input. A ragged input is of rank one and
   its length is left open without batching too.
   */
  lemma SupportsDeclared(declared: Declaration, maxBatchSize: nat, min: Dims, max: Dims)
    requires maxBatchSize == 0 && !declared.isRagged ==> declared.dims != []
    ensures var full := FullConfigDims(declared, maxBatchSize);
            && full != []
            && (CanPrune(min, max, full, maxBatchSize > 0) <==>
                  if declared.isRagged then max.nbDims == 1
                  else
                    && max.nbDims == BatchDims(maxBatchSize) + |declared.dims|
                    && forall i {:trigger declared.dims[i]} :: 0 <= i < |declared.dims| ==>
                         declared.dims[i] == WILDCARD_DIM
                         || min.d[BatchDims(maxBatchSize) + i] <= declared.dims[i]
                            <= max.d[BatchDims(maxBatchSize) + i])
  {
    var full := FullConfigDims(declared, maxBatchSize);
    var wide := Widened(full, maxBatchSize > 0);
    if !declared.isRagged {
      assert wide == (if maxBatchSize > 0 then [WILDCARD_DIM] else []) + declared.dims;
      if CanPrune(min, max, full, maxBatchSize > 0) {
        forall i {:trigger declared.dims[i]} | 0 <= i < |declared.dims|
          ensures declared.dims[i] == WILDCARD_DIM
               || min.d[BatchDims(maxBatchSize) + i] <= declared.dims[i] <= max.d[BatchDims(maxBatchSize) + i]
        {
          assert wide[BatchDims(maxBatchSize) + i] == declared.dims[i];
        }
      }
    }
  }

  /** A shape that the full shape of an input allows: at most the maximum batch size, and within the declared dims. */
  predicate WithinDeclared(shape: seq<int>, declared: Declaration, maxBatchSize: nat) {
    if declared.isRagged then |shape| == 1
    else if maxBatchSize == 0 then WithinConfig(shape, declared.dims)
    else
      && shape != [] && (declared.isBatchInput || shape[0] <= maxBatchSize)
      && WithinConfig(shape[1..], declared.dims)
  }

  /** Pruning for a declared input keeps exactly the shapes of the profile that the declaration allows. */
  lemma PrunedAdmits(shape: seq<int>, declared: Declaration, maxBatchSize: nat, min: Dims, max: Dims)
    requires var full := FullConfigDims(declared, maxBatchSize);
             && ConfigDims(full) && CanPrune(min, max, full, maxBatchSize > 0) && Bounds(min, max)
             && CanMaximize(max, Widened(full, maxBatchSize > 0))
    ensures var full := FullConfigDims(declared, maxBatchSize);
            InRange(shape, min, Pruned(max, full, maxBatchSize > 0))
            <==> InRange(shape, min, max) && WithinDeclared(shape, declared, maxBatchSize)
  {
    var full := FullConfigDims(declared, maxBatchSize);
    PruningNarrows(shape, min, max, full, maxBatchSize > 0);
    if !declared.isRagged && maxBatchSize > 0 && shape != [] {
      assert full[1..] == declared.dims && shape == [shape[0]] + shape[1..];
      assert forall i :: 1 <= i < |shape| ==> shape[1..][i - 1] == shape[i];
      assert forall i :: 1 <= i < |full| ==> full[1..][i - 1] == full[i];
    }
  }

  predicate ValidInput(input: InputConfig) {
    ConfigDims(input.dims) && FormatFor(input.format, |input.dims|)
  }

  predicate Describes(context: TensorRTContext, io: nat) {
    io < |context.minDims| && |context.maxDims| == |context.minDims| && Bounds(context.minDims[io], context.maxDims[io])
  }

  predicate AllDescribe(contexts: seq<TensorRTContext>, io: nat) {
    forall i :: 0 <= i < |contexts| ==> Describes(contexts[i], io)
  }

  /** This profile has been pruned for this input, so pruning it again changes nothing. */
  predicate Configured(context: TensorRTContext, input: InputConfig, batching: bool)
    requires ValidInput(input) && Describes(context, input.io)
  {
    var min, max := context.minDims[input.io], context.maxDims[input.io];
    && CanPrune(min, max, input.dims, batching) && CanMaximize(max, Widened(input.dims, batching))
    && Pruned(max, input.dims, batching) == max
  }

  predicate AllConfigured(contexts: seq<TensorRTContext>, input: InputConfig, batching: bool)
    requires ValidInput(input) && AllDescribe(contexts, input.io)
  {
    forall i :: 0 <= i < |contexts| ==> Configured(contexts[i], input, batching)
  }

  /** The bytes that the maximum dimensions of this profile need. */
  function SizeOf(context: TensorRTContext, input: InputConfig): int
    requires ValidInput(input) && Describes(context, input.io)
    requires context.maxDims[input.io].nbDims == |input.dims|
  {
    ByteSize(Vector(context.maxDims[input.io]), input.format, input.elementSize)
  }

  predicate RanksAgree(contexts: seq<TensorRTContext>, input: InputConfig)
    requires AllDescribe(contexts, input.io)
  {
    forall i :: 0 <= i < |contexts| ==> contexts[i].maxDims[input.io].nbDims == |input.dims|
  }

  function Sizes(contexts: seq<TensorRTContext>, input: InputConfig): (sizes: seq<int>)
    requires ValidInput(input) && AllDescribe(contexts, input.io) && RanksAgree(contexts, input)
    ensures |sizes| == |contexts|
  {
    seq(|contexts|, i requires 0 <= i < |contexts| => SizeOf(contexts[i], input))
  }

  predicate IsMaximum(m: int, sizes: seq<int>) {
    m >= 0 && (forall i :: 0 <= i < |sizes| ==> sizes[i] <= m) && (m == 0 || m in sizes)
  }

  /** size is the largest of the sizes that the profiles need, zero when there is none. */
  predicate IsLargest(size: int, contexts: seq<TensorRTContext>, input: InputConfig)
    requires ValidInput(input) && AllDescribe(contexts, input.io) && RanksAgree(contexts, input)
  {
    IsMaximum(size, Sizes(contexts, input))
  }

  lemma LargestIsUnique(a: int, b: int, contexts: seq<TensorRTContext>, input: InputConfig)
    requires ValidInput(input) && AllDescribe(contexts, input.io) && RanksAgree(contexts, input)
    requires IsLargest(a, contexts, input) && IsLargest(b, contexts, input)
    ensures a == b
  {
  }

  /**
   Every shape of this input that may be filled in has room in size bytes, whether it is
   padded for its format or, as ragged and batch inputs are, not.
   */
  ghost predicate Suffices(size: int, contexts: seq<TensorRTContext>, input: InputConfig)
    requires ValidInput(input) && AllDescribe(contexts, input.io)
  {
    forall i, shape :: 0 <= i < |contexts| && |shape| == |input.dims| && FitsInt32(shape)
      && Accepted(shape, contexts[i].minDims[input.io], contexts[i].maxDims[input.io])
      ==> ByteSize(shape, Linear, input.elementSize) <= size && ByteSize(shape, input.format, input.elementSize) <= size
  }

  lemma LargestSuffices(size: int, contexts: seq<TensorRTContext>, input: InputConfig)
    requires ValidInput(input) && AllDescribe(contexts, input.io) && RanksAgree(contexts, input)
    requires IsLargest(size, contexts, input)
    ensures Suffices(size, contexts, input)
  {
    forall i, shape | 0 <= i < |contexts| && |shape| == |input.dims| && FitsInt32(shape)
      && Accepted(shape, contexts[i].minDims[input.io], contexts[i].maxDims[input.io])
      ensures ByteSize(shape, Linear, input.elementSize) <= size
      ensures ByteSize(shape, input.format, input.elementSize) <= size
    {
      var min, max := contexts[i].minDims[input.io], contexts[i].maxDims[input.io];
      AcceptedMeansInRange(shape, min, max);
      ByteSizeBelow(shape, Vector(max), input.format, input.elementSize);
      UnpaddedIsSmaller(shape, input.format, input.elementSize);
      assert Sizes(contexts, input)[i] <= size;
    }
  }

  /** No smaller size would do, unless a profile is left without any shape. */
  lemma LargestIsTight(size: int, contexts: seq<TensorRTContext>, input: InputConfig)
    requires ValidInput(input) && AllDescribe(contexts, input.io) && RanksAgree(contexts, input)
    requires IsLargest(size, contexts, input) && size > 0
    requires forall i :: 0 <= i < |contexts| ==>
      var min, max := contexts[i].minDims[input.io], contexts[i].maxDims[input.io];
      forall k :: 0 <= k < max.nbDims ==> min.d[k] <= max.d[k]
    ensures !Suffices(size - 1, contexts, input)
  {
    var i :| 0 <= i < |contexts| && Sizes(contexts, input)[i] == size;
    var min, max := contexts[i].minDims[input.io], contexts[i].maxDims[input.io];
    InRangeIsAccepted(Vector(max), min, max);
    AcceptedMeansInRange(Vector(max), min, max);
  }

  /** An accepted shape with dimensions from 0 to below limit, for a buffer sized over these profiles. */
  predicate MayBeFilled(contexts: seq<TensorRTContext>, input: InputConfig, size: int, i: nat, shape: seq<int>,
                        limit: nat) {
    && ValidInput(input) && AllDescribe(contexts, input.io) && RanksAgree(contexts, input)
    && IsLargest(size, contexts, input) && i < |contexts| && |shape| == |input.dims|
    && (forall k :: 0 <= k < |shape| ==> 0 <= shape[k] < limit)
    && Accepted(shape, contexts[i].minDims[input.io], contexts[i].maxDims[input.io])
  }

  /** Such a shape always fits, whatever the profiles and the input. */
  ghost predicate FitsBelow(limit: nat) {
    forall contexts, input, size, i: nat, shape :: MayBeFilled(contexts, input, size, i, shape, limit) ==>
      && ByteSize(shape, Linear, input.elementSize) <= size
      && ByteSize(shape, input.format, input.elementSize) <= size
  }

  /** One dimension, a profile from 0 to 1, and the smallest dimension that the cast takes for 0. */
  lemma SmallestThatDoesNotFit() returns (contexts: seq<TensorRTContext>, input: InputConfig, shape: seq<int>)
    ensures ValidInput(input) && AllDescribe(contexts, input.io) && RanksAgree(contexts, input) && |contexts| == 1
    ensures IsLargest(1, contexts, input) && shape == [0x1_0000_0000] && |input.dims| == 1
    ensures Accepted(shape, contexts[0].minDims[input.io], contexts[0].maxDims[input.io])
    ensures ByteSize(shape, Linear, input.elementSize) > 1
  {
    var zero, one := RawDims(1, [0, 0, 0, 0, 0, 0, 0, 0]), RawDims(1, [1, 0, 0, 0, 0, 0, 0, 0]);
    contexts := [TensorRTContext([zero], [one], [one])];
    input := InputConfig(0, [WILDCARD_DIM], Linear, 1, false, false, EngineTensor(true, 1, one),
                         Declaration(1, [WILDCARD_DIM], false, false, false));
    shape := [0x1_0000_0000];
    assert Vector(one) == [1] && Truncated(shape) == [0];
    assert Product([1]) == 1 && Product(shape) == 0x1_0000_0000;
    assert Sizes(contexts, input)[0] == 1;
  }

  /**
   The capacity of the buffers is guaranteed for all accepted shapes with dimensions below a
   limit, in every configuration, if and only if the limit is at most 2^32.
   */
  lemma CapacityLimit(limit: nat)
    ensures FitsBelow(limit) <==> limit <= 0x1_0000_0000
  {
    if limit <= 0x1_0000_0000 {
      forall contexts: seq<TensorRTContext>, input, size, i: nat, shape |
        MayBeFilled(contexts, input, size, i, shape, limit)
        ensures ByteSize(shape, Linear, input.elementSize) <= size
        ensures ByteSize(shape, input.format, input.elementSize) <= size
      {
        AcceptedBelowLimit(shape, contexts[i].minDims[input.io], contexts[i].maxDims[input.io]);
        LargestSuffices(size, contexts, input);
      }
    } else {
      var contexts, input, shape := SmallestThatDoesNotFit();
      assert 0 <= shape[0] < limit;
      assert MayBeFilled(contexts, input, 1, 0, shape, limit);
    }
  }

  /** The maximum of a profile with dimension j raised by a multiple of 2^32. */
  function Raised(max: Dims, j: nat, times: nat): (shape: seq<int>)
    requires j < max.nbDims
    ensures |shape| == max.nbDims
  {
    Vector(max)[j := max.d[j] + 0x1_0000_0000 * times]
  }

  lemma RaisedIsAccepted(min: Dims, max: Dims, j: nat, times: nat)
    requires Bounds(min, max) && j < max.nbDims && forall k :: 0 <= k < max.nbDims ==> min.d[k] <= max.d[k]
    ensures Accepted(Raised(max, j, times), min, max)
  {
    var cut := Truncated(Raised(max, j, times));
    forall k | 0 <= k < |cut|
      ensures cut[k] == max.d[k]
    {
    }
  }

  /**
   Nor is it an exotic configuration that fails: for any buffer size and any profile whose
   maximum is not empty, an accepted shape does not fit. With batching it needs a dimension
   besides the batch size, which stays that of the profile.
   */
  lemma LargeDimensionsDoNotFit(size: nat, min: Dims, max: Dims, elementSize: nat, batching: bool)
    requires Bounds(min, max) && elementSize > 0 && max.nbDims > if batching then 1 else 0
    requires forall k :: 0 <= k < max.nbDims ==> min.d[k] <= max.d[k] && 1 <= max.d[k]
    ensures exists shape ::
              && |shape| == max.nbDims && Accepted(shape, min, max) && (batching ==> shape[0] == max.d[0])
              && ByteSize(shape, Linear, elementSize) > size
  {
    var j := if batching then 1 else 0;
    var shape := Raised(max, j, size);
    RaisedIsAccepted(min, max, j, size);
    forall k | 0 <= k < |shape|
      ensures shape[k] >= 1
    {
    }
    BytesAtLeastEach(shape, elementSize, j);
    assert shape[j] > size;
  }
}
