/**
 Setting up the input buffers of an instance, one set after the other, while the
 profiles are pruned in place (src/instance_state.cc:1972-1989, 2592-2791 and 3764-3848).
 */
module InputBindings {
  import opened Shapes
  import opened Buffers
  import AutoComplete

  /** The binding of an input in one buffer set: what was configured, and the bytes allocated. */
  datatype Binding = Binding(input: InputConfig, byteSize: int)

  function PrunedContext(context: TensorRTContext, input: InputConfig, batching: bool): TensorRTContext
    requires ValidInput(input) && Describes(context, input.io)
    requires CanMaximize(context.maxDims[input.io], Widened(input.dims, batching))
  {
    context.(maxDims := context.maxDims[input.io := Pruned(context.maxDims[input.io], input.dims, batching)])
  }

  /** The configured shape agrees with this profile. */
  predicate Supports(context: TensorRTContext, input: InputConfig, batching: bool)
    requires ValidInput(input) && Describes(context, input.io)
  {
    CanPrune(context.minDims[input.io], context.maxDims[input.io], input.dims, batching)
  }

  /** The shape of a control tensor: open in the batch dimension, if there is one, and 1 in all others. */
  predicate IsControlShape(dims: Dims, batching: bool) {
    dims.d[0] == (if batching then WILDCARD_DIM else 1) && forall i :: 1 <= i < dims.nbDims ==> dims.d[i] == 1
  }

  /** The configured shape fits the tensor, by the rule for dynamic controls, ragged inputs or all others. */
  predicate ShapeAgrees(input: InputConfig, batching: bool) {
    var engine, declared := input.tensor.dims, input.declared;
    if declared.isControl && ContainsWildcard(engine) then IsControlShape(engine, batching)
    else if declared.isRagged then declared.dims != [] && engine.nbDims == 1 && engine.d[0] == declared.dims[0]
    else AutoComplete.DimsSupported(engine, declared.dims, batching, false)
  }

  /** The full shape of this input is that of its declaration. */
  predicate IsDeclared(input: InputConfig, maxBatchSize: nat) {
    input.dims == FullConfigDims(input.declared, maxBatchSize)
  }

  predicate AllDeclared(inputs: seq<InputConfig>, maxBatchSize: nat) {
    forall j :: 0 <= j < |inputs| ==> IsDeclared(inputs[j], maxBatchSize)
  }

  /** The configuration agrees with the engine on this input: direction, data type and shape. */
  predicate Agrees(input: InputConfig, batching: bool) {
    && input.tensor.isInput
    && input.tensor.dataType != INVALID_TYPE && input.tensor.dataType == input.declared.dataType
    && ShapeAgrees(input, batching)
  }

  /** The outcome of the calls for one input and one profile: SetFormat, and setInputShape at the end. */
  datatype ProfileCalls = ProfileCalls(setsFormat: bool, trtAccepts: bool)

  /** The outcome of the name lookup and all calls for one input. */
  datatype Foreign = Foreign(nameKnown: bool, profiles: seq<ProfileCalls>, allocates: bool)

  predicate CallsFor(foreign: seq<Foreign>, inputs: nat, profiles: nat) {
    |foreign| == inputs && forall j :: 0 <= j < inputs ==> |foreign[j].profiles| == profiles
  }

  /** The configuration agrees with the engine and with every profile, and TensorRT with every pruned profile. */
  predicate Succeeds(contexts: seq<TensorRTContext>, calls: seq<ProfileCalls>, input: InputConfig, batching: bool)
    requires ValidInput(input) && AllDescribe(contexts, input.io) && |calls| == |contexts|
  {
    Agrees(input, batching) && forall i :: 0 <= i < |contexts| ==>
      calls[i].setsFormat && calls[i].trtAccepts && Supports(contexts[i], input, batching)
  }

  /** after is before, pruned for this input. */
  predicate IsPruned(after: TensorRTContext, before: TensorRTContext, input: InputConfig, batching: bool)
    requires ValidInput(input) && Describes(before, input.io)
  {
    && CanPrune(before.minDims[input.io], before.maxDims[input.io], input.dims, batching)
    && CanMaximize(before.maxDims[input.io], Widened(input.dims, batching))
    && after == PrunedContext(before, input, batching)
  }

  lemma PrunedContextIsConfigured(after: TensorRTContext, before: TensorRTContext, input: InputConfig, batching: bool)
    requires ValidInput(input) && Describes(before, input.io) && IsPruned(after, before, input, batching)
    ensures Describes(after, input.io) && Configured(after, input, batching)
    ensures after.maxDims[input.io].nbDims == |input.dims|
    ensures Vector(after.maxDims[input.io]) == PrunedVector(before.maxDims[input.io], input.dims, batching)
    ensures Configured(before, input, batching) ==> after == before
    ensures forall io: nat :: io != input.io && Describes(before, io) ==>
      Describes(after, io) && after.minDims[io] == before.minDims[io] && after.maxDims[io] == before.maxDims[io]
  {
    PrunedIsExact(before.minDims[input.io], before.maxDims[input.io], input.dims, batching);
    PruningIdempotent(before.minDims[input.io], before.maxDims[input.io], input.dims, batching);
    if Configured(before, input, batching) {
      assert after.maxDims == before.maxDims;
    }
  }

  predicate AllPruned(after: seq<TensorRTContext>, before: seq<TensorRTContext>, input: InputConfig, batching: bool)
    requires ValidInput(input) && AllDescribe(before, input.io)
  {
    |after| == |before| && forall i :: 0 <= i < |after| ==> IsPruned(after[i], before[i], input, batching)
  }

  /** Every profile is described and pruned for this input. */
  predicate Ready(contexts: seq<TensorRTContext>, input: InputConfig, batching: bool) {
    && ValidInput(input) && AllDescribe(contexts, input.io)
    && RanksAgree(contexts, input) && AllConfigured(contexts, input, batching)
  }

  /** What holds of a buffer that was set up: its profiles are pruned, its size is the largest needed. */
  predicate Sized(contexts: seq<TensorRTContext>, binding: Binding, batching: bool) {
    Ready(contexts, binding.input, batching) && IsLargest(binding.byteSize, contexts, binding.input)
  }

  type BufferSet = map<int, Binding>

  predicate AllSized(contexts: seq<TensorRTContext>, buffers: BufferSet, batching: bool) {
    forall io :: io in buffers ==> buffers[io].input.io == io && Sized(contexts, buffers[io], batching)
  }

  /** The profiles have the same bounds for this tensor. */
  predicate SameColumn(after: seq<TensorRTContext>, before: seq<TensorRTContext>, io: nat)
    requires AllDescribe(after, io) && AllDescribe(before, io)
  {
    |after| == |before| && forall i :: 0 <= i < |after| ==>
      after[i].minDims[io] == before[i].minDims[io] && after[i].maxDims[io] == before[i].maxDims[io]
  }

  lemma SameColumnReady(after: seq<TensorRTContext>, before: seq<TensorRTContext>, input: InputConfig, batching: bool)
    requires Ready(before, input, batching) && AllDescribe(after, input.io) && SameColumn(after, before, input.io)
    ensures Ready(after, input, batching) && Sizes(after, input) == Sizes(before, input)
  {
  }

  /** Pruning for one input leaves the other inputs alone, and this one too if it was pruned for it. */
  lemma PruningKeepsSized(after: seq<TensorRTContext>, before: seq<TensorRTContext>, input: InputConfig,
                          binding: Binding, batching: bool)
    requires ValidInput(input) && AllDescribe(before, input.io) && AllPruned(after, before, input, batching)
    requires Sized(before, binding, batching) && (binding.input == input || binding.input.io != input.io)
    ensures Sized(after, binding, batching)
  {
    forall i | 0 <= i < |after|
      ensures Describes(after[i], binding.input.io)
      ensures after[i].minDims[binding.input.io] == before[i].minDims[binding.input.io]
      ensures after[i].maxDims[binding.input.io] == before[i].maxDims[binding.input.io]
    {
      PrunedContextIsConfigured(after[i], before[i], input, batching);
    }
    SameColumnReady(after, before, binding.input, batching);
  }

  /** The bytes for this input in this profile after pruning; zero if it cannot be pruned. */
  function PrunedSize(before: TensorRTContext, input: InputConfig, batching: bool): int
    requires ValidInput(input) && Describes(before, input.io)
  {
    if CanMaximize(before.maxDims[input.io], Widened(input.dims, batching)) then
      ByteSize(PrunedVector(before.maxDims[input.io], input.dims, batching), input.format, input.elementSize)
    else
      0
  }

  /** sizes lists what the profiles will need; the trigger keeps the products out of other proofs. */
  predicate AreSizes(sizes: seq<int>, before: seq<TensorRTContext>, input: InputConfig, batching: bool)
    requires ValidInput(input) && AllDescribe(before, input.io)
  {
    |sizes| == |before| && forall i {:trigger PrunedSize(before[i], input, batching)} :: 0 <= i < |before| ==>
      PrunedSize(before[i], input, batching) == sizes[i]
  }

  function PrunedSizes(before: seq<TensorRTContext>, input: InputConfig, batching: bool): (sizes: seq<int>)
    requires ValidInput(input) && AllDescribe(before, input.io)
    ensures AreSizes(sizes, before, input, batching)
  {
    seq(|before|, i requires 0 <= i < |before| => PrunedSize(before[i], input, batching))
  }

  function Larger(a: int, b: int): int {
    if a < b then b else a
  }

  lemma MaximumOfMore(m: int, sizes: seq<int>, k: nat)
    requires k < |sizes| && IsMaximum(m, sizes[..k])
    ensures IsMaximum(Larger(m, sizes[k]), sizes[..k + 1])
  {
  }

  /** The first k profiles are pruned for this input, the others as they were. */
  predicate PrunedUpTo(k: nat, contexts: seq<TensorRTContext>, before: seq<TensorRTContext>,
                       input: InputConfig, batching: bool)
    requires ValidInput(input) && AllDescribe(before, input.io)
  {
    && k <= |contexts| == |before|
    && (forall i :: 0 <= i < k ==> IsPruned(contexts[i], before[i], input, batching))
    && (forall i :: k <= i < |contexts| ==> contexts[i] == before[i])
  }

  lemma OneMorePruned(k: nat, after: seq<TensorRTContext>, contexts: seq<TensorRTContext>, before: seq<TensorRTContext>,
                      input: InputConfig, batching: bool)
    requires ValidInput(input) && AllDescribe(before, input.io) && k < |contexts|
    requires PrunedUpTo(k, contexts, before, input, batching)
    requires |after| == |contexts| && after == contexts[k := after[k]] && IsPruned(after[k], before[k], input, batching)
    ensures PrunedUpTo(k + 1, after, before, input, batching)
  {
  }

  lemma ProfilesPruned(contexts: seq<TensorRTContext>, before: seq<TensorRTContext>, sizes: seq<int>,
                       input: InputConfig, batching: bool)
    requires ValidInput(input) && AllDescribe(before, input.io) && AreSizes(sizes, before, input, batching)
    requires PrunedUpTo(|contexts|, contexts, before, input, batching)
    ensures AllPruned(contexts, before, input, batching) && Ready(contexts, input, batching)
    ensures Sizes(contexts, input) == sizes
  {
    forall i | 0 <= i < |contexts|
      ensures Describes(contexts[i], input.io) && Configured(contexts[i], input, batching)
      ensures contexts[i].maxDims[input.io].nbDims == |input.dims|
      ensures SizeOf(contexts[i], input) == sizes[i]
    {
      PrunedContextIsConfigured(contexts[i], before[i], input, batching);
      assert PrunedSize(before[i], input, batching) == sizes[i];
    }
  }

  /** The inputs that end up bound by the first n entries: the first one for each tensor. */
  function Bound(inputs: seq<InputConfig>, n: nat): (bound: map<int, InputConfig>)
    requires n <= |inputs|
    ensures forall io :: io in bound ==> bound[io] in inputs && bound[io].io == io
  {
    if n == 0 then map[]
    else
      var bound := Bound(inputs, n - 1);
      if inputs[n - 1].isShape || inputs[n - 1].io in bound then bound else bound[inputs[n - 1].io := inputs[n - 1]]
  }

  lemma {:induction false} BoundGrows(inputs: seq<InputConfig>, m: nat, n: nat)
    requires m <= n <= |inputs|
    ensures forall io :: io in Bound(inputs, m) ==>
      io in Bound(inputs, n) && Bound(inputs, n)[io] == Bound(inputs, m)[io]
  {
    if m < n {
      BoundGrows(inputs, m, n - 1);
    }
  }

  predicate Holds(buffers: BufferSet, bound: map<int, InputConfig>) {
    buffers.Keys == bound.Keys && forall io :: io in bound ==> buffers[io].input == bound[io]
  }

  /** The state of one buffer set after the first n inputs. */
  predicate SetUp(contexts: seq<TensorRTContext>, buffers: BufferSet, inputs: seq<InputConfig>, n: nat, batching: bool)
    requires n <= |inputs|
  {
    AllSized(contexts, buffers, batching) && Holds(buffers, Bound(inputs, n))
  }

  predicate Known(contexts: seq<TensorRTContext>, inputs: seq<InputConfig>) {
    forall j :: 0 <= j < |inputs| ==> ValidInput(inputs[j]) && AllDescribe(contexts, inputs[j].io)
  }

  lemma PruningKeepsKnown(after: seq<TensorRTContext>, before: seq<TensorRTContext>, input: InputConfig,
                          inputs: seq<InputConfig>, batching: bool)
    requires ValidInput(input) && AllDescribe(before, input.io) && AllPruned(after, before, input, batching)
    requires Known(before, inputs)
    ensures Known(after, inputs)
  {
    forall j, i | 0 <= j < |inputs| && 0 <= i < |after|
      ensures Describes(after[i], inputs[j].io)
    {
      assert Describes(before[i], inputs[j].io);
      PrunedContextIsConfigured(after[i], before[i], input, batching);
    }
  }

  /** Binding input j in one set leaves the sets that are complete, or not begun, set up. */
  lemma PruningKeepsSetUp(after: seq<TensorRTContext>, before: seq<TensorRTContext>, inputs: seq<InputConfig>, j: nat,
                          buffers: BufferSet, n: nat, batching: bool)
    requires j < |inputs| && n <= |inputs| && !inputs[j].isShape && inputs[j].io !in Bound(inputs, j)
    requires n == |inputs| || n <= j
    requires ValidInput(inputs[j]) && AllDescribe(before, inputs[j].io)
    requires AllPruned(after, before, inputs[j], batching)
    requires SetUp(before, buffers, inputs, n, batching)
    ensures SetUp(after, buffers, inputs, n, batching)
  {
    if n == |inputs| {
      BoundGrows(inputs, j + 1, n);
    } else {
      BoundGrows(inputs, n, j);
    }
    forall io | io in buffers
      ensures buffers[io].input.io == io && Sized(after, buffers[io], batching)
    {
      assert buffers[io].input == Bound(inputs, n)[io];
      PruningKeepsSized(after, before, inputs[j], buffers[io], batching);
    }
  }

  lemma OneMoreSetUp(contexts: seq<TensorRTContext>, buffers: BufferSet, inputs: seq<InputConfig>, j: nat, size: int,
                     batching: bool)
    requires j < |inputs| && !inputs[j].isShape && inputs[j].io !in Bound(inputs, j)
    requires SetUp(contexts, buffers, inputs, j, batching) && Sized(contexts, Binding(inputs[j], size), batching)
    ensures SetUp(contexts, buffers[inputs[j].io := Binding(inputs[j], size)], inputs, j + 1, batching)
  {
  }

  lemma SizedSetsAgree(contexts: seq<TensorRTContext>, a: BufferSet, b: BufferSet, bound: map<int, InputConfig>,
                       batching: bool)
    requires AllSized(contexts, a, batching) && AllSized(contexts, b, batching) && Holds(a, bound) && Holds(b, bound)
    ensures a == b
  {
    forall io | io in a
      ensures a[io] == b[io]
    {
      assert io in bound;
      LargestIsUnique(a[io].byteSize, b[io].byteSize, contexts, a[io].input);
    }
  }

  /** Every buffer takes whatever the checks at run time let through for it. */
  ghost predicate HaveRoom(contexts: seq<TensorRTContext>, buffers: BufferSet, batching: bool) {
    forall io :: io in buffers ==>
      Ready(contexts, buffers[io].input, batching) && Suffices(buffers[io].byteSize, contexts, buffers[io].input)
  }

  lemma SizedHaveRoom(contexts: seq<TensorRTContext>, buffers: BufferSet, batching: bool)
    requires AllSized(contexts, buffers, batching)
    ensures HaveRoom(contexts, buffers, batching)
  {
    forall io | io in buffers
      ensures Suffices(buffers[io].byteSize, contexts, buffers[io].input)
    {
      LargestSuffices(buffers[io].byteSize, contexts, buffers[io].input);
    }
  }

  /** Sets before s are complete, set s has seen j inputs, the later sets none. */
  predicate SetUpTo(contexts: seq<TensorRTContext>, sets: seq<BufferSet>, inputs: seq<InputConfig>, s: nat, j: nat,
                    batching: bool) {
    && |contexts| > 0 && Known(contexts, inputs) && s <= |sets| && j <= |inputs|
    && forall t :: 0 <= t < |sets| ==>
         SetUp(contexts, sets[t], inputs, if t < s then |inputs| else if t == s then j else 0, batching)
  }

  lemma SetsAreReady(contexts: seq<TensorRTContext>, sets: seq<BufferSet>, inputs: seq<InputConfig>, batching: bool)
    requires forall t :: 0 <= t < |sets| ==> SetUp(contexts, sets[t], inputs, |inputs|, batching)
    ensures forall t :: 0 <= t < |sets| ==> sets[t] == sets[0] && HaveRoom(contexts, sets[t], batching)
  {
    forall t | 0 <= t < |sets|
      ensures sets[t] == sets[0] && HaveRoom(contexts, sets[t], batching)
    {
      SizedSetsAgree(contexts, sets[t], sets[0], Bound(inputs, |inputs|), batching);
      SizedHaveRoom(contexts, sets[t], batching);
    }
  }

  /** How the loop over the profiles ends: no buffer needed, an error, or all profiles pruned. */
  datatype Pruning = Skipped | Rejected | Complete

  class ModelInstanceState {
    const maxBatchSize: nat
    const batching: bool := maxBatchSize > 0
    var contexts: seq<TensorRTContext>
    var bufferSets: seq<BufferSet>

    constructor (maxBatchSize: nat, contexts: seq<TensorRTContext>, separateOutputStream: bool)
      ensures this.maxBatchSize == maxBatchSize && this.contexts == contexts
      ensures bufferSets == if separateOutputStream then [map[], map[]] else [map[]]
    {
      this.maxBatchSize := maxBatchSize;
      this.contexts := contexts;
      bufferSets := if separateOutputStream then [map[], map[]] else [map[]];
    }

    method MaximumDims(max: Dims, dims: seq<int>) returns (ok: bool, maximum: seq<int>)
      ensures ok <==> CanMaximize(max, dims)
      ensures ok ==> maximum == Maximized(max, dims)
    {
      maximum := [];
      if max.nbDims != |dims| {
        return false, [];
      }
      var i := 0;
      while i < |dims|
        invariant i <= |dims| && |maximum| == i
        invariant forall k :: 0 <= k < i ==> dims[k] == WILDCARD_DIM || dims[k] <= max.d[k]
        invariant forall k :: 0 <= k < i ==> maximum[k] == if dims[k] == WILDCARD_DIM then max.d[k] else dims[k]
      {
        if dims[i] == WILDCARD_DIM {
          maximum := maximum + [max.d[i]];
        } else if dims[i] <= max.d[i] {
          maximum := maximum + [dims[i]];
        } else {
          return false, maximum;
        }
        i := i + 1;
      }
      ok := true;
    }

    /** Fails before any change if the configured shape is outside the profile, after it if TensorRT refuses. */
    method ConfigureInputDimensions(k: nat, input: InputConfig, trtAccepts: bool) returns (ok: bool, maximum: seq<int>)
      requires k < |contexts| && ValidInput(input) && Describes(contexts[k], input.io)
      modifies this`contexts
      ensures var min, max := old(contexts)[k].minDims[input.io], old(contexts)[k].maxDims[input.io];
              && (ok <==> trtAccepts && CanPrune(min, max, input.dims, batching))
              && (CanPrune(min, max, input.dims, batching) ==>
                && |contexts| == |old(contexts)| && contexts == old(contexts)[k := contexts[k]]
                && IsPruned(contexts[k], old(contexts)[k], input, batching))
              && (!CanPrune(min, max, input.dims, batching) ==> contexts == old(contexts))
              && (ok ==> maximum == PrunedVector(max, input.dims, batching))
    {
      var context := contexts[k];
      var min, max := context.minDims[input.io], context.maxDims[input.io];
      var config := input.dims;
      var batchDim := config[0];
      if batching {
        config := config[0 := WILDCARD_DIM];
      }
      var inRange := ValidateDimension(config, min, max);
      if !inRange {
        return false, [];
      }
      ok, maximum := MaximumDims(max, config);
      if !ok {
        return;
      }
      if batching && batchDim != WILDCARD_DIM {
        maximum := maximum[0 := if batchDim < maximum[0] then batchDim else maximum[0]];
      }
      assert maximum == PrunedVector(max, input.dims, batching);
      var _, pruned := DimVecToDims(maximum, max);
      contexts := contexts[k := context.(maxDims := context.maxDims[input.io := pruned])];
      ok := trtAccepts;
    }

    /** One turn of the loop over the profiles: prunes profile k and tells the bytes it needs. */
    method SizeForProfile(k: nat, input: InputConfig, trtAccepts: bool,
                          ghost before: seq<TensorRTContext>, ghost sizes: seq<int>)
      returns (ok: bool, byteSize: int, ghost pruned: nat)
      requires k < |contexts| && ValidInput(input) && AllDescribe(before, input.io)
      requires PrunedUpTo(k, contexts, before, input, batching) && AreSizes(sizes, before, input, batching)
      modifies this`contexts
      ensures PrunedUpTo(pruned, contexts, before, input, batching)
      ensures ok <==> trtAccepts && Supports(before[k], input, batching)
      ensures ok ==> pruned == k + 1 && byteSize == sizes[k]
    {
      ghost var during := contexts;
      var maximum;
      pruned := k;
      ok, maximum := ConfigureInputDimensions(k, input, trtAccepts);
      if ok || contexts != during {
        OneMorePruned(k, contexts, during, before, input, batching);
        pruned := k + 1;
      }
      assert PrunedSize(before[k], input, batching) == sizes[k];
      byteSize := if ok then ByteSize(maximum, input.format, input.elementSize) else 0;
    }

    /** Lines 2634-2702: direction, data type, format and shape. */
    method CheckInput(input: InputConfig, setsFormat: bool) returns (ok: bool)
      ensures ok <==> Agrees(input, batching) && setsFormat
    {
      var engine, declared := input.tensor.dims, input.declared;
      if !input.tensor.isInput {
        return false;
      }
      if input.tensor.dataType == INVALID_TYPE || input.tensor.dataType != declared.dataType {
        return false;
      }
      if !setsFormat {
        return false;
      }
      if !(declared.isControl && ContainsWildcard(engine)) {
        if !declared.isRagged {
          ok := AutoComplete.CompareDimsSupported(engine, declared.dims, batching, false);
        } else {
          ok := declared.dims != [] && engine.nbDims == 1 && engine.d[0] == declared.dims[0];
        }
      } else {
        ok := ValidateControlDimsDynamic(engine);
      }
    }

    method ValidateControlDimsDynamic(dims: Dims) returns (ok: bool)
      ensures ok <==> IsControlShape(dims, batching)
    {
      if dims.d[0] != if batching then WILDCARD_DIM else 1 {
        return false;
      }
      var i := 1;
      while i < dims.nbDims
        invariant 1 <= i && forall k :: 1 <= k < i && k < dims.nbDims ==> dims.d[k] == 1
      {
        if dims.d[i] != 1 {
          return false;
        }
        i := i + 1;
      }
      ok := true;
    }

    /** The loop over the profiles; every turn first checks that this input needs a buffer and may have one. */
    method PruneProfiles(taken: bool, input: InputConfig, calls: seq<ProfileCalls>, ghost sizes: seq<int>)
      returns (outcome: Pruning, maxByteSize: int, ghost pruned: nat)
      requires |contexts| > 0 && |calls| == |contexts|
      requires ValidInput(input) && AllDescribe(contexts, input.io) && AreSizes(sizes, contexts, input, batching)
      requires IsDeclared(input, maxBatchSize)
      modifies this`contexts
      ensures outcome.Skipped? <==> input.isShape
      ensures taken || input.isShape ==> !outcome.Complete? && contexts == old(contexts)
      ensures PrunedUpTo(pruned, contexts, old(contexts), input, batching)
      ensures outcome.Complete? <==> !input.isShape && !taken && Succeeds(old(contexts), calls, input, batching)
      ensures outcome.Complete? ==>
        pruned == |contexts| && IsMaximum(maxByteSize, sizes)
    {
      ghost var before := contexts;
      var k := 0;
      maxByteSize, pruned := 0, 0;
      while k < |contexts|
        invariant k <= |contexts| && pruned == k
        invariant k > 0 ==> !input.isShape && !taken
        invariant PrunedUpTo(k, contexts, before, input, batching)
        invariant |before| == |contexts| == |calls|
        invariant k > 0 ==> Agrees(input, batching)
        invariant forall i :: 0 <= i < k ==>
          calls[i].setsFormat && calls[i].trtAccepts && Supports(before[i], input, batching)
        invariant IsMaximum(maxByteSize, sizes[..k])
      {
        if input.isShape {
          outcome := Skipped;
          return;
        }
        if taken {
          outcome := Rejected;
          return;
        }
        var agrees := CheckInput(input, calls[k].setsFormat);
        if !agrees {
          outcome := Rejected;
          return;
        }
        var configured, byteSize;
        var full := input.(dims := FullConfigDims(input.declared, maxBatchSize));
        configured, byteSize, pruned := SizeForProfile(k, full, calls[k].trtAccepts, before, sizes);
        if !configured {
          outcome := Rejected;
          return;
        }
        MaximumOfMore(maxByteSize, sizes, k);
        maxByteSize := Larger(maxByteSize, byteSize);
        k := k + 1;
      }
      assert sizes[..k] == sizes;
      outcome := Complete;
    }

    /**
     Prunes every profile for this input and allocates for the largest; an input that is
     a shape tensor, or a state already allocated, needs no buffer here.
     */
    method InitializeExecuteInputBinding(set_: nat, input: InputConfig, foreign: Foreign)
      returns (ok: bool, maxByteSize: int)
      requires set_ < |bufferSets| && |contexts| > 0 && |foreign.profiles| == |contexts|
      requires ValidInput(input) && AllDescribe(contexts, input.io) && IsDeclared(input, maxBatchSize)
      modifies this`contexts, this`bufferSets
      ensures Untouched(old(bufferSets), set_, input) || !foreign.nameKnown ==>
        contexts == old(contexts) && bufferSets == old(bufferSets)
      ensures Refused(old(bufferSets), set_, input) ==> !ok && contexts == old(contexts)
      ensures ok <==> foreign.nameKnown && (Untouched(old(bufferSets), set_, input)
                        || (!Refused(old(bufferSets), set_, input) && foreign.allocates
                            && Succeeds(old(contexts), foreign.profiles, input, batching)))
      ensures !ok ==>
        bufferSets == old(bufferSets) && exists k :: PrunedUpTo(k, contexts, old(contexts), input, batching)
      ensures ok && !Untouched(old(bufferSets), set_, input) ==>
        && !Refused(old(bufferSets), set_, input)
        && AllPruned(contexts, old(contexts), input, batching)
        && Sized(contexts, Binding(input, maxByteSize), batching)
        && bufferSets == old(bufferSets)[set_ := old(bufferSets)[set_][input.io := Binding(input, maxByteSize)]]
    {
      if !foreign.nameKnown {
        assert PrunedUpTo(0, contexts, old(contexts), input, batching);
        return false, 0;
      }
      if input.io in bufferSets[set_] && input.isState {
        return true, 0;
      }
      var outcome;
      ghost var sizes, pruned := PrunedSizes(contexts, input, batching), 0;
      outcome, maxByteSize, pruned := PruneProfiles(input.io in bufferSets[set_], input, foreign.profiles, sizes);
      match outcome {
        case Skipped =>
          ok := true;
        case Rejected =>
          ok := false;
        case Complete =>
          if !foreign.allocates {
            return false, 0;
          }
          ProfilesPruned(contexts, old(contexts), sizes, input, batching);
          bufferSets := bufferSets[set_ := bufferSets[set_][input.io := Binding(input, maxByteSize)]];
          ok := true;
      }
    }

    /**
     The input part of InitIOBindingBuffers: every buffer set goes through all inputs, and so
     the profiles are pruned once more for the second set. Each set ends up with the same
     sizes, and every buffer of it has room for whatever SetBindingDimensions lets through.
     */
    method InitIOBindingBuffers(inputs: seq<InputConfig>, foreign: seq<seq<Foreign>>) returns (ok: bool)
      requires |contexts| > 0 && Known(contexts, inputs) && |foreign| == |bufferSets|
      requires forall s :: 0 <= s < |foreign| ==> CallsFor(foreign[s], |inputs|, |contexts|)
      requires AllDeclared(inputs, maxBatchSize)
      requires forall s :: 0 <= s < |bufferSets| ==> bufferSets[s] == map[]
      modifies this`contexts, this`bufferSets
      ensures |bufferSets| == old(|bufferSets|)
      ensures ok ==> forall s :: 0 <= s < |bufferSets| ==> SetUp(contexts, bufferSets[s], inputs, |inputs|, batching)
      ensures ok ==> forall s :: 0 <= s < |bufferSets| ==>
        bufferSets[s] == bufferSets[0] && HaveRoom(contexts, bufferSets[s], batching)
    {
      var s := 0;
      while s < |bufferSets|
        invariant |bufferSets| == old(|bufferSets|) && |contexts| == old(|contexts|)
        invariant SetUpTo(contexts, bufferSets, inputs, s, 0, batching)
      {
        ok := BindInputs(s, inputs, foreign[s]);
        if !ok {
          return;
        }
        s := s + 1;
      }
      SetsAreReady(contexts, bufferSets, inputs, batching);
      ok := true;
    }

    /** The turn of one buffer set. */
    method BindInputs(s: nat, inputs: seq<InputConfig>, foreign: seq<Foreign>) returns (ok: bool)
      requires s < |bufferSets| && SetUpTo(contexts, bufferSets, inputs, s, 0, batching)
      requires CallsFor(foreign, |inputs|, |contexts|) && AllDeclared(inputs, maxBatchSize)
      modifies this`contexts, this`bufferSets
      ensures |bufferSets| == old(|bufferSets|) && |contexts| == old(|contexts|)
      ensures ok ==> SetUpTo(contexts, bufferSets, inputs, s + 1, 0, batching)
    {
      var j := 0;
      while j < |inputs|
        invariant s < |bufferSets| == old(|bufferSets|) && |contexts| == old(|contexts|)
        invariant SetUpTo(contexts, bufferSets, inputs, s, j, batching)
      {
        ok := BindInput(s, inputs, j, foreign[j]);
        if !ok {
          return;
        }
        j := j + 1;
      }
      ok := true;
    }

    /** One call of InitializeExecuteInputBinding, seen from the loops around it. */
    method BindInput(s: nat, inputs: seq<InputConfig>, j: nat, foreign: Foreign) returns (ok: bool)
      requires s < |bufferSets| && j < |inputs| && |foreign.profiles| == |contexts|
      requires AllDeclared(inputs, maxBatchSize)
      requires SetUpTo(contexts, bufferSets, inputs, s, j, batching)
      modifies this`contexts, this`bufferSets
      ensures |bufferSets| == old(|bufferSets|) && |contexts| == old(|contexts|)
      ensures ok ==> SetUpTo(contexts, bufferSets, inputs, s, j + 1, batching)
    {
      ghost var before, buffersBefore := contexts, bufferSets;
      var size;
      ok, size := InitializeExecuteInputBinding(s, inputs[j], foreign);
      if ok && !Untouched(buffersBefore, s, inputs[j]) {
        PruningKeepsKnown(contexts, before, inputs[j], inputs, batching);
        forall t | 0 <= t < |bufferSets|
          ensures SetUp(contexts, buffersBefore[t], inputs,
                        if t < s then |inputs| else if t == s then j else 0, batching)
        {
          PruningKeepsSetUp(contexts, before, inputs, j, buffersBefore[t],
                            if t < s then |inputs| else if t == s then j else 0, batching);
        }
        OneMoreSetUp(contexts, buffersBefore[s], inputs, j, size, batching);
      }
    }
  }

  /** No buffer is needed for this input. */
  predicate Untouched(bufferSets: seq<BufferSet>, set_: nat, input: InputConfig)
    requires set_ < |bufferSets|
  {
    input.isShape || (input.io in bufferSets[set_] && input.isState)
  }

  /** The tensor already has a buffer, and not as a state. */
  predicate Refused(bufferSets: seq<BufferSet>, set_: nat, input: InputConfig)
    requires set_ < |bufferSets|
  {
    input.io in bufferSets[set_] && !input.isShape && !input.isState
  }
}
