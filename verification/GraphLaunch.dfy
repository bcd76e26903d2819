/**
 From the lookup to the launch of a graph: the dims of an inexact one are checked like the shapes
 of a request, and so it reads no further than the buffers go (src/instance_state.cc:817-892).
 */
module GraphLaunch {
  import opened Options
  import opened Shapes
  import opened Buffers
  import opened GraphIndex
  import opened GraphSpecs
  import opened GraphStores
  import opened Pipeline

  predicate AllDescribed(context: TensorRTContext, configs: seq<InputConfig>) {
    forall k :: 0 <= k < |configs| ==> ValidInput(configs[k]) && Describes(context, configs[k].io)
  }

  /** SetBindingDimensions accepts the dims of every input. */
  predicate AllAccepted(dims: seq<seq<int>>, context: TensorRTContext, configs: seq<InputConfig>)
    requires AllDescribed(context, configs)
  {
    |dims| == |configs| && forall k :: 0 <= k < |dims| ==>
      Accepted(dims[k], context.minDims[configs[k].io], context.maxDims[configs[k].io])
  }

  /** Dims within int are in the buffers allocated for the inputs, padded or not. */
  predicate WithinBuffers(dims: seq<seq<int>>, configs: seq<InputConfig>, sizes: seq<int>) {
    |dims| == |configs| == |sizes| && forall k :: 0 <= k < |dims| && FitsInt32(dims[k]) ==>
      && FormatFor(configs[k].format, |dims[k]|)
      && ByteSize(dims[k], Linear, configs[k].elementSize) <= sizes[k]
      && ByteSize(dims[k], configs[k].format, configs[k].elementSize) <= sizes[k]
  }

  /** The buffers of these inputs were set up over these profiles. */
  ghost predicate BuffersSuffice(contexts: seq<TensorRTContext>, configs: seq<InputConfig>, sizes: seq<int>) {
    |sizes| == |configs| && forall k :: 0 <= k < |configs| ==>
      && ValidInput(configs[k]) && AllDescribe(contexts, configs[k].io) && RanksAgree(contexts, configs[k])
      && Suffices(sizes[k], contexts, configs[k])
  }

  lemma AcceptedWithinBuffers(dims: seq<seq<int>>, contexts: seq<TensorRTContext>, i: nat, configs: seq<InputConfig>,
                              sizes: seq<int>)
    requires BuffersSuffice(contexts, configs, sizes) && i < |contexts| && AllDescribed(contexts[i], configs)
    requires AllAccepted(dims, contexts[i], configs)
    ensures WithinBuffers(dims, configs, sizes)
  {
    forall k | 0 <= k < |dims| && FitsInt32(dims[k])
      ensures FormatFor(configs[k].format, |dims[k]|)
      ensures ByteSize(dims[k], Linear, configs[k].elementSize) <= sizes[k]
      ensures ByteSize(dims[k], configs[k].format, configs[k].elementSize) <= sizes[k]
    {
      assert Accepted(dims[k], contexts[i].minDims[configs[k].io], contexts[i].maxDims[configs[k].io]);
    }
  }

  /** The loop over the inputs for a graph that is not exact; before is the Dims on the stack. */
  method CheckGraphDims(dims: seq<seq<int>>, context: TensorRTContext, configs: seq<InputConfig>, before: Dims)
    returns (ok: bool)
    requires AllDescribed(context, configs) && |dims| == |configs|
    ensures ok <==> AllAccepted(dims, context, configs)
  {
    var inputIdx := 0;
    while inputIdx < |configs|
      invariant inputIdx <= |configs|
      invariant forall k :: 0 <= k < inputIdx ==>
        Accepted(dims[k], context.minDims[configs[k].io], context.maxDims[configs[k].io])
    {
      var io := configs[inputIdx].io;
      var accepted := SetBindingDimensions(dims[inputIdx], before, context.minDims[io], context.maxDims[io]);
      if !accepted {
        return false;
      }
      inputIdx := inputIdx + 1;
    }
    ok := true;
  }

  /**
   The graph to launch for an execution whose shapes the chosen profile i has accepted: the exact
   one, or else, if allowed, the least that covers, or else none, and the execution is enqueued.
   The batch fails exactly if the graph is not exact and the profile does not accept its dims.
   Unless it fails, the graph holds every input of the execution and stays in the buffers.
   */
  method GraphToLaunch(store: GraphStore, nextSet: nat, total: nat, shapes: seq<seq<int>>, allowInexactMatch: bool,
                       context: TensorRTContext, configs: seq<InputConfig>, before: Dims,
                       ghost contexts: seq<TensorRTContext>, ghost i: nat, ghost sizes: seq<int>,
                       ghost inputs: seq<Input>, ghost builds: seq<Build>, ghost maxBatchSize: nat,
                       ghost bufferSets: nat)
    returns (graph: Option<CudaGraph>, failed: bool)
    requires nextSet < EVENT_SET_COUNT && bufferSets > 0 && (maxBatchSize > 0 || total == 1)
    requires AllValid(inputs, builds, maxBatchSize) && (maxBatchSize > 0 ==> OfRanks(inputs, builds, shapes))
    requires store.Holds(inputs, builds, maxBatchSize, bufferSets)
    requires BuffersSuffice(contexts, configs, sizes) && i < |contexts| && contexts[i] == context
    requires |inputs| == |configs| && AllDescribed(context, configs) && AllAccepted(shapes, context, configs)
    ensures var (index, key) := (store.cudaGraphExecs[nextSet], Pack(total, shapes));
            && (graph.Some? <==> HasExact(index, key) || (allowInexactMatch && HasCover(index, key)))
            && (graph.Some? ==>
                  exists entry :: IsFound(index, key, allowInexactMatch, entry) && graph.value == entry.graph)
            && (failed <==>
                  graph.Some? && !HasExact(index, key) && !AllAccepted(graph.value.inputDims, context, configs))
    ensures graph.Some? ==>
      |graph.value.inputDims| == |shapes| && graph.value.capturedBuffer == nextSet % bufferSets
    ensures graph.Some? && !failed ==>
      && AllAccepted(graph.value.inputDims, context, configs) && BelowEach(shapes, graph.value.inputDims)
      && WithinBuffers(graph.value.inputDims, configs, sizes)
  {
    var foundExact;
    graph, foundExact := store.Lookup(nextSet, total, shapes, allowInexactMatch, false,
                                      inputs, builds, maxBatchSize, bufferSets);
    failed := false;
    if graph.Some? {
      if !foundExact {
        var accepted := CheckGraphDims(graph.value.inputDims, context, configs, before);
        failed := !accepted;
      }
      if !failed {
        AcceptedWithinBuffers(graph.value.inputDims, contexts, i, configs, sizes);
      }
    }
  }
}
