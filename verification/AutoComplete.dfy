/**
 The dimensions that auto-completion writes into the configuration, and the checks that the
 instances make against the engine when they load (src/model_state.cc:821-856,
 src/tensorrt_utils.cc:192-311, src/instance_state.cc:2062-2080).
 */
module AutoComplete {
  import opened Options
  import opened Shapes

  /** An input or output in the model configuration. */
  datatype IOConfig = IOConfig(dims: seq<int>, reshape: Option<seq<int>>) {
    /** The shape the instances look at. */
    function Shape(): seq<int> {
      if reshape.Some? then reshape.value else dims
    }
  }

  /** Dims must not be empty, and so an empty shape becomes a reshape of [1]. */
  method InitIODims(dims: Dims, isShapeTensor: bool, maxBatchSize: nat) returns (io: IOConfig)
    ensures io.Shape() == Completed(dims, isShapeTensor, maxBatchSize)
    ensures io.dims == [] <==> isShapeTensor && dims.nbDims == 0
    ensures io.reshape.Some? <==> !isShapeTensor && dims.nbDims <= if maxBatchSize != 0 then 1 else 0
    ensures io.reshape.Some? ==> io.dims == [1]
  {
    var skipFirst := maxBatchSize != 0;
    var configDims := [];
    var reshape := None;
    if !isShapeTensor {
      var first := if skipFirst then 1 else 0;
      var didx := first;
      while didx < dims.nbDims
        invariant first <= didx && (didx <= dims.nbDims || didx == first)
        invariant configDims == if didx <= dims.nbDims then dims.d[first..didx] else []
      {
        assert dims.d[first..didx + 1] == dims.d[first..didx] + [dims.d[didx]];
        configDims := configDims + [dims.d[didx]];
        didx := didx + 1;
      }
      if |configDims| == 0 {
        configDims := configDims + [1];
        reshape := Some([]);
      }
    } else if dims.nbDims != 0 {
      configDims := [if skipFirst then dims.d[0] - 1 else dims.d[0]];
    }
    io := IOConfig(configDims, reshape);
  }

  /** The shape that auto-completion gives to a tensor of the engine. */
  function Completed(dims: Dims, isShapeTensor: bool, maxBatchSize: nat): seq<int> {
    var batch := if maxBatchSize != 0 then 1 else 0;
    if dims.nbDims < batch then []
    else if !isShapeTensor then dims.d[batch..dims.nbDims]
    else if dims.nbDims == 0 then []
    else [dims.d[0] - batch]
  }

  /** Dimensions agree, or one of them is a wildcard and the comparison is not exact. */
  predicate SameDim(modelDim: int, dim: int, exact: bool) {
    modelDim == dim || (!exact && (modelDim == WILDCARD_DIM || dim == WILDCARD_DIM))
  }

  predicate SameShape(model: Dims, shape: seq<int>, exact: bool) {
    model.nbDims == |shape| && forall i :: 0 <= i < |shape| ==> SameDim(model.d[i], shape[i], exact)
  }

  /** Shapes agree up to wildcards exactly if some shape without wildcards is an instance of both. */
  lemma AgreeMeansCommonInstance(model: Dims, shape: seq<int>)
    ensures SameShape(model, shape, false) <==>
      exists instance :: IsInstance(instance, Vector(model)) && IsInstance(instance, shape)
  {
    if SameShape(model, shape, false) {
      var instance := seq(|shape|, i requires 0 <= i < |shape| =>
        if model.d[i] != WILDCARD_DIM then model.d[i] else if shape[i] != WILDCARD_DIM then shape[i] else 1);
      assert IsInstance(instance, Vector(model)) && IsInstance(instance, shape);
    }
    if instance :| IsInstance(instance, Vector(model)) && IsInstance(instance, shape) {
      forall i | 0 <= i < |shape|
        ensures SameDim(model.d[i], shape[i], false)
      {
        assert Vector(model)[i] == model.d[i];
      }
    }
  }

  predicate IsInstance(instance: seq<int>, shape: seq<int>) {
    && |instance| == |shape|
    && forall i :: 0 <= i < |shape| ==>
         instance[i] != WILDCARD_DIM && (shape[i] == WILDCARD_DIM || shape[i] == instance[i])
  }

  method CompareShape(model: Dims, shape: seq<int>, exact: bool) returns (succ: bool)
    ensures succ <==> SameShape(model, shape, exact)
  {
    succ := model.nbDims == |shape|;
    if succ {
      var i := 0;
      while i < |shape|
        invariant i <= |shape|
        invariant succ <==> forall k :: 0 <= k < i ==> SameDim(model.d[k], shape[k], exact)
      {
        if exact || (model.d[i] != WILDCARD_DIM && shape[i] != WILDCARD_DIM) {
          succ := succ && model.d[i] == shape[i];
        }
        i := i + 1;
      }
    }
  }

  predicate DimsSupported(model: Dims, shape: seq<int>, batching: bool, exact: bool) {
    if batching then model.nbDims != 0 && SameShape(model, [WILDCARD_DIM] + shape, exact)
    else SameShape(model, shape, exact)
  }

  method CompareDimsSupported(model: Dims, shape: seq<int>, batching: bool, exact: bool) returns (ok: bool)
    ensures ok <==> DimsSupported(model, shape, batching, exact)
  {
    if batching {
      if model.nbDims == 0 {
        return false;
      }
      ok := CompareShape(model, [WILDCARD_DIM] + shape, exact);
    } else {
      ok := CompareShape(model, shape, exact);
    }
  }

  predicate ShapeDimsSupported(model: Dims, shape: seq<int>, batching: bool) {
    && |shape| == model.nbDims <= 1
    && (model.nbDims == 1 ==> shape[0] + (if batching then 1 else 0) == model.d[0] && shape[0] != WILDCARD_DIM)
  }

  method CompareShapeDimsSupported(model: Dims, shape: seq<int>, batching: bool) returns (ok: bool)
    ensures ok <==> ShapeDimsSupported(model, shape, batching)
  {
    var batchOffset := if batching then 1 else 0;
    ok := true;
    if |shape| != model.nbDims {
      ok := false;
    } else if model.nbDims == 1 {
      if shape[0] + batchOffset != model.d[0] || shape[0] == WILDCARD_DIM {
        ok := false;
      }
    } else if model.nbDims > 1 {
      ok := false;
    }
  }

  /**
   What was completed for an execution tensor loads, except for a tensor without dimensions
   in a model with batching; an exact comparison also asks for an open batch dimension.
   */
  lemma ExecutionTensorRoundTrip(model: Dims, maxBatchSize: nat, exact: bool)
    ensures DimsSupported(model, Completed(model, false, maxBatchSize), maxBatchSize > 0, exact)
       <==> (maxBatchSize > 0 ==> model.nbDims > 0 && (exact ==> model.d[0] == WILDCARD_DIM))
  {
  }

  /** Conversely, an exact comparison accepts nothing but what would be completed. */
  lemma ExactAcceptsOnlyCompleted(model: Dims, shape: seq<int>, maxBatchSize: nat)
    requires DimsSupported(model, shape, maxBatchSize > 0, true)
    ensures shape == Completed(model, false, maxBatchSize)
  {
  }

  /**
   What was completed for a shape tensor loads exactly if the tensor has no dimensions, or one
   that is not 0 with batching and not open without.
   */
  lemma ShapeTensorRoundTrip(model: Dims, maxBatchSize: nat)
    ensures ShapeDimsSupported(model, Completed(model, true, maxBatchSize), maxBatchSize > 0)
       <==> model.nbDims == 0 || (model.nbDims == 1 && model.d[0] != if maxBatchSize > 0 then 0 else WILDCARD_DIM)
  {
  }

  lemma ShapeAcceptsOnlyCompleted(model: Dims, shape: seq<int>, maxBatchSize: nat)
    requires ShapeDimsSupported(model, shape, maxBatchSize > 0)
    ensures shape == Completed(model, true, maxBatchSize)
  {
  }
}
