/**
 What the entries of the graph index are made of: validated graph specs, the keys packed
 from them and the range of executions that they cover (src/instance_state.cc:3391-3457
 and 3622-3704).
 */
module GraphSpecs {
  import opened Options
  import opened GraphIndex

  /** Shapes by input name; a spec made by default has none. */
  datatype GraphSpec = GraphSpec(
    batchSize: int, shapes: map<string, seq<int>>,
    lowerBoundBatchSize: int, lowerBoundShapes: map<string, seq<int>>
  )

  /** An input tensor of the engine; `ownShape` if its buffer is ragged or it is a batch input. */
  datatype Input = Input(name: string, ownShape: bool, optDims: seq<int>)

  predicate ValidGraphSpec(spec: GraphSpec, maxBatchSize: nat) {
    && (if maxBatchSize == 0 then spec.batchSize == 0 && spec.lowerBoundBatchSize == 0
        else 1 <= spec.batchSize <= maxBatchSize && 1 <= spec.lowerBoundBatchSize <= maxBatchSize)
    && spec.lowerBoundBatchSize <= spec.batchSize
    && forall name :: name in spec.shapes ==>
         name in spec.lowerBoundShapes && ValidBounds(spec.lowerBoundShapes[name], spec.shapes[name])
  }

  predicate ValidBounds(lower: seq<int>, upper: seq<int>) {
    |lower| == |upper| && forall k :: 0 <= k < |upper| ==> 0 <= lower[k] <= upper[k]
  }

  /** The checks on one input of a spec that names it. */
  method ValidateBounds(lower: seq<int>, upper: seq<int>) returns (ok: bool)
    ensures ok <==> ValidBounds(lower, upper)
  {
    if |lower| != |upper| {
      return false;
    }
    var idx := 0;
    while idx < |upper|
      invariant idx <= |upper| && forall k :: 0 <= k < idx ==> 0 <= lower[k] <= upper[k]
    {
      if lower[idx] < 0 || upper[idx] < 0 || lower[idx] > upper[idx] {
        return false;
      }
      idx := idx + 1;
    }
    ok := true;
  }

  method ValidateGraphSpec(spec: GraphSpec, maxBatchSize: nat) returns (ok: bool)
    ensures ok <==> ValidGraphSpec(spec, maxBatchSize)
  {
    if maxBatchSize == 0 {
      if spec.batchSize != 0 || spec.lowerBoundBatchSize != 0 {
        return false;
      }
    } else if spec.batchSize > maxBatchSize || spec.batchSize < 1
              || spec.lowerBoundBatchSize > maxBatchSize || spec.lowerBoundBatchSize < 1 {
      return false;
    }
    if spec.lowerBoundBatchSize > spec.batchSize {
      return false;
    }
    var names := spec.shapes.Keys;
    while names != {}
      invariant names <= spec.shapes.Keys
      invariant forall name :: name in spec.shapes && name !in names ==>
        name in spec.lowerBoundShapes && ValidBounds(spec.lowerBoundShapes[name], spec.shapes[name])
      decreases |names|
    {
      var name :| name in names;
      if name !in spec.lowerBoundShapes {
        return false;
      }
      var valid := ValidateBounds(spec.lowerBoundShapes[name], spec.shapes[name]);
      if !valid {
        return false;
      }
      names := names - {name};
    }
    ok := true;
  }

  // ----- Packed keys -----

  function Flatten(shapes: seq<seq<int>>): Key {
    if shapes == [] then [] else Flatten(shapes[..|shapes| - 1]) + shapes[|shapes| - 1]
  }

  /** The batch size followed by the dimensions of each input: the key of an execution or of a graph. */
  function Pack(batchSize: int, shapes: seq<seq<int>>): Key {
    [batchSize] + Flatten(shapes)
  }

  /** The shapes of two executions have the same rank, input by input. */
  predicate SameRanks(a: seq<seq<int>>, b: seq<seq<int>>) {
    |a| == |b| && forall i :: 0 <= i < |a| ==> |a[i]| == |b[i]|
  }

  predicate BelowEach(a: seq<seq<int>>, b: seq<seq<int>>) {
    |a| == |b| && forall i :: 0 <= i < |a| ==> Below(a[i], b[i])
  }

  lemma AppendBelow(a: Key, b: Key, c: Key, d: Key)
    requires |a| == |b|
    ensures Below(a + c, b + d) <==> Below(a, b) && Below(c, d)
  {
    if Below(a + c, b + d) {
      assert forall i :: 0 <= i < |a| ==> a[i] == (a + c)[i] && b[i] == (b + d)[i];
      assert forall i :: 0 <= i < |c| ==> c[i] == (a + c)[|a| + i] && d[i] == (b + d)[|b| + i];
    }
  }

  lemma {:induction false} FlattenBelow(a: seq<seq<int>>, b: seq<seq<int>>)
    requires SameRanks(a, b)
    ensures |Flatten(a)| == |Flatten(b)|
    ensures Below(Flatten(a), Flatten(b)) <==> BelowEach(a, b)
  {
    if a != [] {
      var last := |a| - 1;
      FlattenBelow(a[..last], b[..last]);
      AppendBelow(Flatten(a[..last]), Flatten(b[..last]), a[last], b[last]);
      assert BelowEach(a, b) <==> BelowEach(a[..last], b[..last]) && Below(a[last], b[last]);
    }
  }

  /** With the ranks fixed, one packed key is pointwise below another exactly when batch size and every input are. */
  lemma PackBelow(m: int, a: seq<seq<int>>, n: int, b: seq<seq<int>>)
    requires SameRanks(a, b)
    ensures |Pack(m, a)| == |Pack(n, b)|
    ensures Below(Pack(m, a), Pack(n, b)) <==> m <= n && BelowEach(a, b)
  {
    FlattenBelow(a, b);
    AppendBelow([m], [n], Flatten(a), Flatten(b));
    assert Below([m], [n]) <==> m <= n by {
      assert [m][0] == m && [n][0] == n;
    }
  }

  lemma BelowBoth(a: Key, b: Key)
    requires Below(a, b) && Below(b, a)
    ensures a == b
  {
  }

  /** With the ranks fixed, packing is injective: equal keys mean the same batch size and the same shapes. */
  lemma PackInjective(m: int, a: seq<seq<int>>, n: int, b: seq<seq<int>>)
    requires SameRanks(a, b) && Pack(m, a) == Pack(n, b)
    ensures m == n && a == b
  {
    assert Below(Pack(m, a), Pack(n, b)) && Below(Pack(n, b), Pack(m, a));
    PackBelow(m, a, n, b);
    PackBelow(n, b, m, a);
    forall i | 0 <= i < |a|
      ensures a[i] == b[i]
    {
      BelowBoth(a[i], b[i]);
    }
  }

  // ----- SetCudaGraphShape -----

  /** Lines 3643-3678 for one input; None if the spec does not name it. */
  function GraphShape(input: Input, spec: GraphSpec): Option<seq<int>> {
    if spec.shapes == map[] then
      Some(if spec.batchSize != 0 && input.optDims != [] then input.optDims[0 := spec.batchSize] else input.optDims)
    else if input.name !in spec.shapes then None
    else if input.ownShape || spec.batchSize == 0 then Some(spec.shapes[input.name])
    else Some([spec.batchSize] + spec.shapes[input.name])
  }

  function LowerBatch(spec: GraphSpec): int {
    if spec.lowerBoundBatchSize == 0 then 1 else spec.lowerBoundBatchSize
  }

  /** What the same input adds to the lower bound key. */
  function LowerShape(input: Input, spec: GraphSpec, maxBatchSize: nat): seq<int>
    requires ValidGraphSpec(spec, maxBatchSize) && GraphShape(input, spec).Some?
  {
    if spec.shapes == map[] then GraphShape(input, spec).value
    else if input.ownShape then spec.lowerBoundShapes[input.name]
    else [LowerBatch(spec)] + spec.lowerBoundShapes[input.name]
  }

  predicate Nameable(inputs: seq<Input>, spec: GraphSpec) {
    forall i :: 0 <= i < |inputs| ==> GraphShape(inputs[i], spec).Some?
  }

  function GraphShapes(inputs: seq<Input>, spec: GraphSpec): seq<seq<int>>
    requires Nameable(inputs, spec)
  {
    seq(|inputs|, i requires 0 <= i < |inputs| => GraphShape(inputs[i], spec).value)
  }

  function LowerShapes(inputs: seq<Input>, spec: GraphSpec, maxBatchSize: nat): seq<seq<int>>
    requires ValidGraphSpec(spec, maxBatchSize) && Nameable(inputs, spec)
  {
    seq(|inputs|, i requires 0 <= i < |inputs| => LowerShape(inputs[i], spec, maxBatchSize))
  }

  /** The entry for an accepted spec, without the graph that is still to be captured. */
  function SpecEntry(inputs: seq<Input>, spec: GraphSpec, maxBatchSize: nat, buffer: nat): Entry
    requires ValidGraphSpec(spec, maxBatchSize) && Nameable(inputs, spec)
  {
    Entry(Pack(spec.batchSize, GraphShapes(inputs, spec)),
          CudaGraph(Pack(LowerBatch(spec), LowerShapes(inputs, spec, maxBatchSize)), GraphShapes(inputs, spec), buffer))
  }

  /** What the loop has packed after i inputs, None if it did not get past them. */
  function EntryUpTo(inputs: seq<Input>, spec: GraphSpec, maxBatchSize: nat, shapeAccepted: seq<bool>, i: nat)
    : Option<Entry>
    requires ValidGraphSpec(spec, maxBatchSize) && i <= |inputs| == |shapeAccepted|
  {
    if i == 0 then Some(Entry([spec.batchSize], CudaGraph([LowerBatch(spec)], [], 0)))
    else
      match EntryUpTo(inputs, spec, maxBatchSize, shapeAccepted, i - 1)
      case None => None
      case Some(entry) =>
        var shape := GraphShape(inputs[i - 1], spec);
        if shape.None? || !shapeAccepted[i - 1] then None
        else Some(WithInput(entry, shape.value, LowerShape(inputs[i - 1], spec, maxBatchSize)))
  }

  function WithInput(entry: Entry, shape: seq<int>, lower: seq<int>): Entry {
    Entry(entry.key + shape, CudaGraph(entry.graph.lowerBoundKey + lower, entry.graph.inputDims + [shape], 0))
  }

  lemma {:induction false} EntryStays(inputs: seq<Input>, spec: GraphSpec, maxBatchSize: nat, shapeAccepted: seq<bool>,
                                      i: nat, j: nat)
    requires ValidGraphSpec(spec, maxBatchSize) && i <= j <= |inputs| == |shapeAccepted|
    ensures EntryUpTo(inputs, spec, maxBatchSize, shapeAccepted, i).None? ==>
      EntryUpTo(inputs, spec, maxBatchSize, shapeAccepted, j).None?
  {
    if i < j {
      EntryStays(inputs, spec, maxBatchSize, shapeAccepted, i, j - 1);
    }
  }

  lemma {:induction false} EntryMade(inputs: seq<Input>, spec: GraphSpec, maxBatchSize: nat,
                                     shapeAccepted: seq<bool>, i: nat)
    requires ValidGraphSpec(spec, maxBatchSize) && i <= |inputs| == |shapeAccepted|
    ensures EntryUpTo(inputs, spec, maxBatchSize, shapeAccepted, i).Some? <==>
              forall k :: 0 <= k < i ==> GraphShape(inputs[k], spec).Some? && shapeAccepted[k]
  {
    if i > 0 {
      EntryMade(inputs, spec, maxBatchSize, shapeAccepted, i - 1);
    }
  }

  lemma {:induction false} EntryIsOfSpec(inputs: seq<Input>, spec: GraphSpec, maxBatchSize: nat,
                                         shapeAccepted: seq<bool>, i: nat)
    requires ValidGraphSpec(spec, maxBatchSize) && i <= |inputs| == |shapeAccepted| && Nameable(inputs, spec)
    requires EntryUpTo(inputs, spec, maxBatchSize, shapeAccepted, i).Some?
    ensures EntryUpTo(inputs, spec, maxBatchSize, shapeAccepted, i).value
         == SpecEntry(inputs[..i], spec, maxBatchSize, 0)
  {
    if i > 0 {
      EntryIsOfSpec(inputs, spec, maxBatchSize, shapeAccepted, i - 1);
      EntryNext(inputs, spec, maxBatchSize, i - 1);
    }
  }

  /** One more input adds its shapes to the entry. */
  lemma EntryNext(inputs: seq<Input>, spec: GraphSpec, maxBatchSize: nat, i: nat)
    requires ValidGraphSpec(spec, maxBatchSize) && i < |inputs| && Nameable(inputs, spec)
    ensures var shape, lower := GraphShape(inputs[i], spec).value, LowerShape(inputs[i], spec, maxBatchSize);
            SpecEntry(inputs[..i + 1], spec, maxBatchSize, 0)
            == WithInput(SpecEntry(inputs[..i], spec, maxBatchSize, 0), shape, lower)
  {
    var shape, lower := GraphShape(inputs[i], spec).value, LowerShape(inputs[i], spec, maxBatchSize);
    assert GraphShapes(inputs[..i + 1], spec) == GraphShapes(inputs[..i], spec) + [shape];
    assert LowerShapes(inputs[..i + 1], spec, maxBatchSize) == LowerShapes(inputs[..i], spec, maxBatchSize) + [lower];
    PackNext(spec.batchSize, GraphShapes(inputs[..i], spec), shape);
    PackNext(LowerBatch(spec), LowerShapes(inputs[..i], spec, maxBatchSize), lower);
  }

  lemma PackNext(batchSize: int, shapes: seq<seq<int>>, shape: seq<int>)
    ensures Pack(batchSize, []) == [batchSize]
    ensures Pack(batchSize, shapes + [shape]) == Pack(batchSize, shapes) + shape
  {
  }

  /** SetCudaGraphShape; `shapeAccepted` is what setInputShape returns for each input. */
  method SetCudaGraphShape(inputs: seq<Input>, spec: GraphSpec, maxBatchSize: nat, shapeAccepted: seq<bool>)
    returns (entry: Option<Entry>)
    requires ValidGraphSpec(spec, maxBatchSize) && |shapeAccepted| == |inputs|
    ensures entry.Some? <==> Nameable(inputs, spec) && forall i :: 0 <= i < |inputs| ==> shapeAccepted[i]
    ensures entry.Some? ==> entry.value == SpecEntry(inputs, spec, maxBatchSize, 0)
  {
    entry := MakeEntry(inputs, spec, maxBatchSize, shapeAccepted);
    EntryMade(inputs, spec, maxBatchSize, shapeAccepted, |inputs|);
    if entry.Some? {
      EntryIsOfSpec(inputs, spec, maxBatchSize, shapeAccepted, |inputs|);
      assert inputs[..|inputs|] == inputs;
    }
  }

  /** The loop over the inputs. */
  method MakeEntry(inputs: seq<Input>, spec: GraphSpec, maxBatchSize: nat, shapeAccepted: seq<bool>)
    returns (entry: Option<Entry>)
    requires ValidGraphSpec(spec, maxBatchSize) && |shapeAccepted| == |inputs|
    ensures entry == EntryUpTo(inputs, spec, maxBatchSize, shapeAccepted, |inputs|)
  {
    var cudaGraphKey, lowerBoundKey := [spec.batchSize], [LowerBatch(spec)];
    var inputDims: seq<seq<int>> := [];
    var i := 0;
    while i < |inputs|
      invariant i <= |inputs|
      invariant EntryUpTo(inputs, spec, maxBatchSize, shapeAccepted, i)
             == Some(Entry(cudaGraphKey, CudaGraph(lowerBoundKey, inputDims, 0)))
    {
      var shape := GraphShape(inputs[i], spec);
      if shape.None? || !shapeAccepted[i] {
        EntryStays(inputs, spec, maxBatchSize, shapeAccepted, i + 1, |inputs|);
        return None;
      }
      cudaGraphKey := cudaGraphKey + shape.value;
      lowerBoundKey := lowerBoundKey + LowerShape(inputs[i], spec, maxBatchSize);
      inputDims := inputDims + [shape.value];
      i := i + 1;
    }
    entry := Some(Entry(cudaGraphKey, CudaGraph(lowerBoundKey, inputDims, 0)));
  }

  /**
   Representation invariant of a captured entry: both keys have the same length, the
   lower bound is pointwise below the key, and the key is the batch size followed by
   the flattened input_dims_. An accepted spec meets it if and only if the model
   supports batching: with a batch size of 0 the key starts with 0 and the lower bound with 1.
   */
  lemma EntryWellFormed(inputs: seq<Input>, spec: GraphSpec, maxBatchSize: nat, buffer: nat)
    requires ValidGraphSpec(spec, maxBatchSize) && Nameable(inputs, spec)
    ensures var e := SpecEntry(inputs, spec, maxBatchSize, buffer);
            && e.key == Pack(spec.batchSize, e.graph.inputDims)
            && (WellFormed(e, |e.key|) <==> maxBatchSize > 0)
  {
    var e := SpecEntry(inputs, spec, maxBatchSize, buffer);
    var shapes, lower := GraphShapes(inputs, spec), LowerShapes(inputs, spec, maxBatchSize);
    if maxBatchSize > 0 {
      forall i | 0 <= i < |inputs|
        ensures Below(lower[i], shapes[i])
      {
      }
      PackBelow(LowerBatch(spec), lower, spec.batchSize, shapes);
    } else {
      assert e.key[0] == 0 && e.graph.lowerBoundKey[0] == 1;
    }
  }

  /**
   For an execution with the same input ranks, a captured graph covers its packed key
   exactly when it covers the batch size and, input by input, every dimension.
   */
  lemma CoversPerInput(inputs: seq<Input>, spec: GraphSpec, maxBatchSize: nat, buffer: nat, total: int,
                       shapes: seq<seq<int>>)
    requires ValidGraphSpec(spec, maxBatchSize) && Nameable(inputs, spec) && maxBatchSize > 0
    requires SameRanks(shapes, GraphShapes(inputs, spec))
    ensures Covers(SpecEntry(inputs, spec, maxBatchSize, buffer), Pack(total, shapes)) <==>
              && spec.lowerBoundBatchSize <= total <= spec.batchSize
              && BelowEach(LowerShapes(inputs, spec, maxBatchSize), shapes)
              && BelowEach(shapes, GraphShapes(inputs, spec))
  {
    var lower := LowerShapes(inputs, spec, maxBatchSize);
    assert SameRanks(lower, shapes);
    PackBelow(LowerBatch(spec), lower, total, shapes);
    PackBelow(total, shapes, spec.batchSize, GraphShapes(inputs, spec));
  }

  // ----- In terms of the spec alone -----

  /** The shapes that an execution packs: the batch size in front, unless the input has a shape of its own. */
  function ExecutionShapes(inputs: seq<Input>, total: int, shapes: seq<seq<int>>): (packed: seq<seq<int>>)
    requires |shapes| == |inputs|
    ensures |packed| == |inputs|
    ensures forall k :: 0 <= k < |inputs| ==>
      packed[k] == if inputs[k].ownShape then shapes[k] else [total] + shapes[k]
  {
    seq(|inputs|, k requires 0 <= k < |inputs| =>
      if inputs[k].ownShape then shapes[k] else [total] + shapes[k])
  }

  /** The spec names all inputs, with the ranks of these shapes. */
  predicate Names(spec: GraphSpec, inputs: seq<Input>, shapes: seq<seq<int>>) {
    && spec.shapes != map[] && |shapes| == |inputs|
    && forall k :: 0 <= k < |inputs| ==>
         inputs[k].name in spec.shapes && |spec.shapes[inputs[k].name]| == |shapes[k]|
  }

  /** Input by input, the dimensions are between the bounds that the spec names. */
  predicate Between(spec: GraphSpec, inputs: seq<Input>, shapes: seq<seq<int>>)
    requires Names(spec, inputs, shapes)
  {
    forall k :: 0 <= k < |inputs| ==>
      && inputs[k].name in spec.lowerBoundShapes
      && Below(spec.lowerBoundShapes[inputs[k].name], shapes[k]) && Below(shapes[k], spec.shapes[inputs[k].name])
  }

  predicate AtUpper(spec: GraphSpec, inputs: seq<Input>, shapes: seq<seq<int>>)
    requires Names(spec, inputs, shapes)
  {
    forall k :: 0 <= k < |inputs| ==> shapes[k] == spec.shapes[inputs[k].name]
  }

  lemma NamedAreBetween(inputs: seq<Input>, spec: GraphSpec, maxBatchSize: nat, total: int, shapes: seq<seq<int>>)
    requires ValidGraphSpec(spec, maxBatchSize) && maxBatchSize > 0 && Names(spec, inputs, shapes)
    ensures Nameable(inputs, spec)
    ensures var packed, upper := ExecutionShapes(inputs, total, shapes), GraphShapes(inputs, spec);
            var lower := LowerShapes(inputs, spec, maxBatchSize);
            && SameRanks(packed, upper)
            && (spec.lowerBoundBatchSize <= total <= spec.batchSize ==>
                 (BelowEach(lower, packed) && BelowEach(packed, upper) <==> Between(spec, inputs, shapes)))
            && (total == spec.batchSize ==> (packed == upper <==> AtUpper(spec, inputs, shapes)))
  {
    var packed, upper := ExecutionShapes(inputs, total, shapes), GraphShapes(inputs, spec);
    var lower := LowerShapes(inputs, spec, maxBatchSize);
    forall k | 0 <= k < |inputs|
      ensures |packed[k]| == |upper[k]|
      ensures spec.lowerBoundBatchSize <= total <= spec.batchSize ==>
        (Below(lower[k], packed[k]) && Below(packed[k], upper[k]) <==>
           Below(spec.lowerBoundShapes[inputs[k].name], shapes[k]) && Below(shapes[k], spec.shapes[inputs[k].name]))
      ensures total == spec.batchSize ==> (packed[k] == upper[k] <==> shapes[k] == spec.shapes[inputs[k].name])
    {
      NamedShapes(inputs, spec, maxBatchSize, total, shapes, k);
    }
  }

  lemma NamedShapes(inputs: seq<Input>, spec: GraphSpec, maxBatchSize: nat, total: int, shapes: seq<seq<int>>, k: nat)
    requires ValidGraphSpec(spec, maxBatchSize) && maxBatchSize > 0 && Names(spec, inputs, shapes) && k < |inputs|
    ensures Nameable(inputs, spec)
    ensures var name, packed := inputs[k].name, ExecutionShapes(inputs, total, shapes)[k];
            var upper, lower := GraphShapes(inputs, spec)[k], LowerShapes(inputs, spec, maxBatchSize)[k];
            && |packed| == |upper|
            && (Below(packed, upper) <==>
                  (inputs[k].ownShape || total <= spec.batchSize) && Below(shapes[k], spec.shapes[name]))
            && (Below(lower, packed) <==>
                  (inputs[k].ownShape || spec.lowerBoundBatchSize <= total)
                  && Below(spec.lowerBoundShapes[name], shapes[k]))
            && (packed == upper <==>
                  (inputs[k].ownShape || total == spec.batchSize) && shapes[k] == spec.shapes[name])
  {
    var name := inputs[k].name;
    HeadBelow(total, shapes[k], spec.batchSize, spec.shapes[name]);
    HeadBelow(spec.lowerBoundBatchSize, spec.lowerBoundShapes[name], total, shapes[k]);
    assert [total] + shapes[k] == [spec.batchSize] + spec.shapes[name] ==>
      ([total] + shapes[k])[1..] == ([spec.batchSize] + spec.shapes[name])[1..];
  }

  lemma HeadBelow(m: int, a: seq<int>, n: int, b: seq<int>)
    requires |a| == |b|
    ensures Below([m] + a, [n] + b) <==> m <= n && Below(a, b)
  {
    AppendBelow([m], [n], a, b);
    assert Below([m], [n]) <==> m <= n by {
      assert [m][0] == m && [n][0] == n;
    }
  }

  /**
   A graph made for a spec with shapes covers exactly the executions whose batch size and
   dimensions are between the bounds of the spec, and is exact for those that are at the upper ones.
   */
  lemma CoversNamedSpec(inputs: seq<Input>, spec: GraphSpec, maxBatchSize: nat, buffer: nat, total: int,
                        shapes: seq<seq<int>>)
    requires ValidGraphSpec(spec, maxBatchSize) && maxBatchSize > 0 && Names(spec, inputs, shapes)
    ensures Nameable(inputs, spec)
    ensures var entry := SpecEntry(inputs, spec, maxBatchSize, buffer);
            var key := Pack(total, ExecutionShapes(inputs, total, shapes));
            && (Covers(entry, key) <==>
                  spec.lowerBoundBatchSize <= total <= spec.batchSize && Between(spec, inputs, shapes))
            && (entry.key == key <==> total == spec.batchSize && AtUpper(spec, inputs, shapes))
  {
    var packed := ExecutionShapes(inputs, total, shapes);
    NamedAreBetween(inputs, spec, maxBatchSize, total, shapes);
    CoversPerInput(inputs, spec, maxBatchSize, buffer, total, packed);
    if SpecEntry(inputs, spec, maxBatchSize, buffer).key == Pack(total, packed) {
      PackInjective(total, packed, spec.batchSize, GraphShapes(inputs, spec));
    }
  }

  /** A graph made by default covers only executions of the optimum shapes of the profile at its batch size. */
  lemma CoversDefaultSpec(inputs: seq<Input>, spec: GraphSpec, maxBatchSize: nat, buffer: nat, total: int,
                          shapes: seq<seq<int>>)
    requires ValidGraphSpec(spec, maxBatchSize) && maxBatchSize > 0 && spec.shapes == map[]
    requires |shapes| == |inputs| && forall k :: 0 <= k < |inputs| ==> |shapes[k]| == |inputs[k].optDims| > 0
    ensures Nameable(inputs, spec)
    ensures Covers(SpecEntry(inputs, spec, maxBatchSize, buffer), Pack(total, shapes)) <==>
              && spec.lowerBoundBatchSize <= total <= spec.batchSize
              && forall k :: 0 <= k < |inputs| ==> shapes[k] == [spec.batchSize] + inputs[k].optDims[1..]
  {
    CoversPerInput(inputs, spec, maxBatchSize, buffer, total, shapes);
    forall k | 0 <= k < |inputs|
      ensures GraphShapes(inputs, spec)[k] == [spec.batchSize] + inputs[k].optDims[1..]
           == LowerShapes(inputs, spec, maxBatchSize)[k]
    {
    }
    if Covers(SpecEntry(inputs, spec, maxBatchSize, buffer), Pack(total, shapes)) {
      forall k | 0 <= k < |inputs|
        ensures shapes[k] == [spec.batchSize] + inputs[k].optDims[1..]
      {
        BelowBoth(shapes[k], GraphShapes(inputs, spec)[k]);
      }
    }
  }
}
