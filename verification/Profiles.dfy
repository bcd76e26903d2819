/**
 Choosing the optimization profile for a batch (src/instance_state.cc:1421-1584), and the
 checks of Run that follow (src/instance_state.cc:585-590, 708-712 and 766-772).
 */
module Profiles {
  import opened Options
  import opened Shapes
  import opened Buffers
  import opened ShapeTensors

  const LLONG_MAX: int := 0x7fff_ffff_ffff_ffff

  datatype Profile = Profile(context: TensorRTContext, minShapes: seq<ShapeValues>, maxShapes: seq<ShapeValues>,
                             optShapes: seq<ShapeValues>, nbShapeValues: nat)

  /** An input of the batch, with the shape it has in the first request. */
  datatype RequestInput =
    | Ragged(io: nat, elementCounts: seq<nat>)
    | Dense(io: nat, shape: seq<int>)
    | ShapeInput(io: nat, shape: seq<int>, values: Option<ShapeValues>)

  datatype Batch = Batch(batching: bool, totalBatchSize: nat, inputs: seq<RequestInput>)

  /** What TensorRT promises of a profile, and the server of a request, for this input. */
  predicate Matches(profile: Profile, input: RequestInput, batching: bool) {
    && Describes(profile.context, input.io) && |profile.context.optDims| == |profile.context.minDims|
    && profile.context.optDims[input.io].nbDims == profile.context.maxDims[input.io].nbDims
    && (batching && !input.Ragged? ==> input.shape != [])
    && (input.ShapeInput? ==>
      && input.io < |profile.minShapes| == |profile.maxShapes| == |profile.optShapes|
      && var min, max, opt := profile.minShapes[input.io], profile.maxShapes[input.io], profile.optShapes[input.io];
         0 < |opt.values| == |min.values| == |max.values| && |opt.values| - 1 <= profile.nbShapeValues <= |min.values|)
  }

  predicate MatchesAll(profile: Profile, batch: Batch) {
    forall k :: 0 <= k < |batch.inputs| ==> Matches(profile, batch.inputs[k], batch.batching)
  }

  // ----- The distance, as the source defines it -----

  function Sum(counts: seq<nat>, n: nat): nat
    requires n <= |counts|
  {
    if n == 0 then 0 else Sum(counts, n - 1) + counts[n - 1]
  }

  /** The shape that is checked: the batch dimension stands for the whole batch. */
  function BatchShape(shape: seq<int>, batching: bool, totalBatchSize: nat): (vector: seq<int>)
    requires batching ==> shape != []
    ensures |vector| == |shape|
  {
    if batching then shape[0 := totalBatchSize] else shape
  }

  predicate Feasible(profile: Profile, input: RequestInput, batching: bool, totalBatchSize: nat)
    requires Matches(profile, input, batching)
  {
    var min, max := profile.context.minDims[input.io], profile.context.maxDims[input.io];
    match input
    case Ragged(_, counts) => InRangeOrWild([Sum(counts, |counts|)], min, max)
    case Dense(_, shape) => InRangeOrWild(BatchShape(shape, batching, totalBatchSize), min, max)
    case ShapeInput(io, shape, values) =>
      && InRangeOrWild(BatchShape(shape, batching, totalBatchSize), min, max) && values.Some?
      && ShapeValuesValid(values.value, profile.minShapes[io], profile.maxShapes[io], profile.nbShapeValues)
      && (batching ==> BatchSizeValid(totalBatchSize, profile.minShapes[io], profile.maxShapes[io]))
  }

  /** The number of terms that compare with the optimum: the first one is always there. */
  function Terms(opt: Dims): (n: nat)
    ensures 1 <= n <= MAX_DIMS
  {
    if opt.nbDims == 0 then 1 else opt.nbDims
  }

  function Cost(profile: Profile, input: RequestInput, batching: bool, totalBatchSize: nat): nat
    requires Matches(profile, input, batching) && Feasible(profile, input, batching, totalBatchSize)
  {
    var opt := profile.context.optDims[input.io];
    match input
    case Ragged(_, counts) => Abs(opt.d[0] - Sum(counts, |counts|))
    case Dense(_, shape) =>
      DistanceUpTo(opt.d, BatchShape(shape, batching, totalBatchSize), totalBatchSize, Terms(opt))
    case ShapeInput(io, shape, values) =>
      var optShape := profile.optShapes[io].values;
      DistanceUpTo(opt.d, BatchShape(shape, batching, totalBatchSize), totalBatchSize, Terms(opt))
      + DistanceUpTo(optShape, values.value.values, totalBatchSize, |optShape|)
  }

  predicate FeasibleUpTo(profile: Profile, batch: Batch, n: nat)
    requires n <= |batch.inputs| && MatchesAll(profile, batch)
  {
    forall k :: 0 <= k < n ==>
      Feasible(profile, batch.inputs[k], batch.batching, batch.totalBatchSize)
  }

  function CostUpTo(profile: Profile, batch: Batch, n: nat): nat
    requires n <= |batch.inputs| && MatchesAll(profile, batch) && FeasibleUpTo(profile, batch, n)
  {
    if n == 0 then 0
    else CostUpTo(profile, batch, n - 1) + Cost(profile, batch.inputs[n - 1], batch.batching, batch.totalBatchSize)
  }

  /** The distance after n inputs: that of the whole batch, or what is left when a call of the request API fails. */
  function Distance(profile: Profile, batch: Batch, n: nat): int
    requires n <= |batch.inputs| && MatchesAll(profile, batch)
  {
    if FeasibleUpTo(profile, batch, n) then CostUpTo(profile, batch, n) else LLONG_MAX
  }

  /**
   LLONG_MAX from the first input on that the profile does not support. read is the number of
   inputs that the request API gives out before a call of it fails; then the sum so far stays.
   */
  method EvaluateTensorRTContext(profile: Profile, batch: Batch, read: nat) returns (distance: int)
    requires MatchesAll(profile, batch) && read <= |batch.inputs|
    ensures distance == Distance(profile, batch, read)
  {
    distance := 0;
    var k := 0;
    while k < |batch.inputs|
      invariant k <= read && FeasibleUpTo(profile, batch, k) && distance == CostUpTo(profile, batch, k)
    {
      if k == read {
        return;
      }
      var feasible, cost := EvaluateInput(profile, batch.inputs[k], batch.batching, batch.totalBatchSize);
      if !feasible {
        return LLONG_MAX;
      }
      distance := distance + cost;
      k := k + 1;
    }
  }

  /** One turn of the loop over the inputs. */
  method EvaluateInput(profile: Profile, input: RequestInput, batching: bool, totalBatchSize: nat)
    returns (feasible: bool, cost: nat)
    requires Matches(profile, input, batching)
    ensures feasible <==> Feasible(profile, input, batching, totalBatchSize)
    ensures feasible ==> cost == Cost(profile, input, batching, totalBatchSize)
  {
    var min, max, opt := profile.context.minDims[input.io], profile.context.maxDims[input.io],
                         profile.context.optDims[input.io];
    cost := 0;
    match input {
      case Ragged(_, counts) =>
        var total: nat, r := 0, 0;
        while r < |counts|
          invariant r <= |counts| && total == Sum(counts, r)
        {
          total := total + counts[r];
          r := r + 1;
        }
        feasible := ValidateDimension([total], min, max);
        cost := Abs(opt.d[0] - total);
      case Dense(_, shape) =>
        var vector := BatchShape(shape, batching, totalBatchSize);
        feasible := ValidateDimension(vector, min, max);
        if feasible {
          cost := SumOfDifferences(opt.d, vector, totalBatchSize, opt.nbDims);
        }
      case ShapeInput(io, shape, values) =>
        var vector := BatchShape(shape, batching, totalBatchSize);
        feasible := ValidateDimension(vector, min, max);
        if values.None? {
          return false, 0;
        }
        var minShape, maxShape, optShape := profile.minShapes[io], profile.maxShapes[io], profile.optShapes[io];
        var valuesValid := CheckShapeValues(values.value, minShape, maxShape, profile.nbShapeValues);
        var size := Cast(totalBatchSize, minShape.datatype_.Width());
        var batchSizeValid := !batching || (size >= minShape.values[0] && size <= maxShape.values[0]);
        feasible := feasible && valuesValid && batchSizeValid;
        if feasible {
          cost := SumOfDifferences(opt.d, vector, totalBatchSize, opt.nbDims);
          var more := SumOfDifferences(optShape.values, values.value.values, totalBatchSize, |optShape.values|);
          cost := cost + more;
        }
    }
  }

  /** seen says for each profile how many inputs its evaluation reads, all of them unless a call fails. */
  predicate AllMatch(profiles: seq<Profile>, batch: Batch, seen: seq<nat>) {
    && |profiles| > 0 && |seen| == |profiles|
    && forall i :: 0 <= i < |profiles| ==> MatchesAll(profiles[i], batch) && seen[i] <= |batch.inputs|
  }

  function Distances(profiles: seq<Profile>, batch: Batch, seen: seq<nat>): (distances: seq<int>)
    requires AllMatch(profiles, batch, seen)
    ensures |distances| == |profiles|
    ensures forall i {:trigger distances[i]} :: 0 <= i < |profiles| ==>
      distances[i] == Distance(profiles[i], batch, seen[i])
  {
    seq(|profiles|, i requires 0 <= i < |profiles| => Distance(profiles[i], batch, seen[i]))
  }

  /** The first of the least distances among the first n, if one is below LLONG_MAX, or else the first of all. */
  predicate IsNearest(chosen: nat, distances: seq<int>, n: nat)
    requires n <= |distances|
  {
    if forall i :: 0 <= i < n ==> distances[i] >= LLONG_MAX then chosen == 0
    else
      && chosen < n && distances[chosen] < LLONG_MAX
      && (forall i :: 0 <= i < n ==> distances[chosen] <= distances[i])
      && (forall i :: 0 <= i < chosen ==> distances[chosen] < distances[i])
  }

  predicate Usable(distances: seq<int>) {
    exists i :: 0 <= i < |distances| && distances[i] < LLONG_MAX
  }

  lemma OneMoreDistance(chosen: nat, shortest: int, distances: seq<int>, n: nat)
    requires n < |distances| && IsNearest(chosen, distances, n) && chosen < |distances|
    requires shortest == if chosen < n && distances[chosen] < LLONG_MAX then distances[chosen] else LLONG_MAX
    ensures IsNearest(if distances[n] < shortest then n else chosen, distances, n + 1)
  {
  }

  /** A single profile is taken as it is; none usable gives the first one and an error. */
  method GetMostOptimizedProfile(profiles: seq<Profile>, batch: Batch, seen: seq<nat>) returns (ok: bool, chosen: nat)
    requires AllMatch(profiles, batch, seen)
    ensures chosen < |profiles|
    ensures |profiles| == 1 ==> ok
    ensures |profiles| > 1 ==> (ok <==> Usable(Distances(profiles, batch, seen)))
    ensures |profiles| > 1 ==> IsNearest(chosen, Distances(profiles, batch, seen), |profiles|)
  {
    ghost var distances := Distances(profiles, batch, seen);
    chosen, ok := 0, true;
    if |profiles| != 1 {
      var shortest := LLONG_MAX;
      var i := 0;
      while i < |profiles|
        invariant i <= |profiles| && chosen < |profiles| && IsNearest(chosen, distances, i)
        invariant shortest == if chosen < i && distances[chosen] < LLONG_MAX then distances[chosen] else LLONG_MAX
      {
        var current := EvaluateTensorRTContext(profiles[i], batch, seen[i]);
        OneMoreDistance(chosen, shortest, distances, i);
        if current < shortest {
          chosen, shortest := i, current;
        }
        i := i + 1;
      }
      ok := shortest != LLONG_MAX;
    }
  }

  // ----- What Run does with the choice -----

  /** The shape that Run sets for an input: ragged ones are flattened and put one after the other. */
  function RunShape(input: RequestInput, batching: bool, totalBatchSize: nat): seq<int>
    requires !input.ShapeInput? && (batching && input.Dense? ==> input.shape != [])
  {
    match input
    case Ragged(_, counts) => [Sum(counts, |counts|)]
    case Dense(_, shape) => if batching then [totalBatchSize] + shape[1..] else shape
  }

  /** The checks in Run on one input, under the profile chosen. */
  predicate PassesRun(profile: Profile, input: RequestInput, batching: bool, totalBatchSize: nat)
    requires Matches(profile, input, batching)
  {
    match input
    case ShapeInput(io, _, values) =>
      values.Some?
      && ShapeValuesValid(values.value, profile.minShapes[io], profile.maxShapes[io], profile.nbShapeValues)
    case _ =>
      Accepted(RunShape(input, batching, totalBatchSize),
               profile.context.minDims[input.io], profile.context.maxDims[input.io])
  }

  /** The dimensions a request gives are sizes. */
  predicate NonNegative(input: RequestInput) {
    !input.Ragged? ==> forall i :: 0 <= i < |input.shape| ==> input.shape[i] >= 0
  }

  /**
   A profile supports an input of a request exactly if Run lets the input through under it
   and all dimensions are within int.
   */
  lemma FeasibleMeansRun(profile: Profile, input: RequestInput, batching: bool, totalBatchSize: nat)
    requires Matches(profile, input, batching) && NonNegative(input) && !input.ShapeInput?
    ensures Feasible(profile, input, batching, totalBatchSize)
       <==> PassesRun(profile, input, batching, totalBatchSize) && FitsInt32(RunShape(input, batching, totalBatchSize))
  {
    var min, max := profile.context.minDims[input.io], profile.context.maxDims[input.io];
    var vector := RunShape(input, batching, totalBatchSize);
    if input.Dense? {
      assert vector == BatchShape(input.shape, batching, totalBatchSize);
    }
    assert InRangeOrWild(vector, min, max) <==> InRange(vector, min, max);
    if InRange(vector, min, max) {
      InRangeIsAccepted(vector, min, max);
    }
    if Accepted(vector, min, max) {
      AcceptedMeansInRange(vector, min, max);
    }
  }

  /**
   For a shape tensor of a batched request, whose values come behind the batch size, the same: the
   check of the batch size alone adds nothing to that of the values.
   */
  lemma ShapeFeasibleMeansRun(profile: Profile, io: nat, shape: seq<int>, bytes: seq<byte>,
                              datatype_: ShapeTensorDataType, batching: bool, totalBatchSize: nat)
    requires var input := ShapeInput(io, shape, Some(BatchedValues(totalBatchSize, datatype_, bytes)));
             Matches(profile, input, batching) && NonNegative(input)
    ensures var input := ShapeInput(io, shape, Some(BatchedValues(totalBatchSize, datatype_, bytes)));
            Feasible(profile, input, batching, totalBatchSize)
            <==> PassesRun(profile, input, batching, totalBatchSize)
                 && InRange(BatchShape(shape, batching, totalBatchSize),
                            profile.context.minDims[io], profile.context.maxDims[io])
  {
    var min, max := profile.minShapes[io], profile.maxShapes[io];
    if ShapeValuesValid(BatchedValues(totalBatchSize, datatype_, bytes), min, max, profile.nbShapeValues) {
      RangeCoversBatchSize(totalBatchSize, datatype_, bytes, min, max, profile.nbShapeValues);
    }
  }

  /** The choice is the nearest of the profiles, and one is usable. */
  predicate Chosen(profiles: seq<Profile>, batch: Batch, seen: seq<nat>, chosen: nat)
    requires AllMatch(profiles, batch, seen)
  {
    Usable(Distances(profiles, batch, seen)) && IsNearest(chosen, Distances(profiles, batch, seen), |profiles|)
  }

  lemma ChosenIsFeasible(profiles: seq<Profile>, batch: Batch, seen: seq<nat>, chosen: nat, k: nat)
    requires AllMatch(profiles, batch, seen) && Chosen(profiles, batch, seen, chosen)
    ensures chosen < |profiles|
    ensures k < seen[chosen] ==> Feasible(profiles[chosen], batch.inputs[k], batch.batching, batch.totalBatchSize)
  {
    assert Distances(profiles, batch, seen)[chosen] < LLONG_MAX;
  }

  /** The selection agrees with the checks that follow: on all inputs it could read, none of them can fail. */
  lemma ChosenPassesRun(profiles: seq<Profile>, batch: Batch, seen: seq<nat>, chosen: nat, k: nat)
    requires AllMatch(profiles, batch, seen) && Chosen(profiles, batch, seen, chosen)
    ensures chosen < |profiles|
    ensures k < seen[chosen] && NonNegative(batch.inputs[k]) ==>
      && PassesRun(profiles[chosen], batch.inputs[k], batch.batching, batch.totalBatchSize)
      && (!batch.inputs[k].ShapeInput? ==>
            FitsInt32(RunShape(batch.inputs[k], batch.batching, batch.totalBatchSize)))
  {
    ChosenIsFeasible(profiles, batch, seen, chosen, k);
    if k < seen[chosen] && NonNegative(batch.inputs[k]) && !batch.inputs[k].ShapeInput? {
      FeasibleMeansRun(profiles[chosen], batch.inputs[k], batch.batching, batch.totalBatchSize);
    }
  }

  /** Without a usable profile the first one is taken, and some input of the batch is outside it. */
  lemma NoneUsable(profiles: seq<Profile>, batch: Batch, seen: seq<nat>, chosen: nat) returns (k: nat)
    requires AllMatch(profiles, batch, seen) && !Usable(Distances(profiles, batch, seen))
    requires IsNearest(chosen, Distances(profiles, batch, seen), |profiles|)
    requires FeasibleUpTo(profiles[0], batch, seen[0]) ==> CostUpTo(profiles[0], batch, seen[0]) < LLONG_MAX
    ensures chosen == 0 && k < seen[0]
    ensures !Feasible(profiles[0], batch.inputs[k], batch.batching, batch.totalBatchSize)
  {
    assert Distances(profiles, batch, seen)[0] >= LLONG_MAX;
    k :| 0 <= k < seen[0] && !Feasible(profiles[0], batch.inputs[k], batch.batching, batch.totalBatchSize);
  }

  /**
   An evaluation that a failing call cuts short leaves the profile as near as it would have
   been, or nearer: failing calls count in favour of a profile.
   */
  lemma {:induction false} CutShortIsNearer(profile: Profile, batch: Batch, n: nat, m: nat)
    requires n <= m <= |batch.inputs| && MatchesAll(profile, batch)
    requires FeasibleUpTo(profile, batch, m) ==> CostUpTo(profile, batch, m) <= LLONG_MAX
    requires FeasibleUpTo(profile, batch, n) ==> CostUpTo(profile, batch, n) <= LLONG_MAX
    ensures Distance(profile, batch, n) <= Distance(profile, batch, m)
  {
    if FeasibleUpTo(profile, batch, m) && n < m {
      CutShortIsNearer(profile, batch, n, m - 1);
    }
  }

  // ----- What the distance measures -----

  lemma {:induction false} SumAppend(a: seq<nat>, b: seq<nat>, n: nat)
    requires n <= |b|
    ensures Sum(a + b, |a| + n) == Sum(a, |a|) + Sum(b, n)
  {
    if n > 0 {
      SumAppend(a, b, n - 1);
    } else {
      SumLocal(a + b, a, |a|);
    }
  }

  lemma {:induction false} SumLocal(a: seq<nat>, b: seq<nat>, n: nat)
    requires n <= |a| && n <= |b| && forall i :: 0 <= i < n ==> a[i] == b[i]
    ensures Sum(a, n) == Sum(b, n)
  {
    if n > 0 {
      SumLocal(a, b, n - 1);
    }
  }

  /** The elements of a ragged input are those of all its requests. */
  lemma ElementsOfAll(a: seq<nat>, b: seq<nat>, count: nat)
    ensures Sum([], 0) == 0 && Sum([count], 1) == count
    ensures Sum(a + b, |a + b|) == Sum(a, |a|) + Sum(b, |b|)
  {
    SumAppend(a, b, |b|);
  }

  /** The dimensions of the optimum that count for an input. */
  function Counted(profile: Profile, input: RequestInput): nat
    requires Describes(profile.context, input.io) && |profile.context.optDims| == |profile.context.minDims|
  {
    var rank := profile.context.optDims[input.io].nbDims;
    if input.Ragged? || rank == 0 then 1 else rank
  }

  /**
   What dimension i of the optimum is compared with: the elements of a ragged input; otherwise the
   batch size, and then the dimensions of the request, in which the batch size takes the first place.
   */
  function Compared(input: RequestInput, batching: bool, totalBatchSize: nat, i: nat): int
    requires !input.Ragged? ==> i <= |input.shape|
  {
    if input.Ragged? then Sum(input.elementCounts, |input.elementCounts|)
    else if i == 0 || (i == 1 && batching) then totalBatchSize
    else input.shape[i - 1]
  }

  /** Everything in the optimum that counts is what it is compared with. */
  predicate AtOptimum(profile: Profile, input: RequestInput, batching: bool, totalBatchSize: nat)
    requires Matches(profile, input, batching) && Feasible(profile, input, batching, totalBatchSize)
  {
    && (forall i :: 0 <= i < Counted(profile, input) ==>
         profile.context.optDims[input.io].d[i] == Compared(input, batching, totalBatchSize, i))
    && (input.ShapeInput? ==>
         forall i :: 0 <= i < |profile.optShapes[input.io].values| ==>
           profile.optShapes[input.io].values[i] == ComparedWith(input.values.value.values, totalBatchSize, i))
  }

  function WithOptDim(profile: Profile, io: nat, i: nat, y: int): Profile
    requires io < |profile.context.optDims| && i < MAX_DIMS
  {
    var opt := profile.context.optDims[io];
    profile.(context := profile.context.(optDims := profile.context.optDims[io := RawDims(opt.nbDims, opt.d[i := y])]))
  }

  function WithOptValue(profile: Profile, io: nat, i: nat, y: int): Profile
    requires io < |profile.optShapes| && i < |profile.optShapes[io].values|
  {
    var opt := profile.optShapes[io];
    profile.(optShapes := profile.optShapes[io := opt.(values := opt.values[i := y])])
  }

  /** One number of the optimum for this input is one further away from what it is compared with. */
  ghost predicate IsFurther(moved: Profile, profile: Profile, input: RequestInput, batching: bool, totalBatchSize: nat)
    requires Matches(profile, input, batching) && Feasible(profile, input, batching, totalBatchSize)
  {
    || (exists i: nat, y ::
         && i < Counted(profile, input) && moved == WithOptDim(profile, input.io, i, y)
         && OneFurther(y, profile.context.optDims[input.io].d[i], Compared(input, batching, totalBatchSize, i)))
    || (input.ShapeInput? && exists i: nat, y ::
         && i < |profile.optShapes[input.io].values| && moved == WithOptValue(profile, input.io, i, y)
         && OneFurther(y, profile.optShapes[input.io].values[i],
                       ComparedWith(input.values.value.values, totalBatchSize, i)))
  }

  lemma CostZero(profile: Profile, input: RequestInput, batching: bool, totalBatchSize: nat)
    requires Matches(profile, input, batching) && Feasible(profile, input, batching, totalBatchSize)
    ensures Cost(profile, input, batching, totalBatchSize) == 0 <==> AtOptimum(profile, input, batching, totalBatchSize)
  {
    var opt := profile.context.optDims[input.io];
    if !input.Ragged? {
      DistanceVanishes(opt.d, BatchShape(input.shape, batching, totalBatchSize), totalBatchSize, Terms(opt));
      if input.ShapeInput? {
        var optShape := profile.optShapes[input.io].values;
        DistanceVanishes(optShape, input.values.value.values, totalBatchSize, |optShape|);
      }
    }
  }

  lemma CostGrows(moved: Profile, profile: Profile, input: RequestInput, batching: bool, totalBatchSize: nat)
    requires Matches(profile, input, batching) && Feasible(profile, input, batching, totalBatchSize)
    requires IsFurther(moved, profile, input, batching, totalBatchSize)
    ensures Matches(moved, input, batching) && Feasible(moved, input, batching, totalBatchSize)
    ensures Cost(moved, input, batching, totalBatchSize) == Cost(profile, input, batching, totalBatchSize) + 1
  {
    var opt := profile.context.optDims[input.io];
    if i: nat, y :|
      && i < Counted(profile, input) && moved == WithOptDim(profile, input.io, i, y)
      && OneFurther(y, profile.context.optDims[input.io].d[i], Compared(input, batching, totalBatchSize, i))
    {
      if !input.Ragged? {
        DistanceGrows(opt.d, y, BatchShape(input.shape, batching, totalBatchSize), totalBatchSize, Terms(opt), i);
      }
    } else {
      var i: nat, y :|
        && i < |profile.optShapes[input.io].values| && moved == WithOptValue(profile, input.io, i, y)
        && OneFurther(y, profile.optShapes[input.io].values[i],
                      ComparedWith(input.values.value.values, totalBatchSize, i));
      var optShape := profile.optShapes[input.io].values;
      DistanceGrows(optShape, y, input.values.value.values, totalBatchSize, |optShape|, i);
    }
  }

  /** The bounds and the optimum for an input are the same in both profiles. */
  predicate SameFor(moved: Profile, profile: Profile, input: RequestInput, batching: bool)
    requires Matches(profile, input, batching)
  {
    && Matches(moved, input, batching)
    && moved.context.minDims == profile.context.minDims && moved.context.maxDims == profile.context.maxDims
    && moved.minShapes == profile.minShapes && moved.maxShapes == profile.maxShapes
    && moved.nbShapeValues == profile.nbShapeValues
    && moved.context.optDims[input.io] == profile.context.optDims[input.io]
    && (input.ShapeInput? ==> moved.optShapes[input.io] == profile.optShapes[input.io])
  }

  lemma OthersStay(moved: Profile, profile: Profile, input: RequestInput, other: RequestInput, batching: bool,
                   totalBatchSize: nat)
    requires Matches(profile, input, batching) && Feasible(profile, input, batching, totalBatchSize)
    requires IsFurther(moved, profile, input, batching, totalBatchSize)
    requires Matches(profile, other, batching) && other.io != input.io
    ensures SameFor(moved, profile, other, batching)
  {
  }

  lemma {:induction false} SumOfCosts(moved: Profile, profile: Profile, batch: Batch, n: nat, k: nat)
    requires n <= |batch.inputs| && MatchesAll(profile, batch) && MatchesAll(moved, batch)
    requires FeasibleUpTo(profile, batch, n) && k < |batch.inputs|
    requires forall j :: 0 <= j < n && j != k ==> SameFor(moved, profile, batch.inputs[j], batch.batching)
    requires k < n ==> Feasible(moved, batch.inputs[k], batch.batching, batch.totalBatchSize)
    ensures FeasibleUpTo(moved, batch, n)
    ensures CostUpTo(moved, batch, n) == CostUpTo(profile, batch, n)
      + if k < n then Cost(moved, batch.inputs[k], batch.batching, batch.totalBatchSize)
                      - Cost(profile, batch.inputs[k], batch.batching, batch.totalBatchSize) else 0
  {
    if n > 0 {
      SumOfCosts(moved, profile, batch, n - 1, k);
      SameCost(moved, profile, batch, n - 1, k);
    }
  }

  lemma SameCost(moved: Profile, profile: Profile, batch: Batch, j: nat, k: nat)
    requires j < |batch.inputs| && MatchesAll(profile, batch) && MatchesAll(moved, batch)
    requires Feasible(profile, batch.inputs[j], batch.batching, batch.totalBatchSize)
    requires j != k ==> SameFor(moved, profile, batch.inputs[j], batch.batching)
    ensures j != k ==>
      && Feasible(moved, batch.inputs[j], batch.batching, batch.totalBatchSize)
      && Cost(moved, batch.inputs[j], batch.batching, batch.totalBatchSize)
         == Cost(profile, batch.inputs[j], batch.batching, batch.totalBatchSize)
  {
  }

  /**
   Of a profile that supports a batch, any number of the optimum that is one further away, on
   either side, from what it is compared with makes the distance exactly one longer.
   */
  lemma DistanceOfMoved(moved: Profile, profile: Profile, batch: Batch, n: nat, k: nat)
    requires k < n <= |batch.inputs| && MatchesAll(profile, batch) && FeasibleUpTo(profile, batch, n)
    requires forall j :: 0 <= j < |batch.inputs| && j != k ==> batch.inputs[j].io != batch.inputs[k].io
    requires IsFurther(moved, profile, batch.inputs[k], batch.batching, batch.totalBatchSize)
    ensures MatchesAll(moved, batch) && Distance(moved, batch, n) == Distance(profile, batch, n) + 1
  {
    CostGrows(moved, profile, batch.inputs[k], batch.batching, batch.totalBatchSize);
    forall j | 0 <= j < |batch.inputs| && j != k
      ensures SameFor(moved, profile, batch.inputs[j], batch.batching)
    {
      OthersStay(moved, profile, batch.inputs[k], batch.inputs[j], batch.batching, batch.totalBatchSize);
    }
    SumOfCosts(moved, profile, batch, n, k);
  }

  /** The distance is zero exactly if everything that counts is what it is compared with. */
  lemma {:induction false} DistanceOfOptimum(profile: Profile, batch: Batch, n: nat)
    requires n <= |batch.inputs| && MatchesAll(profile, batch) && FeasibleUpTo(profile, batch, n)
    ensures Distance(profile, batch, n) == 0
       <==> forall k :: 0 <= k < n ==> AtOptimum(profile, batch.inputs[k], batch.batching, batch.totalBatchSize)
  {
    if n > 0 {
      DistanceOfOptimum(profile, batch, n - 1);
      CostZero(profile, batch.inputs[n - 1], batch.batching, batch.totalBatchSize);
    }
  }

  // ----- The choice and the buffers -----

  function Contexts(profiles: seq<Profile>): (contexts: seq<TensorRTContext>)
    ensures |contexts| == |profiles|
  {
    seq(|profiles|, i requires 0 <= i < |profiles| => profiles[i].context)
  }

  /** What Run writes for an input of the chosen profile fits the buffer allocated for it, padded or not. */
  lemma ChosenFitsBuffer(profiles: seq<Profile>, batch: Batch, seen: seq<nat>, chosen: nat, k: nat,
                         input: InputConfig, size: int)
    requires AllMatch(profiles, batch, seen) && Chosen(profiles, batch, seen, chosen)
    requires chosen < |profiles| && k < seen[chosen] && !batch.inputs[k].ShapeInput? && NonNegative(batch.inputs[k])
    requires ValidInput(input) && input.io == batch.inputs[k].io && AllDescribe(Contexts(profiles), input.io)
    requires Suffices(size, Contexts(profiles), input)
    requires |RunShape(batch.inputs[k], batch.batching, batch.totalBatchSize)| == |input.dims|
    ensures var shape := RunShape(batch.inputs[k], batch.batching, batch.totalBatchSize);
            && ByteSize(shape, Linear, input.elementSize) <= size
            && ByteSize(shape, input.format, input.elementSize) <= size
  {
    ChosenPassesRun(profiles, batch, seen, chosen, k);
    var context := Contexts(profiles)[chosen];
    assert Accepted(RunShape(batch.inputs[k], batch.batching, batch.totalBatchSize),
                    context.minDims[input.io], context.maxDims[input.io]);
  }

  /**
   The distance is not one from dimension to dimension: a profile is at no distance from a
   shape exactly if its optimum is the batch size followed by the shape less its last dimension.
   */
  lemma NoDistance(profile: Profile, input: RequestInput, batching: bool, totalBatchSize: nat)
    requires Matches(profile, input, batching) && input.Dense? && input.shape != []
    requires Feasible(profile, input, batching, totalBatchSize)
    ensures Cost(profile, input, batching, totalBatchSize) == 0
       <==> Vector(profile.context.optDims[input.io])
              == [totalBatchSize] + BatchShape(input.shape, batching, totalBatchSize)[..|input.shape| - 1]
  {
    var opt := profile.context.optDims[input.io];
    var vector := BatchShape(input.shape, batching, totalBatchSize);
    DistanceZero(opt.d, vector, totalBatchSize, Terms(opt));
  }

  /** A profile made for the very shape of the batch is at no distance only if all dimensions are the batch size. */
  lemma OwnOptimumCost(profile: Profile, input: RequestInput, batching: bool, totalBatchSize: nat)
    requires Matches(profile, input, batching) && input.Dense? && input.shape != []
    requires Feasible(profile, input, batching, totalBatchSize)
    requires Vector(profile.context.optDims[input.io]) == BatchShape(input.shape, batching, totalBatchSize)
    ensures Cost(profile, input, batching, totalBatchSize) == 0
       <==> forall i :: 0 <= i < |input.shape| ==>
              BatchShape(input.shape, batching, totalBatchSize)[i] == totalBatchSize
  {
    var vector := BatchShape(input.shape, batching, totalBatchSize);
    NoDistance(profile, input, batching, totalBatchSize);
    ShiftFixes(totalBatchSize, vector);
    assert ([totalBatchSize] + vector)[..|vector|] == [totalBatchSize] + vector[..|vector| - 1];
  }

  lemma DistanceOfMatrix(profile: Profile, io: nat, shape: seq<int>, totalBatchSize: nat)
    requires |shape| == 2 && Matches(profile, Dense(io, shape), true)
    requires Feasible(profile, Dense(io, shape), true, totalBatchSize)
    ensures MatchesAll(profile, Batch(true, totalBatchSize, [Dense(io, shape)]))
    ensures var opt := profile.context.optDims[io];
            Distance(profile, Batch(true, totalBatchSize, [Dense(io, shape)]), 1)
            == Abs(opt.d[0] - totalBatchSize) + Abs(opt.d[1] - totalBatchSize)
  {
    var batch := Batch(true, totalBatchSize, [Dense(io, shape)]);
    var opt := profile.context.optDims[io];
    assert MatchesAll(profile, batch) && FeasibleUpTo(profile, batch, 1);
    var vector := BatchShape(shape, true, totalBatchSize);
    assert DistanceUpTo(opt.d, vector, totalBatchSize, 2)
        == DistanceUpTo(opt.d, vector, totalBatchSize, 1) + Abs(opt.d[1] - vector[0]);
    assert CostUpTo(profile, batch, 1)
        == CostUpTo(profile, batch, 0) + Cost(profile, batch.inputs[0], true, totalBatchSize);
  }

  lemma NearerIsNearest(distances: seq<int>)
    requires |distances| == 2 && distances[1] < distances[0] < LLONG_MAX
    ensures Usable(distances) && IsNearest(1, distances, 2)
  {
  }

  /** A profile for a batch of one and a second dimension from 1 to 9, made for the second dimension given. */
  function UpToNine(opt: int): Profile {
    var low := RawDims(2, [1, 1, 0, 0, 0, 0, 0, 0]);
    var high := RawDims(2, [1, 9, 0, 0, 0, 0, 0, 0]);
    Profile(TensorRTContext([low], [high], [RawDims(2, [1, opt, 0, 0, 0, 0, 0, 0])]), [], [], [], 0)
  }

  lemma DistanceOfUpToNine(opt: int)
    ensures MatchesAll(UpToNine(opt), Batch(true, 1, [Dense(0, [1, 5])]))
    ensures Distance(UpToNine(opt), Batch(true, 1, [Dense(0, [1, 5])]), 1) == Abs(opt - 1)
  {
    DistanceOfMatrix(UpToNine(opt), 0, [1, 5], 1);
  }

  /** So of two usable profiles the one made for the very shape of the batch may lose. */
  lemma OptimumMayLose() returns (profiles: seq<Profile>, batch: Batch, seen: seq<nat>)
    ensures AllMatch(profiles, batch, seen) && |profiles| == 2
    ensures batch == Batch(true, 1, [Dense(0, [1, 5])])
    ensures profiles[0].context.optDims != [] && Vector(profiles[0].context.optDims[0]) == [1, 5]
    ensures seen == [1, 1] && Chosen(profiles, batch, seen, 1)
  {
    profiles, batch, seen := [UpToNine(5), UpToNine(1)], Batch(true, 1, [Dense(0, [1, 5])]), [1, 1];
    DistanceOfUpToNine(5);
    DistanceOfUpToNine(1);
    NearerIsNearest(Distances(profiles, batch, seen));
  }
}
