/**
 The captured graphs of one TensorRTContext: the capture loop, what it leaves in the index of each
 event set, and the lookup in it (src/instance_state.cc:3247-3265 and 3460-3620).
 */
module GraphStores {
  import opened Arithmetic
  import opened Options
  import opened GraphIndex
  import opened GraphSpecs
  import opened Pipeline

  // ----- BuildCudaGraph -----

  /** What one pass of the capture loop reports. */
  datatype Capture = NotCaptured | Captured | CapturedNotDestroyed

  /** A validated spec, with the outcome of the calls that try to capture it. */
  datatype Build = Build(
    spec: GraphSpec,
    hasShapeTensor: bool,      // the engine has a shape tensor, no graph is captured
    shapeAccepted: seq<bool>,  // setInputShape, by input
    warmedUp: bool,            // the executions before the capture
    captures: seq<Capture>     // by event set
  )

  predicate ValidBuild(inputs: seq<Input>, build: Build, maxBatchSize: nat) {
    ValidGraphSpec(build.spec, maxBatchSize) && |build.shapeAccepted| == |inputs| && |build.captures| == EVENT_SET_COUNT
  }

  /** The build gets as far as the capture loop. */
  predicate Buildable(inputs: seq<Input>, build: Build) {
    && !build.hasShapeTensor && Nameable(inputs, build.spec) && build.warmedUp
    && forall i :: 0 <= i < |build.shapeAccepted| ==> build.shapeAccepted[i]
  }

  predicate AllCaptured(captures: seq<Capture>, count: nat)
    requires count <= |captures|
  {
    forall e :: 0 <= e < count ==> captures[e].Captured?
  }

  function AfterCapture(index: seq<Entry>, entry: Entry, e: nat, bufferSets: nat, captures: seq<Capture>): seq<Entry>
    requires e < |captures| && bufferSets > 0
  {
    if AllCaptured(captures, e) && !captures[e].NotCaptured? then Insert(index, For(entry, e, bufferSets)) else index
  }

  /** The entry as stored under event set e: captured with next_buffer_binding_set_ at e mod num_copy_streams_. */
  function For(entry: Entry, e: nat, bufferSets: nat): Entry
    requires bufferSets > 0
  {
    entry.(graph := entry.graph.(capturedBuffer := e % bufferSets))
  }

  function AfterBuild(index: seq<Entry>, inputs: seq<Input>, build: Build, maxBatchSize: nat, e: nat, bufferSets: nat)
    : seq<Entry>
    requires ValidBuild(inputs, build, maxBatchSize) && e < EVENT_SET_COUNT && bufferSets > 0
  {
    if Buildable(inputs, build)
    then AfterCapture(index, SpecEntry(inputs, build.spec, maxBatchSize, 0), e, bufferSets, build.captures)
    else index
  }

  /** InitializeCudaGraph, lines 3257-3262, for one profile and event set e. */
  function BuildIndex(inputs: seq<Input>, builds: seq<Build>, maxBatchSize: nat, e: nat, bufferSets: nat): seq<Entry>
    requires AllValid(inputs, builds, maxBatchSize) && e < EVENT_SET_COUNT && bufferSets > 0
  {
    if builds == [] then []
    else AfterBuild(BuildIndex(inputs, builds[..|builds| - 1], maxBatchSize, e, bufferSets),
                    inputs, builds[|builds| - 1], maxBatchSize, e, bufferSets)
  }

  predicate AllValid(inputs: seq<Input>, builds: seq<Build>, maxBatchSize: nat) {
    forall i :: 0 <= i < |builds| ==> ValidBuild(inputs, builds[i], maxBatchSize)
  }

  /**
   The entry that this build puts under event set e: the engine has no shape tensor, the spec names
   all inputs, all shapes and first executions go through, every capture before e does, and
   that of e yields a graph. The graph is that of the buffer set e mod bufferSets.
   */
  predicate IsStored(inputs: seq<Input>, build: Build, maxBatchSize: nat, e: nat, bufferSets: nat, entry: Entry)
    requires ValidBuild(inputs, build, maxBatchSize) && e < EVENT_SET_COUNT && bufferSets > 0
  {
    && !build.hasShapeTensor && build.warmedUp && Nameable(inputs, build.spec)
    && (forall i :: 0 <= i < |inputs| ==> build.shapeAccepted[i])
    && (forall d :: 0 <= d < e ==> build.captures[d].Captured?) && !build.captures[e].NotCaptured?
    && entry.key == Pack(build.spec.batchSize, GraphShapes(inputs, build.spec))
    && entry.graph.lowerBoundKey == Pack(LowerBatch(build.spec), LowerShapes(inputs, build.spec, maxBatchSize))
    && entry.graph.inputDims == GraphShapes(inputs, build.spec) && entry.graph.capturedBuffer == e % bufferSets
  }

  /** What one build adds to an index: its entry, if the key is new. */
  ghost predicate Adds(before: seq<Entry>, after: seq<Entry>, inputs: seq<Input>, build: Build, maxBatchSize: nat,
                       e: nat, bufferSets: nat)
    requires ValidBuild(inputs, build, maxBatchSize) && e < EVENT_SET_COUNT && bufferSets > 0
  {
    forall entry :: entry in after <==>
      (entry in before
       || (IsStored(inputs, build, maxBatchSize, e, bufferSets, entry) && !HasExact(before, entry.key)))
  }

  lemma AfterBuildAdds(index: seq<Entry>, inputs: seq<Input>, build: Build, maxBatchSize: nat, e: nat, bufferSets: nat)
    requires ValidBuild(inputs, build, maxBatchSize) && e < EVENT_SET_COUNT && bufferSets > 0 && Sorted(index)
    ensures var after := AfterBuild(index, inputs, build, maxBatchSize, e, bufferSets);
            Sorted(after) && Adds(index, after, inputs, build, maxBatchSize, e, bufferSets)
  {
    if Buildable(inputs, build) && AllCaptured(build.captures, e) && !build.captures[e].NotCaptured? {
      var stored := For(SpecEntry(inputs, build.spec, maxBatchSize, 0), e, bufferSets);
      InsertSorted(index, stored);
      InsertContents(index, stored);
      assert IsStored(inputs, build, maxBatchSize, e, bufferSets, stored);
    }
  }

  /** One of the first n builds stores an entry under this key. */
  ghost predicate KeyStored(inputs: seq<Input>, builds: seq<Build>, n: nat, maxBatchSize: nat, e: nat, bufferSets: nat,
                            key: Key)
    requires AllValid(inputs, builds, maxBatchSize) && e < EVENT_SET_COUNT && bufferSets > 0 && n <= |builds|
  {
    exists k, entry ::
      0 <= k < n && IsStored(inputs, builds[k], maxBatchSize, e, bufferSets, entry) && entry.key == key
  }

  /** Of the first n builds, the first one that stores an entry under this key stores this entry. */
  ghost predicate IsFirstStored(inputs: seq<Input>, builds: seq<Build>, n: nat, maxBatchSize: nat, e: nat,
                                bufferSets: nat, entry: Entry)
    requires AllValid(inputs, builds, maxBatchSize) && e < EVENT_SET_COUNT && bufferSets > 0 && n <= |builds|
  {
    exists k :: 0 <= k < n && IsStored(inputs, builds[k], maxBatchSize, e, bufferSets, entry)
      && !KeyStored(inputs, builds, k, maxBatchSize, e, bufferSets, entry.key)
  }

  /** These entries are in the index, and no others. */
  ghost predicate HoldsFirst(index: seq<Entry>, inputs: seq<Input>, builds: seq<Build>, n: nat, maxBatchSize: nat,
                             e: nat, bufferSets: nat)
    requires AllValid(inputs, builds, maxBatchSize) && e < EVENT_SET_COUNT && bufferSets > 0 && n <= |builds|
  {
    forall entry :: entry in index <==> IsFirstStored(inputs, builds, n, maxBatchSize, e, bufferSets, entry)
  }

  /** Whatever key is stored, its first entry is in the index, and so the index has exactly these keys. */
  lemma {:induction false} FirstOfKey(inputs: seq<Input>, builds: seq<Build>, n: nat, maxBatchSize: nat, e: nat,
                                      bufferSets: nat, key: Key)
    requires AllValid(inputs, builds, maxBatchSize) && e < EVENT_SET_COUNT && bufferSets > 0 && n <= |builds|
    ensures KeyStored(inputs, builds, n, maxBatchSize, e, bufferSets, key) <==>
              exists entry ::
                IsFirstStored(inputs, builds, n, maxBatchSize, e, bufferSets, entry) && entry.key == key
  {
    if KeyStored(inputs, builds, n, maxBatchSize, e, bufferSets, key) {
      var k, entry :|
        0 <= k < n && IsStored(inputs, builds[k], maxBatchSize, e, bufferSets, entry) && entry.key == key;
      if KeyStored(inputs, builds, k, maxBatchSize, e, bufferSets, key) {
        FirstOfKey(inputs, builds, k, maxBatchSize, e, bufferSets, key);
      } else {
        assert IsFirstStored(inputs, builds, n, maxBatchSize, e, bufferSets, entry);
      }
    }
  }

  lemma KeysOfIndex(index: seq<Entry>, inputs: seq<Input>, builds: seq<Build>, n: nat, maxBatchSize: nat, e: nat,
                    bufferSets: nat, key: Key)
    requires AllValid(inputs, builds, maxBatchSize) && e < EVENT_SET_COUNT && bufferSets > 0 && n <= |builds|
    requires HoldsFirst(index, inputs, builds, n, maxBatchSize, e, bufferSets)
    ensures HasExact(index, key) <==> KeyStored(inputs, builds, n, maxBatchSize, e, bufferSets, key)
  {
    FirstOfKey(inputs, builds, n, maxBatchSize, e, bufferSets, key);
    if KeyStored(inputs, builds, n, maxBatchSize, e, bufferSets, key) {
      var entry :| IsFirstStored(inputs, builds, n, maxBatchSize, e, bufferSets, entry) && entry.key == key;
      assert entry in index;
    }
    if HasExact(index, key) {
      var i :| 0 <= i < |index| && index[i].key == key;
      assert index[i] in index;
    }
  }

  lemma FirstStoredNext(inputs: seq<Input>, builds: seq<Build>, n: nat, maxBatchSize: nat, e: nat, bufferSets: nat,
                        entry: Entry)
    requires AllValid(inputs, builds, maxBatchSize) && e < EVENT_SET_COUNT && bufferSets > 0 && n < |builds|
    ensures IsFirstStored(inputs, builds, n + 1, maxBatchSize, e, bufferSets, entry) <==>
              (IsFirstStored(inputs, builds, n, maxBatchSize, e, bufferSets, entry)
               || (IsStored(inputs, builds[n], maxBatchSize, e, bufferSets, entry)
                   && !KeyStored(inputs, builds, n, maxBatchSize, e, bufferSets, entry.key)))
  {
  }

  lemma HoldsFirstNext(before: seq<Entry>, after: seq<Entry>, inputs: seq<Input>, builds: seq<Build>, n: nat,
                       maxBatchSize: nat, e: nat, bufferSets: nat)
    requires AllValid(inputs, builds, maxBatchSize) && e < EVENT_SET_COUNT && bufferSets > 0 && n < |builds|
    requires HoldsFirst(before, inputs, builds, n, maxBatchSize, e, bufferSets)
    requires Adds(before, after, inputs, builds[n], maxBatchSize, e, bufferSets)
    ensures HoldsFirst(after, inputs, builds, n + 1, maxBatchSize, e, bufferSets)
  {
    forall entry
      ensures entry in after <==> IsFirstStored(inputs, builds, n + 1, maxBatchSize, e, bufferSets, entry)
    {
      FirstStoredNext(inputs, builds, n, maxBatchSize, e, bufferSets, entry);
      KeysOfIndex(before, inputs, builds, n, maxBatchSize, e, bufferSets, entry.key);
    }
  }

  lemma {:induction false} IndexContents(inputs: seq<Input>, builds: seq<Build>, n: nat, maxBatchSize: nat, e: nat,
                                         bufferSets: nat)
    requires AllValid(inputs, builds, maxBatchSize) && e < EVENT_SET_COUNT && bufferSets > 0 && n <= |builds|
    ensures var index := BuildIndex(inputs, builds[..n], maxBatchSize, e, bufferSets);
            Sorted(index) && HoldsFirst(index, inputs, builds, n, maxBatchSize, e, bufferSets)
  {
    if n > 0 {
      IndexContents(inputs, builds, n - 1, maxBatchSize, e, bufferSets);
      assert builds[..n][..n - 1] == builds[..n - 1];
      var before := BuildIndex(inputs, builds[..n - 1], maxBatchSize, e, bufferSets);
      AfterBuildAdds(before, inputs, builds[n - 1], maxBatchSize, e, bufferSets);
      HoldsFirstNext(before, BuildIndex(inputs, builds[..n], maxBatchSize, e, bufferSets), inputs, builds, n - 1,
                     maxBatchSize, e, bufferSets);
    }
  }

  /** The per-event-set indexes of one TensorRTContext. */
  class GraphStore {
    var cudaGraphExecs: seq<seq<Entry>>

    constructor ()
      ensures cudaGraphExecs == [[], [], []]
    {
      cudaGraphExecs := [[], [], []];
    }

    /** Lines 3460-3620: makes the key, then captures a graph for every event set until a capture fails. */
    method BuildCudaGraph(inputs: seq<Input>, build: Build, maxBatchSize: nat, bufferSets: nat) returns (captured: bool)
      requires ValidBuild(inputs, build, maxBatchSize) && bufferSets > 0 && |cudaGraphExecs| == EVENT_SET_COUNT
      modifies this
      ensures captured <==> Buildable(inputs, build) && AllCaptured(build.captures, EVENT_SET_COUNT)
      ensures |cudaGraphExecs| == EVENT_SET_COUNT
      ensures forall e :: 0 <= e < EVENT_SET_COUNT && Sorted(old(cudaGraphExecs)[e]) ==>
        Adds(old(cudaGraphExecs)[e], cudaGraphExecs[e], inputs, build, maxBatchSize, e, bufferSets)
      ensures forall e :: 0 <= e < EVENT_SET_COUNT ==>
        cudaGraphExecs[e] == AfterBuild(old(cudaGraphExecs)[e], inputs, build, maxBatchSize, e, bufferSets)
    {
      if build.hasShapeTensor {
        return false;
      }
      var entry := SetCudaGraphShape(inputs, build.spec, maxBatchSize, build.shapeAccepted);
      if entry.None? || !build.warmedUp {
        return false;
      }
      captured := CaptureGraphs(entry.value, bufferSets, build.captures);
      forall e | 0 <= e < EVENT_SET_COUNT && Sorted(old(cudaGraphExecs)[e])
        ensures Adds(old(cudaGraphExecs)[e], cudaGraphExecs[e], inputs, build, maxBatchSize, e, bufferSets)
      {
        AfterBuildAdds(old(cudaGraphExecs)[e], inputs, build, maxBatchSize, e, bufferSets);
      }
    }

    /** Lines 3516-3619: one graph for every event set, until a capture fails. */
    method CaptureGraphs(entry: Entry, bufferSets: nat, captures: seq<Capture>) returns (captured: bool)
      requires bufferSets > 0 && |captures| == EVENT_SET_COUNT == |cudaGraphExecs|
      modifies this
      ensures captured <==> AllCaptured(captures, EVENT_SET_COUNT)
      ensures |cudaGraphExecs| == EVENT_SET_COUNT
      ensures forall e :: 0 <= e < EVENT_SET_COUNT ==>
        cudaGraphExecs[e] == AfterCapture(old(cudaGraphExecs)[e], entry, e, bufferSets, captures)
    {
      ghost var before := cudaGraphExecs;
      captured := true;
      var setIdx := 0;
      while setIdx < EVENT_SET_COUNT
        invariant setIdx <= EVENT_SET_COUNT && |cudaGraphExecs| == EVENT_SET_COUNT
        invariant captured <==> AllCaptured(captures, setIdx)
        invariant forall e :: 0 <= e < setIdx ==>
          cudaGraphExecs[e] == AfterCapture(before[e], entry, e, bufferSets, captures)
        invariant forall e :: setIdx <= e < EVENT_SET_COUNT ==> cudaGraphExecs[e] == before[e]
      {
        if captures[setIdx].NotCaptured? {
          captured := false;
        }
        if captured {
          cudaGraphExecs := cudaGraphExecs[setIdx := Insert(cudaGraphExecs[setIdx], For(entry, setIdx, bufferSets))];
          captured := captures[setIdx].Captured?;
        }
        setIdx := setIdx + 1;
      }
    }

    method InitializeCudaGraph(inputs: seq<Input>, builds: seq<Build>, maxBatchSize: nat, bufferSets: nat)
      requires AllValid(inputs, builds, maxBatchSize) && bufferSets > 0 && cudaGraphExecs == [[], [], []]
      modifies this
      ensures Holds(inputs, builds, maxBatchSize, bufferSets)
      ensures forall e :: 0 <= e < EVENT_SET_COUNT ==>
        HoldsFirst(cudaGraphExecs[e], inputs, builds, |builds|, maxBatchSize, e, bufferSets)
      ensures forall e, key :: 0 <= e < EVENT_SET_COUNT ==>
        (HasExact(cudaGraphExecs[e], key) <==>
           KeyStored(inputs, builds, |builds|, maxBatchSize, e, bufferSets, key))
    {
      var i := 0;
      while i < |builds|
        invariant i <= |builds| && Holds(inputs, builds[..i], maxBatchSize, bufferSets)
      {
        var _ := BuildCudaGraph(inputs, builds[i], maxBatchSize, bufferSets);
        assert builds[..i + 1][..i] == builds[..i];
        i := i + 1;
      }
      assert builds[..i] == builds;
      HoldsContents(inputs, builds, maxBatchSize, bufferSets);
    }

    /** Under each event set the store has these entries and keys, and no others. */
    lemma HoldsContents(inputs: seq<Input>, builds: seq<Build>, maxBatchSize: nat, bufferSets: nat)
      requires AllValid(inputs, builds, maxBatchSize) && bufferSets > 0
      requires Holds(inputs, builds, maxBatchSize, bufferSets)
      ensures forall e :: 0 <= e < EVENT_SET_COUNT ==>
        HoldsFirst(cudaGraphExecs[e], inputs, builds, |builds|, maxBatchSize, e, bufferSets)
      ensures forall e, key :: 0 <= e < EVENT_SET_COUNT ==>
        (HasExact(cudaGraphExecs[e], key) <==>
           KeyStored(inputs, builds, |builds|, maxBatchSize, e, bufferSets, key))
    {
      assert builds[..|builds|] == builds;
      forall e | 0 <= e < EVENT_SET_COUNT
        ensures HoldsFirst(cudaGraphExecs[e], inputs, builds, |builds|, maxBatchSize, e, bufferSets)
      {
        IndexContents(inputs, builds, |builds|, maxBatchSize, e, bufferSets);
      }
      forall e, key | 0 <= e < EVENT_SET_COUNT
        ensures HasExact(cudaGraphExecs[e], key) <==>
          KeyStored(inputs, builds, |builds|, maxBatchSize, e, bufferSets, key)
      {
        KeysOfIndex(cudaGraphExecs[e], inputs, builds, |builds|, maxBatchSize, e, bufferSets, key);
      }
    }

    /** The store is what these builds make of it. */
    ghost predicate Holds(inputs: seq<Input>, builds: seq<Build>, maxBatchSize: nat, bufferSets: nat)
      reads this
      requires AllValid(inputs, builds, maxBatchSize) && bufferSets > 0
    {
      && |cudaGraphExecs| == EVENT_SET_COUNT
      && forall e :: 0 <= e < EVENT_SET_COUNT ==>
           cudaGraphExecs[e] == BuildIndex(inputs, builds, maxBatchSize, e, bufferSets)
    }

    /**
     The lookup of an execution in the store that InitializeCudaGraph left: the exact graph if there
     is one, or else, if allowed, the least that covers. With batching, the graph is of one of the
     specs and holds the batch size and every dimension of every input; an exact one was captured
     for the very shapes of the execution. Without batching none is ever found.
     */
    method Lookup(nextSet: nat, total: nat, shapes: seq<seq<int>>, allowInexactMatch: bool, before: bool,
                  ghost inputs: seq<Input>, ghost builds: seq<Build>, ghost maxBatchSize: nat, ghost bufferSets: nat)
      returns (graph: Option<CudaGraph>, foundExact: bool)
      requires nextSet < EVENT_SET_COUNT && bufferSets > 0 && (maxBatchSize > 0 || total == 1)
      requires AllValid(inputs, builds, maxBatchSize) && (maxBatchSize > 0 ==> OfRanks(inputs, builds, shapes))
      requires Holds(inputs, builds, maxBatchSize, bufferSets)
      ensures maxBatchSize == 0 ==> graph.None?
      ensures var (index, key) := (cudaGraphExecs[nextSet], Pack(total, shapes));
              && (!before ==> (foundExact <==> HasExact(index, key)))
              && (graph.Some? <==> HasExact(index, key) || (allowInexactMatch && HasCover(index, key)))
              && (graph.Some? ==>
                    exists entry :: IsFound(index, key, allowInexactMatch, entry) && graph.value == entry.graph)
              && (HasExact(index, key) ==> graph.Some? && graph.value.inputDims == shapes)
      ensures graph.Some? ==>
        && HoldsForBuild(graph.value, inputs, builds, maxBatchSize, total, shapes)
        && graph.value.capturedBuffer == nextSet % bufferSets
    {
      ghost var index, key := cudaGraphExecs[nextSet], Pack(total, shapes);
      BuiltFromSpecs(inputs, builds, maxBatchSize, shapes, nextSet, bufferSets);
      PackBelow(0, shapes, total, shapes);
      if maxBatchSize == 0 {
        NonBatchingFindsNothing(inputs, builds, nextSet, bufferSets, shapes);
      }
      graph, foundExact :=
        FindClosestCudaGraph(cudaGraphExecs[nextSet], Pack(total, shapes), allowInexactMatch, before);
      if graph.Some? {
        ghost var entry := EntryFound(index, key, allowInexactMatch, graph.value);
        LookupFitsPerInput(inputs, builds, maxBatchSize, nextSet, bufferSets, total, shapes, entry);
      }
    }
  }

  /** The entry behind a graph that the lookup returned. */
  lemma EntryFound(index: seq<Entry>, key: Key, allowInexactMatch: bool, graph: CudaGraph) returns (entry: Entry)
    requires if HasExact(index, key) then exists i :: 0 <= i < |index| && index[i].key == key && graph == index[i].graph
             else allowInexactMatch && exists i: nat :: LeastCover(index, key, i) && graph == index[i].graph
    ensures IsFound(index, key, allowInexactMatch, entry) && entry.graph == graph
    ensures Covers(entry, key) || entry.key == key
    ensures HasExact(index, key) ==> entry.key == key
  {
    if HasExact(index, key) {
      var i :| 0 <= i < |index| && index[i].key == key && graph == index[i].graph;
      entry := index[i];
    } else {
      var i: nat :| LeastCover(index, key, i) && graph == index[i].graph;
      entry := index[i];
    }
  }

  /** TensorRT accepts the shapes of a spec only if they have the ranks of the engine's inputs. */
  ghost predicate OfRanks(inputs: seq<Input>, builds: seq<Build>, ranks: seq<seq<int>>) {
    forall i :: 0 <= i < |builds| && Buildable(inputs, builds[i]) ==>
      SameRanks(ranks, GraphShapes(inputs, builds[i].spec))
  }

  /** A graph of this spec that can hold the execution: batch size and every dimension of every input. */
  ghost predicate HoldsExecution(graph: CudaGraph, inputs: seq<Input>, spec: GraphSpec, maxBatchSize: nat, total: int,
                                 shapes: seq<seq<int>>) {
    && ValidGraphSpec(spec, maxBatchSize) && Nameable(inputs, spec) && graph.inputDims == GraphShapes(inputs, spec)
    && spec.lowerBoundBatchSize <= total <= spec.batchSize
    && BelowEach(LowerShapes(inputs, spec, maxBatchSize), shapes) && BelowEach(shapes, graph.inputDims)
  }

  ghost predicate HoldsForBuild(graph: CudaGraph, inputs: seq<Input>, builds: seq<Build>, maxBatchSize: nat,
                                total: int, shapes: seq<seq<int>>) {
    exists i ::
      && 0 <= i < |builds| && Buildable(inputs, builds[i])
      && HoldsExecution(graph, inputs, builds[i].spec, maxBatchSize, total, shapes)
  }

  /** The entry comes from the spec of one of these builds. */
  ghost predicate FromBuilds(entry: Entry, inputs: seq<Input>, builds: seq<Build>, maxBatchSize: nat, buffer: nat)
    requires AllValid(inputs, builds, maxBatchSize)
  {
    exists i ::
      && 0 <= i < |builds| && Buildable(inputs, builds[i])
      && entry == SpecEntry(inputs, builds[i].spec, maxBatchSize, buffer)
  }

  lemma EntryOfRanks(inputs: seq<Input>, spec: GraphSpec, maxBatchSize: nat, buffer: nat, ranks: seq<seq<int>>)
    requires ValidGraphSpec(spec, maxBatchSize) && Nameable(inputs, spec) && maxBatchSize > 0
    requires SameRanks(ranks, GraphShapes(inputs, spec))
    ensures WellFormed(SpecEntry(inputs, spec, maxBatchSize, buffer), |Pack(0, ranks)|)
  {
    EntryWellFormed(inputs, spec, maxBatchSize, buffer);
    PackBelow(0, ranks, spec.batchSize, GraphShapes(inputs, spec));
  }

  lemma {:induction false} BuiltFromSpecs(
    inputs: seq<Input>, builds: seq<Build>, maxBatchSize: nat, ranks: seq<seq<int>>, e: nat, bufferSets: nat)
    requires AllValid(inputs, builds, maxBatchSize) && e < EVENT_SET_COUNT && bufferSets > 0
    ensures var index := BuildIndex(inputs, builds, maxBatchSize, e, bufferSets);
            && Sorted(index)
            && (maxBatchSize > 0 && OfRanks(inputs, builds, ranks) ==> Index(index, |Pack(0, ranks)|))
            && forall entry :: entry in index ==> FromBuilds(entry, inputs, builds, maxBatchSize, e % bufferSets)
  {
    if builds != [] {
      var rest, last := builds[..|builds| - 1], builds[|builds| - 1];
      BuiltFromSpecs(inputs, rest, maxBatchSize, ranks, e, bufferSets);
      var before := BuildIndex(inputs, rest, maxBatchSize, e, bufferSets);
      if Buildable(inputs, last) {
        var entry := SpecEntry(inputs, last.spec, maxBatchSize, e % bufferSets);
        InsertSorted(before, entry);
        InsertContents(before, entry);
        if maxBatchSize > 0 && OfRanks(inputs, builds, ranks) {
          assert OfRanks(inputs, rest, ranks);
          EntryOfRanks(inputs, last.spec, maxBatchSize, e % bufferSets, ranks);
          InsertKeepsIndex(before, entry, |Pack(0, ranks)|);
        }
      }
    }
  }

  lemma InsertKeepsIndex(index: seq<Entry>, entry: Entry, length: nat)
    requires Index(index, length) && WellFormed(entry, length)
    ensures Index(Insert(index, entry), length)
  {
    InsertSorted(index, entry);
    InsertContents(index, entry);
    forall i | 0 <= i < |Insert(index, entry)|
      ensures WellFormed(Insert(index, entry)[i], length)
    {
      assert Insert(index, entry)[i] in Insert(index, entry);
    }
  }

  /** For a batching model, an entry that covers an execution, or matches it, holds it input by input. */
  lemma LookupFitsPerInput(
    inputs: seq<Input>, builds: seq<Build>, maxBatchSize: nat, e: nat, bufferSets: nat,
    total: int, shapes: seq<seq<int>>, entry: Entry)
    requires AllValid(inputs, builds, maxBatchSize) && OfRanks(inputs, builds, shapes)
    requires e < EVENT_SET_COUNT && bufferSets > 0 && maxBatchSize > 0
    requires entry in BuildIndex(inputs, builds, maxBatchSize, e, bufferSets)
    requires Covers(entry, Pack(total, shapes)) || entry.key == Pack(total, shapes)
    ensures HoldsForBuild(entry.graph, inputs, builds, maxBatchSize, total, shapes)
    ensures entry.graph.capturedBuffer == e % bufferSets
    ensures entry.key == Pack(total, shapes) ==> entry.graph.inputDims == shapes
  {
    BuiltFromSpecs(inputs, builds, maxBatchSize, shapes, e, bufferSets);
    var k :| 0 <= k < |builds| && Buildable(inputs, builds[k])
      && entry == SpecEntry(inputs, builds[k].spec, maxBatchSize, e % bufferSets);
    EntryWellFormed(inputs, builds[k].spec, maxBatchSize, e % bufferSets);
    if entry.key == Pack(total, shapes) {
      PackInjective(total, shapes, builds[k].spec.batchSize, GraphShapes(inputs, builds[k].spec));
    }
    CoversPerInput(inputs, builds[k].spec, maxBatchSize, e % bufferSets, total, shapes);
  }

  /** Without batching no captured graph is ever found: all keys start with 0, every execution's key with 1. */
  lemma NonBatchingFindsNothing(
    inputs: seq<Input>, builds: seq<Build>, e: nat, bufferSets: nat, shapes: seq<seq<int>>)
    requires AllValid(inputs, builds, 0) && e < EVENT_SET_COUNT && bufferSets > 0
    ensures var index := BuildIndex(inputs, builds, 0, e, bufferSets);
            AllBefore(index, Pack(1, shapes)) && !HasExact(index, Pack(1, shapes)) && !HasCover(index, Pack(1, shapes))
  {
    BuiltFromSpecs(inputs, builds, 0, shapes, e, bufferSets);
    var index := BuildIndex(inputs, builds, 0, e, bufferSets);
    forall i | 0 <= i < |index|
      ensures index[i].key != [] && index[i].key[0] == 0
    {
      assert index[i] in index;
    }
  }

  // ----- Which buffer set a graph was captured against -----

  lemma BufferOf(n: nat, e: nat, b: nat)
    requires e > 0 && b > 0 && e % b == 0
    ensures (n % e) % b == n % b
  {
    Division(n, e);
    Division(e, b);
    Division(n % e, b);
    var q := (n / e) * (e / b) + (n % e) / b;
    assert (n / e) * e == ((n / e) * (e / b)) * b by {
      assert (n / e) * ((e / b) * b) == ((n / e) * (e / b)) * b;
    }
    assert q * b == ((n / e) * (e / b)) * b + ((n % e) / b) * b;
    RemainderIs(n, q, (n % e) % b, b);
  }

  /**
   The arithmetic of E event sets and B buffer sets that advance together: the buffer set of
   execution n is that of the graph under its event set, for every n, if and only if B divides E.
   */
  lemma GraphBufferAgreement(e: nat, b: nat)
    requires e > 0 && b > 0
    ensures (forall n: nat :: AgreesAt(n, e, b)) <==> e % b == 0
  {
    if e % b == 0 {
      forall n: nat
        ensures AgreesAt(n, e, b)
      {
        BufferOf(n, e, b);
      }
    } else {
      assert !AgreesAt(e, e, b);
    }
  }

  predicate AgreesAt(n: nat, e: nat, b: nat)
    requires e > 0 && b > 0
  {
    (n % e) % b == n % b
  }
}
