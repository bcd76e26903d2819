/**
 Whether the graph that an execution finds was captured against the buffers it runs on
 (src/instance_state.cc:383-394, 3217-3218 and 3518-3522, src/instance_state.h:119-128).
 */
module GraphBuffers {
  import opened Options
  import opened Accounting
  import opened GraphIndex
  import opened GraphSpecs
  import opened GraphStores
  import opened Pipeline
  import opened Device
  import opened DeviceProperties

  /** The index that instance inst looks into, as its captures left it. */
  function IndexOf(c: Config, inst: Instance, inputs: seq<Input>, builds: seq<Build>): seq<Entry>
    requires AllValid(inputs, builds, c.maxBatchSize) && inst.nextSet < EVENT_SET_COUNT
  {
    BuildIndex(inputs, builds, c.maxBatchSize, inst.nextSet, c.BufferSets())
  }

  /** An instance that has this batch in Run in some reachable state. */
  ghost predicate RunsBatch(c: Config, inst: Instance, batch: seq<Option<Request>>) {
    exists policy, count, s, i: nat ::
      && Reachable(c, policy, count, s) && i < |s.instances| && ThreadOf(s, i) < |s.threads|
      && RoleOf(s, i) == Running(batch) && s.instances[i] == inst
  }

  lemma RunningPlaces(c: Config, inst: Instance, batch: seq<Option<Request>>)
    requires RunsBatch(c, inst, batch)
    ensures inst.nextSet == inst.issued % EVENT_SET_COUNT && inst.nextBuffer == inst.issued % c.BufferSets()
  {
    var policy, count, s, i: nat :|
      && Reachable(c, policy, count, s) && i < |s.instances| && ThreadOf(s, i) < |s.threads|
      && RoleOf(s, i) == Running(batch) && s.instances[i] == inst;
    ReachableInv(c, policy, count, s);
    assert Inv(c, inst, RoleOf(s, i));
  }

  lemma CapturedAgainst(c: Config, inst: Instance, inputs: seq<Input>, builds: seq<Build>, entry: Entry)
    requires AllValid(inputs, builds, c.maxBatchSize) && inst.nextSet < EVENT_SET_COUNT
    requires entry in IndexOf(c, inst, inputs, builds)
    ensures entry.graph.capturedBuffer == inst.nextSet % c.BufferSets()
  {
    BuiltFromSpecs(inputs, builds, c.maxBatchSize, [], inst.nextSet, c.BufferSets());
  }

  /** The instance runs, and these builds left graphs for it. */
  ghost predicate RunsWith(c: Config, inst: Instance, batch: seq<Option<Request>>,
                           inputs: seq<Input>, builds: seq<Build>) {
    RunsBatch(c, inst, batch) && AllValid(inputs, builds, c.maxBatchSize) && inst.nextSet < EVENT_SET_COUNT
  }

  /** The graph was captured against the buffer set of the running execution. */
  predicate Matches(entry: Entry, inst: Instance) {
    entry.graph.capturedBuffer == inst.nextBuffer
  }

  /** Every graph under the event set of a running execution was captured against its buffer set. */
  ghost predicate GraphsAlwaysMatch(c: Config) {
    forall inst, batch, inputs, builds, entry ::
      RunsWith(c, inst, batch, inputs, builds) && entry in IndexOf(c, inst, inputs, builds) ==> Matches(entry, inst)
  }

  /** A batch of this total size gets as far as the lookup, if the calls of Run turn out as the script says. */
  predicate ReachesLookup(c: Config, batch: seq<Option<Request>>, script: Script, total: nat) {
    && script.For(|batch|) && !RunFails(c, batch, script)
    && total > 0 && BatchTotal(batch, c.maxBatchSize, script, |batch|) == Some(total)
  }

  /** The shapes that Run packs for a batch of this size: with batching, all but an input's own shape begin with it. */
  predicate AreShapesOf(shapes: seq<seq<int>>, inputs: seq<Input>, total: nat, batching: bool) {
    && |shapes| == |inputs|
    && forall k :: 0 <= k < |inputs| && batching && !inputs[k].ownShape ==> shapes[k] != [] && shapes[k][0] == total
  }

  /** This execution of the batch finds this graph. */
  ghost predicate Finds(c: Config, inst: Instance, batch: seq<Option<Request>>, inputs: seq<Input>, builds: seq<Build>,
                        script: Script, total: nat, shapes: seq<seq<int>>, allowInexactMatch: bool, entry: Entry) {
    && RunsWith(c, inst, batch, inputs, builds)
    && ReachesLookup(c, batch, script, total) && AreShapesOf(shapes, inputs, total, c.maxBatchSize > 0)
    && IsFound(IndexOf(c, inst, inputs, builds), Pack(total, shapes), allowInexactMatch, entry)
  }

  /** Every graph that a running execution finds was captured against its buffer set. */
  ghost predicate FoundGraphsMatch(c: Config) {
    forall inst, batch, inputs, builds, script, total, shapes, allowInexactMatch, entry ::
      Finds(c, inst, batch, inputs, builds, script, total, shapes, allowInexactMatch, entry) ==> Matches(entry, inst)
  }

  /**
   With a separate output stream, execution 3 of any model has none but graphs of the other buffer
   set: those under event set 0 were captured against buffer set 0, and it runs on buffer set 1.
   */
  lemma ThirdNeverMatches(c: Config) returns (inst: Instance)
    requires c.separateOutputStream
    ensures RunsBatch(c, inst, ONE_REQUEST) && inst.nextSet == 0
    ensures forall inputs, builds, entry ::
      RunsWith(c, inst, ONE_REQUEST, inputs, builds) && entry in IndexOf(c, inst, inputs, builds)
      ==> !Matches(entry, inst)
  {
    var s := ThirdExecution(c);
    inst := s.instances[0];
    assert ThreadOf(s, 0) < |s.threads|;
    forall inputs, builds, entry |
      RunsWith(c, inst, ONE_REQUEST, inputs, builds) && entry in IndexOf(c, inst, inputs, builds)
      ensures !Matches(entry, inst)
    {
      CapturedAgainst(c, inst, inputs, builds, entry);
    }
  }

  /** The spec made by default for a batch of one, with captures that all succeed. */
  function DefaultBuild(c: Config): (build: Build)
    ensures forall input :: ValidBuild([input], build, c.maxBatchSize) && Buildable([input], build)
  {
    var batchSize := if c.maxBatchSize == 0 then 0 else 1;
    Build(GraphSpec(batchSize, map[], batchSize, map[]), false, [true], true, [Captured, Captured, Captured])
  }

  /** Whatever the one input of an engine, the index under event set 0 is the graph of that spec. */
  lemma DefaultIndex(c: Config, inst: Instance, input: Input) returns (entry: Entry)
    requires inst.nextSet == 0
    ensures AllValid([input], [DefaultBuild(c)], c.maxBatchSize)
    ensures entry == SpecEntry([input], DefaultBuild(c).spec, c.maxBatchSize, 0)
    ensures IndexOf(c, inst, [input], [DefaultBuild(c)]) == [entry]
  {
    var build := DefaultBuild(c);
    assert ValidBuild([input], build, c.maxBatchSize) && Buildable([input], build);
    entry := SpecEntry([input], build.spec, c.maxBatchSize, 0);
    var builds := [build];
    assert builds[..0] == [] && BuildIndex([input], builds[..0], c.maxBatchSize, 0, c.BufferSets()) == [];
    assert AfterCapture([], entry, 0, c.BufferSets(), build.captures) == Insert([], entry) == [entry];
  }

  /** With one stream, a graph found under the event set of execution n is of buffer set n mod B. */
  lemma OneStreamMatches(c: Config, inst: Instance, batch: seq<Option<Request>>, inputs: seq<Input>,
                         builds: seq<Build>, entry: Entry)
    requires !c.separateOutputStream
    requires RunsWith(c, inst, batch, inputs, builds) && entry in IndexOf(c, inst, inputs, builds)
    ensures Matches(entry, inst)
  {
    RunningPlaces(c, inst, batch);
    CapturedAgainst(c, inst, inputs, builds, entry);
    BufferOf(inst.issued, EVENT_SET_COUNT, c.BufferSets());
  }

  /**
   The graphs under the event set of a running execution always match its buffers, for any
   arbitrator, interleaving, specs and outcome of the captures, if and only if the model has
   no separate output stream.
   */
  lemma GraphsNeedOneStream(c: Config)
    ensures GraphsAlwaysMatch(c) <==> !c.separateOutputStream
  {
    if c.separateOutputStream {
      var inst := ThirdNeverMatches(c);
      var input := Input("input", false, [1]);
      var entry := DefaultIndex(c, inst, input);
      assert RunsWith(c, inst, ONE_REQUEST, [input], [DefaultBuild(c)]);
      assert !Matches(entry, inst);
    } else {
      forall inst, batch, inputs, builds, entry |
        RunsWith(c, inst, batch, inputs, builds) && entry in IndexOf(c, inst, inputs, builds)
        ensures Matches(entry, inst)
      {
        OneStreamMatches(c, inst, batch, inputs, builds, entry);
      }
    }
  }

  /** With batching, execution 3 with a batch of one finds the graph made for that, of the other buffer set. */
  lemma MismatchOnThird(c: Config, input: Input)
    returns (inst: Instance, shapes: seq<seq<int>>, entry: Entry)
    requires c.separateOutputStream && c.maxBatchSize > 0 && input.optDims != []
    ensures Finds(c, inst, ONE_REQUEST, [input], [DefaultBuild(c)], NO_FAILURE, 1, shapes, false, entry)
    ensures !Matches(entry, inst)
  {
    inst := ThirdNeverMatches(c);
    entry := DefaultIndex(c, inst, input);
    shapes := GraphShapes([input], DefaultBuild(c).spec);
    OneRequestSucceeds(c);
    assert RunsWith(c, inst, ONE_REQUEST, [input], [DefaultBuild(c)]);
    var index := IndexOf(c, inst, [input], [DefaultBuild(c)]);
    assert index[0] == entry && entry.key == Pack(1, shapes);
    assert HasExact(index, Pack(1, shapes));
  }

  lemma TotalIsOne(c: Config, batch: seq<Option<Request>>, script: Script, total: nat)
    requires c.maxBatchSize == 0 && ReachesLookup(c, batch, script, total)
    ensures total == 1
  {
  }

  lemma NothingFound(c: Config, inst: Instance, batch: seq<Option<Request>>, inputs: seq<Input>, builds: seq<Build>,
                     script: Script, total: nat, shapes: seq<seq<int>>, allowInexactMatch: bool, entry: Entry)
    requires c.maxBatchSize == 0
    ensures !Finds(c, inst, batch, inputs, builds, script, total, shapes, allowInexactMatch, entry)
  {
    if Finds(c, inst, batch, inputs, builds, script, total, shapes, allowInexactMatch, entry) {
      TotalIsOne(c, batch, script, total);
      NonBatchingFindsNothing(inputs, builds, inst.nextSet, c.BufferSets(), shapes);
    }
  }

  /** The graphs that executions find always match also without batching, when none is found at all. */
  lemma FoundGraphsNeedOneStream(c: Config)
    ensures FoundGraphsMatch(c) <==> !c.separateOutputStream || c.maxBatchSize == 0
  {
    if c.maxBatchSize == 0 {
      forall inst, batch, inputs, builds, script, total, shapes, allowInexactMatch, entry {
        NothingFound(c, inst, batch, inputs, builds, script, total, shapes, allowInexactMatch, entry);
      }
    } else if c.separateOutputStream {
      var inst, shapes, entry := MismatchOnThird(c, Input("input", false, [1]));
    } else {
      GraphsNeedOneStream(c);
    }
  }
}
