/**
 Results about every run of the device machine: any number of instances, either
 arbitrator, any interleaving of the threads, any outcome of the outside calls.
 */
module DeviceProperties {
  import opened Arithmetic
  import opened Options
  import opened Accounting
  import opened Pipeline
  import opened Device

  /** s is reached from the registered instances by some run. */
  ghost predicate Reachable(c: Config, policy: Policy, count: nat, s: System) {
    count > 0 && exists steps :: Runnable(Start(c, policy, count), steps) && After(Start(c, policy, count), steps) == s
  }

  lemma ReachableInv(c: Config, policy: Policy, count: nat, s: System)
    requires Reachable(c, policy, count, s)
    ensures SystemInv(s) && s.config == c && s.policy == policy && |s.instances| == count
  {
    StartInv(c, policy, count);
    var steps :| Runnable(Start(c, policy, count), steps) && After(Start(c, policy, count), steps) == s;
    RunKeepsInv(Start(c, policy, count), steps);
  }

  lemma {:induction false} RunThenStep(s: System, steps: seq<Step>, step: Step)
    requires Runnable(s, steps) && Enabled(After(s, steps), step)
    ensures Runnable(s, steps + [step]) && After(s, steps + [step]) == Apply(After(s, steps), step)
    decreases |steps|
  {
    if steps == [] {
      assert (steps + [step])[1..] == [];
    } else {
      RunThenStep(Apply(s, steps[0]), steps[1..], step);
      assert (steps + [step])[1..] == steps[1..] + [step];
    }
  }

  lemma ReachableStep(c: Config, policy: Policy, count: nat, s: System, step: Step)
    requires Reachable(c, policy, count, s) && Enabled(s, step)
    ensures Reachable(c, policy, count, Apply(s, step))
  {
    var steps :| Runnable(Start(c, policy, count), steps) && After(Start(c, policy, count), steps) == s;
    RunThenStep(Start(c, policy, count), steps, step);
  }

  // ----- Tokens and turns -----

  /**
   Token conservation: for each instance, free slots, unreleased payloads and the
   slot held by the issue thread add up to the capacity. So no instance runs without
   a slot, and none has more unreleased executions than its capacity.
   */
  lemma TokenConservation(c: Config, policy: Policy, count: nat, s: System, i: nat)
    requires Reachable(c, policy, count, s) && i < count
    ensures i < |s.instances| && ThreadOf(s, i) < |s.threads|
    ensures s.instances[i].count >= 0
    ensures s.instances[i].count + Unreleased(s.instances[i]) + (if HasToken(RoleOf(s, i)) then 1 else 0)
         == c.Capacity()
  {
    ReachableInv(c, policy, count, s);
    assert Inv(c, s.instances[i], RoleOf(s, i));
  }

  ghost predicate InTurn(s: System) {
    s.instances != [] && (s.policy.DeviceBlocking? ==>
      && s.idx == |s.calls| % |s.instances|
      && forall j :: 0 <= j < |s.calls| ==> s.calls[j] == j % |s.instances|)
  }

  lemma {:induction false} RunInTurn(s: System, steps: seq<Step>)
    requires InTurn(s) && Runnable(s, steps)
    ensures InTurn(After(s, steps))
    decreases |steps|
  {
    if steps != [] {
      if steps[0].Arbitrate? && s.policy.DeviceBlocking? {
        NextInRing(|s.calls|, |s.instances|);
      }
      RunInTurn(Apply(s, steps[0]), steps[1..]);
    }
  }

  /** Under DEVICE_BLOCKING the j-th call on a device runs instance j mod m of its m instances. */
  lemma RoundRobin(c: Config, count: nat, s: System, j: nat)
    requires Reachable(c, DeviceBlocking, count, s) && j < |s.calls|
    ensures s.calls[j] == j % count
  {
    ReachableInv(c, DeviceBlocking, count, s);
    var start := Start(c, DeviceBlocking, count);
    var steps :| Runnable(start, steps) && After(start, steps) == s;
    RunInTurn(start, steps);
  }

  // ----- Event sets and buffer sets -----

  /** The unreleased payloads and the running execution of an instance use distinct event sets, in either mode. */
  lemma UnreleasedAreExclusive(c: Config, policy: Policy, count: nat, s: System, i: nat)
    requires Reachable(c, policy, count, s) && i < count
    ensures i < |s.instances| && ThreadOf(s, i) < |s.threads|
    ensures var (inst, role) := (s.instances[i], RoleOf(s, i));
            var u := UnreleasedPayloads(inst);
            && |u| + (if HasToken(role) then 1 else 0) <= c.Capacity() <= EVENT_SET_COUNT
            && (forall k :: 0 <= k < |u| ==> u[k].number == inst.issued - |u| + k)
            && (forall j, k :: 0 <= j < k < |u| ==> u[j].eventSet != u[k].eventSet)
            && (role.Running? ==> forall k :: 0 <= k < |u| ==> u[k].eventSet != inst.nextSet)
  {
    ReachableInv(c, policy, count, s);
    UnreleasedAreContiguous(c, s.instances[i], RoleOf(s, i));
  }

  ghost predicate AlwaysExclusive(c: Config) {
    forall policy, count, s, i: nat ::
      Reachable(c, policy, count, s) && i < |s.instances| && ThreadOf(s, i) < |s.threads|
      ==> Exclusive(s.instances[i], RoleOf(s, i))
  }

  /**
   No two payloads that are running, queued or still being finalized ever share an
   event set, in any reachable state, if and only if batching is not eager or the
   model has implicit state.
   */
  lemma ExclusivityCharacterised(c: Config)
    ensures AlwaysExclusive(c) <==> !c.eagerBatching || c.implicitState
  {
    if !c.eagerBatching || c.implicitState {
      forall policy, count, s, i: nat |
        Reachable(c, policy, count, s) && i < |s.instances| && ThreadOf(s, i) < |s.threads|
        ensures Exclusive(s.instances[i], RoleOf(s, i))
      {
        ReachableInv(c, policy, count, s);
        FewInFlightExclusive(c, s.instances[i], RoleOf(s, i));
      }
    } else {
      var s := SharedEventSet(c);
      assert InFlight(s.instances[0])[0] == s.instances[0].completion.payload;
      assert !Exclusive(s.instances[0], RoleOf(s, 0));
    }
  }

  const ONE_REQUEST: seq<Option<Request>> := [Some(Request(0))]
  const NO_FAILURE: Script := Script([Some(1)], true, [None], [None], [])

  lemma OneRequestSucceeds(c: Config)
    ensures !ZeroBatch(ONE_REQUEST, c.maxBatchSize, NO_FAILURE) && !RunFails(c, ONE_REQUEST, NO_FAILURE)
    ensures BatchTotal(ONE_REQUEST, c.maxBatchSize, NO_FAILURE, 1) == Some(1)
  {
    assert BatchTotal(ONE_REQUEST, c.maxBatchSize, NO_FAILURE, 0) == Some(0);
    assert BatchTotal(ONE_REQUEST, c.maxBatchSize, NO_FAILURE, 1) == Some(1);
    assert Play(ONE_REQUEST, [None], [], Effects(Objects([None]), [], [])).requests == ONE_REQUEST;
    assert ONE_REQUEST[0].Some?;
  }

  /** A reachable state of a model with one instance. */
  ghost predicate Single(c: Config, s: System) {
    && Reachable(c, InstanceBlocking, 1, s) && s.policy.InstanceBlocking? && s.config == c
    && |s.instances| == 1 && |s.threads| == 1
  }

  lemma SingleStep(c: Config, s: System, step: Step)
    requires Single(c, s) && Enabled(s, step)
    ensures Single(c, Apply(s, step))
  {
    ReachableStep(c, InstanceBlocking, 1, s, step);
  }

  /** A call of the issue thread as far as Run. */
  lemma EnterRun(c: Config, s: System) returns (s': System)
    requires Single(c, s) && s.threads[0].Ready?
    ensures Single(c, s') && s'.threads[0] == InRun(0, 0, ONE_REQUEST)
    ensures s.instances[0].nextSet < |s.instances[0].recorder|
    ensures s'.instances == [BeginRun(c, s.instances[0], ONE_REQUEST)]
  {
    ReachableInv(c, InstanceBlocking, 1, s);
    assert Inv(c, s.instances[0], RoleOf(s, 0));
    var selected := Apply(s, Arbitrate(0));
    SingleStep(c, s, Arbitrate(0));
    s' := Apply(selected, StartRun(0, ONE_REQUEST));
    SingleStep(c, selected, StartRun(0, ONE_REQUEST));
  }

  /** The same up to the end of Run, for a batch that does not fail: its payload is the last in the queue. */
  lemma Issue(c: Config, s: System) returns (s': System)
    requires Single(c, s) && s.threads[0].Ready?
    ensures Single(c, s') && s'.threads[0] == if c.implicitState then AwaitingStates(0, 0) else Blocked(0)
    ensures var (before, after) := (s.instances[0], s'.instances[0]);
            && after.count == before.count && after.completion == before.completion
            && |after.queue| == |before.queue| + 1 && after.queue[|before.queue|].responder
            && after.queue[..|before.queue|] == before.queue
            && after.issued == before.issued + 1 && after.done == before.done
            && (c.implicitState ==> after.barrier.Pending?)
  {
    OneRequestSucceeds(c);
    RunLeaves(ONE_REQUEST, c.maxBatchSize, NO_FAILURE);
    var running := EnterRun(c, s);
    s' := Apply(running, EndRun(0, NO_FAILURE));
    SingleStep(c, running, EndRun(0, NO_FAILURE));
  }

  /** A whole call of the issue thread for a batch that does not fail, with a free slot left for the next call. */
  lemma IssueOne(c: Config, s: System) returns (s': System)
    requires Single(c, s) && !c.implicitState
    requires s.threads[0].Ready? && s.instances[0].count > 0
    ensures Single(c, s') && s'.threads[0].Ready?
    ensures var (before, after) := (s.instances[0], s'.instances[0]);
            && after.count == before.count - 1 && after.completion == before.completion
            && |after.queue| == |before.queue| + 1 && after.queue[..|before.queue|] == before.queue
            && after.issued == before.issued + 1 && after.done == before.done
  {
    var blocked := Issue(c, s);
    s' := Apply(blocked, Acquire(0));
    SingleStep(c, blocked, Acquire(0));
  }

  /** The completion thread answers the payload whose slot is released. */
  lemma AnswerOne(c: Config, s: System) returns (s': System)
    requires Single(c, s) && CanUpdate(s.instances[0])
    ensures Single(c, s') && s'.threads == s.threads
    ensures var (before, after) := (s.instances[0], s'.instances[0]);
            && after.completion.Idle? && after.queue == before.queue && after.count == before.count
            && after.issued == before.issued && (before.barrier.Pending? ==> after.barrier.Fulfilled?)
  {
    var updated := Apply(s, UpdateStates(0, []));
    SingleStep(c, s, UpdateStates(0, []));
    s' := Apply(updated, Respond(0));
    SingleStep(c, updated, Respond(0));
  }

  /** A call of the issue thread and all that follows from it, for a batch that does not fail. */
  lemma IssueAndAnswer(c: Config, s: System) returns (s': System)
    requires Single(c, s) && s.threads[0].Ready?
    requires s.instances[0].completion.Idle? && s.instances[0].queue == [] && s.instances[0].count >= 0
    ensures Single(c, s') && s'.threads[0].Ready?
    ensures var (before, after) := (s.instances[0], s'.instances[0]);
            && after.completion.Idle? && after.queue == [] && after.count >= 0 && after.issued == before.issued + 1
  {
    var issued := Issue(c, s);
    assert issued.instances[0].completion.Idle? && |issued.instances[0].queue| == 1;
    var released := ReleaseOne(c, issued);
    var blocked := AnswerOne(c, released);
    if c.implicitState {
      SingleStep(c, blocked, PassBarrier(0));
      blocked := Apply(blocked, PassBarrier(0));
    }
    s' := Apply(blocked, Acquire(0));
    SingleStep(c, blocked, Acquire(0));
  }

  /** Execution 3 in Run, with everything before it done. */
  lemma ThirdExecution(c: Config) returns (s: System)
    ensures Single(c, s) && RoleOf(s, 0) == Running(ONE_REQUEST) && s.instances[0].issued == 3
    ensures s.instances[0].nextSet == 0 && s.instances[0].nextBuffer == 3 % c.BufferSets()
  {
    var start := Start(c, InstanceBlocking, 1);
    assert After(start, []) == start;
    var one := IssueAndAnswer(c, start);
    var two := IssueAndAnswer(c, one);
    var three := IssueAndAnswer(c, two);
    s := EnterRun(c, three);
    ReachableInv(c, InstanceBlocking, 1, s);
    assert Inv(c, s.instances[0], RoleOf(s, 0));
  }

  /** The completion thread takes the oldest payload and releases its slot. */
  lemma ReleaseOne(c: Config, s: System) returns (s': System)
    requires Single(c, s) && s.instances[0].completion.Idle? && s.instances[0].queue != []
    ensures Single(c, s') && s'.threads == s.threads
    ensures var (before, after) := (s.instances[0], s'.instances[0]);
            after == before.(completion := Finalizing(before.queue[0]), queue := before.queue[1..],
                             count := before.count + 1)
  {
    var taken := Apply(s, Take(0));
    SingleStep(c, s, Take(0));
    s' := Apply(taken, Release(0));
    SingleStep(c, taken, Release(0));
  }

  /** Execution 3 runs on event set 0 while payload 0, whose slot is released, is still being finalized. */
  lemma SharedEventSet(c: Config) returns (s: System)
    requires c.eagerBatching && !c.implicitState
    ensures Single(c, s) && RoleOf(s, 0).Running?
    ensures s.instances[0].completion.Finalizing?
    ensures s.instances[0].completion.payload.eventSet == s.instances[0].nextSet
  {
    var start := Start(c, InstanceBlocking, 1);
    assert After(start, []) == start;
    var one := IssueOne(c, start);
    var released := ReleaseOne(c, one);
    var two := IssueOne(c, released);
    var three := IssueOne(c, two);
    s := EnterRun(c, three);
    ReachableInv(c, InstanceBlocking, 1, s);
    var inst := s.instances[0];
    assert Inv(c, inst, RoleOf(s, 0));
    assert inst.issued == 3 && inst.done == 0;
    assert InFlight(inst)[0] == inst.completion.payload && InPlace(c, InFlight(inst)[0]);
  }

  // ----- Output buffers -----

  /** The payloads whose outputs may still be on their way out of their buffer set. */
  function OutputsPending(s: Instance): seq<Payload> {
    if s.completion.WaitingForInput? || s.completion.Finalizing? then [s.completion.payload] + s.queue else s.queue
  }

  ghost predicate OutputsApart(s: Instance, role: Role) {
    role.Running? ==> forall k :: 0 <= k < |OutputsPending(s)| ==> OutputsPending(s)[k].bufferSet != s.nextBuffer
  }

  ghost predicate AlwaysOutputsApart(c: Config) {
    forall policy, count, s, i: nat ::
      Reachable(c, policy, count, s) && i < |s.instances| && ThreadOf(s, i) < |s.threads|
      ==> OutputsApart(s.instances[i], RoleOf(s, i))
  }

  lemma OutputsApartIf(c: Config, s: Instance, role: Role)
    requires Inv(c, s, role) && (c.implicitState || (c.separateOutputStream && !c.eagerBatching))
    ensures OutputsApart(s, role)
  {
    if role.Running? && !c.implicitState {
      NonEagerOverlap(c, s, role.batch);
      forall k | 0 <= k < |OutputsPending(s)|
        ensures OutputsPending(s)[k] == InFlight(s)[k]
      {
      }
    }
  }

  /** Without a separate output stream, execution 1 runs while payload 0 is being finalized in the only buffer set. */
  lemma SharedOnlyBuffer(c: Config) returns (s: System)
    requires !c.implicitState && !c.separateOutputStream
    ensures Single(c, s) && !OutputsApart(s.instances[0], RoleOf(s, 0))
  {
    var start := Start(c, InstanceBlocking, 1);
    assert After(start, []) == start;
    var issued := Issue(c, start);
    var released := ReleaseOne(c, issued);
    var ready := Apply(released, Acquire(0));
    SingleStep(c, released, Acquire(0));
    s := EnterRun(c, ready);
    ReachableInv(c, InstanceBlocking, 1, s);
    var inst := s.instances[0];
    assert Inv(c, inst, RoleOf(s, 0));
    assert InFlight(inst)[0] == inst.completion.payload == OutputsPending(inst)[0] && InPlace(c, InFlight(inst)[0]);
  }

  /** With eager batching and two buffer sets, execution 2 runs while payload 0 has not left the queue. */
  lemma SharedBufferSet(c: Config) returns (s: System)
    requires c.eagerBatching && !c.implicitState && c.separateOutputStream
    ensures Single(c, s) && !OutputsApart(s.instances[0], RoleOf(s, 0)) && s.instances[0].completion.Idle?
  {
    var start := Start(c, InstanceBlocking, 1);
    assert After(start, []) == start;
    var one := IssueOne(c, start);
    var two := IssueOne(c, one);
    s := EnterRun(c, two);
    ReachableInv(c, InstanceBlocking, 1, s);
    var inst := s.instances[0];
    assert Inv(c, inst, RoleOf(s, 0));
    assert inst.issued == 2 && inst.done == 0;
    assert InFlight(inst)[0] == inst.queue[0] == OutputsPending(inst)[0] && InPlace(c, InFlight(inst)[0]);
  }

  /** The buffer set of the running execution is that of no payload in flight. */
  ghost predicate BuffersApart(s: Instance, role: Role) {
    role.Running? ==> forall k :: 0 <= k < |InFlight(s)| ==> InFlight(s)[k].bufferSet != s.nextBuffer
  }

  ghost predicate AlwaysBuffersApart(c: Config) {
    forall policy, count, s, i: nat ::
      Reachable(c, policy, count, s) && i < |s.instances| && ThreadOf(s, i) < |s.threads|
      ==> BuffersApart(s.instances[i], RoleOf(s, i))
  }

  lemma BuffersApartIf(c: Config, s: Instance, role: Role)
    requires Inv(c, s, role) && c.separateOutputStream && (!c.eagerBatching || c.implicitState)
    ensures BuffersApart(s, role)
  {
    if role.Running? {
      assert s.done >= s.issued - 1;
      if InFlight(s) != [] {
        assert InPlace(c, InFlight(s)[0]);
        BufferTurn(s.issued, c.BufferSets());
      }
    }
  }

  /**
   With a separate output stream, whose buffer sets take turns, no payload in flight shares
   the buffer set of the running execution if and only if batching is not eager or the model
   has implicit state. The wait on output_ready_ of its own event set does not help otherwise:
   that is execution n-3, which used the other buffer set.
   */
  lemma BufferSetsCharacterised(c: Config)
    requires c.separateOutputStream
    ensures AlwaysBuffersApart(c) <==> !c.eagerBatching || c.implicitState
  {
    if !c.eagerBatching || c.implicitState {
      forall policy, count, s, i: nat |
        Reachable(c, policy, count, s) && i < |s.instances| && ThreadOf(s, i) < |s.threads|
        ensures BuffersApart(s.instances[i], RoleOf(s, i))
      {
        ReachableInv(c, policy, count, s);
        BuffersApartIf(c, s.instances[i], RoleOf(s, i));
      }
    } else {
      var s := SharedBufferSet(c);
      assert ThreadOf(s, 0) < |s.threads|;
      assert OutputsPending(s.instances[0]) == InFlight(s.instances[0]);
    }
  }

  /**
   No execution ever runs on a buffer set whose outputs are still pending if and only if the
   model has implicit state, or outputs have their own stream and batching is not eager.
   */
  lemma OutputReuseCharacterised(c: Config)
    ensures AlwaysOutputsApart(c) <==> c.implicitState || (c.separateOutputStream && !c.eagerBatching)
  {
    if c.implicitState || (c.separateOutputStream && !c.eagerBatching) {
      forall policy, count, s, i: nat |
        Reachable(c, policy, count, s) && i < |s.instances| && ThreadOf(s, i) < |s.threads|
        ensures OutputsApart(s.instances[i], RoleOf(s, i))
      {
        ReachableInv(c, policy, count, s);
        OutputsApartIf(c, s.instances[i], RoleOf(s, i));
      }
    } else if c.separateOutputStream {
      var s := SharedBufferSet(c);
      assert ThreadOf(s, 0) < |s.threads|;
    } else {
      var s := SharedOnlyBuffer(c);
      assert ThreadOf(s, 0) < |s.threads|;
    }
  }

  /**
   Ordering of input buffer reuse: whenever an execution runs, prev_set holds exactly
   the events of the last execution on the same buffer set.
   */
  lemma PrevSetOrdersBufferReuse(c: Config, policy: Policy, count: nat, s: System, i: nat)
    requires Reachable(c, policy, count, s) && i < count
    ensures i < |s.instances| && ThreadOf(s, i) < |s.threads|
    ensures RoleOf(s, i).Running? ==> ReuseOrdered(c, s.instances[i])
  {
    ReachableInv(c, policy, count, s);
    assert Inv(c, s.instances[i], RoleOf(s, i));
    if RoleOf(s, i).Running? {
      RunningIsReuseOrdered(c, s.instances[i], RoleOf(s, i).batch);
    }
  }

  /**
   Without eager batching, a running execution overlaps at most the finalizing of the one
   before it, on the other buffer set if there are two.
   */
  lemma NonEagerOverlapBound(c: Config, policy: Policy, count: nat, s: System, i: nat)
    requires Reachable(c, policy, count, s) && i < count && !c.eagerBatching
    ensures i < |s.instances| && ThreadOf(s, i) < |s.threads|
    ensures RoleOf(s, i).Running? ==> OverlapBounded(c, s.instances[i])
  {
    ReachableInv(c, policy, count, s);
    assert Inv(c, s.instances[i], RoleOf(s, i));
    if RoleOf(s, i).Running? {
      NonEagerOverlap(c, s.instances[i], RoleOf(s, i).batch);
    }
  }

  // ----- Implicit state, requests and responses -----

  /**
   With implicit state, whenever an execution runs, the promises of all executions
   before it have been fulfilled, each exactly once, in order and after the update of
   its own states, also when failed runs reset the barrier in between.
   */
  lemma ImplicitStateOrder(c: Config, policy: Policy, count: nat, s: System, i: nat)
    requires Reachable(c, policy, count, s) && i < count && c.implicitState
    ensures i < |s.instances| && ThreadOf(s, i) < |s.threads|
    ensures var inst := s.instances[i];
            && !inst.barrier.FulfilledTwice?
            && inst.fulfilled == inst.updated == seq(|inst.updated|, k => k)
            && (RoleOf(s, i).Running? ==> |inst.updated| == inst.issued && inst.barrier == Pending(inst.issued))
  {
    ReachableInv(c, policy, count, s);
    StateOrder(c, s.instances[i], RoleOf(s, i));
  }

  /**
   In every reachable state the requests handed to an instance are released, running or in
   flight, each once; likewise its responses.
   */
  lemma NothingLost(c: Config, policy: Policy, count: nat, s: System, i: nat)
    requires Reachable(c, policy, count, s) && i < count
    ensures i < |s.instances| && ThreadOf(s, i) < |s.threads|
    ensures var (inst, role) := (s.instances[i], RoleOf(s, i));
            && Balanced(inst.accepted, inst.effects.released, RequestsOf(InFlight(inst)) + Held(role))
            && Balanced(inst.effects.created, inst.effects.sent, ResponsesOf(InFlight(inst)))
  {
    ReachableInv(c, policy, count, s);
    assert Inv(c, s.instances[i], RoleOf(s, i));
  }
}
