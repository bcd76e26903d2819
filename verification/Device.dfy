/**
 All instances of a model under one execution arbitrator, as one step machine whose
 steps are the uninterrupted sections of the issue threads and of the completion
 threads, in any interleaving (src/tensorrt.cc:366-415, src/model_state.cc:35-103).
 Under DEVICE_BLOCKING one issue thread serves the instances of a device in turn;
 under BLOCKING each instance has its own. All instances are registered before the
 first execution.
 */
module Device {
  import opened Options
  import opened Accounting
  import opened Pipeline

  datatype Policy = DeviceBlocking | InstanceBlocking

  /** Where an issue thread is in TRITONBACKEND_ModelInstanceExecute. */
  datatype Phase =
    | Ready                                                              // Execute may be called
    | Selected(current: nat, next: nat)                                  // ExecutionState has returned
    | InRun(current: nat, next: nat, batch: seq<Option<Request>>)        // in ProcessRequests, Run not finished
    | AwaitingStates(current: nat, next: nat)                            // in barrier_->get_future().wait()
    | Blocked(next: nat)                                                 // in semaphore->Acquire()

  datatype System = System(
    config: Config, policy: Policy,
    instances: seq<Instance>,
    idx: nat,               // InstanceList::idx_
    threads: seq<Phase>,    // one issue thread, or one per instance
    calls: seq<nat>         // history: the instance run by each call of the device's issue thread
  )

  datatype Step =
    | Arbitrate(thread: nat)
    | StartRun(thread: nat, requests: seq<Option<Request>>)
    | EndRun(thread: nat, script: Script)
    | PassBarrier(thread: nat)
    | Acquire(thread: nat)
    | Take(instance: nat)
    | Release(instance: nat)
    | UpdateStates(instance: nat, errors: seq<nat>)
    | FailUpdate(instance: nat, errors: seq<nat>)
    | Respond(instance: nat)

  // ----- Registration -----

  /** The semaphore count of the instance registered after `registered` others (model_state.cc:38-53 and 89-95). */
  function CountAfterRegistration(c: Config, policy: Policy, registered: nat): int {
    if policy.InstanceBlocking? || registered == 0 then c.Capacity() - 1 else c.Capacity()
  }

  function Start(c: Config, policy: Policy, count: nat): System
    requires count > 0
  {
    System(c, policy,
           seq(count, i requires 0 <= i < count => Initial(CountAfterRegistration(c, policy, i))),
           0, seq(if policy.DeviceBlocking? then 1 else count, _ => Ready), [])
  }

  // ----- Steps -----

  /** The instance whose slot a ready issue thread holds, which is also the one it will run next. */
  function NextInstance(s: System, thread: nat): nat {
    if s.policy.DeviceBlocking? then s.idx else thread
  }

  /** Finalize goes through the payload's responder; without one the completion thread does not get past it. */
  predicate CanUpdate(instance: Instance) {
    instance.completion.Finalizing? && instance.completion.payload.responder
  }

  predicate Enabled(s: System, step: Step) {
    match step
    case Arbitrate(t) => t < |s.threads| && s.threads[t].Ready? && NextInstance(s, t) < |s.instances|
    case StartRun(t, requests) =>
      && t < |s.threads| && s.threads[t].Selected? && s.threads[t].current < |s.instances|
      && s.instances[s.threads[t].current].nextSet < |s.instances[s.threads[t].current].recorder|
    case EndRun(t, script) =>
      && t < |s.threads| && s.threads[t].InRun? && s.threads[t].current < |s.instances|
      && script.For(|s.threads[t].batch|)
    case PassBarrier(t) =>
      && t < |s.threads| && s.threads[t].AwaitingStates? && s.threads[t].current < |s.instances|
      && s.instances[s.threads[t].current].barrier.Fulfilled?
    case Acquire(t) =>
      && t < |s.threads| && s.threads[t].Blocked? && s.threads[t].next < |s.instances|
      && s.instances[s.threads[t].next].count > 0
    case Take(i) => i < |s.instances| && s.instances[i].completion.Idle? && s.instances[i].queue != []
    case Release(i) => i < |s.instances| && s.instances[i].completion.WaitingForInput?
    case UpdateStates(i, _) => i < |s.instances| && CanUpdate(s.instances[i])
    case FailUpdate(i, _) => i < |s.instances| && CanUpdate(s.instances[i]) && s.config.implicitState
    case Respond(i) => i < |s.instances| && s.instances[i].completion.Responding?
  }

  /** The instance a step works on. */
  function Target(s: System, step: Step): (i: nat)
    requires Enabled(s, step)
    ensures i < |s.instances|
  {
    match step
    case Arbitrate(t) => NextInstance(s, t)
    case StartRun(t, _) => s.threads[t].current
    case EndRun(t, _) => s.threads[t].current
    case PassBarrier(t) => s.threads[t].current
    case Acquire(t) => s.threads[t].next
    case Take(i) => i
    case Release(i) => i
    case UpdateStates(i, _) => i
    case FailUpdate(i, _) => i
    case Respond(i) => i
  }

  /** What a step leaves of the instance it works on. */
  function Worked(s: System, step: Step): Instance
    requires Enabled(s, step)
  {
    var instance := s.instances[Target(s, step)];
    match step
    case Arbitrate(_) => instance
    case StartRun(_, requests) => BeginRun(s.config, instance, requests)
    case EndRun(t, script) => FinishRun(s.config, instance, s.threads[t].batch, script)
    case PassBarrier(_) => instance
    case Acquire(_) => Acquired(instance)
    case Take(_) => Taken(instance)
    case Release(_) => Released(instance)
    case UpdateStates(_, errors) => StatesUpdated(instance, errors)
    case FailUpdate(_, errors) => UpdateFailed(instance, errors)
    case Respond(_) => Responded(instance)
  }

  /** ExecutionState: the instance to run and the instance whose semaphore decides when the call returns. */
  function Arbitrated(s: System, thread: nat): System
    requires thread < |s.threads| && s.instances != []
  {
    var current := NextInstance(s, thread);
    var next := if s.policy.DeviceBlocking? then (s.idx + 1) % |s.instances| else thread;
    s.(idx := if s.policy.DeviceBlocking? then next else s.idx,
       threads := s.threads[thread := Selected(current, next)],
       calls := s.calls + [current])
  }

  predicate Waits(s: System, thread: nat, script: Script)
    requires Enabled(s, EndRun(thread, script))
  {
    s.config.implicitState && !RunFails(s.config, s.threads[thread].batch, script)
  }

  function Moved(s: System, step: Step): System
    requires Enabled(s, step)
  {
    match step
    case Arbitrate(t) => Arbitrated(s, t)
    case StartRun(t, requests) =>
      s.(threads := s.threads[t := InRun(s.threads[t].current, s.threads[t].next, requests)])
    case EndRun(t, script) =>
      var InRun(current, next, _) := s.threads[t];
      s.(threads := s.threads[t := if Waits(s, t, script) then AwaitingStates(current, next) else Blocked(next)])
    case PassBarrier(t) => s.(threads := s.threads[t := Blocked(s.threads[t].next)])
    case Acquire(t) => s.(threads := s.threads[t := Ready])
    case _ => s
  }

  function Apply(s: System, step: Step): System
    requires Enabled(s, step)
  {
    Moved(s, step).(instances := s.instances[Target(s, step) := Worked(s, step)])
  }

  predicate Runnable(s: System, steps: seq<Step>)
    decreases |steps|
  {
    steps == [] || (Enabled(s, steps[0]) && Runnable(Apply(s, steps[0]), steps[1..]))
  }

  function After(s: System, steps: seq<Step>): System
    requires Runnable(s, steps)
    decreases |steps|
  {
    if steps == [] then s else After(Apply(s, steps[0]), steps[1..])
  }

  // ----- The invariant -----

  /** The only issue thread that ever runs on instance i. */
  function ThreadOf(s: System, i: nat): nat {
    if s.policy.DeviceBlocking? then 0 else i
  }

  function RoleOf(s: System, i: nat): Role
    requires ThreadOf(s, i) < |s.threads|
  {
    match s.threads[ThreadOf(s, i)]
    case Ready => if NextInstance(s, ThreadOf(s, i)) == i then Holding else Away
    case Selected(current, _) => if current == i then Holding else Away
    case InRun(current, _, batch) => if current == i then Running(batch) else Away
    case AwaitingStates(current, _) => if current == i then Awaiting else Away
    case Blocked(_) => Away
  }

  ghost predicate PhaseOk(s: System, thread: nat)
    requires thread < |s.threads|
  {
    var phase := s.threads[thread];
    if phase.Ready? then true
    else
      && phase.next == NextInstance(s, thread)
      && (!phase.Blocked? ==> phase.current < |s.instances| && ThreadOf(s, phase.current) == thread)
  }

  ghost predicate Shape(s: System) {
    && s.instances != []
    && s.idx < |s.instances|
    && |s.threads| == (if s.policy.DeviceBlocking? then 1 else |s.instances|)
    && (forall t :: 0 <= t < |s.threads| ==> PhaseOk(s, t))
  }

  ghost predicate SystemInv(s: System) {
    Shape(s) && forall i :: 0 <= i < |s.instances| ==> Inv(s.config, s.instances[i], RoleOf(s, i))
  }

  lemma StartInv(c: Config, policy: Policy, count: nat)
    requires count > 0
    ensures SystemInv(Start(c, policy, count))
  {
    var s := Start(c, policy, count);
    forall i | 0 <= i < count
      ensures Inv(c, s.instances[i], RoleOf(s, i))
    {
      InitialInv(c, RoleOf(s, i));
    }
  }

  predicate OfIssueThread(step: Step) {
    step.Arbitrate? || step.StartRun? || step.EndRun? || step.PassBarrier? || step.Acquire?
  }

  lemma ShapeKept(s: System, step: Step)
    requires Shape(s) && Enabled(s, step)
    ensures Shape(Moved(s, step))
  {
    var s' := Moved(s, step);
    forall t | 0 <= t < |s'.threads|
      ensures PhaseOk(s', t)
    {
      assert PhaseOk(s, t);
    }
  }

  lemma OtherRolesKept(s: System, step: Step, i: nat)
    requires Shape(s) && Enabled(s, step) && i < |s.instances| && i != Target(s, step)
    ensures ThreadOf(s, i) < |Moved(s, step).threads| && RoleOf(Moved(s, step), i) == RoleOf(s, i)
  {
    if OfIssueThread(step) {
      assert PhaseOk(s, step.thread);
    }
  }

  /** How a step changes what the issue thread is doing with the instance the step works on. */
  ghost predicate RoleChange(s: System, step: Step, before: Role, after: Role)
    requires Enabled(s, step)
  {
    match step
    case Arbitrate(_) => before.Holding? && after.Holding?
    case StartRun(_, requests) => before.Holding? && after == Running(requests)
    case EndRun(t, script) =>
      before == Running(s.threads[t].batch) && after == if Waits(s, t, script) then Awaiting else Away
    case PassBarrier(_) => before.Awaiting? && after.Away?
    case Acquire(_) => before.Away? && after.Holding?
    case _ => before == after
  }

  lemma TargetRole(s: System, step: Step)
    requires Shape(s) && Enabled(s, step)
    ensures ThreadOf(s, Target(s, step)) < |Moved(s, step).threads|
    ensures RoleChange(s, step, RoleOf(s, Target(s, step)), RoleOf(Moved(s, step), Target(s, step)))
  {
    if OfIssueThread(step) {
      assert PhaseOk(s, step.thread);
    }
  }

  lemma WorkedInv(s: System, step: Step, before: Role, after: Role)
    requires Enabled(s, step) && RoleChange(s, step, before, after)
    requires Inv(s.config, s.instances[Target(s, step)], before)
    ensures Inv(s.config, Worked(s, step), after)
  {
    var instance := s.instances[Target(s, step)];
    match step
    case Arbitrate(_) =>
    case StartRun(_, requests) => BeginRunInv(s.config, instance, requests);
    case EndRun(t, script) => FinishRunInv(s.config, instance, s.threads[t].batch, script);
    case PassBarrier(_) => PassedBarrierInv(s.config, instance);
    case Acquire(_) => AcquiredInv(s.config, instance);
    case Take(_) => TakenInv(s.config, instance, before);
    case Release(_) => ReleasedInv(s.config, instance, before);
    case UpdateStates(_, errors) => StatesUpdatedInv(s.config, instance, before, errors);
    case FailUpdate(_, errors) => UpdateFailedInv(s.config, instance, before, errors);
    case Respond(_) => RespondedInv(s.config, instance, before);
  }

  /** The two halves of a step do not interfere: the shape and the roles only depend on the issue threads. */
  lemma ApplyMoves(s: System, step: Step)
    requires Shape(s) && Enabled(s, step)
    ensures Shape(Apply(s, step)) && Apply(s, step).config == s.config
    ensures |Apply(s, step).instances| == |s.instances|
    ensures forall i: nat :: i < |s.instances| ==>
      ThreadOf(s, i) < |Apply(s, step).threads| && RoleOf(Apply(s, step), i) == RoleOf(Moved(s, step), i)
  {
    ShapeKept(s, step);
    var s' := Apply(s, step);
    forall t | 0 <= t < |s'.threads|
      ensures PhaseOk(s', t)
    {
      assert PhaseOk(Moved(s, step), t);
    }
  }

  lemma InvKeptAt(s: System, step: Step, i: nat)
    requires Shape(s) && Enabled(s, step) && i < |s.instances|
    requires Inv(s.config, s.instances[i], RoleOf(s, i))
    ensures i < |Apply(s, step).instances| && ThreadOf(s, i) < |Apply(s, step).threads|
    ensures Inv(s.config, Apply(s, step).instances[i], RoleOf(Apply(s, step), i))
  {
    ApplyMoves(s, step);
    if i == Target(s, step) {
      TargetRole(s, step);
      WorkedInv(s, step, RoleOf(s, i), RoleOf(Moved(s, step), i));
    } else {
      OtherRolesKept(s, step, i);
    }
  }

  /** Every step of every thread keeps the invariant. */
  lemma StepKeepsInv(s: System, step: Step)
    requires SystemInv(s) && Enabled(s, step)
    ensures SystemInv(Apply(s, step))
  {
    ApplyMoves(s, step);
    forall i | 0 <= i < |s.instances| {
      InvKeptAt(s, step, i);
    }
  }

  lemma {:induction false} RunKeepsInv(s: System, steps: seq<Step>)
    requires SystemInv(s) && Runnable(s, steps)
    ensures SystemInv(After(s, steps)) && After(s, steps).config == s.config && After(s, steps).policy == s.policy
    ensures |After(s, steps).instances| == |s.instances|
    decreases |steps|
  {
    if steps != [] {
      StepKeepsInv(s, steps[0]);
      RunKeepsInv(Apply(s, steps[0]), steps[1..]);
    }
  }
}
