/**
 Deadlock freedom and draining. The GPU events are assumed to fire, so a completion thread
 that holds a payload with a responder can always go on.
 */
module DeviceProgress {
  import opened Options
  import opened Accounting
  import opened Pipeline
  import opened Device
  import opened DeviceProperties

  function Total(work: seq<nat>): nat {
    if work == [] then 0 else work[0] + Total(work[1..])
  }

  lemma {:induction false} TotalUpdate(work: seq<nat>, i: nat, w: nat)
    requires i < |work|
    ensures Total(work[i := w]) + work[i] == Total(work) + w
  {
    if i == 0 {
      assert work[i := w][1..] == work[1..];
    } else {
      TotalUpdate(work[1..], i - 1, w);
      assert work[i := w][1..] == work[1..][i - 1 := w];
    }
  }

  /** The steps an instance still has to make for the payloads it holds. */
  function InstanceWork(s: Instance): nat {
    4 * |s.queue| +
    match s.completion
    case Idle => 0
    case WaitingForInput(_) => 3
    case Finalizing(_) => 2
    case Responding(_) => 1
    case Ended => 0
  }

  /** The steps that can follow from where an issue thread is, those of the payload it may add included. */
  function PhaseWork(phase: Phase): nat {
    match phase
    case Ready => 0
    case Blocked(_) => 1
    case AwaitingStates(_, _) => 2
    case InRun(_, _, _) => 7
    case Selected(_, _) => 8
  }

  function InstanceWorks(s: System): seq<nat> {
    seq(|s.instances|, i requires 0 <= i < |s.instances| => InstanceWork(s.instances[i]))
  }

  function PhaseWorks(s: System): seq<nat> {
    seq(|s.threads|, t requires 0 <= t < |s.threads| => PhaseWork(s.threads[t]))
  }

  function Measure(s: System): nat {
    Total(InstanceWorks(s)) + Total(PhaseWorks(s))
  }

  lemma InstanceWorkAfter(s: System, step: Step)
    requires Enabled(s, step)
    ensures Total(InstanceWorks(Apply(s, step))) + InstanceWork(s.instances[Target(s, step)])
            == Total(InstanceWorks(s)) + InstanceWork(Worked(s, step))
  {
    var i := Target(s, step);
    TotalUpdate(InstanceWorks(s), i, InstanceWork(Worked(s, step)));
    assert InstanceWorks(Apply(s, step)) == InstanceWorks(s)[i := InstanceWork(Worked(s, step))];
  }

  lemma PhaseWorkAfter(s: System, step: Step)
    requires Enabled(s, step)
    ensures if OfIssueThread(step)
            then step.thread < |Moved(s, step).threads|
                 && Total(PhaseWorks(Apply(s, step))) + PhaseWork(s.threads[step.thread])
                    == Total(PhaseWorks(s)) + PhaseWork(Moved(s, step).threads[step.thread])
            else Total(PhaseWorks(Apply(s, step))) == Total(PhaseWorks(s))
  {
    if OfIssueThread(step) {
      var t, w := step.thread, PhaseWork(Moved(s, step).threads[step.thread]);
      TotalUpdate(PhaseWorks(s), t, w);
      assert PhaseWorks(Apply(s, step)) == PhaseWorks(s)[t := w];
    } else {
      assert PhaseWorks(Apply(s, step)) == PhaseWorks(s);
    }
  }

  /** Every step that is not a new call of Execute brings the system closer to rest. */
  lemma StepDecreases(s: System, step: Step)
    requires Enabled(s, step) && !step.Arbitrate?
    ensures Measure(Apply(s, step)) < Measure(s)
  {
    InstanceWorkAfter(s, step);
    PhaseWorkAfter(s, step);
  }

  /** The completion thread has returned, or does not get past Finalize for lack of a responder. */
  predicate Halted(s: Instance) {
    s.completion.Ended? || (s.completion.Finalizing? && !s.completion.payload.responder)
  }

  ghost predicate AnyHalted(s: System) {
    exists i :: 0 <= i < |s.instances| && Halted(s.instances[i])
  }

  /** The next step of the completion thread of an instance with a payload in flight. */
  function CompletionStep(s: System, i: nat): (step: Step)
    requires i < |s.instances| && InFlight(s.instances[i]) != [] && !Halted(s.instances[i])
    ensures Enabled(s, step) && !step.Arbitrate? && Target(s, step) == i
  {
    match s.instances[i].completion
    case Idle => Take(i)
    case WaitingForInput(_) => Release(i)
    case Finalizing(_) => UpdateStates(i, [])
    case Responding(_) => Respond(i)
  }

  /**
   Deadlock freedom: an issue thread blocked in Acquire either finds a free slot or
   waits for an instance all of whose slots are held by unreleased payloads.
   */
  lemma BlockedIsServed(c: Config, policy: Policy, count: nat, s: System, t: nat)
    requires Reachable(c, policy, count, s) && t < |s.threads| && s.threads[t].Blocked?
    ensures var j := s.threads[t].next;
            && j < |s.instances|
            && (Enabled(s, Acquire(t)) <==> s.instances[j].count > 0)
            && (!Enabled(s, Acquire(t)) ==>
                  Unreleased(s.instances[j]) == c.Capacity() && InFlight(s.instances[j]) != [])
  {
    ReachableInv(c, policy, count, s);
    assert PhaseOk(s, t);
    var j := s.threads[t].next;
    assert ThreadOf(s, j) == t && RoleOf(s, j) == Away;
    assert Inv(c, s.instances[j], Away);
  }

  /** An issue thread waiting for the barrier finds it signalled, its payload in flight, or the other thread ended. */
  lemma AwaitingIsServed(c: Config, policy: Policy, count: nat, s: System, t: nat)
    requires Reachable(c, policy, count, s) && t < |s.threads| && s.threads[t].AwaitingStates?
    ensures var i := s.threads[t].current;
            && i < |s.instances|
            && (!Enabled(s, PassBarrier(t)) ==> InFlight(s.instances[i]) != [] || s.instances[i].completion.Ended?)
  {
    ReachableInv(c, policy, count, s);
    assert PhaseOk(s, t);
    var i := s.threads[t].current;
    assert RoleOf(s, i) == Awaiting;
    assert Inv(c, s.instances[i], Awaiting);
  }

  /** Nothing in flight anywhere and every issue thread back from Execute. */
  ghost predicate AtRest(s: System) {
    && (forall t :: 0 <= t < |s.threads| ==> s.threads[t].Ready?)
    && (forall i :: 0 <= i < |s.instances| ==> InFlight(s.instances[i]) == [])
  }

  /** What Run can always meet: no batch size can be read. */
  function Refusal(count: nat): (script: Script)
    ensures script.For(count)
  {
    Script(seq(count, _ => None), false, Nulls(count), Nulls(count), [])
  }

  /** An issue thread inside Execute can move once nothing is in flight. */
  lemma IssueThreadNotStuck(c: Config, policy: Policy, count: nat, s: System, t: nat) returns (step: Step)
    requires Reachable(c, policy, count, s) && t < |s.threads| && !s.threads[t].Ready? && !AnyHalted(s)
    requires forall i :: 0 <= i < |s.instances| ==> InFlight(s.instances[i]) == []
    ensures Enabled(s, step) && !step.Arbitrate?
  {
    ReachableInv(c, policy, count, s);
    assert PhaseOk(s, t);
    match s.threads[t]
    case Selected(current, _) =>
      assert Inv(c, s.instances[current], RoleOf(s, current));
      step := StartRun(t, []);
    case InRun(_, _, batch) =>
      step := EndRun(t, Refusal(|batch|));
    case AwaitingStates(current, _) =>
      AwaitingIsServed(c, policy, count, s, t);
      assert !Halted(s.instances[current]);
      step := PassBarrier(t);
    case Blocked(_) =>
      BlockedIsServed(c, policy, count, s, t);
      step := Acquire(t);
  }

  /** Unless everything is at rest or a completion thread has halted, some thread can step without a new call. */
  lemma NotStuck(c: Config, policy: Policy, count: nat, s: System) returns (step: Step)
    requires Reachable(c, policy, count, s) && !AtRest(s) && !AnyHalted(s)
    ensures Enabled(s, step) && !step.Arbitrate?
  {
    if i: nat :| i < |s.instances| && InFlight(s.instances[i]) != [] {
      step := CompletionStep(s, i);
    } else {
      var t: nat :| t < |s.threads| && !s.threads[t].Ready?;
      step := IssueThreadNotStuck(c, policy, count, s, t);
    }
  }

  predicate NoNewCalls(steps: seq<Step>) {
    forall k :: 0 <= k < |steps| ==> !steps[k].Arbitrate?
  }

  /** Any run without new calls of Execute is no longer than the measure of the state it starts in. */
  lemma {:induction false} DrainBounded(s: System, steps: seq<Step>)
    requires Runnable(s, steps) && NoNewCalls(steps)
    ensures |steps| + Measure(After(s, steps)) <= Measure(s)
    decreases |steps|
  {
    if steps != [] {
      StepDecreases(s, steps[0]);
      DrainBounded(Apply(s, steps[0]), steps[1..]);
    }
  }

  /** Only new calls of Execute can go on from here. */
  ghost predicate Quiescent(s: System) {
    forall step :: Enabled(s, step) ==> step.Arbitrate?
  }

  /**
   Draining: without new calls of Execute, every run from a reachable state comes to
   an end after at most Measure(s) steps. Where it can go no further either a completion
   thread has halted or nothing is in flight, every issue thread is ready, every semaphore
   has its idle value, and everything accepted was released and everything created was sent.
   */
  lemma Drains(c: Config, policy: Policy, count: nat, s: System, steps: seq<Step>)
    requires Reachable(c, policy, count, s) && Runnable(s, steps) && NoNewCalls(steps)
    ensures |steps| <= Measure(s)
    ensures var end := After(s, steps);
            Quiescent(end) ==>
              AnyHalted(end) || (AtRest(end) && forall i: nat :: i < |end.instances| ==> Idling(end, i))
  {
    DrainBounded(s, steps);
    var end := After(s, steps);
    ReachableRun(c, policy, count, s, steps);
    if Quiescent(end) && !AnyHalted(end) {
      if !AtRest(end) {
        var step := NotStuck(c, policy, count, end);
      }
      RestIsIdle(c, policy, count, end);
    }
  }

  lemma RestIsIdle(c: Config, policy: Policy, count: nat, s: System)
    requires Reachable(c, policy, count, s) && AtRest(s)
    ensures forall i: nat :: i < |s.instances| ==> Idling(s, i)
  {
    ReachableInv(c, policy, count, s);
    forall i: nat | i < |s.instances|
      ensures Idling(s, i)
    {
      assert PhaseOk(s, ThreadOf(s, i));
      assert Inv(c, s.instances[i], RoleOf(s, i));
      AllAnswered(c, s.instances[i], RoleOf(s, i));
    }
  }

  /** Instance i as the arbitrator leaves it between calls, with nothing owed to the clients. */
  ghost predicate Idling(s: System, i: nat)
    requires i < |s.instances|
  {
    var inst := s.instances[i];
    && inst.count == (if s.policy.InstanceBlocking? || i == s.idx then s.config.Capacity() - 1 else s.config.Capacity())
    && SameObjects(inst.accepted, inst.effects.released)
    && SameObjects(inst.effects.created, inst.effects.sent)
  }

  lemma {:induction false} ReachableRun(c: Config, policy: Policy, count: nat, s: System, steps: seq<Step>)
    requires Reachable(c, policy, count, s) && Runnable(s, steps)
    ensures Reachable(c, policy, count, After(s, steps))
    decreases |steps|
  {
    if steps != [] {
      ReachableStep(c, policy, count, s, steps[0]);
      ReachableRun(c, policy, count, Apply(s, steps[0]), steps[1..]);
    }
  }

  // ----- What can keep a run from coming to rest -----

  /** A state update that fails, or a batch whose sizes add up to zero. */
  predicate Faulty(s: System, step: Step)
    requires Enabled(s, step)
  {
    match step
    case FailUpdate(_, _) => true
    case EndRun(t, script) => ZeroBatch(s.threads[t].batch, s.config.maxBatchSize, script)
    case _ => false
  }

  predicate Faultless(s: System, steps: seq<Step>)
    requires Runnable(s, steps)
    decreases |steps|
  {
    steps == [] || (!Faulty(s, steps[0]) && Faultless(Apply(s, steps[0]), steps[1..]))
  }

  /** A payload in this queue has no responder. */
  ghost predicate HasOrphan(queue: seq<Payload>) {
    exists k :: 0 <= k < |queue| && !queue[k].responder
  }

  /** The completion thread has ended, or a payload without a responder is on its way to Finalize. */
  ghost predicate Spoilt(s: Instance) {
    || s.completion.Ended?
    || ((s.completion.WaitingForInput? || s.completion.Finalizing?) && !s.completion.payload.responder)
    || HasOrphan(s.queue)
  }

  ghost predicate AnySpoilt(s: System) {
    exists i :: 0 <= i < |s.instances| && Spoilt(s.instances[i])
  }

  lemma OrphanAppended(queue: seq<Payload>, p: Payload)
    ensures HasOrphan(queue + [p]) <==> HasOrphan(queue) || !p.responder
  {
    assert (queue + [p])[|queue|] == p;
    assert forall k :: 0 <= k < |queue| ==> (queue + [p])[k] == queue[k];
  }

  lemma OrphanTaken(queue: seq<Payload>)
    requires queue != []
    ensures HasOrphan(queue) <==> !queue[0].responder || HasOrphan(queue[1..])
  {
    assert forall k :: 0 <= k < |queue[1..]| ==> queue[1..][k] == queue[k + 1];
    if k :| 0 < k < |queue| && !queue[k].responder {
      assert !queue[1..][k - 1].responder;
    }
  }

  lemma SpoiltByRun(c: Config, s: Instance, batch: seq<Option<Request>>, script: Script)
    requires script.For(|batch|)
    ensures Spoilt(FinishRun(c, s, batch, script)) <==> Spoilt(s) || ZeroBatch(batch, c.maxBatchSize, script)
  {
    RunLeaves(batch, c.maxBatchSize, script);
    var run := Run(batch, c.maxBatchSize, script);
    OrphanAppended(s.queue, Payload(s.issued, s.nextSet, s.nextBuffer, run.requests, run.responses, run.responder));
  }

  /** A faulty step spoils the instance it works on; any other leaves it as sound or spoilt as it was. */
  lemma SpoiltByFaults(s: System, step: Step)
    requires Enabled(s, step)
    ensures Spoilt(Worked(s, step)) <==> Spoilt(s.instances[Target(s, step)]) || Faulty(s, step)
  {
    var before := s.instances[Target(s, step)];
    match step
    case EndRun(t, script) => SpoiltByRun(s.config, before, s.threads[t].batch, script);
    case Take(_) => OrphanTaken(before.queue);
    case _ =>
  }

  lemma AnySpoiltAfter(s: System, step: Step)
    requires Enabled(s, step)
    ensures AnySpoilt(Apply(s, step)) <==> AnySpoilt(s) || Faulty(s, step)
  {
    SpoiltByFaults(s, step);
    var s', i := Apply(s, step), Target(s, step);
    assert s'.instances[i] == Worked(s, step);
    assert forall k :: 0 <= k < |s.instances| && k != i ==> s'.instances[k] == s.instances[k];
  }

  lemma {:induction false} SpoiltByRuns(s: System, steps: seq<Step>)
    requires Runnable(s, steps)
    ensures AnySpoilt(After(s, steps)) <==> AnySpoilt(s) || !Faultless(s, steps)
    decreases |steps|
  {
    if steps != [] {
      AnySpoiltAfter(s, steps[0]);
      SpoiltByRuns(Apply(s, steps[0]), steps[1..]);
    }
  }

  lemma SpoiltIsBusy(c: Config, s: Instance, role: Role)
    requires Inv(c, s, role) && Spoilt(s)
    ensures InFlight(s) != [] || role.Awaiting?
  {
    InFlightOf(s);
  }

  lemma SpoiltIsNotAtRest(c: Config, policy: Policy, count: nat, s: System)
    requires Reachable(c, policy, count, s) && AnySpoilt(s)
    ensures !AtRest(s)
  {
    ReachableInv(c, policy, count, s);
    var i: nat :| i < |s.instances| && Spoilt(s.instances[i]);
    SpoiltIsBusy(c, s.instances[i], RoleOf(s, i));
  }

  /**
   Every run that goes as far as it can without new calls ends at rest, with all semaphores
   idle and everything answered once, if and only if no state update failed and no batch had
   sizes that add up to zero.
   */
  lemma ComesToRest(c: Config, policy: Policy, count: nat, steps: seq<Step>)
    requires count > 0 && Runnable(Start(c, policy, count), steps)
    requires Quiescent(After(Start(c, policy, count), steps))
    ensures var end := After(Start(c, policy, count), steps);
            && (AtRest(end) <==> Faultless(Start(c, policy, count), steps))
            && (AtRest(end) ==> forall i: nat :: i < |end.instances| ==> Idling(end, i))
  {
    var start := Start(c, policy, count);
    var end := After(start, steps);
    assert Reachable(c, policy, count, end);
    SpoiltByRuns(start, steps);
    assert !AnySpoilt(start);
    if AnySpoilt(end) {
      SpoiltIsNotAtRest(c, policy, count, end);
    } else {
      assert forall i :: 0 <= i < |end.instances| && Halted(end.instances[i]) ==> Spoilt(end.instances[i]);
      assert After(end, []) == end;
      Drains(c, policy, count, end, []);
    }
    if AtRest(end) {
      RestIsIdle(c, policy, count, end);
    }
  }
}
