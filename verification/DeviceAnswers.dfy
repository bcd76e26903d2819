/**
 What the clients of a device get over a whole run: the requests that came to each instance
 against the responses that were made for them, whatever the interleaving.
 */
module DeviceAnswers {
  import opened Options
  import opened Accounting
  import opened Pipeline
  import opened Device
  import opened DeviceProgress

  /** The requests that a step brings to instance i. */
  function ArrivingBy(s: System, step: Step, i: nat): seq<Request>
    requires Enabled(s, step)
  {
    if step.StartRun? && Target(s, step) == i then Objects(step.requests) else []
  }

  /** The responses that a step of instance i is to make: one for each request of the batch in Run. */
  function DueBy(s: System, step: Step, i: nat): seq<Response>
    requires Enabled(s, step)
  {
    if step.EndRun? && Target(s, step) == i
       && !ZeroBatch(s.threads[step.thread].batch, s.config.maxBatchSize, step.script)
    then Objects(ResponsesFor(s.threads[step.thread].batch, s.config.maxBatchSize, step.script))
    else []
  }

  function Arriving(s: System, steps: seq<Step>, i: nat): seq<Request>
    requires Runnable(s, steps)
    decreases |steps|
  {
    if steps == [] then [] else ArrivingBy(s, steps[0], i) + Arriving(Apply(s, steps[0]), steps[1..], i)
  }

  function Due(s: System, steps: seq<Step>, i: nat): seq<Response>
    requires Runnable(s, steps)
    decreases |steps|
  {
    if steps == [] then [] else DueBy(s, steps[0], i) + Due(Apply(s, steps[0]), steps[1..], i)
  }

  lemma FinishRunCreates(c: Config, s: Instance, batch: seq<Option<Request>>, script: Script)
    requires script.For(|batch|)
    ensures FinishRun(c, s, batch, script).accepted == s.accepted
    ensures FinishRun(c, s, batch, script).effects.created
         == s.effects.created
            + if ZeroBatch(batch, c.maxBatchSize, script) then []
              else Objects(ResponsesFor(batch, c.maxBatchSize, script))
  {
    if ZeroBatch(batch, c.maxBatchSize, script) {
      RunSettles(batch, c.maxBatchSize, script);
    } else {
      RunCreates(batch, c.maxBatchSize, script);
    }
  }

  /** A step records what it brings and makes for the instance it works on, and nothing for the others. */
  lemma StepRecords(s: System, step: Step, i: nat)
    requires Enabled(s, step) && i < |s.instances|
    ensures Records(s.instances[i], Apply(s, step).instances[i], ArrivingBy(s, step, i), DueBy(s, step, i))
  {
    var instance := s.instances[i];
    assert instance.accepted + [] == instance.accepted;
    assert instance.effects.created + [] == instance.effects.created;
    if i == Target(s, step) && step.EndRun? {
      FinishRunCreates(s.config, instance, s.threads[step.thread].batch, step.script);
    }
  }

  lemma {:induction false} RunRecords(s: System, steps: seq<Step>, i: nat)
    requires Runnable(s, steps) && i < |s.instances|
    ensures |After(s, steps).instances| == |s.instances|
    ensures Records(s.instances[i], After(s, steps).instances[i], Arriving(s, steps, i), Due(s, steps, i))
    decreases |steps|
  {
    if steps == [] {
      RecordsNothing(s.instances[i]);
    } else {
      StepRecords(s, steps[0], i);
      var next := Apply(s, steps[0]);
      RunRecords(next, steps[1..], i);
      RecordsBoth(s.instances[i], next.instances[i], After(s, steps).instances[i], ArrivingBy(s, steps[0], i),
                  Arriving(next, steps[1..], i), DueBy(s, steps[0], i), Due(next, steps[1..], i));
    }
  }

  /** What came to an instance and what was created for it between two of its states. */
  predicate Records(before: Instance, after: Instance, arrived: seq<Request>, due: seq<Response>) {
    after.accepted == before.accepted + arrived && after.effects.created == before.effects.created + due
  }

  lemma RecordsNothing(s: Instance)
    ensures Records(s, s, [], [])
  {
  }

  lemma RecordsBoth(s: Instance, mid: Instance, end: Instance, arrived: seq<Request>, arrived': seq<Request>,
                    due: seq<Response>, due': seq<Response>)
    requires Records(s, mid, arrived, due) && Records(mid, end, arrived', due')
    ensures Records(s, end, arrived + arrived', due + due')
  {
  }

  /** In every instance the requests released are those that came, and the responses sent are those due for them. */
  ghost predicate AllAreAnswered(s: System, steps: seq<Step>)
    requires Runnable(s, steps)
  {
    forall i: nat :: i < |After(s, steps).instances| ==>
      && SameObjects(Arriving(s, steps, i), After(s, steps).instances[i].effects.released)
      && SameObjects(Due(s, steps, i), After(s, steps).instances[i].effects.sent)
  }

  /**
   A run without faults that goes as far as it can has released every request that came and sent
   every client the response due, each once, and nothing else, in any interleaving.
   */
  lemma EveryClientIsAnswered(c: Config, policy: Policy, count: nat, steps: seq<Step>)
    requires count > 0 && Runnable(Start(c, policy, count), steps)
    requires Quiescent(After(Start(c, policy, count), steps)) && Faultless(Start(c, policy, count), steps)
    ensures AllAreAnswered(Start(c, policy, count), steps)
  {
    var start := Start(c, policy, count);
    var end := After(start, steps);
    ComesToRest(c, policy, count, steps);
    RunRecords(start, steps, 0);
    forall i: nat | i < |end.instances|
      ensures SameObjects(Arriving(start, steps, i), end.instances[i].effects.released)
      ensures SameObjects(Due(start, steps, i), end.instances[i].effects.sent)
    {
      RunRecords(start, steps, i);
      assert Idling(end, i);
      assert [] + Arriving(start, steps, i) == Arriving(start, steps, i);
      assert [] + Due(start, steps, i) == Due(start, steps, i);
    }
  }
}
