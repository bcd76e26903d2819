/**
 What one call of Run does to the requests and responses it was given
 (src/instance_state.cc:404-1188), and what the completion thread does to those
 that Run left for it (src/instance_state.cc:1266-1334). The calls into Triton
 core and TensorRT are outside the model: a Script fixes what they return.
 */
module Accounting {
  import opened Arithmetic
  import opened Options

  datatype Request = Request(id: nat)
  datatype Response = Response(id: nat)

  /** The outcome of one call that Run makes once the responses exist. */
  datatype CallOutcome =
    | Passed                        // nothing to report
    | ResponseFailed(index: nat)    // this response is sent with the error and set to null
    | BatchFailed                   // the whole batch is answered and Run returns

  datatype Script = Script(
    batchSizes: seq<Option<int>>,           // shape[0] of each request's first input; None: the API call failed
    shapeValuesRead: bool,                  // GetRequestShapeValues succeeded
    errorResponses: seq<Option<Response>>,  // what RequestsRespondWithError creates, one per request
    responses: seq<Option<Response>>,       // what TRITONBACKEND_ResponseNew creates, one per request
    calls: seq<CallOutcome>
  ) {
    predicate For(count: nat) {
      |batchSizes| == count && |errorResponses| == count && |responses| == count
    }
  }

  /** What Triton core has seen of the response and request objects, in order. */
  datatype Effects = Effects(created: seq<Response>, sent: seq<Response>, released: seq<Request>) {
    function Then(next: Effects): Effects {
      Effects(created + next.created, sent + next.sent, released + next.released)
    }
  }

  const NO_EFFECTS := Effects([], [], [])

  datatype RunResult = RunResult(
    requests: seq<Option<Request>>,
    responses: seq<Option<Response>>,
    responder: bool,                // payload_->responder_ has been created
    effects: Effects
  )

  const SIZE_T: int := 0x1_0000_0000_0000_0000

  // ----- The batch size scan (lines 440-475) -----

  /** The size_t total over the first `count` requests, None when the scan hits a null request or an API error. */
  function BatchTotal(requests: seq<Option<Request>>, maxBatchSize: nat, script: Script, count: nat): Option<int>
    requires script.For(|requests|) && count <= |requests|
  {
    if count == 0 then Some(0)
    else
      match BatchTotal(requests, maxBatchSize, script, count - 1)
      case None => None
      case Some(total) =>
        if requests[count - 1].None? then None
        else if maxBatchSize == 0 then Some((total + 1) % SIZE_T)
        else
          match script.batchSizes[count - 1]
          case None => None
          case Some(size) => Some((total + size) % SIZE_T)
  }

  /** The guard of the early return at line 480: the requests are readable but their batch sizes add up to zero. */
  predicate ZeroBatch(requests: seq<Option<Request>>, maxBatchSize: nat, script: Script)
    requires script.For(|requests|)
  {
    requests != [] && BatchTotal(requests, maxBatchSize, script, |requests|) == Some(0)
  }

  lemma {:induction false} TotalMeansNoNull(requests: seq<Option<Request>>, maxBatchSize: nat, script: Script,
                                            count: nat)
    requires script.For(|requests|) && count <= |requests|
    requires BatchTotal(requests, maxBatchSize, script, count).Some?
    ensures forall i :: 0 <= i < count ==> requests[i].Some?
  {
    if count > 0 {
      TotalMeansNoNull(requests, maxBatchSize, script, count - 1);
    }
  }

  // ----- The three ways of answering -----

  function ErrorResponses(requests: seq<Option<Request>>, script: Script): (created: seq<Option<Response>>)
    requires script.For(|requests|)
  {
    seq(|requests|, i requires 0 <= i < |requests| => if requests[i].None? then None else script.errorResponses[i])
  }

  /** RequestsRespondWithError: every request is answered by a new response, released and set to null. */
  function Rejected(requests: seq<Option<Request>>, script: Script): RunResult
    requires script.For(|requests|)
  {
    var answers := Objects(ErrorResponses(requests, script));
    RunResult(Nulls(|requests|), [], false, Effects(answers, answers, Objects(requests)))
  }

  /** RESPOND_AND_SET_NULL_IF_ERROR on one response. */
  function Failed(responses: seq<Option<Response>>, index: nat): (left: seq<Option<Response>>)
    ensures |left| == |responses|
    ensures forall j :: 0 <= j < |left| ==> left[j] == if j == index then None else responses[j]
  {
    if index < |responses| then responses[index := None] else responses
  }

  /** What it sends: the response that failed, unless it was sent before. */
  function SentBy(responses: seq<Option<Response>>, index: nat): (sent: seq<Response>)
    ensures forall r :: r in sent <==> index < |responses| && responses[index] == Some(r)
    ensures |sent| <= 1
  {
    if index < |responses| then Pointee(responses[index]) else []
  }

  /** The calls after the responses were created, up to the first failure of the whole batch. */
  function Play(
    requests: seq<Option<Request>>, responses: seq<Option<Response>>, calls: seq<CallOutcome>, effects: Effects
  ): RunResult
    decreases |calls|
  {
    if calls == [] then RunResult(requests, responses, true, effects)
    else
      match calls[0]
      case Passed => Play(requests, responses, calls[1..], effects)
      case ResponseFailed(index) =>
        Play(requests, Failed(responses, index), calls[1..],
             effects.Then(Effects([], SentBy(responses, index), [])))
      case BatchFailed =>
        RunResult(Nulls(|requests|), responses, false,
                  effects.Then(Effects([], Objects(responses), Objects(requests))))
  }

  function Run(requests: seq<Option<Request>>, maxBatchSize: nat, script: Script): RunResult
    requires script.For(|requests|)
  {
    match BatchTotal(requests, maxBatchSize, script, |requests|)
    case None => Rejected(requests, script)
    case Some(total) =>
      if total == 0 then RunResult(requests, [], false, NO_EFFECTS)
      else if total != 1 && total > maxBatchSize then Rejected(requests, script)
      else if !script.shapeValuesRead then Rejected(requests, script)
      else Play(requests, script.responses, script.calls, Effects(Objects(script.responses), [], []))
  }

  // ----- The completion thread -----

  /** Responses whose output copy failed in the responder's Finalize are sent with the error and set to null. */
  function AfterErrors(responses: seq<Option<Response>>, errors: seq<nat>, count: nat): (left: seq<Option<Response>>)
    requires count <= |errors|
    ensures |left| == |responses|
  {
    if count == 0 then responses else Failed(AfterErrors(responses, errors, count - 1), errors[count - 1])
  }

  function SentByErrors(responses: seq<Option<Response>>, errors: seq<nat>, count: nat): seq<Response>
    requires count <= |errors|
  {
    if count == 0 then []
    else SentByErrors(responses, errors, count - 1)
         + SentBy(AfterErrors(responses, errors, count - 1), errors[count - 1])
  }

  function AfterFinalize(responses: seq<Option<Response>>, errors: seq<nat>): (left: seq<Option<Response>>) {
    AfterErrors(responses, errors, |errors|)
  }

  function SentByFinalize(responses: seq<Option<Response>>, errors: seq<nat>): seq<Response> {
    SentByErrors(responses, errors, |errors|)
  }

  /** Lines 1306-1334: every response still there is sent, every request is released. */
  function Answered(requests: seq<Option<Request>>, responses: seq<Option<Response>>): Effects {
    Effects([], Objects(responses), Objects(requests))
  }

  /**
   The whole life of a batch: Run, then the `run_failed` scan of lines 367-381,
   then, for a run that did not fail, the completion thread. None when the
   completion thread would use a responder that was never created.
   */
  function Life(requests: seq<Option<Request>>, maxBatchSize: nat, script: Script, errors: seq<nat>): Option<Effects>
    requires script.For(|requests|)
  {
    var run := Run(requests, maxBatchSize, script);
    if AllNull(run.requests) then Some(run.effects)
    else if !run.responder then None
    else Some(run.effects
              .Then(Effects([], SentByFinalize(run.responses, errors), []))
              .Then(Answered(run.requests, AfterFinalize(run.responses, errors))))
  }

  // ----- Results -----

  lemma FailedAccounts(responses: seq<Option<Response>>, index: nat)
    ensures Balanced(Objects(responses), SentBy(responses, index), Objects(Failed(responses, index)))
  {
    if index < |responses| {
      ObjectsWithoutOne(responses, index);
    }
  }

  /** One more response answered with an error moves from the held to the sent ones. */
  lemma FailOne(created: seq<Response>, sent: seq<Response>, held: seq<Option<Response>>, index: nat)
    requires Balanced(created, sent, Objects(held))
    ensures Balanced(created, sent + SentBy(held, index), Objects(Failed(held, index)))
  {
    FailedAccounts(held, index);
    Move(created, sent, Objects(held), SentBy(held, index), Objects(Failed(held, index)));
  }

  lemma {:induction false} ErrorsAccount(responses: seq<Option<Response>>, errors: seq<nat>, count: nat)
    requires count <= |errors|
    ensures Balanced(Objects(responses), SentByErrors(responses, errors, count),
                     Objects(AfterErrors(responses, errors, count)))
  {
    if count > 0 {
      ErrorsAccount(responses, errors, count - 1);
      FailOne(Objects(responses), SentByErrors(responses, errors, count - 1),
              AfterErrors(responses, errors, count - 1), errors[count - 1]);
    }
  }

  lemma FinalizeAccounts(responses: seq<Option<Response>>, errors: seq<nat>)
    ensures Balanced(Objects(responses), SentByFinalize(responses, errors), Objects(AfterFinalize(responses, errors)))
  {
    ErrorsAccount(responses, errors, |errors|);
  }

  /** The books of a run so far: all answered, or nothing released and every response sent or still held. */
  ghost predicate Settled(requests: seq<Option<Request>>, run: RunResult) {
    && |run.requests| == |requests|
    && if AllNull(run.requests)
       then run.effects.released == Objects(requests) && SameObjects(run.effects.created, run.effects.sent)
       else
         && run.requests == requests && run.responder && |run.responses| == |requests|
         && (forall i :: 0 <= i < |requests| ==> requests[i].Some?)
         && run.effects.released == []
         && Balanced(run.effects.created, run.effects.sent, Objects(run.responses))
  }

  lemma {:induction false} PlaySettles(
    requests: seq<Option<Request>>, responses: seq<Option<Response>>, calls: seq<CallOutcome>, effects: Effects)
    requires requests != [] && (forall i :: 0 <= i < |requests| ==> requests[i].Some?)
    requires |responses| == |requests|
    requires effects.released == [] && Balanced(effects.created, effects.sent, Objects(responses))
    ensures Settled(requests, Play(requests, responses, calls, effects))
    decreases |calls|
  {
    if calls == [] {
      assert requests[0].Some?;
    } else if calls[0].Passed? {
      PlaySettles(requests, responses, calls[1..], effects);
    } else if calls[0].ResponseFailed? {
      var left := Failed(responses, calls[0].index);
      FailOne(effects.created, effects.sent, responses, calls[0].index);
      assert effects.created + [] == effects.created;
      PlaySettles(requests, left, calls[1..], effects.Then(Effects([], SentBy(responses, calls[0].index), [])));
    } else {
      assert SameObjects(Objects(responses), Objects(responses));
      Move(effects.created, effects.sent, Objects(responses), Objects(responses), []);
      assert effects.created + [] == effects.created;
    }
  }

  /**
   Run leaves the requests either all null or all non-null, whichever call fails,
   and the books are settled, unless it returned early on a zero batch size.
   */
  lemma RunSettles(requests: seq<Option<Request>>, maxBatchSize: nat, script: Script)
    requires script.For(|requests|)
    ensures ZeroBatch(requests, maxBatchSize, script)
            ==> Run(requests, maxBatchSize, script) == RunResult(requests, [], false, NO_EFFECTS)
                && !AllNull(requests)
    ensures !ZeroBatch(requests, maxBatchSize, script)
            ==> Settled(requests, Run(requests, maxBatchSize, script))
  {
    var total := BatchTotal(requests, maxBatchSize, script, |requests|);
    if total.Some? {
      TotalMeansNoNull(requests, maxBatchSize, script, |requests|);
      if requests != [] {
        assert requests[0].Some?;
        PlaySettles(requests, script.responses, script.calls, Effects(Objects(script.responses), [], []));
      }
    }
  }

  /** After its whole life a batch has been answered exactly once. */
  ghost predicate AnsweredOnce(requests: seq<Option<Request>>, life: Option<Effects>) {
    life.Some?
    && SameObjects(life.value.released, Objects(requests)) && SameObjects(life.value.created, life.value.sent)
  }

  /**
   Exactly-once accounting: every request of the batch is released exactly once and
   every response object created for it is sent exactly once, whatever fails and
   wherever, if and only if the batch is not caught by the early return of line 480.
   */
  lemma ExactlyOnce(requests: seq<Option<Request>>, maxBatchSize: nat, script: Script, errors: seq<nat>)
    requires script.For(|requests|)
    ensures !ZeroBatch(requests, maxBatchSize, script)
            <==> AnsweredOnce(requests, Life(requests, maxBatchSize, script, errors))
  {
    RunSettles(requests, maxBatchSize, script);
    var run := Run(requests, maxBatchSize, script);
    if !ZeroBatch(requests, maxBatchSize, script) && !AllNull(run.requests) {
      var e := run.effects;
      var left := AfterFinalize(run.responses, errors);
      FinalizeAccounts(run.responses, errors);
      Move(e.created, e.sent, Objects(run.responses), SentByFinalize(run.responses, errors), Objects(left));
      assert SameObjects(Objects(left), Objects(left));
      Move(e.created, e.sent + SentByFinalize(run.responses, errors), Objects(left), Objects(left), []);
      assert e.created + [] + [] == e.created;
      assert [] + [] + Objects(requests) == Objects(requests);
    }
  }

  /** A batch that is never answered: one request whose batch dimension is zero. */
  lemma ZeroBatchIsNeverAnswered()
    ensures var script := Script([Some(0)], true, [None], [Some(Response(0))], []);
            Life([Some(Request(0))], 8, script, []) == None
  {
    var requests := [Some(Request(0))];
    var script := Script([Some(0)], true, [None], [Some(Response(0))], []);
    assert BatchTotal(requests, 8, script, 0) == Some(0);
    assert BatchTotal(requests, 8, script, 1) == Some(0);
    assert requests[0].Some?;
  }

  // ----- What the client gets -----

  /** Every batch size can be read. */
  predicate Readable(requests: seq<Option<Request>>, maxBatchSize: nat, script: Script)
    requires script.For(|requests|)
  {
    forall i :: 0 <= i < |requests| ==> requests[i].Some? && (maxBatchSize > 0 ==> script.batchSizes[i].Some?)
  }

  /** The sum of the batch sizes, as a number without bounds; without batching each request counts for one. */
  function SumOfSizes(requests: seq<Option<Request>>, maxBatchSize: nat, script: Script, count: nat): int
    requires script.For(|requests|) && count <= |requests| && Readable(requests, maxBatchSize, script)
  {
    if maxBatchSize == 0 then count
    else if count == 0 then 0
    else SumOfSizes(requests, maxBatchSize, script, count - 1) + script.batchSizes[count - 1].value
  }

  lemma WrappedSum(a: int, b: int, m: nat)
    requires m > 0
    ensures (a % m + b) % m == (a + b) % m
  {
    Division(a, m);
    Division(a + b, m);
    RemainderIs(a % m + b, (a + b) / m - a / m, (a + b) % m, m);
  }

  /** The scan yields the sum modulo 2^64 if all sizes are readable, and nothing otherwise. */
  lemma {:induction false} TotalIsSum(requests: seq<Option<Request>>, maxBatchSize: nat, script: Script)
    requires script.For(|requests|)
    ensures BatchTotal(requests, maxBatchSize, script, |requests|)
         == if Readable(requests, maxBatchSize, script)
            then Some(SumOfSizes(requests, maxBatchSize, script, |requests|) % SIZE_T) else None
  {
    if Readable(requests, maxBatchSize, script) {
      TotalIsSumUpTo(requests, maxBatchSize, script, |requests|);
    } else {
      var i :| 0 <= i < |requests| && !(requests[i].Some? && (maxBatchSize > 0 ==> script.batchSizes[i].Some?));
      UnreadableHasNoTotal(requests, maxBatchSize, script, i, |requests|);
    }
  }

  lemma {:induction false} TotalIsSumUpTo(requests: seq<Option<Request>>, maxBatchSize: nat, script: Script, count: nat)
    requires script.For(|requests|) && count <= |requests| && Readable(requests, maxBatchSize, script)
    ensures BatchTotal(requests, maxBatchSize, script, count)
         == Some(SumOfSizes(requests, maxBatchSize, script, count) % SIZE_T)
  {
    if count > 0 {
      TotalIsSumUpTo(requests, maxBatchSize, script, count - 1);
      WrappedSum(SumOfSizes(requests, maxBatchSize, script, count - 1),
                 if maxBatchSize == 0 then 1 else script.batchSizes[count - 1].value, SIZE_T);
    }
  }

  lemma {:induction false} UnreadableHasNoTotal(
    requests: seq<Option<Request>>, maxBatchSize: nat, script: Script, i: nat, count: nat)
    requires script.For(|requests|) && i < count <= |requests|
    requires requests[i].None? || (maxBatchSize > 0 && script.batchSizes[i].None?)
    ensures BatchTotal(requests, maxBatchSize, script, count).None?
  {
    if i < count - 1 {
      UnreadableHasNoTotal(requests, maxBatchSize, script, i, count - 1);
    }
  }

  /** Lines 440-515 let the batch through: sizes and shape values can be read, the sum is 1 or within the limit. */
  predicate Admitted(requests: seq<Option<Request>>, maxBatchSize: nat, script: Script)
    requires script.For(|requests|)
  {
    && Readable(requests, maxBatchSize, script) && script.shapeValuesRead
    && var total := SumOfSizes(requests, maxBatchSize, script, |requests|) % SIZE_T;
       total == 1 || total <= maxBatchSize
  }

  /** The guard of the early return, without the scan. */
  lemma ZeroBatchIs(requests: seq<Option<Request>>, maxBatchSize: nat, script: Script)
    requires script.For(|requests|)
    ensures ZeroBatch(requests, maxBatchSize, script)
       <==> requests != [] && Readable(requests, maxBatchSize, script)
            && SumOfSizes(requests, maxBatchSize, script, |requests|) % SIZE_T == 0
  {
    TotalIsSum(requests, maxBatchSize, script);
  }

  /** Some call in Run fails the whole batch. */
  predicate SomeBatchFailed(calls: seq<CallOutcome>) {
    exists i :: 0 <= i < |calls| && calls[i].BatchFailed?
  }

  lemma SomeBatchFailedNext(calls: seq<CallOutcome>)
    requires calls != []
    ensures SomeBatchFailed(calls) <==> calls[0].BatchFailed? || SomeBatchFailed(calls[1..])
  {
    if i :| 0 < i < |calls| && calls[i].BatchFailed? {
      assert calls[1..][i - 1].BatchFailed?;
    }
  }

  lemma {:induction false} PlayOutcome(
    requests: seq<Option<Request>>, responses: seq<Option<Response>>, calls: seq<CallOutcome>, effects: Effects)
    ensures var play := Play(requests, responses, calls, effects);
            && play.effects.created == effects.created
            && play.requests == (if SomeBatchFailed(calls) then Nulls(|requests|) else requests)
            && |play.responses| == |responses|
            && (!SomeBatchFailed(calls) ==> forall j :: 0 <= j < |responses| ==>
                  play.responses[j] == if ResponseFailed(j) in calls then None else responses[j])
    decreases |calls|
  {
    if calls != [] {
      SomeBatchFailedNext(calls);
      assert calls == [calls[0]] + calls[1..];
      if calls[0].Passed? {
        PlayOutcome(requests, responses, calls[1..], effects);
      } else if calls[0].ResponseFailed? {
        var next := effects.Then(Effects([], SentBy(responses, calls[0].index), []));
        assert next.created == effects.created;
        PlayOutcome(requests, Failed(responses, calls[0].index), calls[1..], next);
      } else {
        assert effects.created + [] == effects.created;
      }
    }
  }

  /** Run fails exactly for an empty batch, one that is not let through, and one that some call fails. */
  lemma RunFailsExactly(requests: seq<Option<Request>>, maxBatchSize: nat, script: Script)
    requires script.For(|requests|)
    ensures AllNull(Run(requests, maxBatchSize, script).requests)
       <==> requests == []
            || (!ZeroBatch(requests, maxBatchSize, script)
                && (!Admitted(requests, maxBatchSize, script) || SomeBatchFailed(script.calls)))
  {
    TotalIsSum(requests, maxBatchSize, script);
    PlayOutcome(requests, script.responses, script.calls, Effects(Objects(script.responses), [], []));
    if requests != [] && Readable(requests, maxBatchSize, script) {
      assert requests[0].Some?;
    }
  }

  /** A run that goes well leaves each request its response, except for those that were failed on their own. */
  lemma ResponsesLeft(requests: seq<Option<Request>>, maxBatchSize: nat, script: Script, j: nat)
    requires script.For(|requests|) && j < |requests|
    requires !ZeroBatch(requests, maxBatchSize, script) && !AllNull(Run(requests, maxBatchSize, script).requests)
    ensures var left := Run(requests, maxBatchSize, script).responses;
            j < |left| && left[j] == if ResponseFailed(j) in script.calls then None else script.responses[j]
  {
    TotalIsSum(requests, maxBatchSize, script);
    PlayOutcome(requests, script.responses, script.calls, Effects(Objects(script.responses), [], []));
  }

  /** The responses made for a batch: one for each request, by the error path for those that are there. */
  function ResponsesFor(requests: seq<Option<Request>>, maxBatchSize: nat, script: Script): seq<Option<Response>>
    requires script.For(|requests|)
  {
    if Admitted(requests, maxBatchSize, script) then script.responses
    else seq(|requests|, i requires 0 <= i < |requests| => if requests[i].None? then None else script.errorResponses[i])
  }

  lemma RunCreates(requests: seq<Option<Request>>, maxBatchSize: nat, script: Script)
    requires script.For(|requests|) && !ZeroBatch(requests, maxBatchSize, script)
    ensures Run(requests, maxBatchSize, script).effects.created == Objects(ResponsesFor(requests, maxBatchSize, script))
  {
    TotalIsSum(requests, maxBatchSize, script);
    PlayOutcome(requests, script.responses, script.calls, Effects(Objects(script.responses), [], []));
    assert ErrorResponses(requests, script)
        == seq(|requests|, i requires 0 <= i < |requests| =>
             if requests[i].None? then None else script.errorResponses[i]);
  }

  /**
   Every client is answered: over the life of a batch that is not zero, what is created and sent,
   each once, is exactly one response for every request, made by the normal path if the
   batch was let through and by the error path otherwise, and every request is released.
   */
  lemma EveryRequestIsAnswered(requests: seq<Option<Request>>, maxBatchSize: nat, script: Script, errors: seq<nat>)
    requires script.For(|requests|) && !ZeroBatch(requests, maxBatchSize, script)
    ensures var life := Life(requests, maxBatchSize, script, errors);
            && life.Some? && life.value.created == Objects(ResponsesFor(requests, maxBatchSize, script))
            && SameObjects(life.value.created, life.value.sent)
            && SameObjects(life.value.released, Objects(requests))
  {
    ExactlyOnce(requests, maxBatchSize, script, errors);
    RunCreates(requests, maxBatchSize, script);
    var created := Run(requests, maxBatchSize, script).effects.created;
    assert created + [] + [] == created;
  }

  /** Object by object: a response is sent exactly if it was made for a request, a request released if it came. */
  lemma SentAndReleased(requests: seq<Option<Request>>, maxBatchSize: nat, script: Script, errors: seq<nat>)
    requires script.For(|requests|) && !ZeroBatch(requests, maxBatchSize, script)
    ensures var life := Life(requests, maxBatchSize, script, errors);
            var made := ResponsesFor(requests, maxBatchSize, script);
            && life.Some? && |made| == |requests|
            && (forall r :: r in life.value.sent <==> exists i :: 0 <= i < |made| && made[i] == Some(r))
            && (forall q :: q in life.value.released <==> exists i :: 0 <= i < |requests| && requests[i] == Some(q))
            && ((forall i :: 0 <= i < |made| ==> made[i].Some?) ==>
                  |life.value.created| == |requests|
                  && forall i :: 0 <= i < |made| ==> made[i] == Some(life.value.created[i]))
  {
    EveryRequestIsAnswered(requests, maxBatchSize, script, errors);
    var life := Life(requests, maxBatchSize, script, errors);
    var made := ResponsesFor(requests, maxBatchSize, script);
    if forall i :: 0 <= i < |made| ==> made[i].Some? {
      ObjectsOfAll(made, |made|);
    }
    forall r
      ensures r in life.value.sent <==> exists i :: 0 <= i < |made| && made[i] == Some(r)
    {
      MembersOfSame(life.value.created, life.value.sent, r);
      ObjectsAreReferenced(made, |made|, r);
    }
    forall q
      ensures q in life.value.released <==> exists i :: 0 <= i < |requests| && requests[i] == Some(q)
    {
      MembersOfSame(life.value.released, Objects(requests), q);
      ObjectsAreReferenced(requests, |requests|, q);
    }
  }

  lemma {:induction false} LeftAfterErrors(responses: seq<Option<Response>>, errors: seq<nat>, count: nat, j: nat)
    requires count <= |errors| && j < |responses|
    ensures AfterErrors(responses, errors, count)[j] == if j in errors[..count] then None else responses[j]
  {
    if count > 0 {
      LeftAfterErrors(responses, errors, count - 1, j);
      assert errors[..count] == errors[..count - 1] + [errors[count - 1]];
    }
  }

  /** The responder's Finalize nulls exactly the responses in error; the others go out at the end. */
  lemma FinalizeLeaves(responses: seq<Option<Response>>, errors: seq<nat>, j: nat)
    requires j < |responses|
    ensures var left := AfterFinalize(responses, errors);
            |left| == |responses| && left[j] == if j in errors then None else responses[j]
  {
    LeftAfterErrors(responses, errors, |errors|, j);
    assert errors[..|errors|] == errors;
  }
}
