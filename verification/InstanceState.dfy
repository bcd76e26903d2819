/**
 ModelInstanceState with its fields updated in place: one method for each
 uninterrupted section of its two threads, each proved equal to the section of the
 step machine in module Pipeline.
 */
module InstanceState {
  import opened Options
  import opened Accounting
  import opened Pipeline
  import opened Semaphores

  /** Triton core, as far as it sees response and request objects. */
  class TritonCore {
    ghost var effects: Effects

    constructor ()
      ensures effects == NO_EFFECTS
    {
      effects := NO_EFFECTS;
    }

    method ResponseNew(response: Option<Response>)
      modifies this
      ensures effects == old(effects.(created := effects.created + Pointee(response)))
    {
      effects := effects.(created := effects.created + Pointee(response));
    }

    method ResponseSend(response: Option<Response>)
      modifies this
      ensures effects == old(effects.(sent := effects.sent + Pointee(response)))
    {
      effects := effects.(sent := effects.sent + Pointee(response));
    }

    method RequestRelease(request: Option<Request>)
      modifies this
      ensures effects == old(effects.(released := effects.released + Pointee(request)))
    {
      effects := effects.(released := effects.released + Pointee(request));
    }

    /** One turn of FAIL_ALL_AND_RETURN_IF_ERROR. */
    method Answer(request: Option<Request>, response: Option<Response>)
      modifies this
      ensures effects == old(Effects(effects.created, effects.sent + Pointee(response),
                                     effects.released + Pointee(request)))
    {
      if response != None {
        ResponseSend(response);
      }
      RequestRelease(request);
    }

    /** One turn of RequestsRespondWithError. */
    method RespondWithError(request: Option<Request>, response: Option<Response>)
      modifies this
      ensures effects == old(Effects(effects.created + Pointee(response), effects.sent + Pointee(response),
                                     effects.released + Pointee(request)))
    {
      ResponseNew(response);
      ResponseSend(response);
      RequestRelease(request);
    }
  }

  /** Effects after the first `count` requests of a batch were answered with these responses, newly created or not. */
  ghost function AnsweredUpTo(
    before: Effects, created: seq<Option<Response>>, sent: seq<Option<Response>>, released: seq<Option<Request>>,
    count: nat
  ): Effects
    requires count <= |created| && count <= |sent| && count <= |released|
  {
    Effects(before.created + ObjectsUpTo(created, count), before.sent + ObjectsUpTo(sent, count),
            before.released + ObjectsUpTo(released, count))
  }

  lemma AnswerNext(
    before: Effects, created: seq<Option<Response>>, sent: seq<Option<Response>>, released: seq<Option<Request>>,
    i: nat)
    requires i < |created| && i < |sent| && i < |released|
    ensures var e := AnsweredUpTo(before, created, sent, released, i);
            AnsweredUpTo(before, created, sent, released, i + 1)
            == Effects(e.created + Pointee(created[i]), e.sent + Pointee(sent[i]), e.released + Pointee(released[i]))
  {
  }

  lemma {:induction false} NothingToAnswer<T>(count: nat, i: nat)
    requires i <= count
    ensures ObjectsUpTo(Nulls<T>(count), i) == []
  {
    if i > 0 {
      NothingToAnswer<T>(count, i - 1);
    }
  }

  lemma SingleEffects(e: Effects, created: seq<Response>, sent: seq<Response>)
    ensures e.Then(NO_EFFECTS) == e
    ensures e.Then(Effects([], sent, [])) == e.(sent := e.sent + sent)
    ensures e.Then(Effects(created, [], [])) == e.(created := e.created + created)
  {
    assert e.created + [] == e.created && e.sent + [] == e.sent && e.released + [] == e.released;
  }

  /** Earlier effects do not change what a run does. */
  lemma {:induction false} PlayFrom(
    requests: seq<Option<Request>>, responses: seq<Option<Response>>, calls: seq<CallOutcome>, before: Effects,
    effects: Effects)
    ensures var play := Play(requests, responses, calls, effects);
            Play(requests, responses, calls, before.Then(effects)) == play.(effects := before.Then(play.effects))
    decreases |calls|
  {
    if calls != [] {
      var step :=
        match calls[0]
        case Passed => NO_EFFECTS
        case ResponseFailed(index) => Effects([], SentBy(responses, index), [])
        case BatchFailed => Effects([], Objects(responses), Objects(requests));
      assert before.Then(effects).Then(step) == before.Then(effects.Then(step));
      assert effects.Then(NO_EFFECTS) == effects;
      if calls[0].Passed? {
        PlayFrom(requests, responses, calls[1..], before, effects);
      } else if calls[0].ResponseFailed? {
        PlayFrom(requests, Failed(responses, calls[0].index), calls[1..], before, effects.Then(step));
      }
    }
  }

  lemma {:induction false} TotalStaysNone(requests: seq<Option<Request>>, maxBatchSize: nat, script: Script,
                                          i: nat, j: nat)
    requires script.For(|requests|) && i <= j <= |requests|
    requires BatchTotal(requests, maxBatchSize, script, i).None?
    ensures BatchTotal(requests, maxBatchSize, script, j).None?
  {
    if i < j {
      TotalStaysNone(requests, maxBatchSize, script, i, j - 1);
    }
  }

  class ModelInstanceState {
    const config: Config
    const semaphore: Semaphore
    const core: TritonCore
    var nextSet: nat
    var nextBufferBindingSet: nat
    var barrier: Barrier
    var completionQueue: seq<Payload>
    var completion: Completion
    var issued: nat  // the numbers that payloads and barriers carry
    // history, for the statements only
    ghost var done: nat
    ghost var recorder: seq<Option<nat>>
    ghost var updated: seq<nat>
    ghost var fulfilled: seq<nat>
    ghost var accepted: seq<Request>

    ghost function State(): Instance
      reads this, semaphore, core
    {
      Instance(semaphore.count, nextSet, nextBufferBindingSet, barrier, completionQueue, completion,
               issued, done, recorder, updated, fulfilled, accepted, core.effects)
    }

    /** The constructor and InitSemaphore, lines 197-256 and 1703-1714. */
    constructor (config: Config)
      ensures this.config == config && fresh(semaphore) && fresh(core)
      ensures State() == Initial(config.Capacity())
    {
      this.config := config;
      semaphore := new Semaphore(if config.eagerBatching then EVENT_SET_COUNT else 1);
      core := new TritonCore();
      nextSet, nextBufferBindingSet := 0, 0;
      barrier, completionQueue, completion := NoBarrier, [], Idle;
      issued, done, recorder, updated, fulfilled := 0, 0, Nulls(EVENT_SET_COUNT), [], [];
      accepted := [];
    }

    // ----- Answering a whole batch -----

    /** RequestsRespondWithError: a new response is sent for each request, the request is released and nulled. */
    method RespondWithError(requests: array<Option<Request>>, script: Script)
      requires script.For(requests.Length)
      modifies requests, core
      ensures requests[..] == Rejected(old(requests[..]), script).requests
      ensures core.effects == old(core.effects).Then(Rejected(old(requests[..]), script).effects)
    {
      ghost var given, before := requests[..], core.effects;
      ghost var created := ErrorResponses(given, script);
      var i := 0;
      while i < requests.Length
        invariant i <= requests.Length
        invariant forall k :: 0 <= k < i ==> requests[k].None?
        invariant forall k :: i <= k < requests.Length ==> requests[k] == given[k]
        invariant core.effects == AnsweredUpTo(before, created, created, given, i)
      {
        AnswerNext(before, created, created, given, i);
        core.RespondWithError(requests[i], if requests[i].None? then None else script.errorResponses[i]);
        requests[i] := None;
        i := i + 1;
      }
    }

    /** FAIL_ALL_AND_RETURN_IF_ERROR, lines 56-117, once there is an error. */
    method FailAll(requests: array<Option<Request>>, responses: seq<Option<Response>>)
      requires |responses| == requests.Length
      modifies requests, core
      ensures requests[..] == Nulls(requests.Length)
      ensures core.effects ==
              old(core.effects).Then(Effects([], Objects(responses), Objects(old(requests[..]))))
    {
      ghost var given, before := requests[..], core.effects;
      ghost var none := Nulls<Response>(requests.Length);
      var r := 0;
      while r < requests.Length
        invariant r <= requests.Length
        invariant forall k :: 0 <= k < r ==> requests[k].None?
        invariant forall k :: r <= k < requests.Length ==> requests[k] == given[k]
        invariant core.effects == AnsweredUpTo(before, none, responses, given, r)
      {
        AnswerNext(before, none, responses, given, r);
        core.Answer(requests[r], responses[r]);
        requests[r] := None;
        r := r + 1;
      }
      NothingToAnswer<Response>(requests.Length, requests.Length);
    }

    // ----- The issue thread -----

    /** Run, lines 414-433. */
    method StartRun(requests: array<Option<Request>>)
      requires nextSet < |recorder|
      modifies this
      ensures State() == BeginRun(config, old(State()), requests[..])
    {
      if config.implicitState {
        barrier := Pending(issued);
      }
      recorder := recorder[nextSet := Some(issued)];
      accepted := accepted + Objects(requests[..]);
    }

    /** Run, lines 437-475. */
    method TotalBatchSize(requests: array<Option<Request>>, script: Script) returns (total: Option<int>)
      requires script.For(requests.Length)
      ensures total == BatchTotal(requests[..], config.maxBatchSize, script, requests.Length)
    {
      var sum := 0;
      var i := 0;
      while i < requests.Length
        invariant i <= requests.Length
        invariant BatchTotal(requests[..], config.maxBatchSize, script, i) == Some(sum)
      {
        if requests[i].None? || (config.maxBatchSize > 0 && script.batchSizes[i].None?) {
          TotalStaysNone(requests[..], config.maxBatchSize, script, i + 1, requests.Length);
          return None;
        }
        sum := (sum + if config.maxBatchSize > 0 then script.batchSizes[i].value else 1) % SIZE_T;
        i := i + 1;
      }
      total := Some(sum);
    }

    /** Run, lines 537-549. */
    method CreateResponses(script: Script) returns (responses: seq<Option<Response>>)
      modifies core
      ensures responses == script.responses
      ensures core.effects == old(core.effects.(created := core.effects.created + Objects(responses)))
    {
      ghost var before := core.effects;
      responses := [];
      var i := 0;
      while i < |script.responses|
        modifies core
        invariant i <= |script.responses| && responses == script.responses[..i]
        invariant core.effects == before.(created := before.created + ObjectsUpTo(script.responses, i))
      {
        core.ResponseNew(script.responses[i]);
        responses := responses + [script.responses[i]];
        i := i + 1;
      }
    }

    /** Run, lines 551-1187. */
    method PlayCalls(requests: array<Option<Request>>, created: seq<Option<Response>>, calls: seq<CallOutcome>)
      returns (responses: seq<Option<Response>>, responder: bool)
      requires |created| == requests.Length
      modifies requests, core
      ensures var play := Play(old(requests[..]), created, calls, old(core.effects));
              requests[..] == play.requests && responses == play.responses && responder == play.responder
              && core.effects == play.effects
    {
      ghost var given, before := requests[..], core.effects;
      responses, responder := created, true;
      var i := 0;
      while i < |calls|
        invariant i <= |calls| && requests[..] == given && |responses| == requests.Length
        invariant Play(given, created, calls, before) == Play(given, responses, calls[i..], core.effects)
      {
        assert calls[i..][1..] == calls[i + 1..];
        match calls[i] {
          case Passed =>
          case ResponseFailed(index) =>
            SingleEffects(core.effects, [], SentBy(responses, index));
            if index < |responses| {
              core.ResponseSend(responses[index]);
              responses := responses[index := None];
            }
          case BatchFailed =>
            FailAll(requests, responses);
            responder := false;
            return;
        }
        i := i + 1;
      }
    }

    /** Run, lines 437-1188. */
    method RunBatch(requests: array<Option<Request>>, script: Script)
      returns (responses: seq<Option<Response>>, responder: bool)
      requires script.For(requests.Length)
      modifies requests, core
      ensures var run := Run(old(requests[..]), config.maxBatchSize, script);
              requests[..] == run.requests && responses == run.responses && responder == run.responder
              && core.effects == old(core.effects).Then(run.effects)
    {
      ghost var given, before := requests[..], core.effects;
      responses, responder := [], false;
      SingleEffects(before, Objects(script.responses), []);
      var total := TotalBatchSize(requests, script);
      if total.None? {
        RespondWithError(requests, script);
      } else if total.value == 0 {
        return;
      } else if (total.value != 1 && total.value > config.maxBatchSize) || !script.shapeValuesRead {
        RespondWithError(requests, script);
      } else {
        responses := CreateResponses(script);
        PlayFrom(given, responses, script.calls, before, Effects(Objects(responses), [], []));
        responses, responder := PlayCalls(requests, responses, script.calls);
      }
    }

    /** ProcessRequests, lines 367-373. */
    method AllNullified(requests: array<Option<Request>>) returns (failed: bool)
      ensures failed == AllNull(requests[..])
    {
      var i := 0;
      while i < requests.Length
        invariant i <= requests.Length
        invariant forall k :: 0 <= k < i ==> requests[k].None?
      {
        if requests[i].Some? {
          assert requests[..][i].Some?;
          return false;
        }
        i := i + 1;
      }
      failed := true;
    }

    /** The copy of the requests that the payload takes along, lines 385-388. */
    method RequestsList(requests: array<Option<Request>>) returns (list: seq<Option<Request>>)
      ensures list == requests[..]
    {
      list := [];
      var i := 0;
      while i < requests.Length
        invariant i <= requests.Length && list == requests[..i]
      {
        list := list + [requests[i]];
        i := i + 1;
      }
    }

    /** ProcessRequests, lines 365-395, from the point where Run has started. */
    method FinishRun(requests: array<Option<Request>>, script: Script) returns (failed: bool)
      requires script.For(requests.Length)
      modifies this, semaphore, core, requests
      ensures State() == Pipeline.FinishRun(config, old(State()), old(requests[..]), script)
      ensures failed == RunFails(config, old(requests[..]), script)
    {
      var responses, responder := RunBatch(requests, script);
      failed := AllNullified(requests);
      if failed {
        semaphore.Release();
      } else {
        var eventSet := nextSet;
        nextSet := (eventSet + 1) % EVENT_SET_COUNT;
        var requestsList := RequestsList(requests);
        completionQueue := completionQueue + [Payload(issued, eventSet, nextBufferBindingSet, requestsList, responses,
                                               responder)];
        issued := issued + 1;
        nextBufferBindingSet := (nextBufferBindingSet + 1) % config.BufferSets();
      }
    }

    // ----- The completion thread -----

    method TakePayload()
      requires completion.Idle? && completionQueue != []
      modifies this
      ensures State() == Taken(old(State()))
    {
      completion := WaitingForInput(completionQueue[0]);
      completionQueue := completionQueue[1..];
    }

    /** Lines 1248-1262. */
    method ReleaseSlot()
      requires completion.WaitingForInput?
      modifies this, semaphore
      ensures State() == Released(old(State()))
    {
      completion := Finalizing(completion.payload);
      semaphore.Release();
    }

    /** The responder's Finalize, line 1266; `errors` are the responses whose output could not be copied. */
    method Finalize(responses: seq<Option<Response>>, errors: seq<nat>) returns (left: seq<Option<Response>>)
      modifies core
      ensures left == AfterFinalize(responses, errors)
      ensures core.effects == old(core.effects.(sent := core.effects.sent + SentByFinalize(responses, errors)))
    {
      ghost var before := core.effects;
      left := responses;
      var i := 0;
      while i < |errors|
        invariant i <= |errors| && left == AfterErrors(responses, errors, i)
        invariant core.effects == before.(sent := before.sent + SentByErrors(responses, errors, i))
      {
        if errors[i] < |left| {
          core.ResponseSend(left[errors[i]]);
          left := left[errors[i] := None];
        }
        i := i + 1;
      }
    }

    /** Lines 1264-1279. */
    method UpdateStates(errors: seq<nat>)
      requires completion.Finalizing? && completion.payload.responder
      modifies this, core
      ensures State() == StatesUpdated(old(State()), errors)
    {
      var payload := completion.payload;
      SingleEffects(core.effects, [], SentByFinalize(payload.responses, errors));
      var left := Finalize(payload.responses, errors);
      updated := updated + [payload.number];
      if barrier.Pending? {
        fulfilled := fulfilled + [barrier.number];
      }
      barrier := SetValue(barrier);
      completion := Responding(payload.(responses := left));
    }

    /** Lines 1264-1275 when a state update fails. */
    method FailUpdate(errors: seq<nat>)
      requires completion.Finalizing? && completion.payload.responder
      requires |completion.payload.responses| == |completion.payload.requests|
      modifies this, core
      ensures State() == UpdateFailed(old(State()), errors)
    {
      var payload := completion.payload;
      SingleEffects(core.effects, [], SentByFinalize(payload.responses, errors));
      var left := Finalize(payload.responses, errors);
      var requests := new Option<Request>[|payload.requests|](
        i requires 0 <= i < |payload.requests| => payload.requests[i]);
      assert requests[..] == payload.requests;
      FailAll(requests, left);
      completion := Ended;
      done := done + 1;
    }

    method SendResponses(responses: seq<Option<Response>>)
      modifies core
      ensures core.effects == old(core.effects.(sent := core.effects.sent + Objects(responses)))
    {
      ghost var before := core.effects;
      var i := 0;
      while i < |responses|
        modifies core
        invariant i <= |responses|
        invariant core.effects == before.(sent := before.sent + ObjectsUpTo(responses, i))
      {
        if responses[i] != None {
          core.ResponseSend(responses[i]);
        }
        i := i + 1;
      }
    }

    method ReleaseRequests(requests: seq<Option<Request>>)
      modifies core
      ensures core.effects == old(core.effects.(released := core.effects.released + Objects(requests)))
    {
      ghost var before := core.effects;
      var i := 0;
      while i < |requests|
        modifies core
        invariant i <= |requests|
        invariant core.effects == before.(released := before.released + ObjectsUpTo(requests, i))
      {
        core.RequestRelease(requests[i]);
        i := i + 1;
      }
    }

    /** Lines 1306-1334. */
    method Respond()
      requires completion.Responding?
      modifies this, core
      ensures State() == Responded(old(State()))
    {
      SendResponses(completion.payload.responses);
      ReleaseRequests(completion.payload.requests);
      assert old(core.effects.created) + [] == core.effects.created;
      completion := Idle;
      done := done + 1;
    }
  }
}
