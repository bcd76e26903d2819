/**
 One model instance as a step machine. The issue thread runs
 TRITONBACKEND_ModelInstanceExecute, ProcessRequests and Run, the completion thread
 runs ProcessResponse; they share the semaphore, the completion queue, the ring of
 event sets, the ring of buffer sets and the one-shot barrier
 (src/instance_state.cc:355-426 and 1237-1350, src/instance_state.h:405-514).
 Every function below is one uninterrupted section of one of the two threads.
 Successful executions are numbered 0, 1, 2, … by the model.
 */
module Pipeline {
  import opened Arithmetic
  import opened Options
  import opened Accounting

  const EVENT_SET_COUNT: nat := 3

  datatype Config = Config(eagerBatching: bool, separateOutputStream: bool, implicitState: bool, maxBatchSize: nat) {
    /** InitSemaphore, lines 1703-1714. */
    function Capacity(): nat {
      if eagerBatching then EVENT_SET_COUNT else 1
    }

    /** num_copy_streams_, line 229; also the size of io_binding_infos_, lines 1971-1977. */
    function BufferSets(): (count: nat)
      ensures 1 <= count <= 2
    {
      if separateOutputStream then 2 else 1
    }
  }

  datatype Payload = Payload(
    number: nat, eventSet: nat, bufferSet: nat,
    requests: seq<Option<Request>>, responses: seq<Option<Response>>,
    responder: bool  // responder_ was created; without it the completion thread gets no further than Finalize
  )

  /**
   Where the completion thread is with the payload it took from the queue. The
   semaphore is released between WaitingForInput and Finalizing, while the
   payload goes on using its event set until it is done.
   */
  datatype Completion =
    | Idle
    | WaitingForInput(payload: Payload)  // in cudaEventSynchronize(ready_for_input_)
    | Finalizing(payload: Payload)       // slot released; finalizing, waiting for output_ready_
    | Responding(payload: Payload)       // states updated, barrier signalled; responses and releases to come
    | Ended                              // returned, after a state update failed

  /** The promise of the current barrier; `number` is the execution it was created for. */
  datatype Barrier =
    | NoBarrier
    | Pending(number: nat)
    | Fulfilled(number: nat)
    | FulfilledTwice  // std::promise::set_value throws

  datatype Instance = Instance(
    count: int,                  // semaphore_
    nextSet: nat,                // next_set_
    nextBuffer: nat,             // next_buffer_binding_set_
    barrier: Barrier,            // barrier_
    queue: seq<Payload>,         // completion_queue_
    completion: Completion,
    // history, for the statements only
    issued: nat,                 // successful executions so far
    done: nat,                   // payloads the completion thread has finished
    recorder: seq<Option<nat>>,  // for every event set, the execution that last used its events in Run
    updated: seq<nat>,           // the executions whose states were updated, in order
    fulfilled: seq<nat>,         // the executions whose promises were fulfilled, in order
    accepted: seq<Request>,      // requests handed to Run
    effects: Effects             // responses created and sent, requests released
  )

  function Initial(count: int): Instance {
    Instance(count, 0, 0, NoBarrier, [], Idle, 0, 0, Nulls(EVENT_SET_COUNT), [], [], [], NO_EFFECTS)
  }

  /** Lines 551-555, with io_binding_infos_.size() == BufferSets(). */
  function PrevSet(c: Config, nextSet: nat): nat {
    (EVENT_SET_COUNT - (c.BufferSets() % EVENT_SET_COUNT) + nextSet) % EVENT_SET_COUNT
  }

  // ----- Sections of the issue thread -----

  /** Run up to its first outside call: barrier_.reset, payload_.reset, first use of events_[next_set_]. */
  function BeginRun(c: Config, s: Instance, batch: seq<Option<Request>>): Instance
    requires s.nextSet < |s.recorder|
  {
    s.(accepted := s.accepted + Objects(batch),
       barrier := if c.implicitState then Pending(s.issued) else s.barrier,
       recorder := s.recorder[s.nextSet := Some(s.issued)])
  }

  /** The rest of Run and of ProcessRequests, up to the wait on the barrier. */
  function FinishRun(c: Config, s: Instance, batch: seq<Option<Request>>, script: Script): Instance
    requires script.For(|batch|)
  {
    var run := Run(batch, c.maxBatchSize, script);
    var s' := s.(effects := s.effects.Then(run.effects));
    if AllNull(run.requests) then s'.(count := s.count + 1)
    else
      s'.(queue := s.queue + [Payload(s.issued, s.nextSet, s.nextBuffer, run.requests, run.responses, run.responder)],
          issued := s.issued + 1,
          nextSet := (s.nextSet + 1) % EVENT_SET_COUNT,
          nextBuffer := (s.nextBuffer + 1) % c.BufferSets())
  }

  predicate RunFails(c: Config, batch: seq<Option<Request>>, script: Script)
    requires script.For(|batch|)
  {
    AllNull(Run(batch, c.maxBatchSize, script).requests)
  }

  /** Semaphore::Acquire, past its wait. */
  function Acquired(s: Instance): Instance {
    s.(count := s.count - 1)
  }

  // ----- Sections of the completion thread -----

  function Taken(s: Instance): Instance
    requires s.completion.Idle? && s.queue != []
  {
    s.(completion := WaitingForInput(s.queue[0]), queue := s.queue[1..])
  }

  function Released(s: Instance): Instance
    requires s.completion.WaitingForInput?
  {
    s.(completion := Finalizing(s.completion.payload), count := s.count + 1)
  }

  function SetValue(barrier: Barrier): Barrier {
    match barrier
    case NoBarrier => NoBarrier
    case Pending(number) => Fulfilled(number)
    case Fulfilled(_) => FulfilledTwice
    case FulfilledTwice => FulfilledTwice
  }

  /** Lines 1264-1279: finalize, wait for the output, update the states, signal the barrier. */
  function StatesUpdated(s: Instance, errors: seq<nat>): Instance
    requires s.completion.Finalizing?
  {
    var p := s.completion.payload;
    s.(completion := Responding(p.(responses := AfterFinalize(p.responses, errors))),
       effects := s.effects.Then(Effects([], SentByFinalize(p.responses, errors), [])),
       updated := s.updated + [p.number],
       fulfilled := if s.barrier.Pending? then s.fulfilled + [s.barrier.number] else s.fulfilled,
       barrier := SetValue(s.barrier))
  }

  /** Lines 1264-1275 if a state update fails: the batch is answered with the error and the thread returns. */
  function UpdateFailed(s: Instance, errors: seq<nat>): Instance
    requires s.completion.Finalizing?
  {
    var p := s.completion.payload;
    s.(completion := Ended,
       effects := s.effects.Then(Effects([], SentByFinalize(p.responses, errors), []))
                           .Then(Answered(p.requests, AfterFinalize(p.responses, errors))),
       done := s.done + 1)
  }

  function Responded(s: Instance): Instance
    requires s.completion.Responding?
  {
    var p := s.completion.payload;
    s.(completion := Idle, effects := s.effects.Then(Answered(p.requests, p.responses)), done := s.done + 1)
  }

  // ----- The invariant of one instance -----

  /** What the issue thread is doing with this instance. */
  datatype Role =
    | Away                                  // nothing, or blocked on some semaphore
    | Holding                               // holds a slot of this instance, not in Run yet
    | Running(batch: seq<Option<Request>>)  // in Run
    | Awaiting                              // waiting for the barrier

  predicate HasToken(role: Role) {
    role.Holding? || role.Running?
  }

  /** The payloads that are not done, oldest first. */
  function InFlight(s: Instance): seq<Payload> {
    if s.completion.Idle? || s.completion.Ended? then s.queue else [s.completion.payload] + s.queue
  }

  function Unreleased(s: Instance): nat {
    |s.queue| + if s.completion.WaitingForInput? then 1 else 0
  }

  /** The executions whose states were not updated, the one that failed to included. */
  function NotUpdated(s: Instance): nat {
    |s.queue| + if s.completion.WaitingForInput? || s.completion.Finalizing? || s.completion.Ended? then 1 else 0
  }

  function RequestsOf(payloads: seq<Payload>): seq<Request> {
    if payloads == [] then [] else Objects(payloads[0].requests) + RequestsOf(payloads[1..])
  }

  function ResponsesOf(payloads: seq<Payload>): seq<Response> {
    if payloads == [] then [] else Objects(payloads[0].responses) + ResponsesOf(payloads[1..])
  }

  lemma {:induction false} AppendPayload(payloads: seq<Payload>, p: Payload)
    ensures RequestsOf(payloads + [p]) == RequestsOf(payloads) + Objects(p.requests)
    ensures ResponsesOf(payloads + [p]) == ResponsesOf(payloads) + Objects(p.responses)
  {
    if payloads != [] {
      AppendPayload(payloads[1..], p);
      assert (payloads + [p])[1..] == payloads[1..] + [p];
    } else {
      assert (payloads + [p])[1..] == [];
    }
  }

  /** What is in flight: the payload of the completion thread, then the queue. */
  lemma InFlightOf(s: Instance)
    ensures s.completion.Idle? || s.completion.Ended? ==> InFlight(s) == s.queue
    ensures !s.completion.Idle? && !s.completion.Ended? ==>
              && InFlight(s) != [] && InFlight(s)[0] == s.completion.payload && InFlight(s)[1..] == s.queue
              && RequestsOf(InFlight(s)) == Objects(s.completion.payload.requests) + RequestsOf(s.queue)
              && ResponsesOf(InFlight(s)) == Objects(s.completion.payload.responses) + ResponsesOf(s.queue)
  {
  }

  /** Semaphore slots: free, held by an unreleased payload, or held by the issue thread. */
  ghost predicate Tokens(c: Config, s: Instance, role: Role) {
    s.count >= 0 && s.count + Unreleased(s) + (if HasToken(role) then 1 else 0) == c.Capacity()
  }

  ghost predicate Numbering(c: Config, s: Instance) {
    && s.issued == s.done + |InFlight(s)|
    && s.nextSet == s.issued % EVENT_SET_COUNT
    && s.nextBuffer == s.issued % c.BufferSets()
    && forall k :: 0 <= k < |InFlight(s)| ==> InFlight(s)[k].number == s.done + k && InPlace(c, InFlight(s)[k])
  }

  ghost predicate InPlace(c: Config, p: Payload) {
    p.eventSet == p.number % EVENT_SET_COUNT && p.bufferSet == p.number % c.BufferSets()
  }

  /** The latest execution, not after `issued`, whose number is that of event set `e`. */
  function LastUse(issued: nat, e: nat): Option<nat> {
    var number := issued - (issued - e) % EVENT_SET_COUNT;
    if number < 0 then None else Some(number)
  }

  ghost predicate Events(s: Instance, role: Role) {
    && |s.recorder| == EVENT_SET_COUNT
    && (forall e: nat :: e < EVENT_SET_COUNT && e != s.issued % EVENT_SET_COUNT ==>
          s.recorder[e] == LastUse(s.issued, e))
    && (role.Running? ==> s.recorder[s.issued % EVENT_SET_COUNT] == Some(s.issued))
  }

  ghost predicate States(c: Config, s: Instance, role: Role) {
    && |s.updated| + NotUpdated(s) == s.issued
    && (forall k :: 0 <= k < |s.updated| ==> s.updated[k] == k)
    && if !c.implicitState then
         s.barrier.NoBarrier? && s.fulfilled == [] && !role.Awaiting? && !s.completion.Ended?
       else
         && s.fulfilled == s.updated && !s.barrier.FulfilledTwice?
         && (role.Running? ==> s.barrier == Pending(s.issued))
         && if role.Awaiting? then
              && s.issued > 0 && NotUpdated(s) <= 1
              && s.barrier == if NotUpdated(s) == 1 then Pending(s.issued - 1) else Fulfilled(s.issued - 1)
            else NotUpdated(s) == 0
  }

  /** The requests of the batch that is in Run. */
  function Held(role: Role): seq<Request> {
    if role.Running? then Objects(role.batch) else []
  }

  /** Every request accepted is released, in flight or in Run; every response created is sent or in flight. */
  ghost predicate Books(s: Instance, role: Role) {
    && Balanced(s.accepted, s.effects.released, RequestsOf(InFlight(s)) + Held(role))
    && Balanced(s.effects.created, s.effects.sent, ResponsesOf(InFlight(s)))
  }

  ghost predicate Inv(c: Config, s: Instance, role: Role) {
    Tokens(c, s, role) && Numbering(c, s) && Events(s, role) && States(c, s, role) && Books(s, role)
  }

  lemma InitialInv(c: Config, role: Role)
    requires role.Away? || role.Holding?
    ensures Inv(c, Initial(c.Capacity() - if role.Holding? then 1 else 0), role)
  {
  }

  lemma BeginRunInv(c: Config, s: Instance, batch: seq<Option<Request>>)
    requires Inv(c, s, Holding)
    ensures Inv(c, BeginRun(c, s, batch), Running(batch))
  {
    var s' := BeginRun(c, s, batch);
    assert InFlight(s') == InFlight(s);
    assert Books(s', Running(batch)) by {
      assert RequestsOf(InFlight(s)) + Held(Holding) == RequestsOf(InFlight(s));
      Split(Objects(batch), []);
      assert Objects(batch) + [] == Objects(batch);
      Grow(s.accepted, s.effects.released, RequestsOf(InFlight(s)), Objects(batch), [], Objects(batch));
      assert s.effects.released + [] == s.effects.released;
    }
  }

  lemma FinishRunNumbering(c: Config, s: Instance, batch: seq<Option<Request>>, script: Script)
    requires Numbering(c, s) && script.For(|batch|)
    ensures Numbering(c, FinishRun(c, s, batch, script))
  {
    var s' := FinishRun(c, s, batch, script);
    if RunFails(c, batch, script) {
      assert InFlight(s') == InFlight(s);
    } else {
      var p := s'.queue[|s'.queue| - 1];
      assert InFlight(s') == InFlight(s) + [p];
      NextInRing(s.issued, c.BufferSets());
      NextInRing(s.issued, EVENT_SET_COUNT);
    }
  }

  /** What a run that does not fail leaves for the completion thread, the early return included. */
  lemma RunLeaves(batch: seq<Option<Request>>, maxBatchSize: nat, script: Script)
    requires script.For(|batch|)
    ensures var run := Run(batch, maxBatchSize, script);
            if AllNull(run.requests)
            then run.effects.released == Objects(batch) && SameObjects(run.effects.created, run.effects.sent)
            else
              && run.requests == batch && run.effects.released == []
              && Balanced(run.effects.created, run.effects.sent, Objects(run.responses))
              && (run.responder <==> !ZeroBatch(batch, maxBatchSize, script))
    ensures ZeroBatch(batch, maxBatchSize, script) ==> !AllNull(Run(batch, maxBatchSize, script).requests)
  {
    RunSettles(batch, maxBatchSize, script);
  }

  lemma FinishRunBooks(c: Config, s: Instance, batch: seq<Option<Request>>, script: Script)
    requires Books(s, Running(batch)) && script.For(|batch|)
    ensures Books(FinishRun(c, s, batch, script), Away)
  {
    var run := Run(batch, c.maxBatchSize, script);
    RunLeaves(batch, c.maxBatchSize, script);
    var s' := FinishRun(c, s, batch, script);
    if AllNull(run.requests) {
      assert InFlight(s') == InFlight(s);
      FailedRequests(s.accepted, s.effects.released, RequestsOf(InFlight(s)), Objects(batch));
      Grow(s.effects.created, s.effects.sent, ResponsesOf(InFlight(s)), run.effects.created, run.effects.sent, []);
      assert ResponsesOf(InFlight(s)) + [] == ResponsesOf(InFlight(s));
      assert RequestsOf(InFlight(s)) + [] == RequestsOf(InFlight(s));
    } else {
      var p := s'.queue[|s'.queue| - 1];
      assert InFlight(s') == InFlight(s) + [p];
      AppendPayload(InFlight(s), p);
      Grow(s.effects.created, s.effects.sent, ResponsesOf(InFlight(s)),
           run.effects.created, run.effects.sent, Objects(run.responses));
      assert s.effects.released + [] == s.effects.released;
      assert RequestsOf(InFlight(s')) + [] == RequestsOf(InFlight(s')) == RequestsOf(InFlight(s)) + Objects(batch);
    }
  }

  lemma FailedRequests(accepted: seq<Request>, released: seq<Request>, inFlight: seq<Request>, batch: seq<Request>)
    requires Balanced(accepted, released, inFlight + batch)
    ensures Balanced(accepted, released + batch, inFlight)
  {
    Split(inFlight, batch);
    Move(accepted, released, inFlight + batch, batch, inFlight);
  }

  lemma LastUseAdvances(issued: nat, e: nat)
    requires e < EVENT_SET_COUNT
    ensures e == issued % EVENT_SET_COUNT ==> LastUse(issued + 1, e) == Some(issued)
    ensures e != issued % EVENT_SET_COUNT && e != (issued + 1) % EVENT_SET_COUNT
            ==> LastUse(issued + 1, e) == LastUse(issued, e)
  {
  }

  /** Leaving Run, whether or not the execution counts, keeps what the recorder says. */
  lemma EventsAdvance(s: Instance, batch: seq<Option<Request>>, s': Instance)
    requires Events(s, Running(batch)) && s'.recorder == s.recorder
    requires s'.issued == s.issued || s'.issued == s.issued + 1
    ensures Events(s', Away)
  {
    forall e: nat | e < EVENT_SET_COUNT {
      LastUseAdvances(s.issued, e);
    }
  }

  lemma FinishRunEvents(c: Config, s: Instance, batch: seq<Option<Request>>, script: Script)
    requires Events(s, Running(batch)) && script.For(|batch|)
    ensures Events(FinishRun(c, s, batch, script), Away)
  {
    EventsAdvance(s, batch, FinishRun(c, s, batch, script));
  }

  lemma FinishRunInv(c: Config, s: Instance, batch: seq<Option<Request>>, script: Script)
    requires Inv(c, s, Running(batch)) && script.For(|batch|)
    ensures Inv(c, FinishRun(c, s, batch, script),
                if !RunFails(c, batch, script) && c.implicitState then Awaiting else Away)
  {
    var role := if !RunFails(c, batch, script) && c.implicitState then Awaiting else Away;
    var s' := FinishRun(c, s, batch, script);
    FinishRunNumbering(c, s, batch, script);
    FinishRunEvents(c, s, batch, script);
    FinishRunBooks(c, s, batch, script);
    assert Books(s', role);
    assert Tokens(c, s', role);
    assert States(c, s', role);
  }

  lemma PassedBarrierInv(c: Config, s: Instance)
    requires Inv(c, s, Awaiting) && s.barrier.Fulfilled?
    ensures Inv(c, s, Away)
  {
  }

  lemma AcquiredInv(c: Config, s: Instance)
    requires Inv(c, s, Away) && s.count > 0
    ensures Inv(c, Acquired(s), Holding)
  {
    assert InFlight(Acquired(s)) == InFlight(s);
  }

  lemma TakenInv(c: Config, s: Instance, role: Role)
    requires Inv(c, s, role) && s.completion.Idle? && s.queue != []
    ensures Inv(c, Taken(s), role)
  {
    assert InFlight(Taken(s)) == InFlight(s);
  }

  lemma ReleasedInv(c: Config, s: Instance, role: Role)
    requires Inv(c, s, role) && s.completion.WaitingForInput?
    ensures Inv(c, Released(s), role)
  {
    assert InFlight(Released(s)) == InFlight(s);
  }

  lemma StatesUpdatedNumbering(c: Config, s: Instance, errors: seq<nat>)
    requires Numbering(c, s) && s.completion.Finalizing?
    ensures Numbering(c, StatesUpdated(s, errors))
  {
    var s' := StatesUpdated(s, errors);
    assert InFlight(s)[0] == s.completion.payload;
    assert InFlight(s') == InFlight(s)[0 := s'.completion.payload];
  }

  lemma StatesUpdatedBooks(s: Instance, role: Role, errors: seq<nat>)
    requires Books(s, role) && s.completion.Finalizing?
    ensures Books(StatesUpdated(s, errors), role)
  {
    var p := s.completion.payload;
    var s' := StatesUpdated(s, errors);
    InFlightOf(s);
    InFlightOf(s');
    FinalizeAccounts(p.responses, errors);
    var sent, left := SentByFinalize(p.responses, errors), AfterFinalize(p.responses, errors);
    var rest := ResponsesOf(s.queue);
    Split([], rest);
    assert [] + rest == rest;
    Grow(Objects(p.responses), sent, Objects(left), rest, [], rest);
    assert sent + [] == sent;
    Move(s.effects.created, s.effects.sent, Objects(p.responses) + rest, sent, Objects(left) + rest);
    assert s'.effects == s.effects.(sent := s.effects.sent + sent);
    assert RequestsOf(InFlight(s')) == RequestsOf(InFlight(s));
  }

  /** The oldest payload not updated yet is the one the completion thread holds. */
  lemma StatesUpdatedStates(c: Config, s: Instance, role: Role, errors: seq<nat>)
    requires Numbering(c, s) && States(c, s, role) && s.completion.Finalizing?
    ensures States(c, StatesUpdated(s, errors), role)
  {
    var s' := StatesUpdated(s, errors);
    assert InFlight(s)[0] == s.completion.payload;
    assert |s.updated| == s.done == s.completion.payload.number;
  }

  lemma StatesUpdatedInv(c: Config, s: Instance, role: Role, errors: seq<nat>)
    requires Inv(c, s, role) && s.completion.Finalizing?
    ensures Inv(c, StatesUpdated(s, errors), role)
  {
    var s' := StatesUpdated(s, errors);
    StatesUpdatedNumbering(c, s, errors);
    StatesUpdatedBooks(s, role, errors);
    StatesUpdatedStates(c, s, role, errors);
    assert Tokens(c, s', role);
    assert Events(s', role);
  }

  lemma RespondedNumbering(c: Config, s: Instance)
    requires Numbering(c, s) && s.completion.Responding?
    ensures Numbering(c, Responded(s))
  {
    assert InFlight(Responded(s)) == InFlight(s)[1..];
  }

  lemma RespondedBooks(s: Instance, role: Role)
    requires Books(s, role) && s.completion.Responding?
    ensures Books(Responded(s), role)
  {
    InFlightOf(s);
    InFlightOf(Responded(s));
    var p := s.completion.payload;
    Split(Objects(p.responses), ResponsesOf(s.queue));
    Move(s.effects.created, s.effects.sent, ResponsesOf(InFlight(s)), Objects(p.responses), ResponsesOf(s.queue));
    Split(Objects(p.requests), RequestsOf(s.queue) + Held(role));
    assert RequestsOf(InFlight(s)) + Held(role) == Objects(p.requests) + (RequestsOf(s.queue) + Held(role));
    Move(s.accepted, s.effects.released, RequestsOf(InFlight(s)) + Held(role),
         Objects(p.requests), RequestsOf(s.queue) + Held(role));
    assert s.effects.created + [] == s.effects.created;
  }

  lemma RespondedInv(c: Config, s: Instance, role: Role)
    requires Inv(c, s, role) && s.completion.Responding?
    ensures Inv(c, Responded(s), role)
  {
    var s' := Responded(s);
    RespondedNumbering(c, s);
    RespondedBooks(s, role);
    assert Tokens(c, s', role);
    assert Events(s', role);
    assert States(c, s', role);
  }

  /** A failed update leaves the books as the two sections of a successful one would. */
  lemma UpdateFailedInv(c: Config, s: Instance, role: Role, errors: seq<nat>)
    requires Inv(c, s, role) && s.completion.Finalizing? && c.implicitState
    ensures Inv(c, UpdateFailed(s, errors), role)
  {
    var s', updated := UpdateFailed(s, errors), StatesUpdated(s, errors);
    StatesUpdatedNumbering(c, s, errors);
    StatesUpdatedBooks(s, role, errors);
    RespondedNumbering(c, updated);
    RespondedBooks(updated, role);
    assert InFlight(s') == InFlight(Responded(updated)) && s'.effects == Responded(updated).effects;
    assert Tokens(c, s', role);
    assert Events(s', role);
    assert States(c, s', role);
  }

  // ----- What the invariant means for the resources -----

  /** No two payloads in flight, and no payload in flight and the running execution, use the same event set. */
  ghost predicate Exclusive(s: Instance, role: Role) {
    && (forall j, k :: 0 <= j < k < |InFlight(s)| ==> InFlight(s)[j].eventSet != InFlight(s)[k].eventSet)
    && (role.Running? ==> forall k :: 0 <= k < |InFlight(s)| ==> InFlight(s)[k].eventSet != s.nextSet)
  }

  lemma DistinctSets(a: nat, b: nat)
    requires a < b < a + EVENT_SET_COUNT
    ensures a % EVENT_SET_COUNT != b % EVENT_SET_COUNT
  {
  }

  /** In-flight payloads whose numbers are fewer than EVENT_SET_COUNT behind the next one use distinct sets. */
  lemma InFlightSets(c: Config, s: Instance, j: nat)
    requires Numbering(c, s) && s.issued - EVENT_SET_COUNT < s.done + j && j < |InFlight(s)|
    ensures InFlight(s)[j].eventSet != s.nextSet
    ensures forall k :: j < k < |InFlight(s)| ==> InFlight(s)[j].eventSet != InFlight(s)[k].eventSet
  {
    assert InPlace(c, InFlight(s)[j]);
    DistinctSets(s.done + j, s.issued);
    forall k | j < k < |InFlight(s)|
      ensures InFlight(s)[j].eventSet != InFlight(s)[k].eventSet
    {
      assert InPlace(c, InFlight(s)[k]);
      DistinctSets(s.done + j, s.done + k);
    }
  }

  /** Without eager batching, or with implicit state, at most two payloads are in flight at a time. */
  lemma FewInFlightExclusive(c: Config, s: Instance, role: Role)
    requires Inv(c, s, role) && (!c.eagerBatching || c.implicitState)
    ensures Exclusive(s, role)
  {
    assert |InFlight(s)| <= 2;
    forall j | 0 <= j < |InFlight(s)| {
      InFlightSets(c, s, j);
    }
  }

  /** The payloads whose slot is not released yet: a suffix of those in flight. */
  function UnreleasedPayloads(s: Instance): seq<Payload> {
    if s.completion.WaitingForInput? then [s.completion.payload] + s.queue else s.queue
  }

  lemma UnreleasedAt(c: Config, s: Instance, j: nat)
    requires Numbering(c, s) && j < |UnreleasedPayloads(s)|
    ensures var u := UnreleasedPayloads(s);
            u[j].number == s.issued - |u| + j && InPlace(c, u[j])
  {
    var u := UnreleasedPayloads(s);
    assert u[j] == InFlight(s)[|InFlight(s)| - |u| + j];
  }

  /**
   In either mode, the payloads not released yet and the running execution are a
   contiguous run of at most Capacity() execution numbers ending at `issued`, so
   their event sets are distinct.
   */
  lemma UnreleasedAreContiguous(c: Config, s: Instance, role: Role)
    requires Inv(c, s, role)
    ensures var u := UnreleasedPayloads(s);
            && |u| + (if HasToken(role) then 1 else 0) <= c.Capacity() <= EVENT_SET_COUNT
            && (forall k :: 0 <= k < |u| ==> u[k].number == s.issued - |u| + k)
            && (forall j, k :: 0 <= j < k < |u| ==> u[j].eventSet != u[k].eventSet)
            && (role.Running? ==> forall k :: 0 <= k < |u| ==> u[k].eventSet != s.nextSet)
  {
    var u := UnreleasedPayloads(s);
    assert |u| == Unreleased(s) && Tokens(c, s, role);
    forall j | 0 <= j < |u|
      ensures u[j].number == s.issued - |u| + j && InPlace(c, u[j])
      ensures |u| < EVENT_SET_COUNT ==> u[j].eventSet != s.nextSet
    {
      UnreleasedAt(c, s, j);
      if |u| < EVENT_SET_COUNT {
        DistinctSets(u[j].number, s.issued);
      }
    }
    forall j, k | 0 <= j < k < |u|
      ensures u[j].eventSet != u[k].eventSet
    {
      DistinctSets(u[j].number, u[k].number);
    }
  }

  /** prev_set for execution n with b buffer sets. */
  function PrevSetOf(n: nat, b: nat): nat {
    (EVENT_SET_COUNT - b % EVENT_SET_COUNT + n % EVENT_SET_COUNT) % EVENT_SET_COUNT
  }

  lemma PrevSetArithmetic(n: nat, b: nat)
    requires 1 <= b <= 2
    ensures PrevSetOf(n, b) < EVENT_SET_COUNT && PrevSetOf(n, b) != n % EVENT_SET_COUNT
    ensures LastUse(n, PrevSetOf(n, b)) == if n >= b then Some(n - b) else None
  {
    assert (n - PrevSetOf(n, b)) % EVENT_SET_COUNT == b;
  }

  /** None of the b executions up to n, apart from execution n-b, uses event set e. */
  ghost predicate NotReused(n: nat, b: nat, e: nat) {
    n >= b ==> forall k: nat :: n - b < k <= n ==> k % EVENT_SET_COUNT != e
  }

  lemma PrevSetNotReused(n: nat, b: nat)
    requires 1 <= b <= 2
    ensures NotReused(n, b, PrevSetOf(n, b))
  {
    forall k: nat | n - b < k <= n && n >= b
      ensures k % EVENT_SET_COUNT != PrevSetOf(n, b)
    {
      assert PrevSetOf(n, b) == (n - b) % EVENT_SET_COUNT;
      DistinctSets(n - b, k);
    }
  }

  lemma BufferTurn(n: nat, b: nat)
    requires 1 <= b <= 2
    ensures n >= b ==> (n - b) % b == n % b
    ensures b == 2 && n >= 1 ==> (n - 1) % b != n % b
  {
  }

  /**
   prev_set holds the events of the last execution on the buffer set of execution
   `issued`, and no execution since then, finished, failed or running, has used them;
   before the buffer set's first use they were never recorded.
   */
  ghost predicate ReuseOrdered(c: Config, s: Instance) {
    var (n, b, prev) := (s.issued, c.BufferSets(), PrevSet(c, s.nextSet));
    && s.nextSet == n % EVENT_SET_COUNT && s.nextBuffer == n % b
    && prev < |s.recorder| && s.recorder[prev] == (if n >= b then Some(n - b) else None)
    && (n >= b ==> (n - b) % b == s.nextBuffer)
    && NotReused(n, b, prev)
  }

  lemma RunningIsReuseOrdered(c: Config, s: Instance, batch: seq<Option<Request>>)
    requires Numbering(c, s) && Events(s, Running(batch))
    ensures ReuseOrdered(c, s)
  {
    PrevSetArithmetic(s.issued, c.BufferSets());
    PrevSetNotReused(s.issued, c.BufferSets());
    BufferTurn(s.issued, c.BufferSets());
  }

  /**
   Execution `issued` may reuse its buffer set: payload n-1 has had its inputs
   consumed and every earlier payload is done. Hence no payload in flight still needs
   its inputs, and with two buffer sets none uses the buffer set of execution n.
   */
  ghost predicate OverlapBounded(c: Config, s: Instance) {
    && s.done >= s.issued - 1 && s.queue == [] && !s.completion.WaitingForInput?
    && (c.separateOutputStream ==> forall k :: 0 <= k < |InFlight(s)| ==> InFlight(s)[k].bufferSet != s.nextBuffer)
  }

  lemma NonEagerOverlap(c: Config, s: Instance, batch: seq<Option<Request>>)
    requires Tokens(c, s, Running(batch)) && Numbering(c, s) && !c.eagerBatching
    ensures OverlapBounded(c, s)
  {
    if InFlight(s) != [] {
      assert InPlace(c, InFlight(s)[0]);
      BufferTurn(s.issued, c.BufferSets());
    }
  }

  /**
   With implicit state, when execution n runs, the promise of each of the executions
   0, …, n-1 has been fulfilled exactly once and in order, by the payload it was
   created for, after the states of that payload were updated; no promise is ever
   fulfilled a second time.
   */
  lemma StateOrder(c: Config, s: Instance, role: Role)
    requires Inv(c, s, role) && c.implicitState
    ensures !s.barrier.FulfilledTwice?
    ensures s.fulfilled == s.updated == seq(|s.updated|, k => k)
    ensures role.Running? ==> |s.updated| == s.issued && s.barrier == Pending(s.issued)
  {
  }

  /** With nothing in flight and nothing in Run, every accepted request was released and every response sent, once. */
  lemma AllAnswered(c: Config, s: Instance, role: Role)
    requires Inv(c, s, role) && InFlight(s) == [] && !role.Running?
    ensures SameObjects(s.accepted, s.effects.released) && SameObjects(s.effects.created, s.effects.sent)
  {
    assert [] + Held(role) == [];
  }
}
