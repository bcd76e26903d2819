/**
 The engines and runtimes that the instances of a model share (src/model_state.cc:192-274,
 src/loader.cc:38-98).
 */
module EngineCache {
  import opened Options
  import opened Shapes

  /** GPU device and DLA core. */
  type Key = (int, int)

  const NO_DLA_CORE: int := -1

  datatype Engine = Engine(key: Key, shapes: seq<Dims>)

  /** Pointers to a runtime and an engine, as numbers in order of creation. */
  datatype Slot = Slot(runtime: Option<nat>, engine: Option<nat>)

  /**
   The state of the model, with the engines and runtimes created so far and, for every call
   that succeeded, the engine it handed out.
   */
  datatype Cache = Cache(slots: map<Key, Slot>, sharing: bool, engines: seq<Engine>, runtimes: seq<Key>,
                         handed: seq<nat>)

  const EMPTY: Cache := Cache(map[], true, [], [], [])

  /** What the calls to CUDA, TensorRT and the file system return in one CreateEngine. */
  datatype Foreign = Foreign(deviceSet: bool, runtimeCreated: bool, dlaCores: int, planRead: bool,
                             shapes: Option<seq<Dims>>)

  predicate Dynamic(shapes: seq<Dims>) {
    exists i :: 0 <= i < |shapes| && ContainsWildcard(shapes[i])
  }

  // ----- One call -----

  function Opened(cache: Cache, key: Key): (after: Cache)
    ensures key in after.slots
  {
    if key in cache.slots then cache else cache.(slots := cache.slots[key := Slot(None, None)])
  }

  function WithRuntime(cache: Cache, key: Key): (after: Cache)
    requires key in cache.slots
    ensures key in after.slots
  {
    if cache.slots[key].runtime.Some? then cache
    else cache.(slots := cache.slots[key := Slot(Some(|cache.runtimes|), cache.slots[key].engine)],
                runtimes := cache.runtimes + [key])
  }

  function WithEngine(cache: Cache, key: Key, shapes: seq<Dims>): Cache
    requires key in cache.slots
  {
    var sharing := cache.sharing && !Dynamic(shapes);
    var engine := if sharing then Some(|cache.engines|) else None;
    Cache(cache.slots[key := Slot(cache.slots[key].runtime, engine)], sharing,
          cache.engines + [Engine(key, shapes)], cache.runtimes, cache.handed + [|cache.engines|])
  }

  predicate RuntimeAvailable(cache: Cache, key: Key, foreign: Foreign)
    requires key in cache.slots
  {
    foreign.deviceSet && (cache.slots[key].runtime.Some? || foreign.runtimeCreated)
  }

  predicate PlanLoads(key: Key, foreign: Foreign) {
    (key.1 == NO_DLA_CORE || key.1 < foreign.dlaCores) && foreign.planRead && foreign.shapes.Some?
  }

  function Called(before: Cache, key: Key, foreign: Foreign): Cache {
    var cache := Opened(before, key);
    if cache.slots[key].engine.Some? then cache.(handed := cache.handed + [cache.slots[key].engine.value])
    else if !RuntimeAvailable(cache, key, foreign) then cache
    else if !PlanLoads(key, foreign) then WithRuntime(cache, key)
    else WithEngine(WithRuntime(cache, key), key, foreign.shapes.value)
  }

  // ----- What every sequence of calls keeps -----

  predicate AllStatic(engines: seq<Engine>) {
    forall e :: 0 <= e < |engines| ==> !Dynamic(engines[e].shapes)
  }

  predicate IsCached(slots: map<Key, Slot>, key: Key, e: nat) {
    key in slots && slots[key].engine == Some(e)
  }

  /** An engine in the cache was created for that device, with static shapes only, and its runtime is kept. */
  predicate CachedAreStatic(slots: map<Key, Slot>, engines: seq<Engine>) {
    forall key :: key in slots && slots[key].engine.Some? ==>
      var e := slots[key].engine.value;
      e < |engines| && engines[e].key == key && !Dynamic(engines[e].shapes) && slots[key].runtime.Some?
  }

  /** Each engine was handed out, and more than once only if it is in the cache. */
  predicate HandedOut(slots: map<Key, Slot>, engines: seq<Engine>, handed: seq<nat>) {
    && (forall i :: 0 <= i < |handed| ==> handed[i] < |engines|)
    && (forall e :: 0 <= e < |engines| ==>
         Count<nat>(handed, e) == 1 || (Count<nat>(handed, e) > 1 && IsCached(slots, engines[e].key, e)))
  }

  /** The engine of a device is the only one created for it. */
  predicate AllCached(slots: map<Key, Slot>, engines: seq<Engine>) {
    forall e :: 0 <= e < |engines| ==> IsCached(slots, engines[e].key, e)
  }

  /** The runtimes created are those in the cache, one each. */
  predicate RuntimesAreKept(slots: map<Key, Slot>, runtimes: seq<Key>) {
    && (forall key :: key in slots && slots[key].runtime.Some? ==>
         var r := slots[key].runtime.value; r < |runtimes| && runtimes[r] == key)
    && (forall r :: 0 <= r < |runtimes| ==> runtimes[r] in slots && slots[runtimes[r]].runtime == Some(r))
  }

  /** Sharing is on exactly as long as no engine with a dynamic shape was created. */
  predicate CacheInv(cache: Cache) {
    && CachedAreStatic(cache.slots, cache.engines)
    && (cache.sharing <==> AllStatic(cache.engines))
    && (cache.sharing ==> AllCached(cache.slots, cache.engines))
    && HandedOut(cache.slots, cache.engines, cache.handed)
    && RuntimesAreKept(cache.slots, cache.runtimes)
  }

  lemma OpenedInv(cache: Cache, key: Key)
    requires CacheInv(cache)
    ensures CacheInv(Opened(cache, key))
  {
  }

  lemma WithRuntimeInv(cache: Cache, key: Key)
    requires CacheInv(cache) && key in cache.slots
    ensures CacheInv(WithRuntime(cache, key))
  {
  }

  lemma HandedOnce(handed: seq<nat>, e: nat, x: nat)
    ensures Count<nat>(handed + [e], x) == Count<nat>(handed, x) + if x == e then 1 else 0
  {
    CountAppend<nat>(handed, [e], x);
    CountOfOne<nat>(e, x);
  }

  lemma {:induction false} NotYetHanded(handed: seq<nat>, e: nat)
    requires forall i :: 0 <= i < |handed| ==> handed[i] < e
    ensures Count<nat>(handed, e) == 0
  {
    if handed != [] {
      NotYetHanded(handed[1..], e);
    }
  }

  lemma HandedOutAgain(slots: map<Key, Slot>, engines: seq<Engine>, handed: seq<nat>, e: nat)
    requires HandedOut(slots, engines, handed) && e < |engines| && IsCached(slots, engines[e].key, e)
    ensures HandedOut(slots, engines, handed + [e])
  {
    forall x: nat | x < |engines|
      ensures Count<nat>(handed + [e], x) == Count<nat>(handed, x) + if x == e then 1 else 0
    {
      HandedOnce(handed, e, x);
    }
  }

  lemma HandedOutNew(slots: map<Key, Slot>, engines: seq<Engine>, handed: seq<nat>, after: map<Key, Slot>,
                     engine: Engine)
    requires HandedOut(slots, engines, handed)
    requires forall e :: 0 <= e < |engines| && IsCached(slots, engines[e].key, e) ==> IsCached(after, engines[e].key, e)
    ensures HandedOut(after, engines + [engine], handed + [|engines|])
  {
    NotYetHanded(handed, |engines|);
    forall e: nat | e <= |engines|
      ensures Count<nat>(handed + [|engines|], e) == Count<nat>(handed, e) + if e == |engines| then 1 else 0
      ensures e < |engines| ==> (engines + [engine])[e] == engines[e]
    {
      HandedOnce(handed, |engines|, e);
    }
  }

  lemma HandCachedInv(cache: Cache, key: Key)
    requires CacheInv(cache) && key in cache.slots && cache.slots[key].engine.Some?
    ensures CacheInv(cache.(handed := cache.handed + [cache.slots[key].engine.value]))
  {
    HandedOutAgain(cache.slots, cache.engines, cache.handed, cache.slots[key].engine.value);
  }

  lemma WithEngineInv(cache: Cache, key: Key, shapes: seq<Dims>)
    requires CacheInv(cache) && key in cache.slots
    requires cache.slots[key].engine.None? && cache.slots[key].runtime.Some?
    ensures CacheInv(WithEngine(cache, key, shapes))
  {
    var after := WithEngine(cache, key, shapes);
    var n := |cache.engines|;
    HandedOutNew(cache.slots, cache.engines, cache.handed, after.slots, Engine(key, shapes));
    forall e | 0 <= e < n
      ensures after.engines[e] == cache.engines[e]
    {
    }
    assert AllStatic(after.engines) <==> AllStatic(cache.engines) && !Dynamic(shapes) by {
      assert after.engines[n].shapes == shapes;
    }
  }

  lemma RuntimeOnly(cache: Cache, key: Key)
    requires key in cache.slots
    ensures var slot := WithRuntime(cache, key).slots[key];
            slot.runtime.Some? && slot.engine == cache.slots[key].engine
  {
  }

  lemma CalledInv(cache: Cache, key: Key, foreign: Foreign)
    requires CacheInv(cache)
    ensures CacheInv(Called(cache, key, foreign))
  {
    OpenedInv(cache, key);
    var known := Opened(cache, key);
    if known.slots[key].engine.Some? {
      HandCachedInv(known, key);
    } else {
      WithRuntimeInv(known, key);
      RuntimeOnly(known, key);
      if foreign.shapes.Some? {
        WithEngineInv(WithRuntime(known, key), key, foreign.shapes.value);
      }
    }
  }

  datatype Call = Call(key: Key, foreign: Foreign)

  function CalledAll(cache: Cache, calls: seq<Call>): Cache
    decreases |calls|
  {
    if calls == [] then cache
    else CalledAll(Called(cache, calls[0].key, calls[0].foreign), calls[1..])
  }

  lemma {:induction false} RunInv(cache: Cache, calls: seq<Call>)
    requires CacheInv(cache)
    ensures CacheInv(CalledAll(cache, calls))
    decreases |calls|
  {
    if calls != [] {
      CalledInv(cache, calls[0].key, calls[0].foreign);
      RunInv(Called(cache, calls[0].key, calls[0].foreign), calls[1..]);
    }
  }

  /** After any calls: what is cached is static, and what is dynamic was handed to exactly one caller. */
  lemma DynamicEnginesAreNotShared(calls: seq<Call>)
    ensures var cache := CalledAll(EMPTY, calls);
      && CachedAreStatic(cache.slots, cache.engines)
      && (forall e :: 0 <= e < |cache.engines| && Dynamic(cache.engines[e].shapes) ==> Count<nat>(cache.handed, e) == 1)
      && (cache.sharing <==> AllStatic(cache.engines))
  {
    RunInv(EMPTY, calls);
  }

  /** After any calls: no second runtime for a device, and while sharing is on no second engine either. */
  lemma OnePerDevice(calls: seq<Call>)
    ensures var cache := CalledAll(EMPTY, calls);
      && (forall r, r' :: 0 <= r < r' < |cache.runtimes| ==> cache.runtimes[r] != cache.runtimes[r'])
      && (cache.sharing ==>
           forall e, e' :: 0 <= e < e' < |cache.engines| ==> cache.engines[e].key != cache.engines[e'].key)
  {
    RunInv(EMPTY, calls);
    var cache := CalledAll(EMPTY, calls);
    if cache.sharing {
      forall e, e' | 0 <= e < e' < |cache.engines|
        ensures cache.engines[e].key != cache.engines[e'].key
      {
        assert IsCached(cache.slots, cache.engines[e].key, e) && IsCached(cache.slots, cache.engines[e'].key, e');
      }
    }
  }

  /** Sharing does not come back, and what is cached stays cached. */
  predicate Keeps(before: Cache, after: Cache) {
    && (after.sharing ==> before.sharing)
    && (forall key :: key in before.slots ==> key in after.slots)
    && (forall key :: key in before.slots && before.slots[key].engine.Some? ==>
         after.slots[key].engine == before.slots[key].engine)
    && (forall key :: key in before.slots && before.slots[key].runtime.Some? ==>
         after.slots[key].runtime == before.slots[key].runtime)
  }

  lemma CalledKeeps(cache: Cache, key: Key, foreign: Foreign)
    ensures Keeps(cache, Called(cache, key, foreign))
  {
  }

  lemma {:induction false} NothingIsTakenBack(cache: Cache, calls: seq<Call>)
    ensures Keeps(cache, CalledAll(cache, calls))
    decreases |calls|
  {
    if calls != [] {
      CalledKeeps(cache, calls[0].key, calls[0].foreign);
      NothingIsTakenBack(Called(cache, calls[0].key, calls[0].foreign), calls[1..]);
    }
  }

  /** So whoever asks for a device with a cached engine gets that engine, whatever was called in between. */
  lemma CachedEngineIsReused(cache: Cache, calls: seq<Call>, key: Key, foreign: Foreign)
    requires key in cache.slots && cache.slots[key].engine.Some?
    ensures var later := CalledAll(cache, calls);
            Called(later, key, foreign) == later.(handed := later.handed + [cache.slots[key].engine.value])
  {
    NothingIsTakenBack(cache, calls);
  }

  // ----- The class -----

  class ModelState {
    var deviceEngines: map<Key, Slot>
    var engineSharing: bool
    ghost var engines: seq<Engine>
    ghost var runtimes: seq<Key>
    ghost var handed: seq<nat>

    ghost function State(): Cache
      reads this
    {
      Cache(deviceEngines, engineSharing, engines, runtimes, handed)
    }

    constructor ()
      ensures State() == EMPTY
    {
      deviceEngines, engineSharing := map[], true;
      engines, runtimes, handed := [], [], [];
    }

    /** newRuntime and newEngine are the objects that TensorRT would create now. */
    method LoadPlan(key: Key, foreign: Foreign, newRuntime: nat, newEngine: nat) returns (ok: bool)
      requires key in deviceEngines && deviceEngines[key].engine.None?
      requires newRuntime == |runtimes| && newEngine == |engines|
      modifies this
      ensures ok <==> (old(deviceEngines)[key].runtime.Some? || foreign.runtimeCreated) && PlanLoads(key, foreign)
      ensures handed == old(handed) && engineSharing == old(engineSharing)
      ensures engines == old(engines) + if ok then [Engine(key, foreign.shapes.value)] else []
      ensures var kept := old(State());
              var with_ := if old(deviceEngines)[key].runtime.Some? || foreign.runtimeCreated
                           then WithRuntime(kept, key) else kept;
              && runtimes == with_.runtimes
              && deviceEngines == if ok then with_.slots[key := Slot(with_.slots[key].runtime, Some(newEngine))]
                                  else with_.slots
    {
      var slot := deviceEngines[key];
      if slot.runtime.None? {
        if !foreign.runtimeCreated {
          return false;
        }
        slot := Slot(Some(newRuntime), slot.engine);
        deviceEngines, runtimes := deviceEngines[key := slot], runtimes + [key];
      }
      if key.1 != NO_DLA_CORE {
        if key.1 >= foreign.dlaCores {
          return false;
        }
      }
      if !foreign.planRead || foreign.shapes.None? {
        return false;
      }
      deviceEngines := deviceEngines[key := Slot(slot.runtime, Some(newEngine))];
      engines := engines + [Engine(key, foreign.shapes.value)];
      ok := true;
    }

    method CreateEngine(key: Key, foreign: Foreign, newRuntime: nat, newEngine: nat) returns (engine: Option<nat>)
      requires newRuntime == |runtimes| && newEngine == |engines|
      modifies this
      ensures State() == Called(old(State()), key, foreign)
      ensures handed == old(handed) + Pointee(engine)
      ensures engine.Some? <==>
        || old(key in deviceEngines && deviceEngines[key].engine.Some?)
        || (&& foreign.deviceSet
            && (old(key in deviceEngines && deviceEngines[key].runtime.Some?) || foreign.runtimeCreated)
            && (key.1 == NO_DLA_CORE || key.1 < foreign.dlaCores) && foreign.planRead && foreign.shapes.Some?)
      ensures engine.Some? ==>
        engine == if old(key in deviceEngines && deviceEngines[key].engine.Some?) then old(deviceEngines)[key].engine
                  else Some(newEngine)
    {
      if key !in deviceEngines {
        deviceEngines := deviceEngines[key := Slot(None, None)];
      }
      engine := deviceEngines[key].engine;
      if engine.None? {
        if !foreign.deviceSet {
          return;
        }
        var loaded := LoadPlan(key, foreign, newRuntime, newEngine);
        if !loaded {
          return;
        }
        engine := deviceEngines[key].engine;
        if engineSharing {
          var isDynamic := HasDynamicShape(foreign.shapes.value);
          if isDynamic {
            engineSharing := false;
          }
        }
        if !engineSharing {
          deviceEngines := deviceEngines[key := Slot(deviceEngines[key].runtime, None)];
        }
      }
      handed := handed + [engine.value];
    }
  }

  method HasDynamicShape(shapes: seq<Dims>) returns (isDynamic: bool)
    ensures isDynamic <==> Dynamic(shapes)
  {
    isDynamic := false;
    var idx := 0;
    while idx < |shapes|
      invariant idx <= |shapes| && !isDynamic
      invariant forall i :: 0 <= i < idx ==> !ContainsWildcard(shapes[i])
    {
      if ContainsWildcard(shapes[idx]) {
        isDynamic := true;
        break;
      }
      idx := idx + 1;
    }
  }
}
