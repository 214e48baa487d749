/**
 * The abstract host the composite light lives in: Home Assistant's state
 * machine (the registry of entity snapshots), its service dispatcher, its
 * state-change subscriptions, and its clock. Only the interface the light
 * relies on is modelled; what the host and the backing drivers do is left
 * open through the `world` timeline and the `rejects` verdict.
 */
module Host {
  import opened Wrappers

  /** A Python value stored as a state attribute or passed as a service parameter. */
  datatype Value =
    | Null                      // Python's None
    | Bool(b: bool)
    | Int(i: int)
    | Real(r: real)
    | Str(s: string)
    | List(items: seq<Value>)

  /** Python truthiness of a value. */
  predicate Truthy(v: Value)
  {
    match v
    case Null => false
    case Bool(b) => b
    case Int(i) => i != 0
    case Real(r) => r != 0.0
    case Str(s) => s != ""
    case List(items) => items != []
  }

  /** A state object of the registry: its state string and its attribute mapping. */
  datatype Snapshot = Snapshot(state: string, attributes: map<string, Value>)

  /** The state machine: entity id to the entity's current snapshot. */
  type Registry = map<string, Snapshot>

  /** `dict.get(key, fallback)`. */
  function Get(m: map<string, Value>, key: string, fallback: Value): (v: Value)
    ensures key in m ==> v == m[key]
    ensures key !in m ==> v == fallback
  {
    if key in m then m[key] else fallback
  }

  /** `hass.states.get(entity_id)`: the entity's snapshot, or None. */
  function Lookup(states: Registry, entityId: string): (s: Option<Snapshot>)
    ensures s.Some? <==> entityId in states
    ensures s.Some? ==> s.value == states[entityId]
  {
    if entityId in states then Some(states[entityId]) else None
  }

  /** A call of `hass.services.async_call(domain, service, data, blocking)`. */
  datatype ServiceCall = ServiceCall(domain: string, service: string, data: map<string, Value>, blocking: bool)

  /** What the host records of the composite light's actions, in order. */
  datatype Effect =
    | Call(call: ServiceCall)   // a service call was dispatched
    | StateWritten              // the light published its state (`async_write_ha_state`)

  /** The exception a service call raises when the backing driver rejects it. */
  datatype Error = ServiceRejected(call: ServiceCall)

  /** A state-change event as delivered to a listener: its `data` mapping. */
  datatype Event = Event(data: map<string, Value>)

  /** The handle returned by `async_track_state_change_event`. */
  datatype Subscription = Subscription(entityIds: seq<string>)

  class Hass {
    /** The registry's contents at each tick of the clock, as written by the
        backing drivers and by everything else outside the composite light. */
    const world: nat -> Registry
    /** Whether the backing driver rejects (raises on) a service call. */
    const rejects: ServiceCall -> bool
    /** The host clock, in ticks of one poll interval (100 ms). */
    var clock: nat
    /** Service calls dispatched and states published, oldest first. */
    var trace: seq<Effect>
    /** State-change subscriptions registered, oldest first. */
    var subscriptions: seq<Subscription>

    constructor (world: nat -> Registry, rejects: ServiceCall -> bool)
      ensures this.world == world && this.rejects == rejects
      ensures clock == 0 && trace == [] && subscriptions == []
    {
      this.world := world;
      this.rejects := rejects;
      clock := 0;
      trace := [];
      subscriptions := [];
    }

    /** `hass.states`: the registry as it stands now. */
    function States(): Registry
      reads this
    {
      world(clock)
    }

    /** `asyncio.sleep` for one poll interval: other tasks run, time passes. */
    method Sleep()
      modifies this`clock
      ensures clock == old(clock) + 1
    {
      clock := clock + 1;
    }

    /** `hass.services.async_call`: the call is recorded; a blocking call
        returns one tick later, once the driver has handled it, and raises
        when the driver rejects it. */
    method CallService(call: ServiceCall) returns (o: Outcome<Error>)
      modifies this`clock, this`trace
      ensures trace == old(trace) + [Call(call)]
      ensures clock == old(clock) + (if call.blocking then 1 else 0)
      ensures o == if rejects(call) then Fail(ServiceRejected(call)) else Pass
    {
      trace := trace + [Call(call)];
      if call.blocking {
        clock := clock + 1;
      }
      o := if rejects(call) then Fail(ServiceRejected(call)) else Pass;
    }

    /** `async_write_ha_state`: the entity's state is published. */
    method WriteState()
      modifies this`trace
      ensures trace == old(trace) + [StateWritten]
    {
      trace := trace + [StateWritten];
    }

    /** `async_track_state_change_event`: subscribe to changes of the given ids. */
    method TrackStateChangeEvent(entityIds: seq<string>) returns (unsub: Subscription)
      modifies this`subscriptions
      ensures unsub == Subscription(entityIds)
      ensures subscriptions == old(subscriptions) + [unsub]
    {
      unsub := Subscription(entityIds);
      subscriptions := subscriptions + [unsub];
    }
  }
}
