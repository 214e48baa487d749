# Switch-light composite light, modelled in Dafny

`DynamicControlledLight` (light.py) joins a mains switch and the smart light
module it powers into one Home Assistant light. This project models that
entity and the small part of Home Assistant it uses, and proves what the
entity does:

- **Read projection.** `is_on` and the attribute getters read straight
  through to the registry snapshots of the two backing entities. The
  constructor copies the light's attributes into the `_attr_*` fields once.
- **Command sequencer.** `async_turn_on` switches the mains on, waits, turns
  the light on with the caller's parameters, waits, and publishes the state.
  `async_turn_off` does the reverse and forwards no parameters. A rejected
  call raises, so nothing after it happens. `async_toggle` picks one of the
  two by reading `is_on`.
- **Convergence waiter.** `_wait_for_entity_update` polls every 100 ms. It
  stops at the first poll that sees a change from the snapshot read on
  entry, or sees an absent snapshot, or once the timeout has elapsed
  (500 ms by default).
- **Change bridge.** The listener registered in `async_added_to_hass`
  publishes the state once for each event about either backing entity, and
  does nothing for other events.

Files:

- `wrappers.dfy`: `Option` and `Outcome`.
- `host.dfy`: the host, as class `Hass`.
  - `world` is the registry's contents at every tick. It stands for
    everything the light does not control: the backing drivers, users and
    automations, and the host itself.
  - `rejects` says which service calls the backing driver throws on.
  - `clock` counts 100 ms ticks.
  - `trace` records the service calls dispatched and the states published,
    in order.
  - `subscriptions` holds the state-change subscriptions.
  - Reading the registry means reading `world(clock)`. A blocking service
    call takes one tick, and so does `asyncio.sleep(0.1)`.
- `convergence.dfy`: the waiter's specification.
  - `WaitPolls` is the number of polls the wait makes. It is the first
    poll that ends the wait, or the last poll that still fits in the
    timeout.
- `sequencing.dfy`: the commands' specification.
  - A command is a list of steps. Each step is a blocking call followed by
    a wait on an entity.
  - `SequenceTrace`, `SequenceOutcome` and `SequenceClock` give the trace
    the steps add, the error the command raises and the tick at which it
    ends.
- `light.dfy`: the entity itself, class `ControlledLight.DynamicControlledLight`,
  plus the service calls its commands make and its device key.
  - Every method is proved against those specification functions.

Python values are the datatype `Host.Value`, where `Null` is `None`, and
`Host.Truthy` is Python truthiness. The light's service data is built the
way the Python dict display `{"entity_id": id, **kwargs}` builds it: a
caller-supplied `entity_id` replaces the target.

Four details of the code the model keeps as written:

- With the light entity absent, `_get_light_attr` returns `None`, not the
  fallback (light.py:84).
- With the switch absent, `is_on` returns `None` (a falsy value), not
  `False` (light.py:93).
- The subscription is made in `async_added_to_hass`, not at construction.
  No teardown releases it (light.py:159-169).
- The constructor stores the light's MIN colour-temperature bound in
  `_attr_max_color_temp_kelvin` and the MAX bound in
  `_attr_min_color_temp_kelvin` (light.py:51-52). The model keeps this as
  written.

The integration's domain constant lives in const.py, and const.py is not
part of this model. Its value is taken from the config flow's
`domain="switch-light"` (config_flow.py:5).

## Model

| member | source | states |
|---|---|---|
| Host.Get | light.py:84 | `dict.get(key, fallback)`: the stored value when the key is present, the fallback otherwise |
| Host.Lookup | light.py:79-80 | `hass.states.get`: a snapshot exactly when the id is in the registry, and then the registered one |
| Host.Hass.CallService | light.py:96-103 | a dispatch is recorded in the trace; a blocking call returns one tick later; the outcome is the driver's rejection, if any |
| Host.Hass.Sleep | light.py:152 | one poll interval passes and nothing else changes |
| Host.Hass.WriteState | light.py:115 | `async_write_ha_state` appends one publication to the trace |
| Host.Hass.TrackStateChangeEvent | light.py:165-169 | the subscription covers exactly the given ids and is registered with the host |
| Convergence.MaxPolls | light.py:144-152 | the number of 100 ms polls the timeout allows: the least count whose time reaches the timeout |
| Convergence.WaitOver | light.py:154-157 | the loop stops exactly when either snapshot is absent or the new snapshot differs from the one read on entry |
| Convergence.PollsFrom | light.py:151-157 | the search for the first poll that ends the wait stops there, or at the last allowed poll, and never skips a poll that ends it |
| Convergence.WaitPolls | light.py:144-157 | the wait makes at most ceil(timeout/100 ms) polls (5 by default), at least one for a positive timeout, and returns before timeout + one interval; when it stops early, that poll ends the wait and no earlier poll does |
| Convergence.WaitEndsAtFirstChange | light.py:153-157 | the wait ends exactly at the first poll that sees a change or an absence |
| Convergence.WaitTimesOut | light.py:151 | when no allowed poll sees a change, the wait runs all allowed polls |
| Convergence.WaitEndsOnAbsence | light.py:154-155 | an absent snapshot on entry or at the first poll ends the wait after one poll |
| Convergence.WaitOnUnchangedEntity | light.py:151-157 | an entity whose snapshot stays the same keeps the wait going until the timeout |
| Sequencing.FirstRejected | light.py:95-136 | every step before the index is accepted, and the step at the index, if there is one, is rejected |
| Sequencing.SequenceTrace | light.py:95-136 | a command adds at least one and at most one effect more than it has steps, and its first effect is its first call (or the publication when there are no steps) |
| Sequencing.SequenceOutcome | light.py:95-136 | a command raises nothing exactly when every call is accepted, and otherwise the error of the first rejected call |
| Sequencing.SequenceClock | light.py:95-136 | a command never ends before it starts, and takes at least one tick when it has a step |
| Sequencing.SequenceTraceClosedForm | light.py:95-136 | the trace is the calls up to and including the first rejected one, or all calls followed by one publication |
| Sequencing.StepEnd | light.py:96-104 | a step takes at least one tick and at most one tick plus a full wait; it takes exactly one tick when its call is rejected |
| Sequencing.SequenceClockBounded | light.py:95-136 | a command ends at most one call plus a full wait per step after it starts |
| Sequencing.TwoStepTrace | light.py:95-136 | a two-step command always issues the first call, issues the second only when the first is accepted, and publishes only when both are |
| Sequencing.TwoStepOutcome | light.py:95-136 | a two-step command raises the first call's error, else the second's, else nothing |
| Sequencing.TwoStepClock | light.py:95-136 | a two-step command ends after its first step when that step's call is rejected, otherwise after both steps |
| Sequencing.PublishesOnlyOnSuccess | light.py:115 | the state is published exactly when no call is rejected, and only as the last effect |
| Sequencing.IssuedIffEarlierAccepted | light.py:95-136 | a step's call is issued exactly when every earlier call was accepted, and in step order |
| ControlledLight.SwitchCall | light.py:96-103 | a blocking `switch` call whose data is only the switch id |
| ControlledLight.LightCall | light.py:105-113 | a blocking `light` call whose data holds the caller's parameters unchanged, plus the light id unless the caller set `entity_id` |
| ControlledLight.TurnOnSteps | light.py:95-114 | turning on is two blocking `turn_on` steps: the switch with only its id, waited on the switch, then the light with the caller's parameters merged over its id, waited on the light |
| ControlledLight.TurnOffSteps | light.py:117-135 | turning off is two blocking `turn_off` steps: the light with only its id, waited on the light, then the switch with only its id, waited on the switch |
| ControlledLight.AttrOf | light.py:84 | the snapshot's attribute, the fallback when the snapshot lacks it, and None when there is no snapshot |
| ControlledLight.TurnOnSequence | light.py:95-115 | turning on issues `switch.turn_on` on the switch, then, only if that is accepted, `light.turn_on` on the light with the caller's parameters, then publishes once; it raises the first rejection |
| ControlledLight.TurnOffSequence | light.py:117-136 | turning off issues `light.turn_off` on the light carrying only its id, then, only if that is accepted, `switch.turn_off`, then publishes once; it raises the first rejection |
| ControlledLight.DeviceKey | light.py:65 | the key is the switch id, `_`, then the light id |
| ControlledLight.DeviceKeyRoundTrip | light.py:65 | for well-formed entity ids the key can be read back into the ids it was built from |
| ControlledLight.DeviceKeyInjective | light.py:65 | two composite lights over different well-formed id pairs get different device keys |
| ControlledLight.DeviceKeyAmbiguousForArbitraryIds | light.py:65 | without the entity-id format, two different id pairs can give the same key, so two composite lights configured with such ids would share device identifiers |
| ControlledLight.DisjointIdentifiers | light.py:63-69 | two composite lights over different well-formed switch and light ids have disjoint `device_info` identifiers |
| ControlledLight.DynamicControlledLight.constructor | light.py:39-60 | each `_attr_*` field holds the attribute read from the light at construction; max takes MIN and min takes MAX; supported colour modes fall back to `[onoff]` and supported features to 0 |
| ControlledLight.DynamicControlledLight.EntityState | light.py:79-80 | the entity's snapshot exactly when it is in the registry now |
| ControlledLight.DynamicControlledLight.GetLightAttr | light.py:82-84 | the light's stored attribute; the fallback when the light lacks it; None, whatever the fallback, when the light is absent |
| ControlledLight.DynamicControlledLight.GetSwitchAttr | light.py:86-88 | the switch's stored attribute, or None when the switch lacks it or is absent |
| ControlledLight.DynamicControlledLight.IsOn | light.py:90-93 | truthy exactly when the switch is present with state `on`; None exactly when the switch is absent; never anything but None or a bool |
| ControlledLight.DynamicControlledLight.WaitForEntityUpdate | light.py:144-157 | the loop makes exactly the polls `WaitPolls` gives and changes nothing but the clock |
| ControlledLight.DynamicControlledLight.RunStep | light.py:96-104 | one step records its call, waits on its target only when the call is accepted, and raises the rejection |
| ControlledLight.DynamicControlledLight.TurnOn | light.py:95-115 | the trace, the end time and the raised error are exactly those of the turn-on steps |
| ControlledLight.DynamicControlledLight.TurnOff | light.py:117-136 | the trace, the end time and the raised error are exactly those of the turn-off steps |
| ControlledLight.DynamicControlledLight.Toggle | light.py:138-142 | exactly the turn-off behaviour when `is_on` is truthy at call time, otherwise exactly the turn-on behaviour with the same parameters |
| ControlledLight.DynamicControlledLight.Tracks | light.py:161-162 | an event is accepted exactly when its data has an `entity_id` equal to the switch id or the light id |
| ControlledLight.DynamicControlledLight.StateChangeListener | light.py:160-163 | one publication for an event about the switch or the light, nothing for any other event |
| ControlledLight.DynamicControlledLight.AddedToHass | light.py:165-169 | subscribes to exactly the switch and the light, in that order, and stores the handle |
| ControlledLight.DynamicControlledLight.TracksExactlySubscribed | light.py:160-169 | the listener's filter accepts exactly the events about an id it is subscribed to |
| ControlledLight.DynamicControlledLight.BridgeTraceExtends | light.py:160-163 | each delivered event extends the bridge's output by exactly what the listener appends for it |
| ControlledLight.DynamicControlledLight.BridgePublishesOncePerTrackedEvent | light.py:160-163 | over a stream of events the bridge publishes once per event about a backing entity, and nothing else |

## Left out

- `async_setup_entry` (light.py:27-36), config_flow.py and `__init__.py` are
  left out. They are configuration and lifecycle glue calling into the host's
  config-entry framework.
- `name`, `icon` and the `name`, `manufacturer` and `model` entries of
  `device_info` (light.py:66-77) are left out. They are display metadata.
  Only the identifiers are modelled.
- The logging calls (light.py:56-57) are left out.
- What `async_write_ha_state` publishes is left out. The model records only
  that a publication happened, in its place in the trace.
- Wall-clock time is replaced by the host's tick counter, because
  `datetime.now`, `asyncio.sleep` and the float-second timeout are not
  modelled.
  - A blocking service call takes one tick.
  - The time spent between polls, apart from the sleep, is zero.
  - The timeout is a whole number of milliseconds.
- How the backing drivers react to a call is not modelled. The registry
  timeline `world` is fixed in advance and does not depend on the calls
  made. The waiter's results are stated for any timeline.
- A driver that never answers a blocking call is left out. Every call
  returns after one tick.
- The host's other failures are left out; any exception a service call
  raises is modelled as the driver's rejection.
- Concurrency is left out. This includes a race between `async_toggle`'s
  read of `is_on` and an external change, and events delivered while a
  command runs. The model is sequential.
- The host delivering events to the listener is not modelled as an
  operation. `BridgeTrace` states what a stream of deliveries adds to the
  trace, and `BridgeTraceExtends` ties it to `StateChangeListener`.
- Python values are limited to None, bool, int, float, str and list. A
  tuple such as an `hs_color` pair is taken to be a list.
- Convergence.WaitOver: compares states and attribute mappings by the
  model's structural equality on `Value`, not by Python's `==`. The model
  tells `1`, `1.0` and `True` apart, where Python treats them as equal and
  keeps waiting; it also does not tell a tuple from a list with the same
  items, where Python does. So the model ends the wait early when only
  such a numeric representation changes, and keeps waiting when only a
  tuple turns into a list.
- Host.Hass: the driver's verdict `rejects` depends on the call alone, so
  the same call is rejected every time, whatever the tick or the registry.
  A driver whose failures come and go is not modelled.
- const.py is not part of this model.
