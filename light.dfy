/**
 * `DynamicControlledLight`: a mains switch and the smart light module behind
 * it presented as one light. Reads go straight through to the two backing
 * entities' snapshots; commands power the switch before configuring the
 * light and power the light down before cutting the switch, waiting for
 * each backing entity to converge; state changes of either backing entity
 * are republished as changes of the composite light.
 */
module ControlledLight {
  import opened Wrappers
  import opened Host
  import opened Convergence
  import opened Sequencing

  /** The integration's domain, used as the device-registry namespace. */
  const Domain: string := "switch-light"
  /** `STATE_ON`. */
  const StateOn: string := "on"
  /** The key of the target entity in service data and in state-change events. */
  const EntityIdKey: string := "entity_id"
  const TurnOnService: string := "turn_on"
  const TurnOffService: string := "turn_off"

  // Light attribute names (`ATTR_*`).
  const AttrBrightness: string := "brightness"
  const AttrColorMode: string := "color_mode"
  const AttrColorTempKelvin: string := "color_temp_kelvin"
  const AttrEffectList: string := "effect_list"
  const AttrEffect: string := "effect"
  const AttrHsColor: string := "hs_color"
  const AttrMaxColorTempKelvin: string := "max_color_temp_kelvin"
  const AttrMinColorTempKelvin: string := "min_color_temp_kelvin"
  const AttrRgbColor: string := "rgb_color"
  const AttrRgbwColor: string := "rgbw_color"
  const AttrRgbwwColor: string := "rgbww_color"
  const AttrSupportedColorModes: string := "supported_color_modes"
  const AttrSupportedFeatures: string := "supported_features"
  const AttrXyColor: string := "xy_color"
  /** `ColorMode.ONOFF`. */
  const ColorModeOnOff: Value := Str("onoff")

  /** `state.attributes.get(attr, fallback) if state else None`. */
  function AttrOf(state: Option<Snapshot>, attr: string, fallback: Value): (v: Value)
    ensures state.None? ==> v == Null
    ensures state.Some? && attr in state.value.attributes ==> v == state.value.attributes[attr]
    ensures state.Some? && attr !in state.value.attributes ==> v == fallback
  {
    if state.Some? then Get(state.value.attributes, attr, fallback) else Null
  }

  /** A blocking call of a `switch` service on the switch entity. */
  function SwitchCall(service: string, switchId: string): (c: ServiceCall)
    ensures c.domain == "switch" && c.service == service && c.blocking
    ensures c.data == map[EntityIdKey := Str(switchId)]
  {
    ServiceCall("switch", service, map[EntityIdKey := Str(switchId)], true)
  }

  /** A blocking call of a `light` service on the light entity, with the
      caller's parameters merged after the target, as in `{"entity_id": id, **kwargs}`. */
  function LightCall(service: string, lightId: string, params: map<string, Value>): (c: ServiceCall)
    ensures c.domain == "light" && c.service == service && c.blocking
    ensures c.data.Keys == params.Keys + {EntityIdKey}
    ensures forall k :: k in params ==> c.data[k] == params[k]
    ensures EntityIdKey !in params ==> c.data[EntityIdKey] == Str(lightId)
  {
    ServiceCall("light", service, map[EntityIdKey := Str(lightId)] + params, true)
  }

  /** The steps of `async_turn_on`: switch on, then light on with the caller's parameters. */
  function TurnOnSteps(switchId: string, lightId: string, kwargs: map<string, Value>): (steps: seq<Step>)
    ensures |steps| == 2
    ensures forall i :: 0 <= i < 2 ==> steps[i].call.blocking && steps[i].call.service == TurnOnService
    ensures steps[0].call.domain == "switch" && steps[0].waitOn == switchId
    ensures steps[0].call.data == map[EntityIdKey := Str(switchId)]
    ensures steps[1].call.domain == "light" && steps[1].waitOn == lightId
    ensures steps[1].call.data.Keys == kwargs.Keys + {EntityIdKey}
    ensures forall k :: k in kwargs ==> steps[1].call.data[k] == kwargs[k]
    ensures EntityIdKey !in kwargs ==> steps[1].call.data[EntityIdKey] == Str(lightId)
  {
    [Step(SwitchCall(TurnOnService, switchId), switchId),
     Step(LightCall(TurnOnService, lightId, kwargs), lightId)]
  }

  /** The steps of `async_turn_off`: light off, then switch off; no caller parameters. */
  function TurnOffSteps(switchId: string, lightId: string): (steps: seq<Step>)
    ensures |steps| == 2
    ensures forall i :: 0 <= i < 2 ==> steps[i].call.blocking && steps[i].call.service == TurnOffService
    ensures steps[0].call.domain == "light" && steps[0].waitOn == lightId
    ensures steps[0].call.data == map[EntityIdKey := Str(lightId)]
    ensures steps[1].call.domain == "switch" && steps[1].waitOn == switchId
    ensures steps[1].call.data == map[EntityIdKey := Str(switchId)]
  {
    [Step(LightCall(TurnOffService, lightId, map[]), lightId),
     Step(SwitchCall(TurnOffService, switchId), switchId)]
  }

  /** `async_turn_on` issues `switch.turn_on` on the switch and, only when that
      is accepted, `light.turn_on` on the light with the caller's parameters;
      it publishes the state once, last, and only when both are accepted. */
  lemma TurnOnSequence(switchId: string, lightId: string, kwargs: map<string, Value>, rejects: ServiceCall -> bool)
    ensures var first := SwitchCall(TurnOnService, switchId);
      var second := LightCall(TurnOnService, lightId, kwargs);
      && SequenceTrace(TurnOnSteps(switchId, lightId, kwargs), rejects) ==
        (if rejects(first) then [Call(first)]
         else if rejects(second) then [Call(first), Call(second)]
         else [Call(first), Call(second), StateWritten])
      && SequenceOutcome(TurnOnSteps(switchId, lightId, kwargs), rejects) ==
        (if rejects(first) then Fail(ServiceRejected(first))
         else if rejects(second) then Fail(ServiceRejected(second))
         else Pass)
  {
    var steps := TurnOnSteps(switchId, lightId, kwargs);
    TwoStepTrace(steps[0], steps[1], rejects);
    TwoStepOutcome(steps[0], steps[1], rejects);
  }

  /** `async_turn_off` issues `light.turn_off` on the light and, only when that
      is accepted, `switch.turn_off` on the switch; both carry the target id
      and nothing else, whatever the caller passed. */
  lemma TurnOffSequence(switchId: string, lightId: string, rejects: ServiceCall -> bool)
    ensures var first := LightCall(TurnOffService, lightId, map[]);
      var second := SwitchCall(TurnOffService, switchId);
      && first.data == map[EntityIdKey := Str(lightId)]
      && SequenceTrace(TurnOffSteps(switchId, lightId), rejects) ==
        (if rejects(first) then [Call(first)]
         else if rejects(second) then [Call(first), Call(second)]
         else [Call(first), Call(second), StateWritten])
      && SequenceOutcome(TurnOffSteps(switchId, lightId), rejects) ==
        (if rejects(first) then Fail(ServiceRejected(first))
         else if rejects(second) then Fail(ServiceRejected(second))
         else Pass)
  {
    var steps := TurnOffSteps(switchId, lightId);
    TwoStepTrace(steps[0], steps[1], rejects);
    TwoStepOutcome(steps[0], steps[1], rejects);
    assert LightCall(TurnOffService, lightId, map[]).data == map[EntityIdKey := Str(lightId)];
  }

  /** The device-registry key `f"{switch_entity_id}_{light_entity_id}"`. */
  function DeviceKey(switchId: string, lightId: string): (key: string)
    ensures |key| == |switchId| + 1 + |lightId|
    ensures key[..|switchId|] == switchId && key[|switchId|] == '_' && key[|switchId| + 1..] == lightId
  {
    switchId + "_" + lightId
  }

  /** An entity id of the form `<domain>.<object id>` whose object id has no dot. */
  predicate WellFormedEntityId(domain: string, entityId: string)
  {
    && |entityId| > |domain| + 1
    && entityId[..|domain| + 1] == domain + "."
    && '.' !in entityId[|domain| + 1..]
  }

  /** The index of the first '.' in `s` at or after `from`, or |s| when there is none. */
  function DotFrom(s: string, from: nat): (i: nat)
    requires from <= |s|
    ensures from <= i <= |s|
    ensures i < |s| ==> s[i] == '.'
    ensures forall j :: from <= j < i ==> s[j] != '.'
    decreases |s| - from
  {
    if from == |s| || s[from] == '.' then from else DotFrom(s, from + 1)
  }

  /** Reads a device key back into its switch and light ids: the key's first
      dot after the `switch.` prefix is the one of `light.`, so the switch id
      ends six characters before it. */
  function SplitDeviceKey(key: string): Option<(string, string)>
  {
    if |key| < 7 then None
    else
      var d := DotFrom(key, 7);
      if d == |key| || d < 6 then None else Some((key[..d - 6], key[d - 5..]))
  }

  /** For well-formed switch and light ids the device key can be read back
      into the two ids it was built from. */
  lemma DeviceKeyRoundTrip(switchId: string, lightId: string)
    requires WellFormedEntityId("switch", switchId) && WellFormedEntityId("light", lightId)
    ensures SplitDeviceKey(DeviceKey(switchId, lightId)) == Some((switchId, lightId))
  {
    var key := DeviceKey(switchId, lightId);
    var n := |switchId|;
    assert key[n + 6] == lightId[5] == '.';
    forall j | 7 <= j < n + 6
      ensures key[j] != '.'
    {
      if j < n {
        assert key[j] == switchId[7..][j - 7];
      } else if n < j {
        assert key[j] == lightId[..6][j - n - 1];
      }
    }
    assert DotFrom(key, 7) == n + 6;
  }

  /** For well-formed switch and light ids the device key determines both ids. */
  lemma DeviceKeyInjective(s1: string, l1: string, s2: string, l2: string)
    requires WellFormedEntityId("switch", s1) && WellFormedEntityId("light", l1)
    requires WellFormedEntityId("switch", s2) && WellFormedEntityId("light", l2)
    requires DeviceKey(s1, l1) == DeviceKey(s2, l2)
    ensures s1 == s2 && l1 == l2
  {
    DeviceKeyRoundTrip(s1, l1);
    DeviceKeyRoundTrip(s2, l2);
  }

  /** Without the entity-id format the key is ambiguous. */
  lemma DeviceKeyAmbiguousForArbitraryIds()
    ensures DeviceKey("a_b", "c") == DeviceKey("a", "b_c")
  {
  }

  /** Two composite lights over different well-formed switch and light ids
      register disjoint device identifiers. */
  lemma DisjointIdentifiers(a: DynamicControlledLight, b: DynamicControlledLight)
    requires WellFormedEntityId("switch", a.switchEntityId) && WellFormedEntityId("light", a.lightEntityId)
    requires WellFormedEntityId("switch", b.switchEntityId) && WellFormedEntityId("light", b.lightEntityId)
    requires (a.switchEntityId, a.lightEntityId) != (b.switchEntityId, b.lightEntityId)
    ensures a.DeviceIdentifiers() !! b.DeviceIdentifiers()
  {
    if DeviceKey(a.switchEntityId, a.lightEntityId) == DeviceKey(b.switchEntityId, b.lightEntityId) {
      DeviceKeyInjective(a.switchEntityId, a.lightEntityId, b.switchEntityId, b.lightEntityId);
    }
  }

  class DynamicControlledLight {
    const hass: Hass
    const lightName: string
    const switchEntityId: string
    const lightEntityId: string

    // The `_attr_*` fields, filled once from the light entity at construction.
    var brightness: Value
    var colorMode: Value
    var colorTempKelvin: Value
    var effectList: Value
    var effect: Value
    var hsColor: Value
    var maxColorTempKelvin: Value
    var minColorTempKelvin: Value
    var rgbColor: Value
    var rgbwColor: Value
    var rgbwwColor: Value
    var supportedColorModes: Value
    var supportedFeatures: Value
    var xyColor: Value
    /** `_unsub_state_listener`, set when the entity is added to the host. */
    var unsubStateListener: Option<Subscription>

    /** `__init__`: store the ids and copy the light's attributes as they are
        now. The `_attr_max_color_temp_kelvin` field receives the light's
        MIN bound and `_attr_min_color_temp_kelvin` its MAX bound. */
    constructor (hass: Hass, lightName: string, switchEntityId: string, lightEntityId: string)
      ensures this.hass == hass && this.lightName == lightName
      ensures this.switchEntityId == switchEntityId && this.lightEntityId == lightEntityId
      ensures brightness == GetLightAttr(AttrBrightness, Null)
      ensures colorMode == GetLightAttr(AttrColorMode, Null)
      ensures colorTempKelvin == GetLightAttr(AttrColorTempKelvin, Null)
      ensures effectList == GetLightAttr(AttrEffectList, Null)
      ensures effect == GetLightAttr(AttrEffect, Null)
      ensures hsColor == GetLightAttr(AttrHsColor, Null)
      ensures maxColorTempKelvin == GetLightAttr(AttrMinColorTempKelvin, Null)
      ensures minColorTempKelvin == GetLightAttr(AttrMaxColorTempKelvin, Null)
      ensures rgbColor == GetLightAttr(AttrRgbColor, Null)
      ensures rgbwColor == GetLightAttr(AttrRgbwColor, Null)
      ensures rgbwwColor == GetLightAttr(AttrRgbwwColor, Null)
      ensures supportedColorModes == GetLightAttr(AttrSupportedColorModes, List([ColorModeOnOff]))
      ensures supportedFeatures == GetLightAttr(AttrSupportedFeatures, Int(0))
      ensures xyColor == GetLightAttr(AttrXyColor, Null)
      ensures unsubStateListener == None
    {
      this.hass := hass;
      this.lightName := lightName;
      this.switchEntityId := switchEntityId;
      this.lightEntityId := lightEntityId;
      unsubStateListener := None;
      var light := Lookup(hass.States(), lightEntityId);
      brightness := AttrOf(light, AttrBrightness, Null);
      colorMode := AttrOf(light, AttrColorMode, Null);
      colorTempKelvin := AttrOf(light, AttrColorTempKelvin, Null);
      effectList := AttrOf(light, AttrEffectList, Null);
      effect := AttrOf(light, AttrEffect, Null);
      hsColor := AttrOf(light, AttrHsColor, Null);
      maxColorTempKelvin := AttrOf(light, AttrMinColorTempKelvin, Null);
      minColorTempKelvin := AttrOf(light, AttrMaxColorTempKelvin, Null);
      rgbColor := AttrOf(light, AttrRgbColor, Null);
      rgbwColor := AttrOf(light, AttrRgbwColor, Null);
      rgbwwColor := AttrOf(light, AttrRgbwwColor, Null);
      supportedColorModes := AttrOf(light, AttrSupportedColorModes, List([ColorModeOnOff]));
      supportedFeatures := AttrOf(light, AttrSupportedFeatures, Int(0));
      xyColor := AttrOf(light, AttrXyColor, Null);
    }

    /** `device_info["identifiers"]`. */
    function DeviceIdentifiers(): set<(string, string)>
    {
      {(Domain, DeviceKey(switchEntityId, lightEntityId))}
    }

    /** `_get_entity_state`: the entity's current snapshot, or None. */
    function EntityState(entityId: string): (s: Option<Snapshot>)
      reads hass
      ensures s.Some? <==> entityId in hass.States()
      ensures s.Some? ==> s.value == hass.States()[entityId]
    {
      Lookup(hass.States(), entityId)
    }

    /** `_get_light_attr(attr, fallback)`: the light's attribute, the fallback
        when the light lacks it, and None (not the fallback) when the light
        entity is absent. */
    function GetLightAttr(attr: string, fallback: Value): (v: Value)
      reads hass
      ensures lightEntityId !in hass.States() ==> v == Null
      ensures lightEntityId in hass.States() && attr in hass.States()[lightEntityId].attributes ==>
        v == hass.States()[lightEntityId].attributes[attr]
      ensures lightEntityId in hass.States() && attr !in hass.States()[lightEntityId].attributes ==>
        v == fallback
    {
      AttrOf(EntityState(lightEntityId), attr, fallback)
    }

    /** `_get_switch_attr(attr)`: the switch's attribute, or None when the
        switch lacks it or is absent. */
    function GetSwitchAttr(attr: string): (v: Value)
      reads hass
      ensures switchEntityId in hass.States() && attr in hass.States()[switchEntityId].attributes ==>
        v == hass.States()[switchEntityId].attributes[attr]
      ensures switchEntityId !in hass.States() || attr !in hass.States()[switchEntityId].attributes ==>
        v == Null
    {
      AttrOf(EntityState(switchEntityId), attr, Null)
    }

    /** `is_on`: None when the switch is absent, otherwise whether its state is "on". */
    function IsOn(): (r: Value)
      reads hass
      ensures Truthy(r) <==> switchEntityId in hass.States() && hass.States()[switchEntityId].state == StateOn
      ensures r == Null <==> switchEntityId !in hass.States()
      ensures r.Null? || r.Bool?
    {
      var state := Lookup(hass.States(), switchEntityId);
      if state.None? then Null else Bool(state.value.state == StateOn)
    }

    /** `_wait_for_entity_update(entity_id, timeout)`: poll once per 100 ms
        until the snapshot differs from the one read on entry, either is
        absent, or the timeout has elapsed. Only time passes. */
    method WaitForEntityUpdate(entityId: string, timeoutMs: nat)
      modifies hass`clock
      ensures hass.trace == old(hass.trace)
      ensures hass.clock == old(hass.clock) + WaitPolls(hass.world, entityId, old(hass.clock), timeoutMs)
    {
      var oldState := EntityState(entityId);
      var start := hass.clock;
      while (hass.clock - start) * PollIntervalMs < timeoutMs
        invariant start <= hass.clock <= start + MaxPolls(timeoutMs)
        invariant forall j :: 1 <= j <= hass.clock - start ==> !PollOver(hass.world, entityId, start, j)
        decreases timeoutMs - (hass.clock - start) * PollIntervalMs
      {
        hass.Sleep();
        var newState := EntityState(entityId);
        if oldState.None? || newState.None? {
          WaitEndsAtFirstChange(hass.world, entityId, start, timeoutMs, hass.clock - start);
          return;
        }
        if newState.value.state != oldState.value.state || newState.value.attributes != oldState.value.attributes {
          WaitEndsAtFirstChange(hass.world, entityId, start, timeoutMs, hass.clock - start);
          return;
        }
      }
      WaitTimesOut(hass.world, entityId, start, timeoutMs);
    }

    /** One step of a command, as each command writes it out twice: the
        blocking service call and, once it has returned, the wait on the
        entity it targets. A rejected call raises before the wait. */
    method RunStep(step: Step) returns (r: Outcome<Error>)
      requires step.call.blocking
      modifies hass`clock, hass`trace
      ensures hass.trace == old(hass.trace) + [Call(step.call)]
      ensures hass.clock == StepEnd(hass.world, step, hass.rejects, old(hass.clock))
      ensures r == if hass.rejects(step.call) then Fail(ServiceRejected(step.call)) else Pass
    {
      r := hass.CallService(step.call);
      if r.Pass? {
        WaitForEntityUpdate(step.waitOn, DefaultTimeoutMs);
      }
    }

    /** `async_turn_on(**kwargs)`: switch on and wait for the switch, then
        light on with the caller's parameters and wait for the light, then
        publish the state. A rejected call raises and ends the command. */
    method TurnOn(kwargs: map<string, Value>) returns (r: Outcome<Error>)
      modifies hass`clock, hass`trace
      ensures hass.trace == old(hass.trace) + SequenceTrace(TurnOnSteps(switchEntityId, lightEntityId, kwargs), hass.rejects)
      ensures hass.clock == SequenceClock(hass.world, TurnOnSteps(switchEntityId, lightEntityId, kwargs), hass.rejects, old(hass.clock))
      ensures r == SequenceOutcome(TurnOnSteps(switchEntityId, lightEntityId, kwargs), hass.rejects)
    {
      var steps := TurnOnSteps(switchEntityId, lightEntityId, kwargs);
      TwoStepTrace(steps[0], steps[1], hass.rejects);
      TwoStepOutcome(steps[0], steps[1], hass.rejects);
      TwoStepClock(hass.world, steps[0], steps[1], hass.rejects, hass.clock);
      r := RunStep(steps[0]);
      if r.Fail? {
        return;
      }
      r := RunStep(steps[1]);
      if r.Fail? {
        return;
      }
      hass.WriteState();
    }

    /** `async_turn_off(**kwargs)`: light off and wait for the light, then
        switch off and wait for the switch, then publish the state. The
        caller's parameters are not forwarded. */
    method TurnOff(kwargs: map<string, Value>) returns (r: Outcome<Error>)
      modifies hass`clock, hass`trace
      ensures hass.trace == old(hass.trace) + SequenceTrace(TurnOffSteps(switchEntityId, lightEntityId), hass.rejects)
      ensures hass.clock == SequenceClock(hass.world, TurnOffSteps(switchEntityId, lightEntityId), hass.rejects, old(hass.clock))
      ensures r == SequenceOutcome(TurnOffSteps(switchEntityId, lightEntityId), hass.rejects)
    {
      var steps := TurnOffSteps(switchEntityId, lightEntityId);
      TwoStepTrace(steps[0], steps[1], hass.rejects);
      TwoStepOutcome(steps[0], steps[1], hass.rejects);
      TwoStepClock(hass.world, steps[0], steps[1], hass.rejects, hass.clock);
      r := RunStep(steps[0]);
      if r.Fail? {
        return;
      }
      r := RunStep(steps[1]);
      if r.Fail? {
        return;
      }
      hass.WriteState();
    }

    /** `async_toggle(**kwargs)`: turn off when `is_on` is truthy, else turn on. */
    method Toggle(kwargs: map<string, Value>) returns (r: Outcome<Error>)
      modifies hass`clock, hass`trace
      ensures old(Truthy(IsOn())) ==>
        && hass.trace == old(hass.trace) + SequenceTrace(TurnOffSteps(switchEntityId, lightEntityId), hass.rejects)
        && hass.clock == SequenceClock(hass.world, TurnOffSteps(switchEntityId, lightEntityId), hass.rejects, old(hass.clock))
        && r == SequenceOutcome(TurnOffSteps(switchEntityId, lightEntityId), hass.rejects)
      ensures !old(Truthy(IsOn())) ==>
        && hass.trace == old(hass.trace) + SequenceTrace(TurnOnSteps(switchEntityId, lightEntityId, kwargs), hass.rejects)
        && hass.clock == SequenceClock(hass.world, TurnOnSteps(switchEntityId, lightEntityId, kwargs), hass.rejects, old(hass.clock))
        && r == SequenceOutcome(TurnOnSteps(switchEntityId, lightEntityId, kwargs), hass.rejects)
    {
      if Truthy(IsOn()) {
        r := TurnOff(kwargs);
      } else {
        r := TurnOn(kwargs);
      }
    }

    /** The listener's filter: the event's `entity_id` is one of the two backing ids. */
    predicate Tracks(event: Event)
      ensures Tracks(event) <==>
        EntityIdKey in event.data && event.data[EntityIdKey] in {Str(switchEntityId), Str(lightEntityId)}
    {
      Get(event.data, EntityIdKey, Null) in [Str(switchEntityId), Str(lightEntityId)]
    }

    /** `state_change_listener(event)`: republish the state for an event about
        either backing entity, and do nothing for any other event. */
    method StateChangeListener(event: Event)
      modifies hass`trace
      ensures hass.trace == old(hass.trace) + (if Tracks(event) then [StateWritten] else [])
    {
      var entityId := Get(event.data, EntityIdKey, Null);
      if entityId in [Str(switchEntityId), Str(lightEntityId)] {
        hass.WriteState();
      }
    }

    /** `async_added_to_hass`: subscribe the listener to the two backing ids. */
    method AddedToHass()
      modifies this`unsubStateListener, hass`subscriptions
      ensures unsubStateListener == Some(Subscription([switchEntityId, lightEntityId]))
      ensures hass.subscriptions == old(hass.subscriptions) + [Subscription([switchEntityId, lightEntityId])]
    {
      var unsub := hass.TrackStateChangeEvent([switchEntityId, lightEntityId]);
      unsubStateListener := Some(unsub);
    }

    /** The listener accepts exactly the events about an id it is subscribed
        to: the ids `AddedToHass` passes to the host, switch then light. */
    lemma TracksExactlySubscribed(event: Event)
      ensures Tracks(event) <==>
        exists id :: id in Subscription([switchEntityId, lightEntityId]).entityIds && Get(event.data, EntityIdKey, Null) == Str(id)
    {
    }

    /** What the listener adds to the trace for a stream of events, delivered
        one by one, the latest last. */
    function BridgeTrace(events: seq<Event>): seq<Effect>
    {
      if events == [] then []
      else BridgeTrace(events[..|events| - 1]) + (if Tracks(events[|events| - 1]) then [StateWritten] else [])
    }

    /** Delivering one more event extends the bridge's output by exactly what
        `StateChangeListener` appends for that event. */
    lemma BridgeTraceExtends(events: seq<Event>, event: Event)
      ensures BridgeTrace(events + [event]) ==
        BridgeTrace(events) + (if Tracks(event) then [StateWritten] else [])
    {
    }

    /** The indices of the events the listener accepts. */
    function TrackedIndices(events: seq<Event>): set<nat>
    {
      set i: nat | i < |events| && Tracks(events[i])
    }

    /** Appending an event adds its index when, and only when, the listener accepts it. */
    lemma TrackedIndicesGrow(events: seq<Event>)
      requires events != []
      ensures var n := |events| - 1;
        TrackedIndices(events) == TrackedIndices(events[..n]) + (if Tracks(events[n]) then {n} else {})
    {
    }

    /** One state publication for each event about a backing entity, and nothing else. */
    lemma {:induction false} BridgePublishesOncePerTrackedEvent(events: seq<Event>)
      ensures |BridgeTrace(events)| == |TrackedIndices(events)|
      ensures forall k :: 0 <= k < |BridgeTrace(events)| ==> BridgeTrace(events)[k] == StateWritten
    {
      if events != [] {
        var n := |events| - 1;
        BridgePublishesOncePerTrackedEvent(events[..n]);
        TrackedIndicesGrow(events);
        assert n !in TrackedIndices(events[..n]);
      }
    }
  }
}
