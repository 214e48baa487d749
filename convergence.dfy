/**
 * The convergence waiter: after a command, poll an entity's snapshot every
 * 100 ms until it differs from the snapshot seen on entry, until either
 * snapshot is absent, or until the timeout has elapsed. This module gives
 * the number of polls the wait takes as a function of the host's timeline.
 */
module Convergence {
  import opened Wrappers
  import opened Host

  /** `asyncio.sleep(0.1)`: one tick of the host clock. */
  const PollIntervalMs: nat := 100
  /** The default `timeout=0.5` seconds. */
  const DefaultTimeoutMs: nat := 500

  /** The number of polls after which the elapsed time reaches the timeout:
      the least n with n * PollIntervalMs >= timeoutMs. */
  function MaxPolls(timeoutMs: nat): (n: nat)
    ensures n * PollIntervalMs >= timeoutMs
    ensures n == 0 || (n - 1) * PollIntervalMs < timeoutMs
  {
    (timeoutMs + PollIntervalMs - 1) / PollIntervalMs
  }

  /** The loop's two `break` conditions: a snapshot is absent, or the state or
      the attributes differ from the snapshot captured on entry. */
  predicate WaitOver(seed: Option<Snapshot>, current: Option<Snapshot>)
    ensures WaitOver(seed, current) <==> seed.None? || current.None? || current.value != seed.value
  {
    || seed.None?
    || current.None?
    || current.value.state != seed.value.state
    || current.value.attributes != seed.value.attributes
  }

  /** Poll number i of a wait on `entityId` entered at tick `start` ends the wait. */
  predicate PollOver(world: nat -> Registry, entityId: string, start: nat, i: nat)
  {
    WaitOver(Lookup(world(start), entityId), Lookup(world(start + i), entityId))
  }

  /** The number of polls taken when `done` polls have already been made
      without ending the wait and at most `max` polls fit in the timeout. */
  function PollsFrom(world: nat -> Registry, entityId: string, start: nat, done: nat, max: nat): (n: nat)
    requires done <= max
    decreases max - done
    ensures done <= n <= max
    ensures done < max ==> done < n
    ensures n < max ==> PollOver(world, entityId, start, n)
    ensures forall i :: done < i < n ==> !PollOver(world, entityId, start, i)
  {
    if done == max then max
    else if PollOver(world, entityId, start, done + 1) then done + 1
    else PollsFrom(world, entityId, start, done + 1, max)
  }

  /** The number of polls `_wait_for_entity_update(entity_id, timeout)` makes
      when entered at tick `start`: the first poll that ends the wait, or the
      last poll that fits in the timeout. */
  function WaitPolls(world: nat -> Registry, entityId: string, start: nat, timeoutMs: nat): (n: nat)
    ensures n <= MaxPolls(timeoutMs)
    ensures timeoutMs > 0 ==> 1 <= n
    ensures n * PollIntervalMs < timeoutMs + PollIntervalMs
    ensures timeoutMs == DefaultTimeoutMs ==> n <= 5
    ensures n < MaxPolls(timeoutMs) ==> PollOver(world, entityId, start, n)
    ensures forall i :: 1 <= i < n ==> !PollOver(world, entityId, start, i)
  {
    PollsFrom(world, entityId, start, 0, MaxPolls(timeoutMs))
  }

  /** The wait ends at the first poll that sees a change or an absence. */
  lemma WaitEndsAtFirstChange(world: nat -> Registry, entityId: string, start: nat, timeoutMs: nat, i: nat)
    requires 1 <= i <= MaxPolls(timeoutMs)
    requires PollOver(world, entityId, start, i)
    requires forall j :: 1 <= j < i ==> !PollOver(world, entityId, start, j)
    ensures WaitPolls(world, entityId, start, timeoutMs) == i
  {
  }

  /** Without a change or an absence the wait lasts the whole timeout. */
  lemma WaitTimesOut(world: nat -> Registry, entityId: string, start: nat, timeoutMs: nat)
    requires forall j :: 1 <= j <= MaxPolls(timeoutMs) ==> !PollOver(world, entityId, start, j)
    ensures WaitPolls(world, entityId, start, timeoutMs) == MaxPolls(timeoutMs)
  {
  }

  /** An entity that is absent on entry or at the first poll ends the wait
      after one poll. */
  lemma WaitEndsOnAbsence(world: nat -> Registry, entityId: string, start: nat, timeoutMs: nat)
    requires timeoutMs > 0
    requires entityId !in world(start) || entityId !in world(start + 1)
    ensures WaitPolls(world, entityId, start, timeoutMs) == 1
  {
  }

  /** An entity whose snapshot stays as it was on entry keeps the wait going
      until the timeout. */
  lemma WaitOnUnchangedEntity(world: nat -> Registry, entityId: string, start: nat, timeoutMs: nat)
    requires entityId in world(start)
    requires forall t :: start < t <= start + MaxPolls(timeoutMs) ==>
      Lookup(world(t), entityId) == Lookup(world(start), entityId)
    ensures WaitPolls(world, entityId, start, timeoutMs) == MaxPolls(timeoutMs)
  {
  }
}
