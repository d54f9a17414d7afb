/**
 * A drawing's animation object: `start(callback)` stops the running interval
 * and registers a new one with the host; `stop()` clears the interval.  The
 * host's interval table is the `Timers` object; the period the source asks
 * for is `1000 / framerate` milliseconds, recorded here as the framerate it
 * is computed from.
 */
module Animations {
  import opened JsValues

  /** A callback, known only by its identity. */
  datatype Callback = Callback(id: nat)

  /** A registered interval: what it calls, and the framerate its period was computed from. */
  datatype Interval = Interval(callback: Callback, framerate: JsValue)

  /** The table after `clearInterval(handle)`. */
  function Cleared(live: map<nat, Interval>, handle: Option<nat>): (r: map<nat, Interval>)
    ensures forall id :: id in r <==> id in live && handle != Some(id)
    ensures forall id :: id in r ==> r[id] == live[id]
  {
    if handle.Some? then live - {handle.value} else live
  }

  /** The host's table of running intervals (`setInterval` / `clearInterval`). */
  class Timers {
    var live: map<nat, Interval>
    var next: nat

    /** Handles are positive and every handle given out is below `next`. */
    ghost predicate Valid()
      reads this
    {
      next > 0 && forall id :: id in live ==> 0 < id < next
    }

    constructor ()
      ensures Valid() && live == map[] && next == 1
    {
      live, next := map[], 1;
    }

    /** `setInterval`: a handle never given out before, now running `iv`. */
    method SetInterval(iv: Interval) returns (id: nat)
      requires Valid()
      modifies this
      ensures Valid()
      ensures id == old(next) && id !in old(live) && id > 0
      ensures live == old(live)[id := iv]
      ensures next == old(next) + 1
    {
      id := next;
      live := live[id := iv];
      next := next + 1;
    }

    /** `clearInterval`: stops the interval with that handle; undefined or an unknown handle does nothing. */
    method ClearInterval(handle: Option<nat>)
      requires Valid()
      modifies this`live
      ensures Valid()
      ensures live == Cleared(old(live), handle)
    {
      if handle.Some? {
        live := live - {handle.value};
      }
    }
  }

  /** The `animation` object of a Drawing. */
  class Animation {
    var framerate: JsValue
    /** `this.interval`: undefined until the first start. */
    var interval: Option<nat>
    const timers: Timers
    /** Every handle this animation was ever given. */
    ghost var issued: set<nat>

    /** At most one interval of this animation runs: the one `interval` names. */
    ghost predicate Valid()
      reads this, timers
    {
      && timers.Valid()
      && (forall id :: id in issued ==> id < timers.next)
      && (interval.Some? ==> interval.value in issued)
      && (forall id :: id in issued && id in timers.live ==> interval == Some(id))
    }

    /** The handles of this animation that are running. */
    ghost function Running(): set<nat>
      reads this, timers
    {
      set id | id in issued && id in timers.live
    }

    constructor (timers: Timers)
      requires timers.Valid()
      ensures Valid() && Running() == {}
      ensures this.timers == timers && framerate == Num(12.0) && interval == None
    {
      this.timers := timers;
      framerate := Num(12.0);
      interval := None;
      issued := {};
    }

    /** `stop()`: clears `interval`, which keeps its now stale value. */
    method Stop()
      requires Valid()
      modifies timers`live
      ensures Valid() && Running() == {}
      ensures timers.live == Cleared(old(timers.live), interval)
    {
      timers.ClearInterval(interval);
    }

    /** `start(callback)`: stops, then runs `callback` at the current framerate. */
    method Start(callback: Callback)
      requires Valid()
      modifies this, timers
      ensures Valid()
      ensures interval == Some(old(timers.next)) && Running() == {interval.value}
      ensures timers.live == Cleared(old(timers.live), old(interval))[interval.value := Interval(callback, framerate)]
      ensures framerate == old(framerate) && timers.next == old(timers.next) + 1
    {
      Stop();
      var id := timers.SetInterval(Interval(callback, framerate));
      interval := Some(id);
      issued := issued + {id};
    }
  }
}
