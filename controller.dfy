/** One connection's input session: the keys it holds, the one repeating
    motion interval it owns, and the log notices it emits. */
module Controller {
  import opened Wrappers
  import opened Motion
  import opened Pointer
  import opened Trace

  /** An armed repeating interval: its handle, its period in milliseconds and
      what its callback captured from the plan. */
  datatype Interval = Interval(id: nat, period: real, dx: real, dy: real, keys: seq<char>)

  /** What the host's pointer library reports on one tick: the pointer
      position and the screen size. */
  datatype Actuator = Actuator(mouse: Point, screen: Size)

  /** The handle stored in the interval variable, if any. */
  function HandleIds(timer: Option<Interval>): (ids: set<nat>)
    ensures |ids| <= 1
  {
    if timer.Some? then {timer.value.id} else {}
  }

  class Session {
    const config: Config
    /** The pressed keys, in insertion order (a JavaScript `Set`). */
    var held: seq<char>
    /** The interval variable; it is not reset on disconnect. */
    var timer: Option<Interval>
    /** The handles of this connection's intervals that are armed and not
        cleared: the intervals the event loop may still fire. */
    var live: set<nat>
    /** The next fresh interval handle. */
    var nextId: nat
    /** The log notices emitted so far. */
    var log: seq<Event>
    /** Set by the `disconnect` handler; the transport delivers no event on a
        closed connection. */
    var closed: bool

    /** Only the interval in the variable can be live; keys are held exactly
        while an interval runs, and they are that interval's keys; the log
        follows the key protocol and its outstanding keys are the held ones. */
    ghost predicate Valid()
      reads this
    {
      && Distinct(held)
      && (forall k :: k in held ==> IsKey(k))
      && (timer.Some? ==> timer.value.id < nextId)
      && live <= HandleIds(timer)
      && (held != [] <==> live != {})
      && (timer.Some? && timer.value.id in live ==> timer.value.keys == held)
      && Bracketed(log)
      && Outstanding(log) == Elems(held)
      && (closed ==> held == [] && live == {})
    }

    /** A new connection: nothing held, no interval, one connect notice. */
    constructor (config: Config)
      ensures Valid()
      ensures this.config == config
      ensures held == [] && timer == None && live == {} && nextId == 0
      ensures log == [Connected] && !closed
    {
      this.config := config;
      held, timer, live, nextId, closed := [], None, {}, 0, false;
      log := [Connected];
      Step([], Connected);
      assert [] + [Connected] == [Connected];
    }

    /** At most one interval of the session is ever live. */
    lemma AtMostOneInterval()
      requires Valid()
      ensures |live| <= 1
      ensures live != {} ==> timer.Some? && live == {timer.value.id}
    {
      if timer.Some? && timer.value.id in live {
        assert live == {timer.value.id};
      } else {
        assert live == {};
      }
    }

    /** The `movement` handler: cancel the interval, release and forget every
        held key, and only for an active sample with a numeric angle announce
        the direction, press the plan's keys and arm exactly one new interval.
        The transport delivers no `movement` event after `disconnect`.
        `cosA` and `sinA` are the cosine and sine of the angle. */
    method OnMovement(input: MovementInput, cosA: real, sinA: real)
      requires Valid() && !closed
      modifies this
      ensures Valid() && !closed
      ensures old(timer).Some? ==> old(timer).value.id !in live
      ensures var p := Plan(config, input, cosA, sinA);
        p.None? ==>
          && timer == None && live == {} && held == [] && nextId == old(nextId)
          && log == old(log) + Releases(old(held))
      ensures var p := Plan(config, input, cosA, sinA);
        p.Some? ==>
          && timer == Some(Interval(old(nextId), p.value.period, p.value.dx, p.value.dy, p.value.keys))
          && live == {old(nextId)} && nextId == old(nextId) + 1
          && held == p.value.keys
          && log == old(log) + Releases(old(held))
                    + [Movement(p.value.direction, input.angle.value, IntensityOf(input))]
                    + Presses(p.value.keys)
    {
      Stop();
      if input.isActive && input.angle.Some? {
        var plan := Plan(config, input, cosA, sinA).value;
        Start(plan, Movement(plan.direction, input.angle.value, IntensityOf(input)));
      }
    }

    /** No interval, no held key, nothing outstanding in the log. */
    ghost predicate Idle()
      reads this
    {
      && held == [] && timer == None && live == {}
      && Bracketed(log) && Outstanding(log) == {}
    }

    /** The first half of the `movement` handler, run on every update: clear
        the interval and empty the variable, then release and delete every held
        key. */
    method Stop()
      requires Valid() && !closed
      modifies this
      ensures Valid() && Idle() && !closed
      ensures nextId == old(nextId) && log == old(log) + Releases(old(held))
    {
      AtMostOneInterval();
      if timer.Some? {
        live := live - {timer.value.id};
        timer := None;
      }
      ReleaseHeld();
    }

    /** The second half of the `movement` handler, run only for an active
        sample with a numeric angle: announce the direction, press the plan's
        keys and arm one interval under a fresh handle. */
    method Start(plan: MovementPlan, announce: Event)
      requires Idle() && !closed && announce.Movement?
      requires plan.keys != [] && Distinct(plan.keys) && forall k :: k in plan.keys ==> IsKey(k)
      modifies this
      ensures Valid() && !closed
      ensures timer == Some(Interval(old(nextId), plan.period, plan.dx, plan.dy, plan.keys))
      ensures live == {old(nextId)} && nextId == old(nextId) + 1 && held == plan.keys
      ensures log == old(log) + [announce] + Presses(plan.keys)
    {
      log := log + [announce];
      Step(old(log), announce);
      PressKeys(plan.keys);
      timer := Some(Interval(nextId, plan.period, plan.dx, plan.dy, plan.keys));
      live := live + {nextId};
      nextId := nextId + 1;
      assert held == plan.keys && Distinct(held);
      assert Bracketed(log) && Outstanding(log) == Elems(held);
      assert live == HandleIds(timer);
    }

    /** The release loop of the `movement` handler: every held key gets a
        release notice, in insertion order, and is deleted. */
    method ReleaseHeld()
      requires Bracketed(log) && Outstanding(log) == Elems(held) && Distinct(held)
      modifies this`held, this`log
      ensures held == [] && log == old(log) + Releases(old(held))
      ensures Bracketed(log) && Outstanding(log) == {}
    {
      ghost var released := held;
      ghost var j := 0;
      while held != []
        invariant 0 <= j <= |released| && held == released[j..]
        invariant log == old(log) + Releases(released[..j])
        decreases |held|
      {
        var k := held[0];
        log := log + [Released(k)];
        held := held[1..];
        assert released[..j + 1] == released[..j] + [k];
        j := j + 1;
      }
      assert released[..j] == released;
      ReleasesClear(old(log), released);
    }

    /** The press loop of the `movement` handler: each key of the plan gets a
        press notice and is added to the held keys. */
    method PressKeys(keys: seq<char>)
      requires held == [] && Bracketed(log) && Outstanding(log) == {} && Distinct(keys)
      modifies this`held, this`log
      ensures held == keys && log == old(log) + Presses(keys)
      ensures Bracketed(log) && Outstanding(log) == Elems(keys)
    {
      var i := 0;
      while i < |keys|
        invariant 0 <= i <= |keys|
        invariant held == keys[..i]
        invariant log == old(log) + Presses(keys[..i])
      {
        var k := keys[i];
        log := log + [Pressed(k)];
        if k !in held {
          held := held + [k];
        }
        assert keys[..i + 1] == keys[..i] + [k];
        i := i + 1;
      }
      assert keys[..i] == keys;
      PressesOpen(old(log), keys);
    }

    /** One firing of the live interval: step the pointer by a quarter of the
        plan's displacement, clamped to the screen, then emit a continuation
        notice per key. When the pointer library fails (`actuator` is `None`)
        the step is skipped with an error notice and the interval stays armed. */
    method Tick(id: nat, actuator: Option<Actuator>) returns (target: Option<Point>)
      requires Valid() && id in live
      modifies this`log
      ensures Valid()
      ensures timer.Some? && timer.value.id == id
      ensures target.Some? <==> actuator.Some?
      ensures actuator.Some? ==>
        target.value == NextPointer(actuator.value.mouse, timer.value.dx, timer.value.dy, actuator.value.screen)
      ensures actuator.Some? && 0.0 <= actuator.value.screen.width && 0.0 <= actuator.value.screen.height ==>
        0.0 <= target.value.x <= actuator.value.screen.width
        && 0.0 <= target.value.y <= actuator.value.screen.height
      ensures log == old(log)
        + [if actuator.Some? then MovedTo(target.value.x, target.value.y) else MoveFailed]
        + Continuations(timer.value.keys)
    {
      AtMostOneInterval();
      var interval := timer.value;
      ghost var start := log;
      match actuator {
        case Some(a) =>
          var p := NextPointer(a.mouse, interval.dx, interval.dy, a.screen);
          target := Some(p);
          log := log + [MovedTo(p.x, p.y)];
          Step(start, MovedTo(p.x, p.y));
        case None =>
          target := None;
          log := log + [MoveFailed];
          Step(start, MoveFailed);
      }

      AnnounceContinuations(interval.keys);
    }

    /** The loop of the interval callback: one continuation notice per key. */
    method AnnounceContinuations(keys: seq<char>)
      modifies this`log
      ensures log == old(log) + Continuations(keys)
      ensures Bracketed(log) == old(Bracketed(log)) && Outstanding(log) == old(Outstanding(log))
    {
      var i := 0;
      while i < |keys|
        invariant 0 <= i <= |keys|
        invariant log == old(log) + Continuations(keys[..i])
      {
        log := log + [Continuing(keys[i])];
        assert keys[..i + 1] == keys[..i] + [keys[i]];
        i := i + 1;
      }
      assert keys[..i] == keys;
      ContinuationsNeutral(old(log), keys);
    }

    /** The `disconnect` handler: clear the interval (the variable keeps its
        value), release every held key, then forget them all, and close the
        connection. Afterwards no interval can fire and every press in the log
        has a later release. */
    method OnDisconnect()
      requires Valid() && !closed
      modifies this
      ensures Valid() && closed
      ensures held == [] && live == {} && timer == old(timer) && nextId == old(nextId)
      ensures log == old(log) + Releases(old(held)) + [Disconnected]
      ensures forall i :: 0 <= i < |log| && log[i].Pressed? ==>
        exists j :: i < j < |log| && log[j] == Released(log[i].key)
    {
      AtMostOneInterval();
      if timer.Some? {
        live := live - {timer.value.id};
      }

      AnnounceReleases();
      held := [];
      closed := true;

      ghost var released := log;
      log := log + [Disconnected];
      Step(released, Disconnected);
      assert Bracketed(log) && Outstanding(log) == {};
      EveryPressReleased(log);
    }

    /** The loop of the `disconnect` handler: a release notice for every held
        key, in insertion order, without deleting any. */
    method AnnounceReleases()
      requires Bracketed(log) && Outstanding(log) == Elems(held) && Distinct(held)
      modifies this`log
      ensures log == old(log) + Releases(held)
      ensures Bracketed(log) && Outstanding(log) == {}
    {
      var i := 0;
      while i < |held|
        invariant 0 <= i <= |held|
        invariant log == old(log) + Releases(held[..i])
      {
        log := log + [Released(held[i])];
        assert held[..i + 1] == held[..i] + [held[i]];
        i := i + 1;
      }
      assert held[..i] == held;
      ReleasesClear(old(log), held);
    }
  }

  /** The same active sample sent twice: the held keys are the plan's keys
      again, the first interval is gone and exactly one new one is live, and the
      log shows one more release-and-press round rather than a second timer. */
  method RepeatedUpdate(s: Session, input: MovementInput, cosA: real, sinA: real)
    requires s.Valid() && !s.closed && input.isActive && input.angle.Some?
    modifies s
    ensures s.Valid()
    ensures var p := Plan(s.config, input, cosA, sinA).value;
      var announce := Movement(p.direction, input.angle.value, IntensityOf(input));
      && s.held == p.keys
      && s.live == {old(s.nextId) + 1}
      && s.log == old(s.log) + Releases(old(s.held)) + [announce] + Presses(p.keys)
                  + Releases(p.keys) + [announce] + Presses(p.keys)
  {
    s.OnMovement(input, cosA, sinA);
    s.OnMovement(input, cosA, sinA);
  }
}
