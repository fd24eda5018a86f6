/** The `Timer` class of code_timer/timer.py: a start/stop state machine
    (idle, running, stopped) whose stops add up, per name, in an
    accumulator table shared by all timers. The clock (`time.perf_counter`)
    is not called: every operation that reads it takes the reading, in
    seconds, as a parameter. */
module CodeTimer {
  import opened Wrappers
  import opened Accumulator

  /** The two ways `TimerError` is raised. */
  datatype TimerError =
    | AlreadyRunning  // start() while running
    | NotRunning      // stop() while not running

  /** What a timed call can raise: the timer's own error, or the error the
      wrapped body raised (of the caller's type `E`). */
  datatype Raised<+E> = TimerRaised(timerError: TimerError) | BodyRaised(bodyError: E)

  datatype Phase = Idle | Running | Stopped

  /** The class attribute `Timer.timers`, made an explicit object that every
      timer refers to. */
  class Registry {
    var timers: Table

    ghost predicate Valid()
      reads this
    {
      Nonnegative(timers)
    }

    /** `timers = dict()` */
    constructor ()
      ensures Valid() && timers == map[]
    {
      timers := map[];
    }
  }

  class Timer {
    const name: Name
    const registry: Registry
    var startTime: Option<real>
    var elapsedTime: Option<real>

    /** The timer's name is registered, all totals are non-negative, and so
        is the last elapsed time. */
    ghost predicate Valid()
      reads this, registry
    {
      && registry.Valid()
      && name in registry.timers
      && (elapsedTime.Some? ==> elapsedTime.value >= 0.0)
    }

    /** idle: never stopped and not running; running: a start reading is
        held; stopped: not running, with an elapsed time. */
    function State(): Phase
      reads this
    {
      if startTime.Some? then Running else if elapsedTime.Some? then Stopped else Idle
    }

    /** `Timer(name)`: not running, no elapsed time, and the name registered
        with `setdefault(name, 0)`. */
    constructor (registry: Registry, name: Name)
      requires registry.Valid()
      modifies registry
      ensures this.registry == registry && this.name == name
      ensures startTime == None && elapsedTime == None && State() == Idle
      ensures registry.timers == Register(old(registry.timers), name)
      ensures Valid()
    {
      this.name := name;
      this.registry := registry;
      startTime := None;
      elapsedTime := None;
      new;
      registry.timers := Register(registry.timers, name);
    }

    /** The `elapsed_time` property: `None` until the first stop, then the
        duration of the last completed measurement. */
    function ElapsedTime(): (r: Option<real>)
      reads this, registry
      requires Valid()
      ensures r.Some? ==> r.value >= 0.0
      ensures r.None? ==> State() != Stopped
    {
      elapsedTime
    }

    /** The `get_timer` property: the shared table, in which this timer's
        name always has a non-negative total. */
    function GetTimer(): (r: Table)
      reads this, registry
      requires Valid()
      ensures name in r && r[name] >= 0.0
      ensures Nonnegative(r)
    {
      registry.timers
    }

    /** `start()` at clock reading `now`. */
    method Start(now: real) returns (err: Option<TimerError>)
      requires Valid()
      modifies this`startTime
      ensures Valid()
      ensures err.Some? <==> old(State()) == Running
      ensures err.Some? ==> err.value == AlreadyRunning && startTime == old(startTime)
      ensures err.None? ==> startTime == Some(now) && State() == Running
    {
      if startTime.Some? {
        return Some(AlreadyRunning);
      }
      startTime := Some(now);
      err := None;
    }

    /** `stop()` at clock reading `now`; `perf_counter` is monotone, so the
        reading is not earlier than the start reading. */
    method Stop(now: real) returns (r: Result<real, TimerError>)
      requires Valid()
      requires startTime.Some? ==> startTime.value <= now
      modifies this`startTime, this`elapsedTime, registry
      ensures Valid()
      ensures r.Failure? <==> old(State()) != Running
      ensures r.Failure? ==> r.error == NotRunning && unchanged(this) && unchanged(registry)
      ensures r.Success? ==>
        && r.value == ElapsedMs(old(startTime).value, now)
        && r.value >= 0.0
        && elapsedTime == Some(r.value)
        && startTime == None
        && State() == Stopped
        && registry.timers == Accumulate(old(registry.timers), name, r.value)
    {
      if startTime.None? {
        return Failure(NotRunning);
      }
      var elapsed := ElapsedMs(startTime.value, now);
      elapsedTime := Some(elapsed);
      startTime := None;
      if Truthy(name) {
        registry.timers := registry.timers[name := registry.timers[name] + elapsed];
      }
      r := Success(elapsed);
    }

    /** `__enter__`: starts the timer and hands back the same timer. */
    method Enter(now: real) returns (r: Result<Timer, TimerError>)
      requires Valid()
      modifies this`startTime
      ensures Valid()
      ensures r.Failure? <==> old(State()) == Running
      ensures r.Failure? ==> r.error == AlreadyRunning && startTime == old(startTime)
      ensures r.Success? ==> r.value == this && startTime == Some(now)
    {
      var err := Start(now);
      if err.Some? {
        return Failure(err.value);
      }
      r := Success(this);
    }

    /** `__exit__`: stops the timer and drops the elapsed value; it never
        suppresses an error raised in the block. */
    method Exit(now: real) returns (err: Option<TimerError>)
      requires Valid()
      requires startTime.Some? ==> startTime.value <= now
      modifies this`startTime, this`elapsedTime, registry
      ensures Valid()
      ensures err.Some? <==> old(State()) != Running
      ensures err.Some? ==> err.value == NotRunning && unchanged(this) && unchanged(registry)
      ensures err.None? ==>
        && elapsedTime == Some(ElapsedMs(old(startTime).value, now))
        && State() == Stopped
        && registry.timers == Accumulate(old(registry.timers), name, elapsedTime.value)
    {
      var r := Stop(now);
      err := if r.Failure? then Some(r.error) else None;
    }

    /** One call of the wrapper that `__call__` returns: `with self:` around
        the wrapped function, whose call is the step that produces `outcome`
        between the readings `startReading` and `endReading`. */
    method Invoke<T, E>(startReading: real, endReading: real, outcome: Result<T, E>)
      returns (r: Result<T, Raised<E>>)
      requires Valid()
      requires startReading <= endReading
      modifies this`startTime, this`elapsedTime, registry
      ensures Valid()
      ensures old(State()) == Running ==>
        r == Failure(TimerRaised(AlreadyRunning)) && unchanged(this) && unchanged(registry)
      ensures old(State()) != Running ==>
        && r == (if outcome.Success? then Success(outcome.value) else Failure(BodyRaised(outcome.error)))
        && elapsedTime == Some(ElapsedMs(startReading, endReading))
        && State() == Stopped
        && registry.timers == Accumulate(old(registry.timers), name, ElapsedMs(startReading, endReading))
    {
      var entered := Enter(startReading);
      if entered.Failure? {
        return Failure(TimerRaised(entered.error));
      }
      var err := Exit(endReading);
      assert err.None?;
      r := if outcome.Success? then Success(outcome.value) else Failure(BodyRaised(outcome.error));
    }
  }

  /** One named timer used for two scoped blocks in a row: its total grows by
      both elapsed times, and the timer ends stopped and reusable. */
  method TwoScopedBlocks(registry: Registry, name: Name, start1: real, end1: real, start2: real, end2: real)
    returns (t: Timer)
    requires registry.Valid()
    requires start1 <= end1 && start2 <= end2
    modifies registry
    ensures fresh(t) && t.Valid() && t.registry == registry && t.State() == Stopped
    ensures t.elapsedTime == Some(ElapsedMs(start2, end2))
    ensures name in registry.timers
    ensures registry.timers.Keys == old(registry.timers).Keys + {name}
    ensures Truthy(name) ==>
      registry.timers[name] == Register(old(registry.timers), name)[name] + ElapsedMs(start1, end1) + ElapsedMs(start2, end2)
    ensures !Truthy(name) ==> registry.timers == Register(old(registry.timers), name)
    ensures forall k :: k in old(registry.timers) && k != name ==> k in registry.timers && registry.timers[k] == old(registry.timers)[k]
  {
    t := new Timer(registry, name);
    var first := t.Enter(start1);
    assert first.Success? && first.value == t;
    var err := t.Exit(end1);
    assert err.None?;
    var second := t.Enter(start2);
    assert second.Success? && second.value == t;
    err := t.Exit(end2);
    assert err.None?;
  }
}
