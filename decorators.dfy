/** The `timer` decorator function of code_timer/timer.py: it decides
    whether it was applied bare (`@timer`) or called with settings
    (`@timer()`, `@timer(name="x")`), and every call of the decorated
    function runs in a fresh `Timer`. */
module Decorators {
  import opened Wrappers
  import opened Accumulator
  import opened CodeTimer

  /** A positional argument of `timer(...)`: a callable, or a value used as
      the timer's name. */
  datatype TimerArg = CallableArg | NameArg(name: Name)

  /** The arguments `Timer(*dargs, **dkwargs)` is built from, or `BadSettings`
      when that construction raises `TypeError` (more than one name given). */
  datatype TimerSettings = Settings(name: Name) | BadSettings

  /** `timer(...)` either decorates its sole callable argument at once with
      an unnamed timer, or returns a decorator that builds its timers from
      the arguments. */
  datatype Decoration = DecoratedNow(timerName: Name) | Decorator(settings: TimerSettings)

  /** `timer(*dargs, **dkwargs)`, where `keywordName` is the `name=` keyword
      argument if one was given. */
  function Dispatch(positional: seq<TimerArg>, keywordName: Option<Name>): (d: Decoration)
    ensures d.DecoratedNow? <==> |positional| == 1 && positional[0].CallableArg?
    ensures d.DecoratedNow? ==> d.timerName == None
    ensures d.Decorator? ==>
      (d.settings.BadSettings? <==> |positional| > 1 || (|positional| == 1 && keywordName.Some?))
    ensures d.Decorator? && |positional| == 1 && d.settings.Settings? ==> d.settings.name == positional[0].name
    ensures d.Decorator? && |positional| == 0 ==> d.settings == Settings(keywordName.GetOr(None))
  {
    if |positional| == 1 && positional[0].CallableArg? then
      DecoratedNow(None)
    else if |positional| > 1 || (|positional| == 1 && keywordName.Some?) then
      Decorator(BadSettings)
    else if |positional| == 1 then
      Decorator(Settings(positional[0].name))
    else
      Decorator(Settings(keywordName.GetOr(None)))
  }

  /** `@timer` and `@timer()` time with the same unnamed timer. */
  lemma BareAndEmptyCallAgree()
    ensures Dispatch([CallableArg], None).timerName == Dispatch([], None).settings.name == None
  {
  }

  /** The timer name a decoration uses, when its timers can be built. */
  function TimerNameOf(d: Decoration): (r: Option<Name>)
    ensures r.None? <==> d.Decorator? && d.settings.BadSettings?
  {
    match d
    case DecoratedNow(n) => Some(n)
    case Decorator(Settings(n)) => Some(n)
    case Decorator(BadSettings) => None
  }

  /** What a call of a `timer`-decorated function can raise. */
  datatype CallError<+E> = TypeErrorRaised | Propagated(raised: Raised<E>)

  /** One call of a function decorated with `timer`: a fresh timer of the
      decoration's name is built (registering the name), the wrapped call
      runs inside `with`, and its result or error is passed on. */
  method CallDecorated<T, E>(registry: Registry, d: Decoration, startReading: real, endReading: real, outcome: Result<T, E>)
    returns (r: Result<T, CallError<E>>)
    requires registry.Valid()
    requires startReading <= endReading
    modifies registry
    ensures registry.Valid()
    ensures TimerNameOf(d).None? ==> r == Failure(TypeErrorRaised) && registry.timers == old(registry.timers)
    ensures TimerNameOf(d).Some? ==>
      var name := TimerNameOf(d).value;
      && registry.timers == Accumulate(Register(old(registry.timers), name), name, ElapsedMs(startReading, endReading))
      && r == (if outcome.Success? then Success(outcome.value) else Failure(Propagated(BodyRaised(outcome.error))))
    ensures TimerNameOf(d).Some? && Truthy(TimerNameOf(d).value) && TimerNameOf(d).value !in old(registry.timers) ==>
      registry.timers[TimerNameOf(d).value] == ElapsedMs(startReading, endReading)
  {
    var name := TimerNameOf(d);
    if name.None? {
      return Failure(TypeErrorRaised);
    }
    var t := new Timer(registry, name.value);
    var called := t.Invoke(startReading, endReading, outcome);
    r := if called.Success? then Success(called.value) else Failure(Propagated(called.error));
  }
}
