/** The `timeit` decorator of code_timer/timer.py: each call of the
    decorated function runs the function `num_repeats` times, each run in a
    fresh unnamed `Timer`, sorts the elapsed times and reports the three
    smallest, then returns the last run's result. */
module Repeat {
  import opened Wrappers
  import opened Accumulator
  import opened CodeTimer
  import opened Sorting
  import opened Decorators

  /** The default of `num_repeats`. */
  const DefaultRepeats: int := 10000

  /** One run of the decorated function: the clock readings around it and
      what it returned or raised. */
  datatype Trial<+T, +E> = Trial(startReading: real, endReading: real, outcome: Result<T, E>)

  /** What a `timeit`-decorated call can raise: the function's own error, or
      `IndexError` when fewer than three times were measured. */
  datatype TimeitError<+E> = FunctionRaised(error: E) | IndexError

  /** How many times `for i in range(num_repeats)` runs. */
  function Repetitions(numRepeats: int): (n: nat)
    ensures numRepeats > 0 ==> n == numRepeats
    ensures numRepeats <= 0 ==> n == 0
  {
    if numRepeats > 0 then numRepeats else 0
  }

  /** The elapsed time of every trial, in order. */
  function Measurements<T, E>(trials: seq<Trial<T, E>>): (ms: seq<real>)
  {
    seq(|trials|, i requires 0 <= i < |trials| => ElapsedMs(trials[i].startReading, trials[i].endReading))
  }

  predicate AllReturned<T, E>(trials: seq<Trial<T, E>>) {
    forall i :: 0 <= i < |trials| ==> trials[i].outcome.Success?
  }

  /** Trial `j` is the first whose call raised. */
  predicate FirstRaised<T, E>(trials: seq<Trial<T, E>>, j: int) {
    && 0 <= j < |trials|
    && trials[j].outcome.Failure?
    && forall k :: 0 <= k < j ==> trials[k].outcome.Success?
  }

  /** One call of a function decorated with `timeit(num_repeats=numRepeats)`,
      whose runs are `trials`. Returns the last run's result and the three
      times written to the INFO log line (none when nothing is logged). */
  method TimeIt<T, E>(registry: Registry, numRepeats: int, trials: seq<Trial<T, E>>)
    returns (r: Result<T, TimeitError<E>>, logged: seq<real>)
    requires registry.Valid()
    requires |trials| == Repetitions(numRepeats)
    requires forall i :: 0 <= i < |trials| ==> trials[i].startReading <= trials[i].endReading
    modifies registry
    ensures registry.Valid()
    ensures registry.timers == if trials == [] then old(registry.timers) else Register(old(registry.timers), None)
    ensures r.Success? <==> |trials| >= 3 && AllReturned(trials)
    ensures r.Success? ==> r.value == trials[|trials| - 1].outcome.value
    ensures r.Success? ==> logged == SmallestThree(Measurements(trials))
    ensures r == Failure(IndexError) <==> |trials| < 3 && AllReturned(trials)
    ensures r.Failure? && r.error.FunctionRaised? ==>
      exists j :: FirstRaised(trials, j) && trials[j].outcome.error == r.error.error
    ensures r.Failure? ==> logged == []
  {
    var n := Repetitions(numRepeats);
    var repeats := new real[n](_ => 0.0);
    var temp: Option<T> := None;
    var i := 0;
    while i < n
      invariant 0 <= i <= n
      invariant registry.Valid()
      invariant registry.timers == if i == 0 then old(registry.timers) else Register(old(registry.timers), None)
      invariant forall j :: 0 <= j < i ==> trials[j].outcome.Success?
      invariant forall j :: 0 <= j < i ==> repeats[j] == ElapsedMs(trials[j].startReading, trials[j].endReading)
      invariant i > 0 ==> temp == Some(trials[i - 1].outcome.value)
    {
      var t := new Timer(registry, None);
      var entered := t.Enter(trials[i].startReading);
      assert entered.Success?;
      var outcome := trials[i].outcome;
      var err := t.Exit(trials[i].endReading);
      assert err.None?;
      if outcome.Failure? {
        assert FirstRaised(trials, i);
        return Failure(FunctionRaised(outcome.error)), [];
      }
      temp := Some(outcome.value);
      repeats[i] := t.ElapsedTime().value;
      i := i + 1;
    }
    assert repeats[..] == Measurements(trials);
    var sorted := SortAscending(repeats[..]);
    if n < 3 {
      return Failure(IndexError), [];
    }
    logged := sorted[..3];
    r := Success(temp.value);
  }

  /** As written: `def timeit(*, num_repeats=10000)` takes no positional
      argument, so `timeit(f)` (the bare `@timeit`) raises `TypeError`;
      `keywordRepeats` is the `num_repeats=` keyword if one was given. */
  function TimeitRepeatsAsWritten(positional: seq<TimerArg>, keywordRepeats: Option<int>): (c: Option<int>)
    ensures c.Some? <==> positional == []
    ensures c.Some? ==> c.value == keywordRepeats.GetOr(DefaultRepeats)
  {
    if positional == [] then Some(keywordRepeats.GetOr(DefaultRepeats)) else None
  }

  /** The bare `@timeit` is rejected, while `@timeit()` is accepted. */
  lemma BareTimeitRejected()
    ensures TimeitRepeatsAsWritten([CallableArg], None).None?
    ensures TimeitRepeatsAsWritten([], None) == Some(DefaultRepeats)
  {
  }

  /** `timeit(...)` decorates its sole callable argument at once, or returns
      a decorator; either way it fixes the number of repetitions. */
  datatype TimeitDecoration = TimeitNow(repeats: int) | TimeitDecorator(repeats: int)

  /** As intended by the comment on line 50 of code_timer/timer.py: a sole callable
      positional argument is decorated at once with the default count, no
      positional argument gives a decorator, anything else is a
      `TypeError`. */
  function TimeitDispatch(positional: seq<TimerArg>, keywordRepeats: Option<int>): (d: Option<TimeitDecoration>)
    ensures d.Some? <==> |positional| == 0 || (|positional| == 1 && positional[0].CallableArg?)
    ensures d.Some? && d.value.TimeitNow? <==> |positional| == 1 && positional[0].CallableArg?
    ensures d.Some? && |positional| == 0 ==> d.value.repeats == keywordRepeats.GetOr(DefaultRepeats)
    ensures d.Some? && d.value.TimeitNow? ==> d.value.repeats == DefaultRepeats
  {
    if |positional| == 0 then Some(TimeitDecorator(keywordRepeats.GetOr(DefaultRepeats)))
    else if |positional| == 1 && positional[0].CallableArg? then Some(TimeitNow(DefaultRepeats))
    else None
  }

  /** Both spellings the comment promises, `@timeit` and `@timeit()`, are
      accepted and run the default number of repetitions. */
  lemma BareTimeitMatchesEmptyCall()
    ensures TimeitDispatch([CallableArg], None) == Some(TimeitNow(DefaultRepeats))
    ensures TimeitDispatch([], None) == Some(TimeitDecorator(DefaultRepeats))
    ensures TimeitDispatch([CallableArg], None).value.repeats == TimeitDispatch([], None).value.repeats
  {
  }
}
