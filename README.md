# code_timer in Dafny

A model of the `code_timer` package, a small Python timing utility. Its whole
logic is the `Timer` class and the two decorator functions `timer` and
`timeit` in `code_timer/timer.py`.

- A `Timer` is a three-state machine: idle, running and stopped. `start`
  records a clock reading. `stop` computes the elapsed milliseconds, stores
  them, clears the start reading and returns them. Starting a running timer
  raises `TimerError`. So does stopping a timer that is not running.
- All timers share one accumulator table, the class attribute `Timer.timers`.
  It maps a timer's name (a string, or `None` by default) to a total in
  milliseconds. Construction registers the name with `setdefault(name, 0)`.
  `stop` adds the elapsed time to the total only when the name is truthy.
- A timer is also a context manager (`with Timer(...)`) and a decorator
  (`Timer(...)(f)`). The `timer` function decorates either bare (`@timer`) or
  with settings (`@timer()`, `@timer(name="x")`).
- `timeit(num_repeats=n)` runs the decorated function `n` times, each run in
  a fresh unnamed timer. It sorts the elapsed times, logs the three smallest
  and returns the last run's result.

The modules, one concept each:

- `Wrappers` (wrappers.dfy): `Option` (Python's `None` or a value) and
  `Result` (a call returns or raises).
- `Accumulator` (accumulator.dfy): pure functions that give the meaning of
  the table operations: `setdefault`, the guarded `+=`, and the elapsed
  milliseconds between two readings.
- `Sorting` (sorting.dfy): the ascending sort that `timeit` applies, and the
  three smallest values it reports.
- `CodeTimer` (timer.py's `Timer` and `TimerError`): the shared table is the
  class `Registry`, an object that every `Timer` refers to. `Timer` is a
  class whose methods update its fields and the registry in place. Each
  method's postcondition gives its new state in terms of the `Accumulator`
  functions.
- `Decorators` (the `timer` function): the bare-or-configured dispatch, and
  one call of a decorated function.
- `Repeat` (the `timeit` function): the repeat loop over an array of
  measurements, the sort and the report.

The clock `time.perf_counter()` is never called. Every operation that reads
the clock takes the reading, in seconds, as a parameter. Floats are modelled
as `real`. A decorated function's call is an abstract step. Its arguments
are not modelled, only the value it returns or the error it raises (a
`Result`). Each `Repeat.Trial` holds one such step together with the clock
readings around it.

Facts about `code_timer/timer.py` that the model keeps:
- The default timer name is `None` (line 73).
- There is one `TimerError` class, raised from two places: `start` on a
  running timer (line 103) and `stop` on a timer that is not running
  (line 115). Its two causes are the two constructors of
  `CodeTimer.TimerError`.
- `timeit` builds its timers with `Timer()` (line 56), so they are unnamed
  and accumulate nothing.

## Model

| member | source | states |
|---|---|---|
| Accumulator.ElapsedMs | code_timer/timer.py:117-118 | the elapsed value `(end - start) * 1000` is non-negative exactly when the clock did not go backwards, and converting it back to seconds and adding the start reading gives the end reading |
| Accumulator.Register | code_timer/timer.py:84-85 | `setdefault(name, 0)`: the name is then present, an existing total is never changed, a new name gets exactly 0, no other key appears, and non-negative totals stay non-negative |
| Accumulator.Accumulate | code_timer/timer.py:121-123 | a stop on a truthy name adds exactly the elapsed time to that name's total and changes no other key; for `None` or `""` the table is unchanged; with a non-negative elapsed time, non-negative totals stay non-negative |
| Accumulator.AccumulateAll | code_timer/timer.py:121-123 | a series of stops never adds or removes a key of the table |
| Accumulator.AccumulateAllAddsSum | code_timer/timer.py:121-123 | after a series of stops on a truthy name, its total has grown by exactly the sum of their elapsed times; a falsy name leaves the whole table unchanged |
| Accumulator.AccumulateAllKeepsOthers | code_timer/timer.py:121-123 | stops under one name never change the total of another name |
| Accumulator.ReRegisterKeepsTotal | code_timer/timer.py:84-85 | constructing a timer again under a name that has accumulated time leaves the table, and so that total, exactly as it was |
| Sorting.Insert | code_timer/timer.py:59 | inserting into a sorted list gives a sorted list with the same elements plus the new one |
| Sorting.SortAscending | code_timer/timer.py:59 | `repeats.sort()`: the result is in ascending order and is a permutation of the input |
| Sorting.SortedPermutationUnique | code_timer/timer.py:59 | two ascending sequences with the same elements are equal, so the sort's result does not depend on the algorithm |
| Sorting.SortAscendingIsTheSort | code_timer/timer.py:59 | any ascending permutation of the measurements (whatever the library's sort does) is `SortAscending`'s result |
| Sorting.SmallestThree | code_timer/timer.py:59-64 | the three logged values `repeats[0..2]` are ascending, are among the measurements, and no other measurement is smaller than the third |
| CodeTimer.Registry.constructor | code_timer/timer.py:71 | the shared table starts empty |
| CodeTimer.Timer.constructor | code_timer/timer.py:73-85 | a new timer is idle: no start reading and `elapsed_time` is `None`; its name is registered with `setdefault`, so no existing total is reset |
| CodeTimer.Timer.ElapsedTime | code_timer/timer.py:96-98 | `elapsed_time` is set whenever the timer is stopped, and is never negative |
| CodeTimer.Timer.GetTimer | code_timer/timer.py:87-94 | `get_timer` is the shared table, in which the timer's own name always has a non-negative total |
| CodeTimer.Timer.Start | code_timer/timer.py:100-106 | it raises `TimerError` exactly when the timer is running, and then changes nothing; otherwise it records the reading and the timer is running |
| CodeTimer.Timer.Stop | code_timer/timer.py:108-128 | it raises `TimerError` exactly when the timer is not running, and then changes neither the timer nor the table; otherwise it returns `(end - start) * 1000`, which is non-negative, stores that same value as `elapsed_time`, clears the start reading (the timer is stopped and reusable) and accumulates the value in the table under the timer's name |
| CodeTimer.Timer.Enter | code_timer/timer.py:139-142 | `__enter__` starts the timer and returns the same timer object, or raises `TimerError` if it is running |
| CodeTimer.Timer.Exit | code_timer/timer.py:144-151 | `__exit__` stops the timer: afterwards it is not running, `elapsed_time` is set and the table has accumulated it; a stop of a timer that is not running raises `TimerError` |
| CodeTimer.Timer.Invoke | code_timer/timer.py:130-136 | a call through the `__call__` wrapper times the wrapped call and passes its result or error through unchanged. On a running timer it raises `TimerError` without calling the function or changing anything |
| CodeTimer.TwoScopedBlocks | code_timer/timer.py:139-151 | two `with` blocks on one named timer add at most the timer's name as a new key, raise the name's total by the sum of both elapsed times, leave every other total alone, and leave the timer stopped with the second block's elapsed time |
| Decorators.Dispatch | code_timer/timer.py:22-46 | `timer(...)` decorates at once, with an unnamed timer, exactly when its only positional argument is callable. Otherwise it returns a decorator whose timers take the given name. The name given both positionally and by keyword, or more than one positional argument, makes `Timer(...)` raise `TypeError` |
| Decorators.BareAndEmptyCallAgree | code_timer/timer.py:30-46 | `@timer` and `@timer()` both time with an unnamed timer |
| Decorators.CallDecorated | code_timer/timer.py:32-46 | a call of a `timer`-decorated function registers the timer's name, accumulates the call's elapsed time under it and returns the function's result or error. A name that was new ends with exactly that one call's elapsed time. Bad settings raise `TypeError` with the table untouched |
| Repeat.TimeIt | code_timer/timer.py:51-65 | runs the function `num_repeats` times, each in a fresh unnamed timer (which only registers `None`). If all runs return and there are at least three, it returns the last run's result and logs the three smallest elapsed times. With fewer than three it raises `IndexError`. The first error a run raises is propagated |
| Repeat.TimeitRepeatsAsWritten | code_timer/timer.py:49-50 | as written, `timeit` accepts no positional argument, so a bare `@timeit` is rejected |
| Repeat.BareTimeitRejected | code_timer/timer.py:49-50 | `@timeit` raises `TypeError` while `@timeit()` runs 10000 repetitions |
| Repeat.TimeitDispatch | code_timer/timer.py:49-51 | the intended dispatch: a sole callable argument is decorated at once with the default 10000 repetitions, no positional argument gives a decorator, and anything else is rejected |
| Repeat.BareTimeitMatchesEmptyCall | code_timer/timer.py:49-50 | under the intended dispatch, `@timeit` and `@timeit()` both run the default 10000 repetitions |

## Left out

- Logging: the logger setup and every `logger.debug`/`logger.info` line
  (code_timer/timer.py:8-15, 60-64, 106, 124, 126-127) are output to a
  logging sink. `Repeat.TimeIt` returns the three values its INFO line
  reports. Nothing else about the log is modelled.
- `__repr__` (code_timer/timer.py:153-156) and the `:0.4f`/`:0.6f`
  formatting only build log text.
- `time.perf_counter()` is a foreign clock. Its readings are parameters.
  IEEE floating point is modelled as exact `real` arithmetic.
- CodeTimer.Timer.Stop: requires the reading not to be earlier than the
  start reading, because `perf_counter` is monotone. A clock that goes
  backwards, which would give a negative elapsed time, is not modelled.
- Repeat.TimeIt: takes one trial (readings and outcome) per repetition, so
  the number of trials must equal the repetition count. Readings around each
  run are ordered for the same monotone-clock reason.
- `functools.wraps` metadata and `*args, **kwargs` forwarding are Python
  reflection. A wrapped call is an abstract step that returns or raises.
- A wrapped call that touches the timer it runs in is not modelled. If the
  call stops that timer, `__exit__` then raises `TimerError`. If the call
  starts it, `start` raises `TimerError` at line 103 inside the call, and
  `__exit__` then stops the timer normally. A recursive function decorated
  with a `Timer` instance (lines 130-136) is an example of the second case.
- A wrapped call is assumed not to touch the shared table, so it has no
  nested timed calls of its own. The table postconditions of
  `CodeTimer.Timer.Invoke`, `Decorators.CallDecorated` and `Repeat.TimeIt`
  hold only for such calls.
- Only timers write the shared table. In the source, `Timer.timers`
  (line 71) is public, and `get_timer` (line 94) returns the live
  dictionary, so any caller can delete or overwrite entries. The model does
  not capture that aliasing: `CodeTimer.Timer.GetTimer` returns the table
  as a value. `CodeTimer.Timer.Valid` keeps every timer's name present with
  a non-negative total, and the requires of `Accumulator.Accumulate`
  excludes the `KeyError` that `timers[name] += ...` at line 123 would raise
  for a deleted key.
- `callable(dargs[0])` is Python's dynamic check. It becomes the
  `Decorators.TimerArg` datatype, whose arguments are either callable or a
  name.
- Unknown keyword arguments to `timer(...)`, and timer names that are
  neither strings nor `None`, are not modelled.
- `repeats.sort()` sorts the list in place. The model sorts the array's
  contents as a value with `Sorting.SortAscending`. The in-place update of
  the list is not captured. The result is the same for any correct sort
  (`Sorting.SortAscendingIsTheSort`).
- The shared table is not protected against concurrent use, and neither is
  the model: it has no threads.
- `setup.py` (packaging) and `code_timer/__init__.py` (documentation only)
  hold no logic.

## Findings

| source | as written | input that shows it | evidently intended | confidence | as-written member | corrected member |
|---|---|---|---|---|---|---|
| code_timer/timer.py:49-50 | `def timeit(*, num_repeats: int = 10000)` takes keyword arguments only | `@timeit` applied bare, i.e. `timeit(f)`, raises `TypeError` because a positional argument was given | the comment on line 50 promises that both `@timeit` and `@timeit()` work, as they do for `timer` | high; not executed | Repeat.TimeitRepeatsAsWritten | Repeat.TimeitDispatch |
