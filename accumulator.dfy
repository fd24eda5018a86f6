/** The accumulator table shared by every timer (`Timer.timers` in
    code_timer/timer.py): a dictionary from a timer's name, a string or
    `None`, to the total of its measured durations in milliseconds. This
    module holds the pure meaning of the table operations; the classes in
    CodeTimer perform them in place. */
module Accumulator {
  import opened Wrappers

  /** A timer name: `None` (the default) or a string. */
  type Name = Option<string>

  type Table = map<Name, real>

  /** Python truthiness of a timer name: `None` and `""` are false. */
  predicate Truthy(name: Name) {
    name.Some? && name.value != ""
  }

  /** Every accumulated total is non-negative. */
  ghost predicate Nonnegative(table: Table) {
    forall k :: k in table ==> table[k] >= 0.0
  }

  /** Milliseconds between two clock readings taken in seconds. */
  function ElapsedMs(start: real, end: real): (ms: real)
    ensures ms >= 0.0 <==> start <= end
    ensures start + ms / 1000.0 == end
  {
    (end - start) * 1000.0
  }

  /** `timers.setdefault(name, 0)`: adds `name -> 0` when the name is new and
      never touches an existing total. */
  function Register(table: Table, name: Name): (t: Table)
    ensures t.Keys == table.Keys + {name}
    ensures forall k :: k in table ==> t[k] == table[k]
    ensures name !in table ==> t[name] == 0.0
    ensures Nonnegative(table) ==> Nonnegative(t)
  {
    if name in table then table else table[name := 0.0]
  }

  /** The bookkeeping at the end of `stop`: a truthy name has `ms` added to
      its total (`timers[name] += ms`, which needs the key); any other name
      leaves the table as it is. */
  function Accumulate(table: Table, name: Name, ms: real): (t: Table)
    requires Truthy(name) ==> name in table
    ensures t.Keys == table.Keys
    ensures forall k :: k in table && k != name ==> t[k] == table[k]
    ensures Truthy(name) ==> t[name] == table[name] + ms
    ensures !Truthy(name) ==> t == table
    ensures Nonnegative(table) && ms >= 0.0 ==> Nonnegative(t)
  {
    if Truthy(name) then table[name := table[name] + ms] else table
  }

  /** The table after a series of `stop`s on timers of one name. */
  function AccumulateAll(table: Table, name: Name, ms: seq<real>): (t: Table)
    requires Truthy(name) ==> name in table
    ensures t.Keys == table.Keys
    decreases |ms|
  {
    if ms == [] then table else AccumulateAll(Accumulate(table, name, ms[0]), name, ms[1..])
  }

  function Sum(ms: seq<real>): real
    decreases |ms|
  {
    if ms == [] then 0.0 else ms[0] + Sum(ms[1..])
  }

  /** A truthy name accumulates exactly the sum of its measurements; a
      falsy name accumulates nothing. */
  lemma {:induction false} AccumulateAllAddsSum(table: Table, name: Name, ms: seq<real>)
    requires name in table
    ensures Truthy(name) ==> AccumulateAll(table, name, ms)[name] == table[name] + Sum(ms)
    ensures !Truthy(name) ==> AccumulateAll(table, name, ms) == table
    decreases |ms|
  {
    if ms != [] {
      AccumulateAllAddsSum(Accumulate(table, name, ms[0]), name, ms[1..]);
    }
  }

  /** Accumulating under one name leaves every other total unchanged. */
  lemma {:induction false} AccumulateAllKeepsOthers(table: Table, name: Name, ms: seq<real>, other: Name)
    requires Truthy(name) ==> name in table
    requires other in table && other != name
    ensures AccumulateAll(table, name, ms)[other] == table[other]
    decreases |ms|
  {
    if ms != [] {
      AccumulateAllKeepsOthers(Accumulate(table, name, ms[0]), name, ms[1..], other);
    }
  }

  /** Constructing a timer again under a name that has already accumulated
      time does not reset its total. */
  lemma ReRegisterKeepsTotal(table: Table, name: Name, ms: seq<real>)
    ensures var t := AccumulateAll(Register(table, name), name, ms);
      Register(t, name) == t
  {
  }
}
