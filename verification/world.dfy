/** What the core reads from outside itself: the clock (`Date.now()`) and
    the functions it calls but does not define (the HTTP client behind
    `rest.call`, handlers registered from elsewhere). Both are fixed
    oracles; the world counts how often each has been consulted, so the
    n-th reading of the clock is `clock(n)`. */
module Worlds {
  import opened Values

  class World {
    /** The value of the n-th `Date.now()`; no monotonicity is assumed. */
    const clock: nat -> int
    /** How the n-th call into foreign code, of `f` with argument `arg`,
        ends. */
    const external: (Func, Value, nat) -> Outcome<Value>
    var ticks: nat
    var calls: nat

    constructor (clock: nat -> int, external: (Func, Value, nat) -> Outcome<Value>)
      ensures this.clock == clock && this.external == external
      ensures ticks == 0 && calls == 0
    {
      this.clock := clock;
      this.external := external;
      ticks := 0;
      calls := 0;
    }

    /** `Date.now()` */
    method Now() returns (t: int)
      modifies this`ticks
      ensures t == clock(old(ticks)) && ticks == old(ticks) + 1
    {
      t := clock(ticks);
      ticks := ticks + 1;
    }

    /** A call of foreign code `f` with argument `arg`. */
    method Call(f: Func, arg: Value) returns (o: Outcome<Value>)
      modifies this`calls
      ensures o == external(f, arg, old(calls)) && calls == old(calls) + 1
    {
      o := external(f, arg, calls);
      calls := calls + 1;
    }
  }
}
