/**
 * Python's process-wide pseudo-random generator, as far as the planner uses it.
 * The generator's internals are not modelled: after `random.seed(s)` it produces
 * an arbitrary stream of numbers that depends on `s` only, and the `k`-th call of
 * `random.choice` over `n` items takes item `stream(k) % n`. Since the stream is
 * arbitrary, every sequence of choices is possible.
 */
module Prng {
  import opened Base

  /** The index that the `call`-th draw over `n` items takes. */
  function Pick(stream: nat -> nat, call: nat, n: nat): (i: nat)
    requires n > 0
    ensures i < n
  {
    stream(call) % n
  }

  class Random {
    /** The outputs of the generator since it was last seeded. */
    const stream: nat -> nat
    /** How many draws have been taken from `stream`. */
    var calls: nat

    /** `random.seed(seed)`: `generator` stands for the seeding algorithm. */
    constructor (generator: string -> (nat -> nat), seed: string)
      ensures stream == generator(seed) && calls == 0
    {
      stream := generator(seed);
      calls := 0;
    }

    /** `random.choice(items)`; None where Python raises IndexError on an empty list. */
    method Choice<T>(items: seq<T>) returns (r: Option<T>)
      modifies this
      ensures items == [] ==> r == None && calls == old(calls)
      ensures items != [] ==> r == Some(items[Pick(stream, old(calls), |items|)]) && calls == old(calls) + 1
    {
      if |items| == 0 {
        return None;
      }
      r := Some(items[Pick(stream, calls, |items|)]);
      calls := calls + 1;
    }
  }
}
