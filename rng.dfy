/**
 * The random source the loader and the procedures draw from.
 *
 * The generators behind GeoCUtil (randomNumber, randomStr, randomNStr, getLastName,
 * getNonUniformRandomLastNameForLoad, getCustomerID, getItemID) are not part of this model.
 * They are represented as a stream of raw draws `raw(0), raw(1), ...` plus string oracles,
 * and a cursor `pos` that numbers every random event, string calls included: randomStr and
 * randomNStr advance it too, although they do not take `benchmark.rng()`, so `pos` is not a
 * count of calls on that generator. All that a caller may rely on is the range a call
 * requests.
 */
module Rng {

  /** randomNumber(lo, hi): the raw draw brought into the inclusive range [lo, hi]. */
  function Reduce(raw: int, lo: int, hi: int): (r: int)
    requires lo <= hi
    ensures lo <= r <= hi
  {
    lo + raw % (hi - lo + 1)
  }

  /** The integers lo..hi. */
  function Between(lo: int, hi: int): (r: set<int>)
    ensures forall x :: x in r <==> lo <= x <= hi
    decreases hi - lo
  {
    if lo > hi then {} else {lo} + Between(lo + 1, hi)
  }

  /** Some draw at or after position `from`, brought into [lo, hi], lands in `good`. */
  ghost predicate EventuallyIn(raw: nat -> int, from: nat, lo: int, hi: int, good: set<int>)
    requires lo <= hi
  {
    exists n: nat :: from <= n && Reduce(raw(n), lo, hi) in good
  }

  /**
   * From every position on, the stream eventually yields a value in `good`. A loop that
   * redraws until it gets such a value (the source has two) terminates exactly when this holds.
   */
  ghost predicate Fair(raw: nat -> int, lo: int, hi: int, good: set<int>)
    requires lo <= hi
  {
    forall p: nat :: EventuallyIn(raw, p, lo, hi, good)
  }

  class Source {
    /** The raw numeric draws, in the order the program consumes them. */
    const raw: nat -> int
    /** randomStr(n) at draw position p; its length is whatever GeoCUtil makes of n. */
    const text: (nat, int) -> string
    /** randomNStr(n) (digits only) at draw position p. */
    const digits: (nat, int) -> string
    /** getLastName(num): deterministic in num. */
    const lastName: int -> string
    /** getNonUniformRandomLastNameForLoad at draw position p. */
    const nonUniformName: nat -> string
    /**
     * The first draw of `new Random(customer.hashCode())` for the customer triple (w, c, d).
     * It depends only on the triple, so it is the same whenever the triple is the same.
     */
    const seeded: (int, int, int) -> int
    /** How many random events (numeric draws and string calls) have happened so far. */
    var pos: nat

    constructor (raw: nat -> int, text: (nat, int) -> string, digits: (nat, int) -> string,
                 lastName: int -> string, nonUniformName: nat -> string,
                 seeded: (int, int, int) -> int)
      ensures this.raw == raw && this.text == text && this.digits == digits
      ensures this.lastName == lastName && this.nonUniformName == nonUniformName
      ensures this.seeded == seeded && pos == 0
    {
      this.raw := raw;
      this.text := text;
      this.digits := digits;
      this.lastName := lastName;
      this.nonUniformName := nonUniformName;
      this.seeded := seeded;
      pos := 0;
    }

    /** GeoCUtil.randomNumber(lo, hi, rng). */
    method Number(lo: int, hi: int) returns (r: int)
      requires lo <= hi
      modifies this
      ensures pos == old(pos) + 1
      ensures r == Reduce(raw(old(pos)), lo, hi)
      ensures lo <= r <= hi
    {
      r := Reduce(raw(pos), lo, hi);
      pos := pos + 1;
    }

    /** java.util.Random.nextInt(bound): a value in [0, bound). */
    method NextInt(bound: int) returns (r: int)
      requires bound >= 1
      modifies this
      ensures pos == old(pos) + 1
      ensures r == Reduce(raw(old(pos)), 0, bound - 1)
      ensures 0 <= r < bound
    {
      r := Reduce(raw(pos), 0, bound - 1);
      pos := pos + 1;
    }

    /** A draw whose range GeoCUtil decides (getCustomerID, getItemID). */
    method Any() returns (r: int)
      modifies this
      ensures pos == old(pos) + 1
      ensures r == raw(old(pos))
    {
      r := raw(pos);
      pos := pos + 1;
    }

    /** GeoCUtil.randomStr(n). */
    method Str(n: int) returns (s: string)
      modifies this
      ensures pos == old(pos) + 1
      ensures s == text(old(pos), n)
    {
      s := text(pos, n);
      pos := pos + 1;
    }

    /** GeoCUtil.randomNStr(n). */
    method NStr(n: int) returns (s: string)
      modifies this
      ensures pos == old(pos) + 1
      ensures s == digits(old(pos), n)
    {
      s := digits(pos, n);
      pos := pos + 1;
    }

    /** GeoCUtil.getNonUniformRandomLastNameForLoad(rng). */
    method NonUniformLastName() returns (s: string)
      modifies this
      ensures pos == old(pos) + 1
      ensures s == nonUniformName(old(pos))
    {
      s := nonUniformName(pos);
      pos := pos + 1;
    }
  }
}
