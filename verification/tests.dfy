/**
 * Clients of `Number` that state the wrapper's properties through the
 * contracts of its operations alone, and the crate's own test scenario.
 * Each client allocates its own `Number`, so it changes no existing state.
 */
module LibTests {
  import opened Lib

  /** Constructing with `v` and then reading gives back `v`. */
  method NewThenGet(v: U32) returns (r: U32)
    ensures r == v
  {
    var number := new Number(v);
    r := number.Get();
  }

  /** Whatever the prior value, `set(v)` then `get()` gives `v`. */
  method SetThenGet(prior: U32, v: U32) returns (r: U32)
    ensures r == v
  {
    var number := new Number(prior);
    number.Set(v);
    r := number.Get();
  }

  /** Calling `set(v)` twice leaves the same state as calling it once. */
  method SetTwiceIsSetOnce(prior: U32, v: U32) returns (once: U32, twice: U32)
    ensures once == twice
  {
    var a := new Number(prior);
    a.Set(v);
    once := a.Get();
    var b := new Number(prior);
    b.Set(v);
    b.Set(v);
    twice := b.Get();
  }

  /** `increment` followed by `decrement` restores the value. */
  method IncrementThenDecrement(v: U32) returns (r: U32)
    requires v < U32_MAX
    ensures r == v
  {
    var number := new Number(v);
    number.Increment();
    number.Decrement();
    r := number.Get();
  }

  /** `decrement` followed by `increment` restores the value. */
  method DecrementThenIncrement(v: U32) returns (r: U32)
    requires 0 < v
    ensures r == v
  {
    var number := new Number(v);
    number.Decrement();
    number.Increment();
    r := number.Get();
  }

  /** `number += d` followed by `number -= d` restores the value. */
  method AddAssignThenSubAssign(v: U32, d: U32) returns (r: U32)
    requires v + d <= U32_MAX
    ensures r == v
  {
    var number := new Number(v);
    number.AddAssign(d);
    number.SubAssign(d);
    r := number.Get();
  }

  /** `number -= d` followed by `number += d` restores the value. */
  method SubAssignThenAddAssign(v: U32, d: U32) returns (r: U32)
    requires d <= v
    ensures r == v
  {
    var number := new Number(v);
    number.SubAssign(d);
    number.AddAssign(d);
    r := number.Get();
  }

  /**
   * `number + rhs` yields the sum as a raw value; the wrapper keeps its value,
   * and subtracting `rhs` from the sum through a second wrapper gives it back.
   */
  method AddLeavesWrapper(v: U32, rhs: U32) returns (sum: U32, after: U32, back: U32)
    requires v + rhs <= U32_MAX
    ensures sum == v + rhs
    ensures after == v
    ensures back == v
  {
    var number := new Number(v);
    sum := number.Add(rhs);
    after := number.Get();
    var other := new Number(sum);
    back := other.Sub(rhs);
  }

  /**
   * `number - rhs` yields the difference as a raw value; the wrapper keeps its
   * value, and adding `rhs` to the difference through a second wrapper gives
   * it back.
   */
  method SubLeavesWrapper(v: U32, rhs: U32) returns (difference: U32, after: U32, back: U32)
    requires rhs <= v
    ensures difference == v - rhs
    ensures after == v
    ensures back == v
  {
    var number := new Number(v);
    difference := number.Sub(rhs);
    after := number.Get();
    var other := new Number(difference);
    back := other.Add(rhs);
  }

  /**
   * The crate's test `number_works`: start from 0, set 10, ten increments,
   * eight decrements; the value read at the end is 12.
   */
  method NumberWorks() returns (r: U32)
    ensures r == 12
  {
    var number := new Number(0);
    number.Set(10);
    for i := 0 to 10
      invariant number.value == IncrementedTimes(10, i)
    {
      number.Increment();
    }
    for i := 0 to 8
      invariant number.value == DecrementedTimes(20, i)
    {
      number.Decrement();
    }
    r := number.Get();
  }
}
