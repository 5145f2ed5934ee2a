/**
 * The single-value wrapper `Number<T>` of the crate, instantiated at `T = u32`
 * (the instantiation its own test uses).
 *
 * Rust's plain `+` and `-` on `u32` have no defined result on overflow (a debug
 * build panics, a release build wraps), so every operation that adds or
 * subtracts requires that its result stays inside the `u32` range.
 */
module Lib {

  /** `u32::MAX`. */
  const U32_MAX: int := 0xFFFF_FFFF

  /** Rust's `u32`. */
  type U32 = x: int | 0 <= x <= U32_MAX

  /** `struct Number<T>(T)`: one stored scalar, updated in place through `&mut self`. */
  class Number {
    var value: U32

    /** `Number::new(value)`. */
    constructor (v: U32)
      ensures value == v
      ensures Get() == v
    {
      value := v;
    }

    /** `get(&self)`: the stored value; a function, so it changes nothing. */
    function Get(): (r: U32)
      reads this
      ensures r == value
    {
      value
    }

    /** `set(&mut self, value)`: unconditional overwrite. */
    method Set(v: U32)
      modifies this
      ensures value == v
      ensures Get() == v
    {
      value := v;
    }

    /** `impl Add<T>`: `self + rhs` yields a raw `u32`, not a new `Number`. */
    function Add(rhs: U32): (r: U32)
      reads this
      requires value + rhs <= U32_MAX
      ensures r == value + rhs
    {
      value + rhs
    }

    /** `impl Sub<T>`: `self - rhs` yields a raw `u32`, not a new `Number`. */
    function Sub(rhs: U32): (r: U32)
      reads this
      requires rhs <= value
      ensures r == value - rhs
    {
      value - rhs
    }

    /** `impl AddAssign<T>`: `*self = Self(self.0 + rhs)`. */
    method AddAssign(rhs: U32)
      requires value + rhs <= U32_MAX
      modifies this
      ensures value == old(Add(rhs))
      ensures value == old(value) + rhs
    {
      value := Add(rhs);
    }

    /** `impl SubAssign<T>`: `*self = Self(self.0 - rhs)`. */
    method SubAssign(rhs: U32)
      requires rhs <= value
      modifies this
      ensures value == old(Sub(rhs))
      ensures value == old(value) - rhs
    {
      value := Sub(rhs);
    }

    /** `increment(&mut self)`: `*self += one()`. */
    method Increment()
      requires value < U32_MAX
      modifies this
      ensures value == old(value) + 1
    {
      AddAssign(1);
    }

    /** `decrement(&mut self)`: `*self -= one()`. */
    method Decrement()
      requires 0 < value
      modifies this
      ensures value == old(value) - 1
    {
      SubAssign(1);
    }
  }

  /**
   * Stepwise reference for repeated `increment` calls: `n` unit steps up from
   * `v`, each of which must stay in range; together they add `n`.
   */
  function IncrementedTimes(v: U32, n: nat): (r: U32)
    requires v + n <= U32_MAX
    ensures r == v + n
  {
    if n == 0 then v else IncrementedTimes(v, n - 1) + 1
  }

  /**
   * Stepwise reference for repeated `decrement` calls: `n` unit steps down from
   * `v`, each of which must stay in range; together they subtract `n`.
   */
  function DecrementedTimes(v: U32, n: nat): (r: U32)
    requires n <= v
    ensures r == v - n
  {
    if n == 0 then v else DecrementedTimes(v, n - 1) - 1
  }
}
