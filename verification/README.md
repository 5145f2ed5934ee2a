# Number: a single-value wrapper, modelled in Dafny

The crate defines one type, `Number<T>`. It is a tuple struct that holds one
scalar. The type offers:

- `new` and `get`;
- an unconditional `set`;
- in-place `increment` and `decrement` by one, built on `AddAssign` and `SubAssign`;
- value-returning `Add` and `Sub` operators. They yield a raw `T`, not a new `Number`.

The crate's only test instantiates `T` at `u32`, so this model fixes
`T = u32`. `Lib.U32` is the range `0 ..= 2^32 - 1`.

- `lib.dfy` (module `Lib`) holds the class `Number`. Its mutable field `value`
  is the tuple field `self.0`. The mutators are methods with `modifies this`.
  The reads (`Get`, `Add`, `Sub`) are functions with `reads this`, so they
  cannot change the wrapper. It also holds `IncrementedTimes` and
  `DecrementedTimes`. They are stepwise references, one unit step per
  iteration on plain values, with closed forms `v + n` and `v - n`. The loop
  invariants of the test scenario are proved equal to them.
- `tests.dfy` (module `LibTests`) mirrors the crate's `mod tests`. It holds the
  test scenario `NumberWorks` with its two repeated-call loops. It also holds
  clients that derive each property of the wrapper from the operations'
  contracts alone.

Rust's plain `+` and `-` on `u32` do not define a result on overflow. A debug
build panics and a release build wraps. The model therefore has no overflow
result. Every adding or subtracting operation requires that its result stays
in range.

## Model

| member | source | states |
|---|---|---|
| `Lib.Number.constructor` | src/lib.rs:8-10 | the new wrapper stores exactly the given value, and `Get` returns it |
| `Lib.Number.Get` | src/lib.rs:12-14 | returns the stored value; it only reads, so the state is unchanged |
| `Lib.Number.Set` | src/lib.rs:16-18 | afterwards the stored value, and `Get`, is the argument, whatever the prior state |
| `Lib.Number.Add` | src/lib.rs:29-35 | `self + rhs` is the stored value plus `rhs`, as a raw value; the wrapper is not modified; defined only when the sum fits in `u32` |
| `Lib.Number.Sub` | src/lib.rs:43-49 | `self - rhs` is the stored value minus `rhs`, as a raw value; the wrapper is not modified; defined only when `rhs` does not exceed the value |
| `Lib.Number.AddAssign` | src/lib.rs:37-41 | `+=` replaces the stored value by what `Add` would have returned, which is the old value plus `rhs` |
| `Lib.Number.SubAssign` | src/lib.rs:51-55 | `-=` replaces the stored value by what `Sub` would have returned, which is the old value minus `rhs` |
| `Lib.Number.Increment` | src/lib.rs:20-22 | with the old value below `u32::MAX`, the new value is exactly old + 1 |
| `Lib.Number.Decrement` | src/lib.rs:24-26 | with the old value above 0, the new value is exactly old - 1 |
| `Lib.IncrementedTimes` | src/lib.rs:68 | stepwise reference for the ten-increment loop: `n` unit steps from `v` stay in range when `v + n <= u32::MAX` and end at `v + n` |
| `Lib.DecrementedTimes` | src/lib.rs:71 | stepwise reference for the eight-decrement loop: `n` unit steps down from `v` stay in range when `n <= v` and end at `v - n` |
| `LibTests.NewThenGet` | src/lib.rs:8-14 | constructing with `v` and then calling `get` returns `v` |
| `LibTests.SetThenGet` | src/lib.rs:16-18 | after `set(v)`, `get` returns `v`, from any prior value |
| `LibTests.SetTwiceIsSetOnce` | src/lib.rs:16-18 | calling `set(v)` twice leaves the same state as calling it once |
| `LibTests.IncrementThenDecrement` | src/lib.rs:20-26 | `increment` then `decrement` restores the original value (below `u32::MAX`) |
| `LibTests.DecrementThenIncrement` | src/lib.rs:20-26 | `decrement` then `increment` restores the original value (above 0) |
| `LibTests.AddAssignThenSubAssign` | src/lib.rs:37-41 | `+= d` followed by `-= d` restores the original value when the sum is in range |
| `LibTests.SubAssignThenAddAssign` | src/lib.rs:51-55 | `-= d` followed by `+= d` restores the original value when `d` does not exceed it |
| `LibTests.AddLeavesWrapper` | src/lib.rs:29-35 | `self + rhs` returns `value + rhs` and the wrapper still reads `value`; `Sub` of `rhs` on the sum gives `value` back |
| `LibTests.SubLeavesWrapper` | src/lib.rs:43-49 | `self - rhs` returns `value - rhs` and the wrapper still reads `value`; `Add` of `rhs` on the difference gives `value` back |
| `LibTests.NumberWorks` | src/lib.rs:63-74 | start at 0, `set(10)`, ten increments, eight decrements: `get` returns 12; each loop's invariant equates the stored value with the stepwise reference |

## Left out

- Generic `T` and the trait bounds (`num::One`, `Copy`, the operator traits): the model fixes `T = u32`, the instantiation the test uses. `one()` is the literal 1.
- Overflow of `+` and `-`: the result is not defined by this code, so it is ruled out by preconditions. No wrapping or saturating result is modelled.
- `Lib.Number.Increment`: requires `value < u32::MAX` instead of describing the panic or wrap of the host `+`.
- `Lib.Number.Decrement`: requires `value > 0` instead of describing the panic or wrap of the host `-`.
- The `println!` calls in the test: output only, with no effect on the state.
- The `Debug` and `Clone` derives: library-generated, with no logic. `Copy` matters only in that `add` and `sub` consume a copy of the wrapper. The model shows this by making `Add` and `Sub` functions that cannot modify the object.
- A bounded, wrapping counter (min/max bounds, `reset`) is not in src/lib.rs and is not modelled. Incrementing at `u32::MAX` and decrementing at 0 therefore get no wrapping result.
