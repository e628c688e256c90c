/** Fixed-width integers of the contract (Rust u32, u64, i128) as subset types
    of the unbounded integers, and the checked operations the contract uses.
    Each checked operation yields None exactly when Rust's `checked_*` does. */
module Numeric {

  datatype Option<+T> = None | Some(value: T)

  const U32_MAX: int := 0xFFFF_FFFF
  const U64_MAX: int := 0xFFFF_FFFF_FFFF_FFFF
  const I128_MIN: int := -0x8000_0000_0000_0000_0000_0000_0000_0000
  const I128_MAX: int := 0x7FFF_FFFF_FFFF_FFFF_FFFF_FFFF_FFFF_FFFF

  type U32 = x: int | 0 <= x <= U32_MAX
  type U64 = x: int | 0 <= x <= U64_MAX
  type I128 = x: int | I128_MIN <= x <= I128_MAX

  predicate InI128(x: int) { I128_MIN <= x <= I128_MAX }

  /** `i128::checked_add` */
  function CheckedAdd(a: I128, b: I128): Option<I128>
  {
    if InI128(a + b) then Some(a + b) else None
  }

  /** `i128::checked_sub` */
  function CheckedSub(a: I128, b: I128): Option<I128>
  {
    if InI128(a - b) then Some(a - b) else None
  }

  /** `i128::checked_mul` */
  function CheckedMul(a: I128, b: I128): Option<I128>
  {
    if InI128(a * b) then Some(a * b) else None
  }

  /** Rust's integer division, which rounds toward zero (Dafny's `/` is Euclidean). */
  function TruncDiv(a: int, b: int): int
    requires b != 0
  {
    var q := Abs(a) / Abs(b);
    if (a < 0) != (b < 0) then -q else q
  }

  function Abs(x: int): nat { if x < 0 then -x else x }

  /** `i128::checked_div`: fails on a zero divisor and on `MIN / -1`. */
  function CheckedDiv(a: I128, b: I128): (r: Option<I128>)
    ensures r.None? <==> b == 0 || (a == I128_MIN && b == -1)
    ensures r.Some? ==> r.value == TruncDiv(a, b)
    ensures r.Some? ==> var rem := a - r.value * b;
      Abs(rem) < Abs(b) && (rem == 0 || (rem < 0) == (a < 0))
  {
    if b == 0 || (a == I128_MIN && b == -1) then None
    else
      TruncDivInRange(a, b);
      TruncDivRemainder(a, b);
      Some(TruncDiv(a, b))
  }

  /** The remainder of truncating division is `m = |a| % |b|` with the dividend's sign. */
  lemma TruncDivRemainder(a: int, b: int)
    requires b != 0
    ensures var rem := a - TruncDiv(a, b) * b;
      Abs(rem) < Abs(b) && (rem == 0 || (rem < 0) == (a < 0))
  {
    var q, m := Abs(a) / Abs(b), Abs(a) % Abs(b);
    assert Abs(a) == q * Abs(b) + m && 0 <= m < Abs(b);
    if b > 0 {
      assert q * Abs(b) == q * b;
    } else {
      assert q * Abs(b) == -(q * b);
    }
    var rem := a - TruncDiv(a, b) * b;
    assert rem == (if a < 0 then -m else m);
  }

  lemma TruncDivInRange(a: I128, b: I128)
    requires b != 0 && !(a == I128_MIN && b == -1)
    ensures InI128(TruncDiv(a, b))
  {
    var q := Abs(a) / Abs(b);
    if Abs(b) == 1 {
      assert q == Abs(a);
    } else {
      DivShrinks(Abs(a), Abs(b));
    }
  }

  lemma DivShrinks(x: nat, y: nat)
    requires y >= 2
    ensures x / y <= x / 2
  {
    var q := x / y;
    assert q * y <= x;
    assert q * 2 <= q * y;
  }

  /** `u64::checked_add` */
  function CheckedAddU64(a: U64, b: U64): Option<U64>
  {
    if a + b <= U64_MAX then Some(a + b) else None
  }
}
