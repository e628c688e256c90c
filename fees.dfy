/** The fee engine: a basis-point fee computed with overflow-checked i128 arithmetic. */
module Fees {
  import opened Numeric
  import opened Types

  /** Basis points in one whole: a rate of 10000 takes the full amount. */
  const BPS_DENOMINATOR: int := 10000

  /** The largest rate `initialize` and `update_fee` accept. */
  const MAX_FEE_BPS: int := 10000

  /** `amount.checked_mul(fee_bps as i128)?.checked_div(10000)?`. The result is the
      floor of amount * rate / 10000 for a non-negative amount, and the only
      failure is an i128 overflow of the product. */
  function ComputeFee(amount: I128, feeBps: U32): (r: Result<I128>)
    ensures r.Err? <==> !InI128(amount * feeBps)
    ensures r.Err? ==> r.error == Overflow
    ensures r.Ok? && amount >= 0 ==> r.value == amount * feeBps / BPS_DENOMINATOR
  {
    var product :- OrOverflow(CheckedMul(amount, feeBps));
    OrOverflow(CheckedDiv(product, BPS_DENOMINATOR))
  }

  /** For a positive amount and a rate of at most 10000 the fee lies in
      [0, amount], so the payout `amount - fee` is never negative and never
      more than the amount. */
  lemma FeeWithinAmount(amount: I128, feeBps: U32)
    requires amount > 0 && feeBps <= MAX_FEE_BPS
    requires ComputeFee(amount, feeBps).Ok?
    ensures var fee := ComputeFee(amount, feeBps).value;
      0 <= fee <= amount && 0 <= amount - fee <= amount
  {
    var fee := ComputeFee(amount, feeBps).value;
    assert fee == amount * feeBps / BPS_DENOMINATOR;
    MulMonotone(amount, feeBps, MAX_FEE_BPS);
    assert amount * MAX_FEE_BPS / BPS_DENOMINATOR == amount;
    DivMonotone(amount * feeBps, amount * MAX_FEE_BPS);
  }

  /** The product overflows only for amounts above i128::MAX / rate; in
      particular no amount up to i128::MAX / 10000 can make the fee fail. */
  lemma SmallAmountsNeverOverflow(amount: I128, feeBps: U32)
    requires 0 <= amount && amount * MAX_FEE_BPS <= I128_MAX && feeBps <= MAX_FEE_BPS
    ensures ComputeFee(amount, feeBps).Ok?
  {
    MulMonotone(amount, feeBps, MAX_FEE_BPS);
  }

  /** The rate only scales the fee up: a higher rate never yields a smaller fee. */
  lemma FeeMonotoneInRate(amount: I128, lo: U32, hi: U32)
    requires 0 <= amount && lo <= hi
    requires ComputeFee(amount, lo).Ok? && ComputeFee(amount, hi).Ok?
    ensures ComputeFee(amount, lo).value <= ComputeFee(amount, hi).value
  {
    MulMonotone(amount, lo, hi);
    DivMonotone(amount * lo, amount * hi);
  }

  lemma MulMonotone(a: nat, x: int, y: int)
    requires x <= y
    ensures a * x <= a * y
  {
    var d := y - x;
    assert a * y == a * x + a * d;
  }

  lemma DivMonotone(x: int, y: int)
    requires x <= y
    ensures x / BPS_DENOMINATOR <= y / BPS_DENOMINATOR
  {
  }
}
