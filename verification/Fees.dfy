/** The platform fee of a payment: a fixed part plus a rounded percentage, added on top of the base amount. */
module Fees {

  const BPS_SCALE: nat := 10000

  /** A JavaScript number: NaN and the infinities behave alike in this code. */
  datatype Num = NotFinite | Finite(v: real)

  /** Math.trunc */
  function Trunc(v: real): int {
    if v >= 0.0 then v.Floor else -((-v).Floor)
  }

  /** Negative, fractional and non-finite settings are brought back to a natural number. */
  function NormalizeFeeComponent(value: Num): (r: nat)
    ensures value.NotFinite? || value.v < 0.0 ==> r == 0
    ensures value.Finite? && value.v >= 0.0 ==> r as real <= value.v < (r + 1) as real
  {
    if value.NotFinite? || Trunc(value.v) < 0 then 0 else Trunc(value.v)
  }

  /** Math.round of n / d: to the nearest integer, halves upwards. */
  function RoundHalfUp(n: nat, d: nat): (r: nat)
    requires d > 0
    ensures -(d as int) <= 2 * (n - r * d) < d
  {
    var r := (2 * n + d) / (2 * d);
    assert (2 * n + d) == r * (2 * d) + (2 * n + d) % (2 * d);
    assert r * (2 * d) == 2 * (r * d);
    r
  }

  function VariableFee(base: nat, bps: nat): (fee: nat)
    ensures -10000 <= 2 * (base * bps - fee * 10000) < 10000
  {
    RoundHalfUp(base * bps, BPS_SCALE)
  }

  datatype Policy = Policy(fixedFeeCents: Num, percentageBps: Num)

  datatype Breakdown = Breakdown(base: nat, platformFee: nat, charge: nat, merchantNet: nat)

  function ComputePlatformFeeBreakdown(amountCents: Num, policy: Policy): Breakdown {
    var base := NormalizeFeeComponent(amountCents);
    var fee := NormalizeFeeComponent(policy.fixedFeeCents)
      + VariableFee(base, NormalizeFeeComponent(policy.percentageBps));
    Breakdown(base, fee, base + fee, base)
  }

  /**
   * What the ledger relies on: the two shares make up the charge, and a request of a cent or more is never charged
   * nothing.
   */
  lemma BreakdownBalances(amountCents: Num, policy: Policy)
    ensures var b := ComputePlatformFeeBreakdown(amountCents, policy);
      && b.platformFee + b.merchantNet == b.charge
      && (amountCents.Finite? && amountCents.v >= 0.0 ==> b.merchantNet == amountCents.v.Floor)
      && (amountCents.Finite? && amountCents.v >= 1.0 ==> b.charge > 0)
  {
  }

  /** What a setting counts as: a natural number, 0 when it is negative or no number at all. */
  ghost predicate ReadsAs(value: Num, n: nat) {
    if value.NotFinite? || value.v < 0.0 then n == 0 else n as real <= value.v < (n + 1) as real
  }

  /** The percentage of the base on top of the fixed part, to the nearest cent with halves upwards. */
  ghost predicate FeeIs(fee: int, base: nat, fixed: nat, bps: nat) {
    -10000 <= 2 * (base * bps - (fee - fixed) * 10000) < 10000
  }

  /** The fee is the fixed part and the rounded percentage, and all of it is added on top. */
  lemma FeeIsFixedPlusPercentage(amountCents: Num, policy: Policy, base: nat, fixed: nat, bps: nat)
    requires ReadsAs(amountCents, base) && ReadsAs(policy.fixedFeeCents, fixed) && ReadsAs(policy.percentageBps, bps)
    ensures var b := ComputePlatformFeeBreakdown(amountCents, policy);
      b.base == base && b.merchantNet == base && b.charge == base + b.platformFee
        && FeeIs(b.platformFee, base, fixed, bps)
  {
    SettingReads(amountCents, base);
    SettingReads(policy.fixedFeeCents, fixed);
    SettingReads(policy.percentageBps, bps);
    hide NormalizeFeeComponent, ReadsAs, VariableFee;
  }

  lemma SettingReads(value: Num, n: nat)
    requires ReadsAs(value, n)
    ensures NormalizeFeeComponent(value) == n
  {
    hide Trunc;
  }

  lemma VariableFeeMonotone(a: nat, b: nat, bpsA: nat, bpsB: nat)
    requires a <= b && bpsA <= bpsB
    ensures VariableFee(a, bpsA) <= VariableFee(b, bpsB)
  {
    assert a * bpsA <= b * bpsA <= b * bpsB;
  }

  lemma TruncMonotone(x: real, y: real)
    requires x <= y
    ensures Trunc(x) <= Trunc(y)
  {
  }

  /** A larger request never lowers the fee, the charge or what the merchant keeps. */
  lemma BreakdownMonotone(x: real, y: real, policy: Policy)
    requires x <= y
    ensures var lo := ComputePlatformFeeBreakdown(Finite(x), policy);
      var hi := ComputePlatformFeeBreakdown(Finite(y), policy);
      lo.platformFee <= hi.platformFee && lo.charge <= hi.charge && lo.merchantNet <= hi.merchantNet
  {
    TruncMonotone(x, y);
    var bps := NormalizeFeeComponent(policy.percentageBps);
    VariableFeeMonotone(NormalizeFeeComponent(Finite(x)), NormalizeFeeComponent(Finite(y)), bps, bps);
  }

  function Sum(xs: seq<nat>): nat {
    if xs == [] then 0 else xs[0] + Sum(xs[1..])
  }

  function TotalVariableFee(amounts: seq<nat>, bps: nat): nat {
    if amounts == [] then 0 else VariableFee(amounts[0], bps) + TotalVariableFee(amounts[1..], bps)
  }

  /** Rounding n charges one by one drifts at most n/2 cents from the exact percentage of their total. */
  lemma {:induction false} RoundingDrift(amounts: seq<nat>, bps: nat)
    ensures var n := |amounts|;
      -10000 * n <= 2 * (Sum(amounts) * bps - TotalVariableFee(amounts, bps) * 10000) <= 10000 * n
  {
    if amounts != [] {
      RoundingDrift(amounts[1..], bps);
      Distribute(amounts[0], Sum(amounts[1..]), bps);
      OneMoreDrift(amounts[0] * bps, VariableFee(amounts[0], bps), Sum(amounts[1..]) * bps,
                   TotalVariableFee(amounts[1..], bps), |amounts| - 1);
      hide VariableFee;
    }
  }

  lemma Distribute(a: nat, b: nat, bps: nat)
    ensures (a + b) * bps == a * bps + b * bps
  {
  }

  lemma OneMoreDrift(exact: int, fee: int, exactRest: int, feeRest: int, n: int)
    requires -10000 <= 2 * (exact - fee * 10000) < 10000
    requires -10000 * n <= 2 * (exactRest - feeRest * 10000) <= 10000 * n
    ensures -10000 * (n + 1) <= 2 * (exact + exactRest - (fee + feeRest) * 10000) <= 10000 * (n + 1)
  {
  }

  /** The drift of n/2 cents is reached: n charges of one cent at 50 per cent are each rounded up by half a cent. */
  lemma {:induction false} RoundingDriftReached(n: nat)
    ensures var amounts := seq(n, i => 1 as nat);
      2 * (Sum(amounts) * 5000 - TotalVariableFee(amounts, 5000) * 10000) == -10000 * n
  {
    var amounts := seq(n, i => 1 as nat);
    if n > 0 {
      RoundingDriftReached(n - 1);
      assert amounts[1..] == seq(n - 1, i => 1 as nat);
      assert VariableFee(1, 5000) == 1;
    }
  }

  lemma DriftDifference(exact: int, whole: int, split: int, n: int)
    requires -10000 <= 2 * (exact - whole * 10000) <= 10000
    requires -10000 * n <= 2 * (exact - split * 10000) <= 10000 * n
    ensures -(n + 1) <= 2 * (whole - split) <= n + 1
  {
  }

  /** Splitting one charge into n parts moves the variable fee by at most (n + 1) / 2 cents, either way. */
  lemma SplittingACharge(parts: seq<nat>, bps: nat)
    ensures var whole, split, n := VariableFee(Sum(parts), bps), TotalVariableFee(parts, bps), |parts|;
      -(n + 1) <= 2 * (whole - split) <= n + 1
  {
    RoundingDrift(parts, bps);
    DriftDifference(Sum(parts) * bps, VariableFee(Sum(parts), bps), TotalVariableFee(parts, bps), |parts|);
  }
}
