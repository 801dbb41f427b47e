/**
 A reserve's accounting between refreshes: how interest accrued over some slots is split
 between suppliers, protocol, host and referrers, and the exchange rate, utilization,
 borrow rate and cumulative borrow rate estimated from it.
 */
module Reserves {
  import opened Reals
  import opened Wrappers
  import opened Compounding
  import opened BorrowCurve
  import opened ActionTypes

  const INITIAL_COLLATERAL_RATE: real := 1.0
  const SLOTS_PER_SECOND: real := 2.0

  datatype Reserve = Reserve(
    availableAmount: nat,
    borrowedAmount: real,
    accumulatedProtocolFees: real,
    accumulatedReferrerFees: real,
    pendingReferrerFees: real,
    cumulativeBorrowRate: real,
    mintTotalSupply: nat,
    lastUpdateSlot: nat,
    protocolTakeRatePct: nat,
    hostFixedInterestRateBps: nat,
    curvePoints: seq<CurvePoint>,
    recentSlotDurationMs: Positive)

  // ----- Stored amounts and rates -----

  function TotalSupply(r: Reserve): real
  {
    r.availableAmount as real + r.borrowedAmount
    - r.accumulatedProtocolFees - r.accumulatedReferrerFees - r.pendingReferrerFees
  }

  function Utilization(debt: real, supply: real): real
  {
    if supply == 0.0 then 0.0 else debt / supply
  }

  function SlotAdjustmentFactor(r: Reserve): Positive
  {
    assert 1000.0 / SLOTS_PER_SECOND / r.recentSlotDurationMs > 0.0;
    1000.0 / SLOTS_PER_SECOND / r.recentSlotDurationMs
  }

  /** The variable borrow rate of the reserve at some utilization. */
  function BorrowRateAt(r: Reserve, utilization: real): Result<real>
  {
    var rate :- BorrowRate(utilization, Truncation(r.curvePoints));
    Ok(Mul(rate, SlotAdjustmentFactor(r)))
  }

  function FixedHostInterestRate(r: Reserve): real { r.hostFixedInterestRateBps as real / 10000.0 }

  function TakeRate(r: Reserve): real { r.protocolTakeRatePct as real / 100.0 }

  /** At half a second a slot the yearly rate is the curve's, and it falls in proportion as slots get longer. */
  lemma RateIsPerSlotTime(r: Reserve, utilization: real)
    ensures var rate, curve := BorrowRateAt(r, utilization), BorrowRate(utilization, Truncation(r.curvePoints));
            && rate.Ok? == curve.Ok?
            && (rate.Ok? ==> Mul(rate.value, r.recentSlotDurationMs) == Mul(curve.value, 500.0))
  {
    hide Mul, BorrowRate, Truncation;
    var curve := BorrowRate(utilization, Truncation(r.curvePoints));
    if curve.Ok? {
      MulAssociates(curve.value, SlotAdjustmentFactor(r), r.recentSlotDurationMs);
      QuotientTimes(500.0, r.recentSlotDurationMs);
    }
  }

  // ----- Accrual -----

  datatype Accrual = Accrual(
    newDebt: real,
    netNewDebt: real,
    variableProtocolFee: real,
    fixedHostFee: real,
    absoluteReferralFee: real,
    maxReferralFees: real,
    newAccProtocolFees: real,
    pendingReferralFees: real)

  function CompoundInterest(r: Reserve, slotsElapsed: nat, referralFeeBps: nat): Result<Accrual>
  {
    var currentBorrowRate :- BorrowRateAt(r, Utilization(r.borrowedAmount, TotalSupply(r)));
    var referralRate := referralFeeBps as real / 10000.0;
    var hostRate := FixedHostInterestRate(r);
    var compoundedInterestRate := ApproximateCompoundedInterest(currentBorrowRate + hostRate, slotsElapsed);
    var compoundedFixedRate := ApproximateCompoundedInterest(hostRate, slotsElapsed);
    var newDebt := Mul(r.borrowedAmount, compoundedInterestRate);
    var fixedHostFee := Mul(r.borrowedAmount, compoundedFixedRate) - r.borrowedAmount;
    var netNewDebt := newDebt - r.borrowedAmount - fixedHostFee;
    var variableProtocolFee := Mul(netNewDebt, TakeRate(r));
    var absoluteReferralFee := Mul(TakeRate(r), referralRate);
    var maxReferralFees := Mul(netNewDebt, absoluteReferralFee);
    Ok(Accrual(
      newDebt, netNewDebt, variableProtocolFee, fixedHostFee, absoluteReferralFee, maxReferralFees,
      variableProtocolFee + fixedHostFee - maxReferralFees + r.accumulatedProtocolFees,
      r.pendingReferrerFees + maxReferralFees))
  }

  function SlotsElapsed(r: Reserve, slot: int): nat
  {
    if slot > r.lastUpdateSlot then slot - r.lastUpdateSlot else 0
  }

  datatype DebtAndSupply = DebtAndSupply(debt: real, supply: real)

  function EstimatedDebtAndSupply(r: Reserve, slot: int, referralFeeBps: nat): Result<DebtAndSupply>
  {
    if SlotsElapsed(r, slot) == 0 then
      Ok(DebtAndSupply(r.borrowedAmount, TotalSupply(r)))
    else
      var accrual :- CompoundInterest(r, SlotsElapsed(r, slot), referralFeeBps);
      Ok(DebtAndSupply(
        accrual.newDebt,
        r.availableAmount as real + accrual.newDebt - accrual.newAccProtocolFees
        - r.accumulatedReferrerFees - accrual.pendingReferralFees))
  }

  function EstimatedCollateralExchangeRate(r: Reserve, slot: int, referralFeeBps: nat): Result<real>
  {
    var estimate :- EstimatedDebtAndSupply(r, slot, referralFeeBps);
    Ok(if r.mintTotalSupply == 0 || estimate.supply == 0.0 then INITIAL_COLLATERAL_RATE
       else r.mintTotalSupply as real / estimate.supply)
  }

  function EstimatedUtilizationRatio(r: Reserve, slot: int, referralFeeBps: nat): Result<real>
  {
    var estimate :- EstimatedDebtAndSupply(r, slot, referralFeeBps);
    Ok(Utilization(estimate.debt, estimate.supply))
  }

  function EstimatedBorrowApr(r: Reserve, slot: int, referralFeeBps: nat): Result<real>
  {
    var utilization :- EstimatedUtilizationRatio(r, slot, referralFeeBps);
    var rate :- BorrowRateAt(r, utilization);
    Ok(rate + FixedHostInterestRate(r))
  }

  function EstimatedCumulativeBorrowRate(r: Reserve, slot: int, referralFeeBps: nat): Result<real>
  {
    var apr :- EstimatedBorrowApr(r, slot, referralFeeBps);
    Ok(Mul(r.cumulativeBorrowRate, ApproximateCompoundedInterest(apr, SlotsElapsed(r, slot))))
  }

  // ----- What is assumed of a stored reserve -----

  predicate Valid(r: Reserve)
  {
    && r.borrowedAmount >= 0.0 && TotalSupply(r) >= 0.0
    && r.protocolTakeRatePct <= 100
    && r.cumulativeBorrowRate >= 0.0
    && WellFormed(Truncation(r.curvePoints))
  }

  /** The per-slot rate at which the reserve's debt grows. */
  function DebtRatePerSlot(r: Reserve): real
    requires Valid(r)
  {
    LookupMonotone(StoredUtilization(r), StoredUtilization(r), Truncation(r.curvePoints));
    (BorrowRateAt(r, StoredUtilization(r)).value + FixedHostInterestRate(r)) / SLOTS_PER_YEAR
  }

  function StoredUtilization(r: Reserve): real { Utilization(r.borrowedAmount, TotalSupply(r)) }

  function HostRatePerSlot(r: Reserve): real { FixedHostInterestRate(r) / SLOTS_PER_YEAR }

  // ----- Conservation -----

  /**
   Every unit of new debt goes to the suppliers, the protocol's variable share or the host;
   the referrers' part only moves between the two fee pots.
   */
  lemma AccrualConservesValue(r: Reserve, slot: int, referralFeeBps: nat)
    ensures var accrual := CompoundInterest(r, SlotsElapsed(r, slot), referralFeeBps);
            var estimate := EstimatedDebtAndSupply(r, slot, referralFeeBps);
            accrual.Ok? ==>
            && estimate.Ok?
            && estimate.value.debt == accrual.value.newDebt
            && estimate.value.supply == TotalSupply(r) + Mul(1.0 - TakeRate(r), accrual.value.netNewDebt)
            && accrual.value.newDebt - r.borrowedAmount
               == (estimate.value.supply - TotalSupply(r))
                  + accrual.value.variableProtocolFee + accrual.value.fixedHostFee
            && (accrual.value.newAccProtocolFees - r.accumulatedProtocolFees)
               + (accrual.value.pendingReferralFees - r.pendingReferrerFees)
               == accrual.value.variableProtocolFee + accrual.value.fixedHostFee
  {
    hide Mul, BorrowRateAt, TotalSupply, Utilization, TakeRate, FixedHostInterestRate;
    var accrual := CompoundInterest(r, SlotsElapsed(r, slot), referralFeeBps);
    if accrual.Ok? {
      var net := accrual.value.netNewDebt;
      MulDistributes(net, 1.0 - TakeRate(r), TakeRate(r));
      MulCommutes(net, TakeRate(r));
      MulUnit(net);
      MulUnit(r.borrowedAmount);
      TotalSupplyIs(r);
      if SlotsElapsed(r, slot) == 0 {
        MulUnit(TakeRate(r));
        MulUnit(1.0 - TakeRate(r));
        MulUnit(accrual.value.absoluteReferralFee);
      }
    }
  }

  /**
   The protocol's variable share is its take rate of the net new debt, and the referrers' part is
   the referral rate of that share, whatever the two rates are.
   */
  lemma SharesOfNewDebt(r: Reserve, slotsElapsed: nat, referralFeeBps: nat)
    ensures var accrual := CompoundInterest(r, slotsElapsed, referralFeeBps);
            accrual.Ok? ==>
              var a := accrual.value;
              && 100.0 * a.variableProtocolFee == Mul(r.protocolTakeRatePct as real, a.netNewDebt)
              && 10000.0 * (a.pendingReferralFees - r.pendingReferrerFees) == Mul(referralFeeBps as real, a.variableProtocolFee)
  {
    hide Mul, TotalSupply, BorrowRateAt, ApproximateCompoundedInterest;
    var accrual := CompoundInterest(r, slotsElapsed, referralFeeBps);
    if accrual.Ok? {
      var n, take, referral := accrual.value.netNewDebt, TakeRate(r), referralFeeBps as real / 10000.0;
      assert take == r.protocolTakeRatePct as real / 100.0;
      assert accrual.value.variableProtocolFee == Mul(n, take);
      assert accrual.value.pendingReferralFees - r.pendingReferrerFees == Mul(n, Mul(take, referral));
      MulAssociates(n, take, referral);
      ScaledShare(n, r.protocolTakeRatePct as real, 100.0);
      ScaledShare(Mul(n, take), referralFeeBps as real, 10000.0);
    }
  }

  lemma ScaledShare(x: real, parts: real, whole: real)
    requires whole > 0.0
    ensures whole * Mul(x, parts / whole) == Mul(parts, x)
  {
    var q := parts / whole;
    assert q * whole == parts;
    assert whole * (x * q) == (q * whole) * x;
  }

  /** With a referral rate of at most 100% the referrers' part is within the protocol's share, and no pot ever falls. */
  lemma PotsNeverFall(r: Reserve, slotsElapsed: nat, referralFeeBps: nat)
    requires Valid(r) && referralFeeBps <= 10000
    ensures var accrual := CompoundInterest(r, slotsElapsed, referralFeeBps);
            && accrual.Ok?
            && var a := accrual.value;
               && a.netNewDebt >= 0.0 && a.fixedHostFee >= 0.0
               && 0.0 <= a.pendingReferralFees - r.pendingReferrerFees <= a.variableProtocolFee
               && a.newAccProtocolFees >= r.accumulatedProtocolFees
  {
    hide Mul, TotalSupply, BorrowRateAt, Compounded;
    RatesAreNonNegative(r);
    var a := CompoundInterest(r, slotsElapsed, referralFeeBps).value;
    var host, rate := HostRatePerSlot(r), DebtRatePerSlot(r);
    NewDebtOf(r, slotsElapsed, referralFeeBps);
    MonotoneInRate(host, rate, slotsElapsed);
    CompoundedAtLeastOne(host, slotsElapsed);
    MulMonotone(Compounded(host, slotsElapsed), Compounded(rate, slotsElapsed), r.borrowedAmount);
    MulMonotone(1.0, Compounded(host, slotsElapsed), r.borrowedAmount);
    MulUnit(r.borrowedAmount);
    SharesOfNewDebt(r, slotsElapsed, referralFeeBps);
    MulNonNegative(r.protocolTakeRatePct as real, a.netNewDebt);
    MulNonNegative(referralFeeBps as real, a.variableProtocolFee);
    MulMonotone(referralFeeBps as real, 10000.0, a.variableProtocolFee);
    MulIs(10000.0, a.variableProtocolFee);
  }

  lemma NewDebtOf(r: Reserve, slotsElapsed: nat, referralFeeBps: nat)
    requires Valid(r)
    ensures var accrual := CompoundInterest(r, slotsElapsed, referralFeeBps);
            && accrual.Ok?
            && accrual.value.netNewDebt
               == Mul(r.borrowedAmount, Compounded(DebtRatePerSlot(r), slotsElapsed)) - Mul(r.borrowedAmount, Compounded(HostRatePerSlot(r), slotsElapsed))
            && accrual.value.fixedHostFee == Mul(r.borrowedAmount, Compounded(HostRatePerSlot(r), slotsElapsed)) - r.borrowedAmount
  {
    hide Mul, TotalSupply, Compounded, BorrowRate;
    LookupMonotone(StoredUtilization(r), StoredUtilization(r), Truncation(r.curvePoints));
  }

  /** Whatever the slot, the tokens lent and at hand belong to the suppliers or to one of the three pots. */
  lemma EveryTokenHasAnOwner(r: Reserve, slot: int, referralFeeBps: nat)
    ensures r.availableAmount as real + r.borrowedAmount
         == TotalSupply(r) + r.accumulatedProtocolFees + r.accumulatedReferrerFees + r.pendingReferrerFees
    ensures var accrual, estimate := CompoundInterest(r, SlotsElapsed(r, slot), referralFeeBps), EstimatedDebtAndSupply(r, slot, referralFeeBps);
            accrual.Ok? ==>
              && estimate.Ok?
              && r.availableAmount as real + estimate.value.debt
                 == estimate.value.supply + accrual.value.newAccProtocolFees + r.accumulatedReferrerFees + accrual.value.pendingReferralFees
  {
    hide Mul, TotalSupply, BorrowRateAt;
    AccrualConservesValue(r, slot, referralFeeBps);
    TotalSupplyIs(r);
  }

  /** Until the slot passes the last update everything is as stored, and only the slots since then count. */
  lemma OnlyTheTimeSinceCounts(r: Reserve, slot: int, referralFeeBps: nat, k: nat)
    ensures slot <= r.lastUpdateSlot ==>
              && EstimatedDebtAndSupply(r, slot, referralFeeBps) == Ok(DebtAndSupply(r.borrowedAmount, TotalSupply(r)))
              && EstimatedUtilizationRatio(r, slot, referralFeeBps) == Ok(StoredUtilization(r))
              && (EstimatedBorrowApr(r, slot, referralFeeBps).Ok? ==>
                    EstimatedCumulativeBorrowRate(r, slot, referralFeeBps) == Ok(r.cumulativeBorrowRate))
    ensures var later := r.(lastUpdateSlot := r.lastUpdateSlot + k);
            EstimatedDebtAndSupply(later, slot + k, referralFeeBps) == EstimatedDebtAndSupply(r, slot, referralFeeBps)
    ensures slot >= r.lastUpdateSlot ==> SlotsElapsed(r, slot) + r.lastUpdateSlot == slot
  {
    hide Mul;
    MulUnit(r.cumulativeBorrowRate);
  }

  lemma TotalSupplyIs(r: Reserve)
    ensures TotalSupply(r) == r.availableAmount as real + r.borrowedAmount
              - r.accumulatedProtocolFees - r.accumulatedReferrerFees - r.pendingReferrerFees
  {}

  // ----- Closed form of the estimate -----

  /** The estimate of a valid reserve, in terms of the two growth factors. */
  lemma EstimateForm(r: Reserve, slot: int, referralFeeBps: nat)
    requires Valid(r)
    ensures EstimatedDebtAndSupply(r, slot, referralFeeBps).Ok?
    ensures var n := SlotsElapsed(r, slot);
            var growth := Compounded(DebtRatePerSlot(r), n);
            EstimatedDebtAndSupply(r, slot, referralFeeBps).value == DebtAndSupply(
              Mul(r.borrowedAmount, growth),
              TotalSupply(r) + Mul(1.0 - TakeRate(r),
                Mul(r.borrowedAmount, growth - Compounded(HostRatePerSlot(r), n))))
    ensures 0.0 <= HostRatePerSlot(r) <= DebtRatePerSlot(r)
  {
    hide Mul, Compounded, TotalSupply, Utilization, TakeRate, BorrowRate, Truncation;
    var u := StoredUtilization(r);
    RatesAreNonNegative(r);
    var n := SlotsElapsed(r, slot);
    AccrualConservesValue(r, slot, referralFeeBps);
    var growth, host := Compounded(DebtRatePerSlot(r), n), Compounded(HostRatePerSlot(r), n);
    var accrual := CompoundInterest(r, n, referralFeeBps);
    MulDistributes(r.borrowedAmount, growth - host, host);
    assert accrual.value.netNewDebt == Mul(r.borrowedAmount, growth) - Mul(r.borrowedAmount, host);
  }

  lemma RatesAreNonNegative(r: Reserve)
    requires Valid(r)
    ensures StoredUtilization(r) >= 0.0
    ensures BorrowRateAt(r, StoredUtilization(r)).Ok?
    ensures BorrowRateAt(r, StoredUtilization(r)).value >= 0.0
    ensures 0.0 <= HostRatePerSlot(r) <= DebtRatePerSlot(r)
  {
    hide Mul, Truncation, TotalSupply;
    LookupBounded(StoredUtilization(r), Truncation(r.curvePoints));
    MulNonNegative(BorrowRate(StoredUtilization(r), Truncation(r.curvePoints)).value, SlotAdjustmentFactor(r));
  }

  // ----- Estimates over time -----

  /** Per-slot rates for which the compounding formula keeps growing (see `StoredRatesAreInRange`). */
  predicate RatesInRange(r: Reserve)
    requires Valid(r)
  {
    DebtRatePerSlot(r) <= 4.0
  }

  /** Every rate that fits the stored integer widths is in range once a slot lasts a millisecond. */
  lemma StoredRatesAreInRange(r: Reserve)
    requires Valid(r) && r.recentSlotDurationMs >= 1.0
    requires forall i :: 0 <= i < |r.curvePoints| ==> r.curvePoints[i].borrowRateBps < 0x1_0000_0000
    requires r.hostFixedInterestRateBps < 0x1_0000
    ensures RatesInRange(r)
  {
    hide Mul, TotalSupply;
    var curve, u := Truncation(r.curvePoints), StoredUtilization(r);
    RatesAreNonNegative(r);
    LookupBounded(u, curve);
    var j := TruncationMember(r.curvePoints, |curve| - 1);
    SlotFactorBound(r.recentSlotDurationMs);
    MulMonotoneBoth(BorrowRate(u, curve).value, 429497.0, SlotAdjustmentFactor(r), 500.0);
    MulIs(429497.0, 500.0);
  }

  lemma SlotFactorBound(ms: Positive)
    requires ms >= 1.0
    ensures 1000.0 / SLOTS_PER_SECOND / ms <= 500.0
  {}

  lemma {:induction false} NetGrowthMonotone(host: real, rate: real, m: nat, n: nat)
    requires 0.0 <= host <= rate <= 4.0 && m <= n
    ensures Compounded(rate, m) - Compounded(host, m) <= Compounded(rate, n) - Compounded(host, n)
    decreases n - m
  {
    hide Compounded;
    if m < n {
      NetGrowthMonotone(host, rate, m + 1, n);
      IncrementMonotoneInRate(host, rate, m);
    }
  }

  /** Estimated debt and supply never fall as slots pass. */
  lemma EstimatesGrow(r: Reserve, early: int, late: int, referralFeeBps: nat)
    requires Valid(r) && RatesInRange(r) && early <= late
    ensures EstimatedDebtAndSupply(r, early, referralFeeBps).Ok?
    ensures EstimatedDebtAndSupply(r, late, referralFeeBps).Ok?
    ensures var a := EstimatedDebtAndSupply(r, early, referralFeeBps).value;
            var b := EstimatedDebtAndSupply(r, late, referralFeeBps).value;
            a.debt <= b.debt && TotalSupply(r) <= a.supply <= b.supply
  {
    hide Mul, Compounded, DebtRatePerSlot, HostRatePerSlot, TotalSupply, EstimatedDebtAndSupply, Truncation, SeamHolds;
    var m, n := SlotsElapsed(r, early), SlotsElapsed(r, late);
    var rate, host := DebtRatePerSlot(r), HostRatePerSlot(r);
    EstimateForm(r, early, referralFeeBps);
    EstimateForm(r, late, referralFeeBps);
    SeamRange(rate);
    GrowsWithSlots(rate, m, n);
    MulMonotone(Compounded(rate, m), Compounded(rate, n), r.borrowedAmount);
    NetGrowthMonotone(host, rate, 0, m);
    NetGrowthMonotone(host, rate, m, n);
    assert Compounded(rate, 0) == 1.0 == Compounded(host, 0) by { CompoundedAtZero(rate); CompoundedAtZero(host); }
    var x, y := Compounded(rate, m) - Compounded(host, m), Compounded(rate, n) - Compounded(host, n);
    MulMonotone(x, y, r.borrowedAmount);
    MulNonNegative(r.borrowedAmount, x);
    MulMonotone(Mul(r.borrowedAmount, x), Mul(r.borrowedAmount, y), 1.0 - TakeRate(r));
    MulNonNegative(1.0 - TakeRate(r), Mul(r.borrowedAmount, x));
  }

  lemma CompoundedAtZero(base: real)
    ensures Compounded(base, 0) == 1.0
  {}

  /** The cToken exchange rate never rises once there is supply, or if nothing was minted. */
  lemma ExchangeRateNeverRises(r: Reserve, early: int, late: int, referralFeeBps: nat)
    requires Valid(r) && RatesInRange(r) && early <= late
    requires TotalSupply(r) > 0.0 || r.mintTotalSupply == 0
    ensures EstimatedCollateralExchangeRate(r, early, referralFeeBps).Ok?
    ensures EstimatedCollateralExchangeRate(r, late, referralFeeBps).Ok?
    ensures 0.0 < EstimatedCollateralExchangeRate(r, late, referralFeeBps).value
               <= EstimatedCollateralExchangeRate(r, early, referralFeeBps).value
  {
    hide EstimatedDebtAndSupply, TotalSupply, Truncation;
    EstimatesGrow(r, early, late, referralFeeBps);
    var a := EstimatedDebtAndSupply(r, early, referralFeeBps).value.supply;
    var b := EstimatedDebtAndSupply(r, late, referralFeeBps).value.supply;
    if r.mintTotalSupply != 0 {
      QuotientAntitone(r.mintTotalSupply as real, a, b);
    }
  }

  /** All cTokens together redeem for exactly the supply; before there are any, one for one. */
  lemma AllCTokensRedeemTheSupply(r: Reserve, slot: int, referralFeeBps: nat)
    ensures var rate, estimate := EstimatedCollateralExchangeRate(r, slot, referralFeeBps), EstimatedDebtAndSupply(r, slot, referralFeeBps);
            && rate.Ok? == estimate.Ok?
            && (rate.Ok? ==>
                  if r.mintTotalSupply == 0 || estimate.value.supply == 0.0 then rate.value == 1.0
                  else rate.value != 0.0 && r.mintTotalSupply as real / rate.value == estimate.value.supply)
  {
    hide EstimatedDebtAndSupply;
    var estimate := EstimatedDebtAndSupply(r, slot, referralFeeBps);
    if estimate.Ok? && r.mintTotalSupply != 0 && estimate.value.supply != 0.0 {
      QuotientOfQuotient(r.mintTotalSupply as real, estimate.value.supply);
    }
  }

  lemma QuotientOfQuotient(m: real, s: real)
    requires m > 0.0 && s != 0.0
    ensures m / s != 0.0 && m / (m / s) == s
  {
    var q := m / s;
    assert q * s == m;
    assert q != 0.0;
    assert m / q * q == m;
    assert (m / q - s) * q == 0.0;
  }

  lemma QuotientAntitone(m: real, a: real, b: real)
    requires m > 0.0 && 0.0 < a <= b
    ensures 0.0 < m / b <= m / a
  {
    var x := m / a;
    assert x * a == m;
    assert x > 0.0;
    assert x * b >= x * a;
    QuotientMonotone(m, x * b, b);
    assert x * b / b == x;
    assert m / b > 0.0;
  }

  lemma QuotientCompare(a: real, b: real, c: real, d: real)
    requires b > 0.0 && d > 0.0 && Mul(a, d) <= Mul(c, b)
    ensures a / b <= c / d
  {
    var x, y := a / b, c / d;
    assert a == x * b && c == y * d;
    assert x * (b * d) <= y * (b * d);
  }

  // ----- Utilization and the cumulative borrow rate -----

  /** While debt does not exceed supply, estimated utilization is at least the stored one. */
  lemma UtilizationNeverFalls(r: Reserve, slot: int, referralFeeBps: nat)
    requires Valid(r) && r.borrowedAmount <= TotalSupply(r)
    ensures EstimatedUtilizationRatio(r, slot, referralFeeBps).Ok?
    ensures EstimatedUtilizationRatio(r, slot, referralFeeBps).value >= StoredUtilization(r)
  {
    hide Mul, Compounded, DebtRatePerSlot, HostRatePerSlot, TotalSupply, EstimatedDebtAndSupply, Truncation;
    EstimateForm(r, slot, referralFeeBps);
    var n, supply, debt := SlotsElapsed(r, slot), TotalSupply(r), r.borrowedAmount;
    var growth, host := Compounded(DebtRatePerSlot(r), n), Compounded(HostRatePerSlot(r), n);
    var estimate := EstimatedDebtAndSupply(r, slot, referralFeeBps).value;
    CompoundedAtLeastOne(DebtRatePerSlot(r), n);
    CompoundedAtLeastOne(HostRatePerSlot(r), n);
    MonotoneInRate(HostRatePerSlot(r), DebtRatePerSlot(r), n);
    MulNonNegative(debt, growth);
    MulNonNegative(debt, growth - host);
    MulNonNegative(1.0 - TakeRate(r), Mul(debt, growth - host));
    if supply == 0.0 {
      assert debt == 0.0;
      assert estimate.debt == 0.0 by { MulUnit(growth); }
      ZeroQuotient(estimate.supply);
    } else {
      // newSupply <= supply * growth, because the suppliers' share of the new debt is at most supply * (growth - 1)
      MulMonotone(1.0 - TakeRate(r), 1.0, Mul(debt, growth - host));
      MulUnit(Mul(debt, growth - host));
      MulMonotone(growth - host, growth - 1.0, debt);
      MulMonotone(debt, supply, growth - 1.0);
      MulDistributes(supply, growth - 1.0, 1.0);
      MulUnit(supply);
      assert estimate.supply <= Mul(supply, growth);
      MulMonotone(estimate.supply, Mul(supply, growth), debt);
      MulAssociates(debt, supply, growth);
      MulCommutes(debt, supply);
      MulAssociates(supply, debt, growth);
      MulCommutes(supply, Mul(debt, growth));
      QuotientCompare(debt, supply, Mul(debt, growth), estimate.supply);
    }
  }

  lemma ZeroQuotient(x: real)
    ensures Utilization(0.0, x) == 0.0
  {}

  lemma CompoundedAtLeastOne(base: real, n: nat)
    requires base >= 0.0
    ensures Compounded(base, n) >= 1.0
  {
    hide Compounded;
    CompoundedBounds(base, n);
    assert n as real * base >= 0.0;
  }

  /** The estimated cumulative rate grows at least as fast as the reserve's own debt, and just as fast while the utilization stays. */
  lemma CumulativeRateOutpacesDebt(r: Reserve, slot: int, referralFeeBps: nat)
    requires Valid(r) && 0.0 < r.borrowedAmount <= TotalSupply(r)
    ensures EstimatedCumulativeBorrowRate(r, slot, referralFeeBps).Ok?
    ensures var newDebt := EstimatedDebtAndSupply(r, slot, referralFeeBps);
            var grown := EstimatedCumulativeBorrowRate(r, slot, referralFeeBps).value;
            && newDebt.Ok?
            && grown >= Mul(r.cumulativeBorrowRate, newDebt.value.debt / r.borrowedAmount)
            && (EstimatedUtilizationRatio(r, slot, referralFeeBps) == Ok(StoredUtilization(r)) ==>
                  grown == Mul(r.cumulativeBorrowRate, newDebt.value.debt / r.borrowedAmount))
  {
    hide Mul, Compounded, TotalSupply, EstimatedDebtAndSupply, Truncation, SlotAdjustmentFactor;
    var n := SlotsElapsed(r, slot);
    EstimateForm(r, slot, referralFeeBps);
    UtilizationNeverFalls(r, slot, referralFeeBps);
    RatesAreNonNegative(r);
    var u := EstimatedUtilizationRatio(r, slot, referralFeeBps).value;
    LookupMonotone(StoredUtilization(r), u, Truncation(r.curvePoints));
    MulMonotone(BorrowRate(StoredUtilization(r), Truncation(r.curvePoints)).value,
      BorrowRate(u, Truncation(r.curvePoints)).value, SlotAdjustmentFactor(r));
    var apr := EstimatedBorrowApr(r, slot, referralFeeBps).value;
    MonotoneInRate(DebtRatePerSlot(r), apr / SLOTS_PER_YEAR, n);
    QuotientOfProduct(r.borrowedAmount, Compounded(DebtRatePerSlot(r), n));
    MulMonotone(Compounded(DebtRatePerSlot(r), n), Compounded(apr / SLOTS_PER_YEAR, n), r.cumulativeBorrowRate);
  }

  lemma QuotientOfProduct(x: real, y: real)
    requires x > 0.0
    ensures Mul(x, y) / x == y
  {}

  // ----- Outside the range -----

  /** Fully borrowed, at a rate of 700% per slot, which no stored rate reaches. */
  function RunawayReserve(): Reserve
  {
    var points := [CurvePoint(0, 4415040000000), CurvePoint(10000, 4415040000000)];
    Reserve(0, 1.0, 0.0, 0.0, 0.0, 1.0, 1, 0, 0, 0, points, 500.0)
  }

  lemma RunawayRate()
    ensures var r := RunawayReserve();
            Valid(r) && !RatesInRange(r) && DebtRatePerSlot(r) == 7.0
  {
    var r := RunawayReserve();
    assert r.curvePoints[1..] == [r.curvePoints[1]];
    assert [r.curvePoints[1]][1..] == [];
    var curve := Truncation(r.curvePoints);
    assert curve == [Point(0.0, 441504000.0), Point(1.0, 441504000.0)];
    assert TotalSupply(r) == 1.0 && StoredUtilization(r) == 1.0;
    assert BorrowRate(1.0, curve) == Ok(441504000.0);
    assert SlotAdjustmentFactor(r) == 1.0;
  }

  /** There the change of formula lowers the estimated debt from the fourth to the fifth slot. */
  lemma EstimateFallsOutsideRange()
    ensures var r := RunawayReserve();
            var fourth, fifth := EstimatedDebtAndSupply(r, 4, 0), EstimatedDebtAndSupply(r, 5, 0);
            fourth.Ok? && fifth.Ok? && fifth.value.debt < fourth.value.debt
  {
    hide Mul, EstimatedDebtAndSupply, DebtRatePerSlot, Compounded;
    var r := RunawayReserve();
    RunawayRate();
    EstimateForm(r, 4, 0);
    EstimateForm(r, 5, 0);
    SeamAtSeven();
    MulUnit(Compounded(7.0, 4));
    MulUnit(Compounded(7.0, 5));
  }

  lemma SeamAtSeven()
    ensures Compounded(7.0, 4) == 4096.0 && Compounded(7.0, 5) == 3956.0
  {}

  // ----- Withdrawing liquidity in cTokens -----

  function WithdrawCollateralAmount(r: Reserve, amount: nat, slot: int, referralFeeBps: nat): Result<int>
  {
    var rate :- EstimatedCollateralExchangeRate(r, slot, referralFeeBps);
    Ok(if amount == U64_MAX then amount else Ceil(Mul(amount as real, rate)))
  }

  /**
   The cTokens asked for redeem for at least the requested liquidity, at the quoted slot and at
   every later one; at the quoted slot they overshoot by less than one cToken's worth.
   */
  lemma WithdrawnCollateralCoversRequest(r: Reserve, amount: nat, slot: int, later: int, referralFeeBps: nat)
    requires Valid(r) && RatesInRange(r) && slot <= later && amount != U64_MAX
    requires TotalSupply(r) > 0.0 || r.mintTotalSupply == 0
    ensures var cTokens := WithdrawCollateralAmount(r, amount, slot, referralFeeBps);
            var now := EstimatedCollateralExchangeRate(r, slot, referralFeeBps);
            var afterwards := EstimatedCollateralExchangeRate(r, later, referralFeeBps);
            && cTokens.Ok? && now.Ok? && afterwards.Ok? && now.value > 0.0 && afterwards.value > 0.0
            && cTokens.value >= 0
            && cTokens.value as real / afterwards.value >= amount as real
            && cTokens.value as real / now.value < amount as real + 1.0 / now.value
  {
    hide Mul, EstimatedCollateralExchangeRate, Truncation, TotalSupply;
    ExchangeRateNeverRises(r, slot, later, referralFeeBps);
    var now := EstimatedCollateralExchangeRate(r, slot, referralFeeBps).value;
    var afterwards := EstimatedCollateralExchangeRate(r, later, referralFeeBps).value;
    MulNonNegative(amount as real, now);
    CeilRedeems(amount as real, now, afterwards);
  }

  lemma CeilRedeems(amount: real, now: real, later: real)
    requires amount >= 0.0 && 0.0 < later <= now
    ensures Ceil(Mul(amount, now)) >= 0
    ensures Ceil(Mul(amount, now)) as real / later >= amount
    ensures Ceil(Mul(amount, now)) as real / now < amount + 1.0 / now
  {
    var c := Ceil(amount * now) as real;
    assert amount * now >= 0.0;
    assert amount * now <= c < amount * now + 1.0;
    assert amount * later <= amount * now;
    QuotientMonotone(amount * later, c, later);
    assert amount * later / later == amount;
    assert (amount * now + 1.0) / now == amount + 1.0 / now by {
      assert amount * now / now == amount;
    }
    var gap := amount * now + 1.0 - c;
    assert gap / now > 0.0;
    assert (amount * now + 1.0) / now == c / now + gap / now;
  }

  // ----- Simulated actions -----

  function Quotient(x: real, y: real): Result<real>
  {
    if y == 0.0 then Err("division by zero") else Ok(x / y)
  }

  /** The utilization after an action on estimated debt and supply. */
  function SimulatedUtilization(e: DebtAndSupply, amount: real, action: ActionType, outflow: real): Result<real>
  {
    match action
    case Deposit => Quotient(e.debt, e.supply + amount)
    case Withdraw => if e.supply - amount == 0.0 then Ok(0.0) else Quotient(e.debt, e.supply - amount)
    case Borrow => Quotient(e.debt + amount, e.supply)
    case Repay => Quotient(e.debt - amount, e.supply)
    case DepositAndBorrow => Quotient(e.debt + outflow, e.supply + amount)
    case RepayAndWithdraw =>
      if e.supply - outflow == 0.0 then Ok(0.0) else Quotient(e.debt - amount, e.supply - outflow)
    case Mint => Quotient(e.debt, e.supply + amount)
    case Redeem => Quotient(e.debt, e.supply - amount)
    case _ => Err("Invalid action type for simulatedUtilizationRatio")
  }

  function SimulatedBorrowRate(
    r: Reserve, amount: real, action: ActionType, slot: int, referralFeeBps: nat, outflow: real): Result<real>
  {
    var estimate :- EstimatedDebtAndSupply(r, slot, referralFeeBps);
    var utilization :- SimulatedUtilization(estimate, amount, action, outflow);
    BorrowRateAt(r, utilization)
  }

  /** The supply left by an action of one amount. */
  function SupplyAfter(e: DebtAndSupply, amount: real, action: ActionType): real
  {
    match action
    case Deposit => e.supply + amount
    case Mint => e.supply + amount
    case Withdraw => e.supply - amount
    case Redeem => e.supply - amount
    case _ => e.supply
  }

  /** Debt and supply once an action of one amount is done. */
  function AfterAction(e: DebtAndSupply, amount: real, action: ActionType): DebtAndSupply
  {
    var borrowed := if action == Borrow then amount else if action == Repay then -amount else 0.0;
    DebtAndSupply(e.debt + borrowed, SupplyAfter(e, amount, action))
  }

  /**
   An action of one amount is simulated as the utilization it leaves, and one of two amounts as
   its two actions one after the other; without supply left, only a withdrawal has an answer.
   */
  lemma SimulatedInSequence(e: DebtAndSupply, amount: real, outflow: real, action: ActionType)
    ensures action in {Deposit, Withdraw, Borrow, Repay, Mint, Redeem} ==>
              var after := AfterAction(e, amount, action);
              SimulatedUtilization(e, amount, action, outflow)
              == if after.supply == 0.0 && action != Withdraw then Err("division by zero") else Ok(Utilization(after.debt, after.supply))
    ensures SimulatedUtilization(e, amount, DepositAndBorrow, outflow)
         == SimulatedUtilization(AfterAction(e, amount, Deposit), outflow, Borrow, 0.0)
    ensures SimulatedUtilization(e, amount, RepayAndWithdraw, outflow)
         == SimulatedUtilization(AfterAction(e, amount, Repay), outflow, Withdraw, 0.0)
    ensures AfterAction(AfterAction(e, amount, Deposit), amount, Withdraw) == e
    ensures AfterAction(AfterAction(e, amount, Borrow), amount, Repay) == e
  {}

  /**
   With supply before and after, bringing liquidity in never raises the borrow rate and taking
   it out never lowers it, against the rate estimated for doing nothing.
   */
  lemma ActionsMoveTheRate(r: Reserve, amount: real, action: ActionType, slot: int, referralFeeBps: nat, outflow: real)
    requires Valid(r) && amount >= 0.0
    requires action in {Deposit, Mint, Repay, Borrow, Withdraw, Redeem}
    requires var e := EstimatedDebtAndSupply(r, slot, referralFeeBps);
             e.Ok? ==> e.value.supply > 0.0 && SupplyAfter(e.value, amount, action) > 0.0
    ensures var idle := EstimatedBorrowApr(r, slot, referralFeeBps);
            var rate := SimulatedBorrowRate(r, amount, action, slot, referralFeeBps, outflow);
            && idle.Ok? && rate.Ok?
            && (action in {Deposit, Mint, Repay} ==> rate.value <= idle.value - FixedHostInterestRate(r))
            && (action in {Borrow, Withdraw, Redeem} ==> rate.value >= idle.value - FixedHostInterestRate(r))
  {
    hide Mul, EstimatedDebtAndSupply, Truncation, TotalSupply;
    EstimateForm(r, slot, referralFeeBps);
    var e := EstimatedDebtAndSupply(r, slot, referralFeeBps).value;
    DebtIsNonNegative(r, slot, referralFeeBps);
    var curve, u := Truncation(r.curvePoints), e.debt / e.supply;
    var v := SimulatedUtilization(e, amount, action, outflow).value;
    if action in {Deposit, Mint, Repay} {
      if action == Repay { QuotientMonotone(e.debt - amount, e.debt, e.supply); }
      else { QuotientShrinks(e.debt, e.supply, e.supply + amount); }
      LookupMonotone(v, u, curve);
      MulMonotone(BorrowRate(v, curve).value, BorrowRate(u, curve).value, SlotAdjustmentFactor(r));
    } else {
      if action == Borrow { QuotientMonotone(e.debt, e.debt + amount, e.supply); }
      else { QuotientShrinks(e.debt, e.supply - amount, e.supply); }
      LookupMonotone(u, v, curve);
      MulMonotone(BorrowRate(u, curve).value, BorrowRate(v, curve).value, SlotAdjustmentFactor(r));
    }
  }

  lemma QuotientShrinks(x: real, a: real, b: real)
    requires x >= 0.0 && 0.0 < a <= b
    ensures x / b <= x / a
  {
    if x > 0.0 { QuotientAntitone(x, a, b); }
  }

  lemma DebtIsNonNegative(r: Reserve, slot: int, referralFeeBps: nat)
    requires Valid(r)
    ensures EstimatedDebtAndSupply(r, slot, referralFeeBps).Ok?
    ensures EstimatedDebtAndSupply(r, slot, referralFeeBps).value.debt >= 0.0
  {
    hide Mul, Compounded, EstimatedDebtAndSupply, TotalSupply, Truncation, DebtRatePerSlot, HostRatePerSlot;
    EstimateForm(r, slot, referralFeeBps);
    CompoundedAtLeastOne(DebtRatePerSlot(r), SlotsElapsed(r, slot));
    MulNonNegative(r.borrowedAmount, Compounded(DebtRatePerSlot(r), SlotsElapsed(r, slot)));
  }
}
