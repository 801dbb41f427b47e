/**
 Origination and flash-loan fees: the fee on an amount to be borrowed (exclusive) or to be
 repaid (inclusive), its split between protocol and referrer, and the flash-loan sizing of a
 collateral swap built on the two.
 */
module Fees {
  import opened Reals
  import opened Wrappers

  datatype FeeCalculation = Exclusive | Inclusive

  datatype Fees = Fees(protocolFees: real, referrerFees: real) {
    function Total(): real { protocolFees + referrerFees }
  }

  /** The whole fee, before it is split. */
  function BorrowFee(amount: real, feeRate: real, calculation: FeeCalculation): real
    requires feeRate > 0.0
  {
    Max(Mul(amount, if calculation == Exclusive then feeRate else feeRate / (feeRate + 1.0)), 1.0)
  }

  /** The referrer's part of a fee. */
  function ReferralFee(borrowFee: real, referralFeeRate: real, hasReferrer: bool): real
  {
    if referralFeeRate > 0.0 && hasReferrer then
      if referralFeeRate == 1.0 then borrowFee else Floor(Mul(borrowFee, referralFeeRate)) as real
    else 0.0
  }

  function CalculateFees(
    amount: real, feeRate: real, calculation: FeeCalculation, referralFeeBps: nat, hasReferrer: bool): Result<Fees>
  {
    var referralFeeRate := referralFeeBps as real / 10000.0;
    if feeRate > 0.0 && amount > 0.0 then
      var borrowFee := BorrowFee(amount, feeRate, calculation);
      if borrowFee >= amount then
        Err("Borrow amount is too small to receive liquidity after fees")
      else
        var referralFee := ReferralFee(borrowFee, referralFeeRate, hasReferrer);
        Ok(Fees(borrowFee - referralFee, referralFee))
    else
      Ok(Fees(0.0, 0.0))
  }

  /** What has to be repaid for a flash loan. */
  function FlashRepayAmount(borrowed: real, feeRate: real, referralFeeBps: nat, hasReferrer: bool): Result<real>
  {
    var fees :- CalculateFees(borrowed, feeRate, Exclusive, referralFeeBps, hasReferrer);
    Ok(borrowed + fees.referrerFees + fees.protocolFees)
  }

  /** What a collateral swap may flash-borrow so that a given amount repays it, in lamports. */
  function FlashBorrowedLamports(repaid: real, feeRate: real, referralFeeBps: nat, hasReferrer: bool): Result<real>
  {
    var fees :- CalculateFees(repaid, feeRate, Inclusive, referralFeeBps, hasReferrer);
    Ok(repaid - fees.Total())
  }

  /** The same in whole tokens, as the swap computes it. */
  function TargetCollFlashBorrowedAmount(
    repaidTokens: real, mintFactor: real, feeRate: real, referralFeeBps: nat, hasReferrer: bool): Result<real>
    requires mintFactor > 0.0
  {
    var fees :- CalculateFees(Mul(repaidTokens, mintFactor), feeRate, Inclusive, referralFeeBps, hasReferrer);
    Ok(repaidTokens - fees.Total() / mintFactor)
  }

  lemma MinimumFee(amount: real, feeRate: real, calculation: FeeCalculation)
    requires feeRate > 0.0
    ensures BorrowFee(amount, feeRate, calculation) >= 1.0
  {}

  lemma ReferralFeeBounds(fee: real, rate: real, hasReferrer: bool)
    requires fee >= 0.0 && rate <= 1.0
    ensures 0.0 <= ReferralFee(fee, rate, hasReferrer) <= fee
  {
    hide Mul;
    if rate > 0.0 {
      MulMonotone(rate, 1.0, fee);
      MulNonNegative(fee, rate);
      MulUnit(fee);
    }
  }

  /**
   A charged fee is at least the minimum and less than the amount, and the two shares always
   add up to it, whatever the referral rate; it is refused exactly when it would eat the amount.
   */
  lemma SplitConservesFee(
    amount: real, feeRate: real, calculation: FeeCalculation, referralFeeBps: nat, hasReferrer: bool)
    ensures var fees := CalculateFees(amount, feeRate, calculation, referralFeeBps, hasReferrer);
            if feeRate <= 0.0 || amount <= 0.0 then fees.Ok? && fees.value.Total() == 0.0
            else if amount <= BorrowFee(amount, feeRate, calculation) then fees.Err?
            else
              && fees.Ok?
              && fees.value.Total() == BorrowFee(amount, feeRate, calculation)
              && 1.0 <= fees.value.Total() < amount
  {
    hide Mul, BorrowFee, ReferralFee;
    if feeRate > 0.0 { MinimumFee(amount, feeRate, calculation); }
  }

  /**
   The fee is the rate of what is borrowed, at least one lamport: an exclusive fee is on top of
   the amount, an inclusive one part of it.
   */
  lemma FeeIsItsRate(amount: real, f: real, calculation: FeeCalculation)
    requires f > 0.0 && amount > 0.0
    ensures var fee := BorrowFee(amount, f, calculation);
            fee == Max(1.0, Mul(f, if calculation == Exclusive then amount else amount - fee))
  {
    hide Mul;
    MulCommutes(f, amount);
    if calculation == Inclusive {
      FeesMatch(amount, f);
      MulCommutes(f, amount - BorrowFee(amount, f, Inclusive));
    }
  }

  /**
   Of a fee the referrer gets the largest whole number of lamports within the referral rate:
   nothing without a referrer, and all of it, whole or not, at 100%.
   */
  lemma ReferrerShareIsLargest(
    amount: real, feeRate: real, calculation: FeeCalculation, referralFeeBps: nat, hasReferrer: bool)
    ensures var fees := CalculateFees(amount, feeRate, calculation, referralFeeBps, hasReferrer);
            fees.Ok? ==>
              var share, fee := fees.value.referrerFees, fees.value.Total();
              if !hasReferrer || referralFeeBps == 0 then share == 0.0
              else if referralFeeBps == 10000 then share == fee
              else
                && share == share.Floor as real
                && 10000.0 * share <= referralFeeBps as real * fee < 10000.0 * (share + 1.0)
  {
    var fees := CalculateFees(amount, feeRate, calculation, referralFeeBps, hasReferrer);
    if fees.Ok? && hasReferrer && referralFeeBps !in {0, 10000} {
      PartOfFee(fees.value.Total(), referralFeeBps as real);
    }
  }

  lemma PartOfFee(fee: real, bps: real)
    ensures 10000.0 * Mul(fee, bps / 10000.0) == bps * fee
  {}

  /** Both shares are non-negative when the referral rate is at most 100%. */
  lemma SharesAreNonNegative(
    amount: real, feeRate: real, calculation: FeeCalculation, referralFeeBps: nat, hasReferrer: bool)
    requires referralFeeBps <= 10000
    ensures var fees := CalculateFees(amount, feeRate, calculation, referralFeeBps, hasReferrer);
            fees.Ok? ==> 0.0 <= fees.value.referrerFees && 0.0 <= fees.value.protocolFees
  {
    hide Mul, BorrowFee, ReferralFee;
    if feeRate > 0.0 {
      MinimumFee(amount, feeRate, calculation);
      ReferralFeeBounds(BorrowFee(amount, feeRate, calculation), referralFeeBps as real / 10000.0, hasReferrer);
    }
  }

  /** The inclusive share of an amount is the exclusive fee on the rest; it is under half below a 100% rate. */
  lemma InclusiveShare(repaid: real, f: real)
    requires f > 0.0 && repaid > 0.0
    ensures var share := Mul(repaid, f / (f + 1.0));
            && Mul(repaid - share, f) == share
            && 0.0 < share < repaid
            && (share < repaid / 2.0 <==> f < 1.0)
  {
    hide Mul;
    var g := f / (f + 1.0);
    InclusiveRate(f);
    var share := Mul(repaid, g);
    MulDistributes(f, repaid - share, share);
    MulAssociates(repaid, g, f);
    MulDistributes(repaid, f - g, g);
    HalfOf(repaid, g);
    MulOfFraction(repaid, g);
  }

  lemma InclusiveRate(f: real)
    requires f > 0.0
    ensures var g := f / (f + 1.0);
            Mul(g, f) == f - g && 0.0 < g < 1.0 && (g < 0.5 <==> f < 1.0)
  {
    var g := f / (f + 1.0);
    assert g * (f + 1.0) == f;
  }

  lemma MulPositive(x: real, y: real)
    requires x > 0.0 && y > 0.0
    ensures Mul(x, y) > 0.0
  {
    MulIs(x, y);
    assert x * y > 0.0;
  }

  lemma MulOfFraction(x: real, g: real)
    requires x > 0.0 && 0.0 < g < 1.0
    ensures 0.0 < Mul(x, g) < x
  {
    hide Mul;
    MulPositive(x, g);
    MulPositive(x, 1.0 - g);
    MulDistributes(x, 1.0 - g, g);
    MulUnit(x);
  }

  lemma HalfOf(x: real, g: real)
    requires x > 0.0
    ensures Mul(x, g) < x / 2.0 <==> g < 0.5
  {
    var gap := x * (0.5 - g);
    assert gap == x / 2.0 - x * g;
    if g < 0.5 { assert gap > 0.0; } else { assert x * (g - 0.5) >= 0.0; }
  }

  /** The inclusive fee on an amount is the exclusive fee on what is left, the one-lamport minimum included. */
  lemma FeesMatch(repaid: real, f: real)
    requires f > 0.0 && repaid > 0.0
    ensures var fee := BorrowFee(repaid, f, Inclusive);
            BorrowFee(repaid - fee, f, Exclusive) == fee
  {
    hide Mul;
    var share, fee := Mul(repaid, f / (f + 1.0)), BorrowFee(repaid, f, Inclusive);
    InclusiveShare(repaid, f);
    if share < 1.0 {
      MulMonotone(repaid - 1.0, repaid - share, f);
    }
  }

  /**
   Borrowing what the inclusive fee leaves and repaying it with the exclusive fee returns
   exactly the amount; it goes through exactly when the rate is below 100% and more than two
   lamports are repaid, or no fee applies.
   */
  lemma FlashLoanRoundTrip(repaid: real, f: real, referralFeeBps: nat, hasReferrer: bool)
    ensures var borrowed := FlashBorrowedLamports(repaid, f, referralFeeBps, hasReferrer);
            && (borrowed.Ok? && FlashRepayAmount(borrowed.value, f, referralFeeBps, hasReferrer).Ok?
                <==> f <= 0.0 || repaid <= 0.0 || (f < 1.0 && repaid > 2.0))
            && (borrowed.Ok? ==>
                  var back := FlashRepayAmount(borrowed.value, f, referralFeeBps, hasReferrer);
                  back.Ok? ==> back.value == repaid)
  {
    hide Mul, BorrowFee, CalculateFees;
    SplitConservesFee(repaid, f, Inclusive, referralFeeBps, hasReferrer);
    if f > 0.0 && repaid > 0.0 {
      var fee := BorrowFee(repaid, f, Inclusive);
      SplitConservesFee(repaid - fee, f, Exclusive, referralFeeBps, hasReferrer);
      FeesMatch(repaid, f);
      InclusiveFeeIs(repaid, f);
      InclusiveShare(repaid, f);
    } else {
      SplitConservesFee(repaid, f, Exclusive, referralFeeBps, hasReferrer);
    }
  }

  lemma InclusiveFeeIs(repaid: real, f: real)
    requires f > 0.0
    ensures BorrowFee(repaid, f, Inclusive) == Max(Mul(repaid, f / (f + 1.0)), 1.0)
  {}

  /** The instruction borrows a whole number of lamports: the repayment then never exceeds the amount. */
  lemma FlooredBorrowIsCovered(repaid: real, f: real, referralFeeBps: nat, hasReferrer: bool)
    ensures var borrowed := FlashBorrowedLamports(repaid, f, referralFeeBps, hasReferrer);
            borrowed.Ok? ==>
            var back := FlashRepayAmount(Floor(borrowed.value) as real, f, referralFeeBps, hasReferrer);
            back.Ok? ==> back.value <= repaid
  {
    hide Mul;
    SplitConservesFee(repaid, f, Inclusive, referralFeeBps, hasReferrer);
    var borrowed := FlashBorrowedLamports(repaid, f, referralFeeBps, hasReferrer);
    if borrowed.Ok? {
      var whole := Floor(borrowed.value) as real;
      SplitConservesFee(whole, f, Exclusive, referralFeeBps, hasReferrer);
      if f > 0.0 && repaid > 0.0 {
        FeesMatch(repaid, f);
        MulMonotone(whole, borrowed.value, f);
      }
    }
  }

  /** And a loan of one lamport more would cost more than the amount. */
  lemma FlooredBorrowIsLargest(repaid: real, f: real, referralFeeBps: nat, hasReferrer: bool)
    ensures var borrowed := FlashBorrowedLamports(repaid, f, referralFeeBps, hasReferrer);
            borrowed.Ok? ==>
            var back := FlashRepayAmount((Floor(borrowed.value) + 1) as real, f, referralFeeBps, hasReferrer);
            back.Ok? ==> back.value > repaid
  {
    hide Mul;
    SplitConservesFee(repaid, f, Inclusive, referralFeeBps, hasReferrer);
    var borrowed := FlashBorrowedLamports(repaid, f, referralFeeBps, hasReferrer);
    if borrowed.Ok? {
      var more := (Floor(borrowed.value) + 1) as real;
      SplitConservesFee(more, f, Exclusive, referralFeeBps, hasReferrer);
      if f > 0.0 && repaid > 0.0 {
        FeesMatch(repaid, f);
        MulMonotone(borrowed.value, more, f);
      }
    }
  }

  /** The swap's computation in whole tokens is the one in lamports. */
  lemma TokensAgreeWithLamports(repaidTokens: real, mintFactor: real, f: real, referralFeeBps: nat, hasReferrer: bool)
    requires mintFactor > 0.0
    ensures var tokens := TargetCollFlashBorrowedAmount(repaidTokens, mintFactor, f, referralFeeBps, hasReferrer);
            var lamports := FlashBorrowedLamports(Mul(repaidTokens, mintFactor), f, referralFeeBps, hasReferrer);
            && tokens.Ok? == lamports.Ok?
            && (tokens.Ok? ==> Mul(tokens.value, mintFactor) == lamports.value)
  {
    hide Mul;
    var fees := CalculateFees(Mul(repaidTokens, mintFactor), f, Inclusive, referralFeeBps, hasReferrer);
    if fees.Ok? {
      var fee := fees.value.Total();
      MulDistributes(mintFactor, repaidTokens - fee / mintFactor, fee / mintFactor);
      assert Mul(fee / mintFactor, mintFactor) == fee by { QuotientTimes(fee, mintFactor); }
    }
  }
}
