/**
 Leverage algebra: sizing a leveraged deposit from either token, withdrawing at constant
 leverage, and moving an open position to another leverage.
 */
module Leverage {
  import opened Reals

  // ----- Deposits -----

  datatype DepositPlan = DepositPlan(
    flashBorrowInCollToken: real,
    debtTokenToBorrow: real,
    collTokenToDeposit: real,
    swapDebtTokenIn: real,
    swapCollTokenExpectedOut: real)

  /** What a depositor gives: prices and fees are positive or zero, leverage is at least one. */
  datatype DepositInput = DepositInput(
    depositAmount: real,
    depositTokenIsCollToken: bool,
    priceDebtToColl: real,
    targetLeverage: real,
    slippagePct: real,
    flashLoanFee: real)
  {
    predicate Valid() {
      priceDebtToColl > 0.0 && targetLeverage >= 1.0 && slippagePct >= 0.0 && flashLoanFee >= 0.0
    }
    /** The product (1 + fee) * (1 + slippage). */
    function Markup(): real { Mul(flashLoanFee + 1.0, slippagePct / 100.0 + 1.0) }
    /** Debt tokens to sell for one flash-borrowed collateral token to be covered. */
    function X(): real requires Valid() { Markup() / priceDebtToColl }
    function Y(): real { Mul(targetLeverage, priceDebtToColl) }
    /** Debt tokens per collateral token at the target leverage. */
    function DebtPerColl(): real requires Valid() { YIsPositive(); (targetLeverage - 1.0) / Y() }
    lemma YIsPositive()
      requires Valid()
      ensures Y() > 0.0
    {}
  }

  function DepositLeverageCalcs(i: DepositInput): DepositPlan
    requires i.Valid()
  {
    DenominatorIsPositive(i);
    if i.depositTokenIsCollToken then
      var finalColl := Mul(i.depositAmount, i.X()) / (i.X() - i.DebtPerColl());
      var debt := Mul(finalColl - i.depositAmount, i.X());
      DepositPlan(
        Mul(finalColl - i.depositAmount, i.flashLoanFee + 1.0), debt, finalColl, debt, finalColl - i.depositAmount)
    else
      var finalColl := i.depositAmount / (i.X() - i.DebtPerColl());
      i.YIsPositive();
      var debt := Mul(i.targetLeverage - 1.0, finalColl) / i.Y();
      DepositPlan(Mul(finalColl, i.flashLoanFee + 1.0), debt, finalColl, debt + i.depositAmount, finalColl)
  }

  lemma DenominatorIsPositive(i: DepositInput)
    requires i.Valid()
    ensures i.X() - i.DebtPerColl() > 0.0
    ensures Mul(i.X(), i.priceDebtToColl) == i.Markup() >= 1.0
    ensures Mul(Mul(i.DebtPerColl(), i.priceDebtToColl), i.targetLeverage) == i.targetLeverage - 1.0
  {
    var p, l, x, k := i.priceDebtToColl, i.targetLeverage, i.X(), i.DebtPerColl();
    MarkupAtLeastOne(i);
    QuotientTimes(i.Markup(), p);
    QuotientTimes(l - 1.0, i.Y());
    Compare(x, k, p, l, i.Markup());
  }

  lemma MarkupAtLeastOne(i: DepositInput)
    requires i.Valid()
    ensures i.Markup() >= 1.0
  {
    hide Mul;
    MulMonotoneBoth(1.0, i.flashLoanFee + 1.0, 1.0, i.slippagePct / 100.0 + 1.0);
    MulUnit(1.0);
  }

  lemma Compare(x: real, k: real, p: real, l: real, markup: real)
    requires p > 0.0 && l >= 1.0 && markup >= 1.0
    requires Mul(x, p) == markup && Mul(k, Mul(l, p)) == l - 1.0
    ensures x > k
    ensures Mul(Mul(k, p), l) == l - 1.0
  {
    var kp := k * p;
    assert k * (l * p) == kp * l;
    assert (1.0 - kp) * l == 1.0;
    assert 1.0 - kp == 1.0 / l > 0.0;
    assert (x - k) * p == markup - kp;
  }

  /** Value of the debt in collateral tokens at the quoted price. */
  function DebtInColl(i: DepositInput, plan: DepositPlan): real
  {
    Mul(plan.debtTokenToBorrow, i.priceDebtToColl)
  }

  /** In both branches the debt is the target ratio of the collateral, and the swap is sized by `X`. */
  lemma BranchForms(i: DepositInput)
    requires i.Valid()
    ensures var plan := DepositLeverageCalcs(i);
            && plan.debtTokenToBorrow == Mul(plan.collTokenToDeposit, i.DebtPerColl())
            && plan.swapDebtTokenIn == Mul(plan.swapCollTokenExpectedOut, i.X())
            && plan.flashBorrowInCollToken == Mul(plan.swapCollTokenExpectedOut, i.flashLoanFee + 1.0)
            && plan.swapDebtTokenIn - plan.debtTokenToBorrow
               == (if i.depositTokenIsCollToken then 0.0 else i.depositAmount)
            && plan.collTokenToDeposit - plan.swapCollTokenExpectedOut
               == (if i.depositTokenIsCollToken then i.depositAmount else 0.0)
  {
    hide Mul;
    var x, k, d := i.X(), i.DebtPerColl(), i.depositAmount;
    var c := DepositLeverageCalcs(i).collTokenToDeposit;
    DenominatorIsPositive(i);
    i.YIsPositive();
    MulDistributes(c, x - k, k);
    if i.depositTokenIsCollToken {
      QuotientTimes(Mul(d, x), x - k);
      MulCommutes(c, x - k);
      MulDistributes(x, c - d, d);
    } else {
      QuotientTimes(d, x - k);
      MulCommutes(c, x - k);
      QuotientOfProduct(i.targetLeverage - 1.0, c, i.Y());
    }
  }

  lemma QuotientOfProduct(a: real, b: real, y: real)
    requires y > 0.0
    ensures Mul(a, b) / y == Mul(b, a / y)
  {
    var q := a / y;
    assert q * y == a;
    assert a * b == (b * q) * y;
  }

  /**
   The plan reaches the target leverage exactly at the quoted price, and the worst-case output
   of its swap repays the flash borrow exactly.
   */
  lemma DepositReachesTarget(i: DepositInput)
    requires i.Valid()
    ensures var plan := DepositLeverageCalcs(i);
            && plan.collTokenToDeposit == Mul(i.targetLeverage, plan.collTokenToDeposit - DebtInColl(i, plan))
            && Mul(plan.swapDebtTokenIn, i.priceDebtToColl)
               == Mul(plan.flashBorrowInCollToken, i.slippagePct / 100.0 + 1.0)
  {
    hide Mul, DepositLeverageCalcs;
    BranchForms(i);
    DenominatorIsPositive(i);
    var plan := DepositLeverageCalcs(i);
    var c, s, p, l, k := plan.collTokenToDeposit, plan.swapCollTokenExpectedOut,
      i.priceDebtToColl, i.targetLeverage, i.DebtPerColl();
    MulAssociates(c, k, p);
    MulDistributes(l, c - Mul(c, Mul(k, p)), Mul(c, Mul(k, p)));
    MulAssociates(c, Mul(k, p), l);
    MulCommutes(l, Mul(c, Mul(k, p)));
    MulDistributes(c, l - 1.0, 1.0);
    MulUnit(c);
    MulCommutes(l, c);
    MulAssociates(s, i.X(), p);
    MulAssociates(s, i.flashLoanFee + 1.0, i.slippagePct / 100.0 + 1.0);
  }

  /** A deposit of X debt tokens for each collateral token leads to the same position. */
  lemma BranchesCoincide(i: DepositInput)
    requires i.Valid() && i.depositTokenIsCollToken
    ensures var j := i.(depositTokenIsCollToken := false, depositAmount := Mul(i.depositAmount, i.X()));
            && j.Valid()
            && DepositLeverageCalcs(i).collTokenToDeposit == DepositLeverageCalcs(j).collTokenToDeposit
            && DepositLeverageCalcs(i).debtTokenToBorrow == DepositLeverageCalcs(j).debtTokenToBorrow
  {
    hide Mul;
    BranchForms(i);
    BranchForms(i.(depositTokenIsCollToken := false, depositAmount := Mul(i.depositAmount, i.X())));
  }

  // ----- Open positions -----

  datatype Adjustment = Adjustment(adjustDepositPosition: real, adjustBorrowPosition: real)

  /** Debt tokens to borrow for a leverage on an initial collateral amount. */
  function CalcBorrowAmount(depositTokenAmount: real, targetLeverage: real, priceCollToDebt: real, flashBorrowFee: real): real
  {
    var finalCollAmount := Mul(depositTokenAmount, targetLeverage);
    Mul(Mul(finalCollAmount - depositTokenAmount, priceCollToDebt), 1.0 + flashBorrowFee)
  }

  /** What the position is worth in collateral tokens. */
  function NetPosition(deposit: real, borrow: real, priceCollToDebt: real): real
    requires priceCollToDebt > 0.0
  {
    deposit - borrow / priceCollToDebt
  }

  function CalcWithdrawAmounts(
    borrow: real, deposit: real, priceCollToDebt: real, withdrawAmount: real, inCollToken: bool): Adjustment
    requires priceCollToDebt > 0.0 && NetPosition(deposit, borrow, priceCollToDebt) != 0.0
  {
    var net := NetPosition(deposit, borrow, priceCollToDebt);
    var targetLeverage := deposit / net;
    var withdrawn := if inCollToken then withdrawAmount else withdrawAmount / priceCollToDebt;
    var targetDeposit := Mul(net - withdrawn, targetLeverage);
    var targetBorrow := CalcBorrowAmount(net - withdrawn, targetLeverage, priceCollToDebt, 0.0);
    Adjustment(deposit - targetDeposit, borrow - targetBorrow)
  }

  function CalcAdjustAmounts(
    targetLeverage: real, borrow: real, deposit: real, priceCollToDebt: real, flashLoanFee: real): Adjustment
    requires priceCollToDebt > 0.0
  {
    var net := NetPosition(deposit, borrow, priceCollToDebt);
    Adjustment(
      Mul(net, targetLeverage) - deposit,
      CalcBorrowAmount(net, targetLeverage, priceCollToDebt, flashLoanFee) - borrow)
  }

  lemma NetOfTarget(start: real, l: real, price: real, fee: real)
    requires price > 0.0
    ensures NetPosition(Mul(start, l), CalcBorrowAmount(start, l, price, fee), price)
         == start - Mul(fee, Mul(l - 1.0, start))
  {
    hide Mul;
    var extra := Mul(start, l) - start;
    MulCommutes(Mul(extra, price), 1.0 + fee);
    MulAssociates(1.0 + fee, extra, price);
    MulCommutes(Mul(1.0 + fee, extra), price);
    QuotientOfProduct(price, Mul(1.0 + fee, extra), price);
    MulUnit(Mul(1.0 + fee, extra));
    assert price / price == 1.0;
    MulDistributes(extra, 1.0, fee);
    MulUnit(extra);
    MulDistributes(start, l - 1.0, 1.0);
    MulUnit(start);
    MulCommutes(l - 1.0, start);
  }

  /** A withdrawal lowers the net position by exactly the withdrawn value and keeps deposit = leverage * net. */
  lemma WithdrawKeepsLeverage(borrow: real, deposit: real, price: real, amount: real, inCollToken: bool)
    requires price > 0.0 && NetPosition(deposit, borrow, price) != 0.0
    ensures var a := CalcWithdrawAmounts(borrow, deposit, price, amount, inCollToken);
            var newDeposit, newBorrow := deposit - a.adjustDepositPosition, borrow - a.adjustBorrowPosition;
            var net, newNet := NetPosition(deposit, borrow, price), NetPosition(newDeposit, newBorrow, price);
            && newNet == net - (if inCollToken then amount else amount / price)
            && newDeposit == Mul(newNet, deposit / net)
  {
    hide Mul;
    var net := NetPosition(deposit, borrow, price);
    var start := net - (if inCollToken then amount else amount / price);
    NetOfTarget(start, deposit / net, price, 0.0);
    MulUnit(Mul(deposit / net - 1.0, start));
  }

  /** Moving to leverage L costs exactly fee * (L - 1) * net and deposits exactly L * net. */
  lemma AdjustCostsTheFee(l: real, borrow: real, deposit: real, price: real, fee: real)
    requires price > 0.0
    ensures var a := CalcAdjustAmounts(l, borrow, deposit, price, fee);
            var newDeposit, newBorrow := deposit + a.adjustDepositPosition, borrow + a.adjustBorrowPosition;
            var net := NetPosition(deposit, borrow, price);
            && newDeposit == Mul(net, l)
            && net - NetPosition(newDeposit, newBorrow, price) == Mul(fee, Mul(l - 1.0, net))
  {
    hide Mul;
    NetOfTarget(NetPosition(deposit, borrow, price), l, price, fee);
  }
}
