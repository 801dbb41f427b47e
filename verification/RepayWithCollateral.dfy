/** How much collateral may be withdrawn when part of a debt is repaid with it. */
module RepayWithCollateral {
  import opened Reals
  import opened Wrappers
  import opened Markets
  import opened Obligations
  import opened Limits

  datatype WithdrawPlan = WithdrawPlan(
    repayAmountLamports: real,
    withdrawableCollLamports: int,
    canWithdrawAllColl: bool,
    repayingAllDebt: bool)

  function PositionOf(positions: seq<Position>, key: Pubkey): (p: Option<Position>)
    ensures p.Some? ==> p.value in positions && p.value.reserve == key
  {
    if positions == [] then None
    else if positions[0].reserve == key then Some(positions[0])
    else PositionOf(positions[1..], key)
  }

  /** Value of all borrows but one. */
  function OtherBorrows(borrows: seq<Position>, key: Pubkey): real
  {
    if borrows == [] then 0.0
    else (if borrows[0].reserve == key then 0.0 else borrows[0].marketValue) + OtherBorrows(borrows[1..], key)
  }

  /** The LTV that limits a withdrawal: the liquidation one for a loan at its limit, else the maximum. */
  function WithdrawLtv(market: Market, key: Pubkey, group: nat, atLimit: bool): Result<real>
  {
    match ReserveByAddress(market.reserves, key)
    case None => Err("reserve is undefined")
    case Some(r) =>
      var ltv :- LtvForReserve(market, r, group);
      Ok(if atLimit then ltv.liquidationLtv else ltv.maxLtv)
  }

  /** LTV-weighted value of all deposits but one. */
  function OtherBacking(market: Market, deposits: seq<Position>, key: Pubkey, group: nat, atLimit: bool): Result<real>
  {
    if deposits == [] then Ok(0.0)
    else
      var d := deposits[0];
      var rest :- OtherBacking(market, deposits[1..], key, group, atLimit);
      if d.reserve == key then Ok(rest)
      else
        var ltv :- WithdrawLtv(market, d.reserve, group, atLimit);
        Ok(Mul(d.marketValue, ltv) + rest)
  }

  /** The debt value the calculation expects after the repayment. */
  function ExpectedDebt(borrows: seq<Position>, borrow: Position, debtReserve: ReserveView, repay: real): real
  {
    if |borrows| > 1 then OtherBorrows(borrows, borrow.reserve)
    else Value(Ceil(borrow.amount - repay) as real, debtReserve)
  }

  datatype Loan = Loan(
    market: Market, deposits: seq<Position>, borrows: seq<Position>, elevationGroup: nat, atLimit: bool)

  /** What the calculation reads off the loan for one collateral and one debt. */
  datatype Terms = Terms(deposit: Position, borrow: Position, coll: ReserveView, debt: ReserveView, otherBacking: real)

  function TermsOf(loan: Loan, collKey: Pubkey, debtKey: Pubkey): Result<Terms>
  {
    var deposit, borrow := PositionOf(loan.deposits, collKey), PositionOf(loan.borrows, debtKey);
    if deposit.None? || borrow.None? then Err("position is undefined")
    else
      var coll := ReserveByAddress(loan.market.reserves, collKey);
      var debt := ReserveByAddress(loan.market.reserves, debtKey);
      if coll.None? || debt.None? then Err("reserve is undefined")
      else
        var backing :- OtherBacking(loan.market, loan.deposits, collKey, loan.elevationGroup, loan.atLimit);
        Ok(Terms(deposit.value, borrow.value, coll.value, debt.value, backing))
  }

  function MaxWithdrawCollateral(loan: Loan, collKey: Pubkey, debtKey: Pubkey, repay: real): Result<WithdrawPlan>
  {
    var t :- TermsOf(loan, collKey, debtKey);
    var remaining := ExpectedDebt(loan.borrows, t.borrow, t.debt, repay);
    if t.otherBacking >= remaining then
      Ok(WithdrawPlan(repay, Floor(t.deposit.amount), true, repay >= t.borrow.amount))
    else
      var ltv :- WithdrawLtv(loan.market, collKey, loan.elevationGroup, loan.atLimit);
      if ltv == 0.0 then Err("division by zero")
      else
        var numerator := Mul(t.deposit.marketValue, ltv) + t.otherBacking - remaining;
        WithdrawDenominator(t.coll.price, ltv);
        var amount := numerator / Mul(t.coll.price, ltv);
        Ok(WithdrawPlan(repay, Floor(Mul(amount, t.coll.mintFactor)), false, repay >= t.borrow.amount))
  }

  lemma WithdrawDenominator(price: Positive, ltv: real)
    requires ltv != 0.0
    ensures Mul(price, ltv) != 0.0
  {}

  /** The loan prices the collateral as its totals do, at a positive LTV. */
  predicate Sound(loan: Loan, collKey: Pubkey, debtKey: Pubkey)
  {
    var t := TermsOf(loan, collKey, debtKey);
    && t.Ok?
    && t.value.deposit.marketValue == Value(t.value.deposit.amount, t.value.coll)
    && var ltv := WithdrawLtv(loan.market, collKey, loan.elevationGroup, loan.atLimit);
       ltv.Ok? && ltv.value > 0.0
  }

  /** LTV-weighted value of the deposits once some collateral is withdrawn. */
  function BackingAfter(loan: Loan, collKey: Pubkey, debtKey: Pubkey, withdrawn: int): real
    requires Sound(loan, collKey, debtKey)
  {
    var t := TermsOf(loan, collKey, debtKey).value;
    Mul(Value(t.deposit.amount - withdrawn as real, t.coll),
        WithdrawLtv(loan.market, collKey, loan.elevationGroup, loan.atLimit).value)
    + t.otherBacking
  }

  /** Lamports per unit of LTV-weighted value: the break-even withdrawal in the partial branch. */
  lemma BreakEven(amount: real, r: ReserveView, ltv: real, gap: real, withdrawn: real)
    requires ltv > 0.0
    ensures var limit := Mul((Mul(Value(amount, r), ltv) - gap) / Mul(r.price, ltv), r.mintFactor);
            && (withdrawn <= limit <==> Mul(Value(amount - withdrawn, r), ltv) >= gap)
            && (gap > 0.0 ==> limit < amount)
  {
    hide Mul, Value;
    var m, pl := r.mintFactor, Mul(r.price, ltv);
    MulIs(r.price, ltv);
    UnitIsPositive(pl, m);
    var unit := pl / m;
    LamportsAtLtv(amount, r, ltv);
    LamportsAtLtv(amount - withdrawn, r, ltv);
    var limit := Mul((Mul(amount, unit) - gap) / pl, m);
    LimitTimesUnit(amount, gap, pl, m);
    MulDistributes(unit, amount - withdrawn, withdrawn);
    MulOrder(withdrawn, limit, unit);
    MulOrder(amount, limit, unit);
  }

  lemma UnitIsPositive(pl: real, m: real)
    requires m > 0.0
    ensures pl > 0.0 ==> pl / m > 0.0
  {}

  lemma MulOrder(x: real, y: real, u: real)
    requires u > 0.0
    ensures x <= y <==> Mul(x, u) <= Mul(y, u)
  {
    assert Mul(y - x, u) == Mul(y, u) - Mul(x, u);
  }

  lemma LamportsAtLtv(amount: real, r: ReserveView, ltv: real)
    ensures Mul(Value(amount, r), ltv) == Mul(amount, Mul(r.price, ltv) / r.mintFactor)
  {
    var p, m := r.price, r.mintFactor;
    var v := amount * p / m;
    assert v * m == amount * p;
    var u := p * ltv / m;
    assert u * m == p * ltv;
    assert (v * ltv) * m == (amount * u) * m;
  }

  lemma LimitTimesUnit(amount: real, gap: real, pl: real, m: real)
    requires pl > 0.0 && m > 0.0
    ensures Mul(Mul((Mul(amount, pl / m) - gap) / pl, m), pl / m) == Mul(amount, pl / m) - gap
  {
    hide Mul;
    var n, u := Mul(amount, pl / m) - gap, pl / m;
    QuotientTimes(n, pl);
    QuotientTimes(pl, m);
    MulAssociates(n / pl, m, u);
    MulCommutes(m, u);
  }

  /**
   The plan never withdraws more than the deposit, keeps the LTV-weighted deposits at least at
   the debt it expects, and cannot be raised by a lamport in the partial branch.
   */
  lemma PlanIsBackedAndMaximal(loan: Loan, collKey: Pubkey, debtKey: Pubkey, repay: real)
    requires Sound(loan, collKey, debtKey)
    ensures var plan := MaxWithdrawCollateral(loan, collKey, debtKey, repay);
            var t := TermsOf(loan, collKey, debtKey).value;
            var expected := ExpectedDebt(loan.borrows, t.borrow, t.debt, repay);
            && plan.Ok?
            && plan.value.withdrawableCollLamports <= Floor(t.deposit.amount)
            && BackingAfter(loan, collKey, debtKey, plan.value.withdrawableCollLamports) >= expected
            && (!plan.value.canWithdrawAllColl ==>
                  BackingAfter(loan, collKey, debtKey, plan.value.withdrawableCollLamports + 1) < expected)
            && (plan.value.canWithdrawAllColl ==> plan.value.withdrawableCollLamports == Floor(t.deposit.amount))
            && (plan.value.canWithdrawAllColl <==> t.otherBacking >= expected)
            && (plan.value.repayingAllDebt <==> repay >= t.borrow.amount)
            && plan.value.repayAmountLamports == repay
  {
    hide Mul, Value, ExpectedDebt, TermsOf, WithdrawLtv;
    var t := TermsOf(loan, collKey, debtKey).value;
    var expected := ExpectedDebt(loan.borrows, t.borrow, t.debt, repay);
    var ltv := WithdrawLtv(loan.market, collKey, loan.elevationGroup, loan.atLimit).value;
    var w := MaxWithdrawCollateral(loan, collKey, debtKey, repay).value.withdrawableCollLamports;
    BreakEven(t.deposit.amount, t.coll, ltv, expected - t.otherBacking, w as real);
    BreakEven(t.deposit.amount, t.coll, ltv, expected - t.otherBacking, w as real + 1.0);
    if t.otherBacking >= expected {
      var left := t.deposit.amount - w as real;
      ValueIsLinear(0.0, left, t.coll);
      MulNonNegative(Value(left, t.coll), ltv);
    }
  }

  /** With one borrow, repaying more never lowers the withdrawable collateral, also across the branch switch. */
  lemma MoreRepaidMoreWithdrawable(loan: Loan, collKey: Pubkey, debtKey: Pubkey, less: real, more: real)
    requires TermsOf(loan, collKey, debtKey).Ok? && Sound(loan, collKey, debtKey) && |loan.borrows| == 1 && less <= more
    ensures MaxWithdrawCollateral(loan, collKey, debtKey, less).Ok?
    ensures MaxWithdrawCollateral(loan, collKey, debtKey, more).Ok?
    ensures MaxWithdrawCollateral(loan, collKey, debtKey, less).value.withdrawableCollLamports
         <= MaxWithdrawCollateral(loan, collKey, debtKey, more).value.withdrawableCollLamports
  {
    hide Mul, Value, TermsOf, WithdrawLtv, MaxWithdrawCollateral, BackingAfter, ExpectedDebt, Sound;
    PlanIsBackedAndMaximal(loan, collKey, debtKey, less);
    PlanIsBackedAndMaximal(loan, collKey, debtKey, more);
    var t := TermsOf(loan, collKey, debtKey).value;
    var a := MaxWithdrawCollateral(loan, collKey, debtKey, less).value;
    var b := MaxWithdrawCollateral(loan, collKey, debtKey, more).value;
    ExpectedDebtFalls(loan.borrows, t.borrow, t.debt, less, more);
    if a.withdrawableCollLamports > b.withdrawableCollLamports {
      BackingFalls(loan, collKey, debtKey, b.withdrawableCollLamports + 1, a.withdrawableCollLamports);
      assert false;
    }
  }

  lemma ExpectedDebtFalls(borrows: seq<Position>, borrow: Position, debtReserve: ReserveView, less: real, more: real)
    requires less <= more
    ensures ExpectedDebt(borrows, borrow, debtReserve, more) <= ExpectedDebt(borrows, borrow, debtReserve, less)
  {
    hide Value, Ceil;
    CeilMonotone(borrow.amount - more, borrow.amount - less);
    ValueIsLinear(Ceil(borrow.amount - more) as real, Ceil(borrow.amount - less) as real, debtReserve);
  }

  lemma BackingFalls(loan: Loan, collKey: Pubkey, debtKey: Pubkey, less: int, more: int)
    requires Sound(loan, collKey, debtKey) && less <= more
    ensures BackingAfter(loan, collKey, debtKey, more) <= BackingAfter(loan, collKey, debtKey, less)
  {
    hide Mul, Value, TermsOf, WithdrawLtv;
    var t := TermsOf(loan, collKey, debtKey).value;
    var x, y := t.deposit.amount - more as real, t.deposit.amount - less as real;
    ValueIsLinear(x, y, t.coll);
    MulMonotone(Value(x, t.coll), Value(y, t.coll),
      WithdrawLtv(loan.market, collKey, loan.elevationGroup, loan.atLimit).value);
  }

  /** What is still owed after the repayment, all borrows included. */
  function DebtLeft(borrows: seq<Position>, borrow: Position, debtReserve: ReserveView, repay: real): real
  {
    OtherBorrows(borrows, borrow.reserve) + Value(PositiveOrZero(borrow.amount - repay), debtReserve)
  }

  lemma SingleBorrowHasNoOthers(borrows: seq<Position>, key: Pubkey)
    requires |borrows| == 1 && PositionOf(borrows, key).Some?
    ensures OtherBorrows(borrows, key) == 0.0
  {}

  /**
   The expected debt covers what is really left exactly when there is one borrow or the chosen
   one is repaid in full; with several borrows the unpaid remainder is dropped.
   */
  lemma ExpectedDebtCoversIff(loan: Loan, collKey: Pubkey, debtKey: Pubkey, repay: real)
    requires Sound(loan, collKey, debtKey)
    requires forall i :: 0 <= i < |loan.borrows| ==> loan.borrows[i].marketValue >= 0.0
    ensures var t := TermsOf(loan, collKey, debtKey).value;
            PositiveOrZero(ExpectedDebt(loan.borrows, t.borrow, t.debt, repay))
              >= DebtLeft(loan.borrows, t.borrow, t.debt, repay)
            <==> |loan.borrows| == 1 || repay >= t.borrow.amount
  {
    hide Mul, Value, WithdrawLtv;
    var t := TermsOf(loan, collKey, debtKey).value;
    var left := PositiveOrZero(t.borrow.amount - repay);
    OthersAreNonNegative(loan.borrows, debtKey);
    ValueIsLinear(left, Ceil(t.borrow.amount - repay) as real, t.debt);
    ValueIsLinear(0.0, left, t.debt);
    if |loan.borrows| == 1 {
      SingleBorrowHasNoOthers(loan.borrows, debtKey);
    }
    if left > 0.0 { ValueIsPositive(left, t.debt); }
  }

  /**
   Where the expected debt covers what is left it is tight: with several borrows it is exactly
   the others, with one it exceeds what is left by less than a lamport's value.
   */
  lemma ExpectedDebtIsTight(loan: Loan, collKey: Pubkey, debtKey: Pubkey, repay: real)
    requires Sound(loan, collKey, debtKey) && (|loan.borrows| == 1 || repay >= TermsOf(loan, collKey, debtKey).value.borrow.amount)
    ensures var t := TermsOf(loan, collKey, debtKey).value;
            var expected, left := ExpectedDebt(loan.borrows, t.borrow, t.debt, repay), DebtLeft(loan.borrows, t.borrow, t.debt, repay);
            if |loan.borrows| == 1 then expected < left + Value(1.0, t.debt) else expected == left
  {
    hide Mul, Value, WithdrawLtv;
    var t := TermsOf(loan, collKey, debtKey).value;
    var rest := t.borrow.amount - repay;
    ValueIsLinear(PositiveOrZero(rest), 1.0, t.debt);
    ValueIsStrict(Ceil(rest) as real, PositiveOrZero(rest) + 1.0, t.debt);
    if |loan.borrows| == 1 {
      SingleBorrowHasNoOthers(loan.borrows, debtKey);
    }
  }

  /** Two debts worth 10 each, 4 of the first repaid: the calculation expects 10 and 16 are left. */
  lemma DroppedRemainder(r: ReserveView)
    requires r.price == 1.0 && r.mintFactor == 1.0
    ensures var first, second := Position(Key(1), 10.0, 10.0), Position(Key(2), 10.0, 10.0);
            var borrows := [first, second];
            ExpectedDebt(borrows, first, r, 4.0) == 10.0 && DebtLeft(borrows, first, r, 4.0) == 16.0
  {
    var first, second := Position(Key(1), 10.0, 10.0), Position(Key(2), 10.0, 10.0);
    var borrows := [first, second];
    assert borrows[1..] == [second];
    assert [second][1..] == [];
    assert OtherBorrows([second], Key(1)) == 10.0;
    assert OtherBorrows(borrows, Key(1)) == 10.0;
    assert Value(6.0, r) == 6.0;
  }

  lemma ValueIsPositive(amount: real, r: ReserveView)
    requires amount > 0.0
    ensures Value(amount, r) > 0.0
  {
    assert amount * r.price > 0.0;
  }

  lemma {:induction false} OthersAreNonNegative(borrows: seq<Position>, key: Pubkey)
    requires forall i :: 0 <= i < |borrows| ==> borrows[i].marketValue >= 0.0
    ensures OtherBorrows(borrows, key) >= 0.0
  {
    if borrows != [] { OthersAreNonNegative(borrows[1..], key); }
  }

  /** So with one borrow, or the chosen one repaid in full, the withdrawal leaves all remaining debt backed. */
  lemma PlanKeepsDebtBacked(loan: Loan, collKey: Pubkey, debtKey: Pubkey, repay: real)
    requires Sound(loan, collKey, debtKey)
    requires forall i :: 0 <= i < |loan.borrows| ==> loan.borrows[i].marketValue >= 0.0
    requires TermsOf(loan, collKey, debtKey).value.otherBacking >= 0.0
    requires TermsOf(loan, collKey, debtKey).value.deposit.amount >= 0.0
    requires |loan.borrows| == 1 || repay >= TermsOf(loan, collKey, debtKey).value.borrow.amount
    ensures var plan := MaxWithdrawCollateral(loan, collKey, debtKey, repay);
            var t := TermsOf(loan, collKey, debtKey).value;
            && plan.Ok?
            && BackingAfter(loan, collKey, debtKey, plan.value.withdrawableCollLamports)
               >= DebtLeft(loan.borrows, t.borrow, t.debt, repay)
  {
    hide Mul, Value, TermsOf, WithdrawLtv, ExpectedDebt, DebtLeft;
    PlanIsBackedAndMaximal(loan, collKey, debtKey, repay);
    ExpectedDebtCoversIff(loan, collKey, debtKey, repay);
    var t := TermsOf(loan, collKey, debtKey).value;
    var w := MaxWithdrawCollateral(loan, collKey, debtKey, repay).value.withdrawableCollLamports;
    var left := t.deposit.amount - w as real;
    ValueIsLinear(0.0, left, t.coll);
    MulNonNegative(Value(left, t.coll), WithdrawLtv(loan.market, collKey, loan.elevationGroup, loan.atLimit).value);
  }

  // ----- The loan of an account -----

  /** The deposits of an account, in slot order. */
  function DepositList(a: Account, slots: seq<CollateralSlot>): seq<Position>
    requires DepositStatsOf(a.market, slots, Given(a.exchangeRates), a.group).Ok?
  {
    if slots == [] then []
    else
      var n := |slots| - 1;
      DepositList(a, slots[..n])
      + if IsNotNull(slots[n].reserve) then [DepositOf(a.market, slots[n], Given(a.exchangeRates), a.group).value.position] else []
  }

  function BorrowList(a: Account, slots: seq<LiquiditySlot>): seq<Position>
    requires BorrowStatsOf(a.market, slots, Given(a.borrowRates), a.group).Ok?
  {
    if slots == [] then []
    else
      var n := |slots| - 1;
      BorrowList(a, slots[..n])
      + if IsNotNull(slots[n].reserve) then [BorrowOf(a.market, slots[n], Given(a.borrowRates), a.group).value.position] else []
  }

  /** The loan as the calculation reads it; at its limit the liquidation LTVs count. */
  function LoanOf(a: Account): Loan
    requires a.Priced()
  {
    Loan(a.market, DepositList(a, a.deposits), BorrowList(a, a.borrows), a.group, a.Debt() >= a.Limit())
  }

  /** The limit that counts: of liquidation for a loan at its limit, else of borrowing. */
  function LimitOf(t: DepositTotals, atLimit: bool): real { if atLimit then t.liquidationLimit else t.borrowLimit }

  function LtvOf(ltv: Ltv, atLimit: bool): real { if atLimit then ltv.liquidationLtv else ltv.maxLtv }

  lemma {:induction false} PositionOfAppended(list: seq<Position>, d: Position, key: Pubkey)
    ensures PositionOf(list + [d], key) == if PositionOf(list, key).Some? then PositionOf(list, key) else if d.reserve == key then Some(d) else None
  {
    if list == [] {
      assert list + [d] == [d];
      assert [d][1..] == [];
    } else {
      assert (list + [d])[1..] == list[1..] + [d];
      PositionOfAppended(list[1..], d, key);
    }
  }

  lemma {:induction false} OtherBackingAppended(market: Market, list: seq<Position>, d: Position, key: Pubkey, group: nat, atLimit: bool)
    requires OtherBacking(market, list, key, group, atLimit).Ok?
    requires d.reserve != key ==> WithdrawLtv(market, d.reserve, group, atLimit).Ok?
    ensures OtherBacking(market, list + [d], key, group, atLimit)
         == Ok(OtherBacking(market, list, key, group, atLimit).value
               + if d.reserve == key then 0.0 else Mul(d.marketValue, WithdrawLtv(market, d.reserve, group, atLimit).value))
  {
    hide Mul, WithdrawLtv;
    if list == [] {
      assert list + [d] == [d];
      assert [d][1..] == [];
    } else {
      assert (list + [d])[1..] == list[1..] + [d];
      OtherBackingAppended(market, list[1..], d, key, group, atLimit);
    }
  }

  lemma WithdrawLtvOf(a: Account, slot: CollateralSlot, atLimit: bool)
    requires IsNotNull(slot.reserve) && DepositOf(a.market, slot, Given(a.exchangeRates), a.group).Ok?
    ensures var d := DepositOf(a.market, slot, Given(a.exchangeRates), a.group).value;
            d.position.reserve == slot.reserve
            && WithdrawLtv(a.market, slot.reserve, a.group, atLimit) == Ok(LtvOf(d.ltv, atLimit))
  {}

  /** Slots hold a key at most once, so its position is that slot's, and absent otherwise. */
  lemma {:induction false} PositionIsSlots(a: Account, slots: seq<CollateralSlot>, key: Pubkey, i: int)
    requires Distinct(slots) && IsNotNull(key) && DepositStatsOf(a.market, slots, Given(a.exchangeRates), a.group).Ok?
    requires -1 <= i < |slots| && (if i == -1 then forall j :: 0 <= j < |slots| ==> slots[j].reserve != key else slots[i].reserve == key)
    ensures i >= 0 ==> DepositOf(a.market, slots[i], Given(a.exchangeRates), a.group).Ok?
    ensures PositionOf(DepositList(a, slots), key)
         == if i == -1 then None else Some(DepositOf(a.market, slots[i], Given(a.exchangeRates), a.group).value.position)
  {
    hide DepositOf;
    if slots != [] {
      var n := |slots| - 1;
      var init := slots[..n];
      PositionIsSlots(a, init, key, if i == n then -1 else i);
      if IsNotNull(slots[n].reserve) {
        PositionOfAppended(DepositList(a, init), DepositOf(a.market, slots[n], Given(a.exchangeRates), a.group).value.position, key);
        WithdrawLtvOf(a, slots[n], false);
      } else {
        assert DepositList(a, slots) == DepositList(a, init);
      }
    }
  }

  /** The backing by all deposits, the chosen one and the others, is the recomputed limit. */
  lemma {:induction false} BackingIsTheLimit(a: Account, slots: seq<CollateralSlot>, key: Pubkey, i: int, atLimit: bool)
    requires Distinct(slots) && IsNotNull(key) && DepositStatsOf(a.market, slots, Given(a.exchangeRates), a.group).Ok?
    requires -1 <= i < |slots| && (if i == -1 then forall j :: 0 <= j < |slots| ==> slots[j].reserve != key else slots[i].reserve == key)
    ensures i >= 0 ==> DepositOf(a.market, slots[i], Given(a.exchangeRates), a.group).Ok?
    ensures var others := OtherBacking(a.market, DepositList(a, slots), key, a.group, atLimit);
            && others.Ok?
            && LimitOf(DepositStatsOf(a.market, slots, Given(a.exchangeRates), a.group).value.totals, atLimit)
               == others.value
                  + if i == -1 then 0.0
                    else var d := DepositOf(a.market, slots[i], Given(a.exchangeRates), a.group).value;
                         Mul(d.position.marketValue, LtvOf(d.ltv, atLimit))
  {
    hide Mul, DepositOf, WithdrawLtv;
    if slots != [] {
      var n := |slots| - 1;
      var init := slots[..n];
      BackingIsTheLimit(a, init, key, if i == n then -1 else i, atLimit);
      if IsNotNull(slots[n].reserve) {
        var d := DepositOf(a.market, slots[n], Given(a.exchangeRates), a.group).value;
        WithdrawLtvOf(a, slots[n], atLimit);
        OtherBackingAppended(a.market, DepositList(a, init), d.position, key, a.group, atLimit);
      } else {
        assert DepositList(a, slots) == DepositList(a, init);
      }
    }
  }

  lemma {:induction false} OtherBorrowsAppended(list: seq<Position>, d: Position, key: Pubkey)
    ensures OtherBorrows(list + [d], key) == OtherBorrows(list, key) + if d.reserve == key then 0.0 else d.marketValue
  {
    if list == [] {
      assert list + [d] == [d];
      assert [d][1..] == [];
    } else {
      assert (list + [d])[1..] == list[1..] + [d];
      OtherBorrowsAppended(list[1..], d, key);
    }
  }

  /** All borrows, the chosen one and the others, are the recomputed debt; and the chosen one is its slot's. */
  lemma {:induction false} BorrowsAreTheDebt(a: Account, slots: seq<LiquiditySlot>, key: Pubkey, i: int)
    requires ValidBorrows(slots) && IsNotNull(key) && BorrowStatsOf(a.market, slots, Given(a.borrowRates), a.group).Ok?
    requires -1 <= i < |slots| && (if i == -1 then forall j :: 0 <= j < |slots| ==> slots[j].reserve != key else slots[i].reserve == key)
    ensures i >= 0 ==> BorrowOf(a.market, slots[i], Given(a.borrowRates), a.group).Ok?
    ensures var list := BorrowList(a, slots);
            && PositionOf(list, key) == (if i == -1 then None else Some(BorrowOf(a.market, slots[i], Given(a.borrowRates), a.group).value.position))
            && BorrowStatsOf(a.market, slots, Given(a.borrowRates), a.group).value.totals.borrow
               == OtherBorrows(list, key)
                  + if i == -1 then 0.0 else BorrowOf(a.market, slots[i], Given(a.borrowRates), a.group).value.position.marketValue
  {
    hide BorrowOf;
    if slots != [] {
      var n := |slots| - 1;
      var init := slots[..n];
      BorrowsAreTheDebt(a, init, key, if i == n then -1 else i);
      if IsNotNull(slots[n].reserve) {
        var d := BorrowOf(a.market, slots[n], Given(a.borrowRates), a.group).value.position;
        BorrowPositionIs(a, slots[n]);
        PositionOfAppended(BorrowList(a, init), d, key);
        OtherBorrowsAppended(BorrowList(a, init), d, key);
      } else {
        assert BorrowList(a, slots) == BorrowList(a, init);
      }
    }
  }

  lemma BorrowPositionIs(a: Account, slot: LiquiditySlot)
    requires IsNotNull(slot.reserve) && BorrowOf(a.market, slot, Given(a.borrowRates), a.group).Ok?
    ensures BorrowOf(a.market, slot, Given(a.borrowRates), a.group).value.position.reserve == slot.reserve
  {}

  // ----- Recomputing the limit after the withdrawal -----

  /** An account with the collateral and the debt, priced, and a positive LTV on the collateral. */
  ghost predicate Repayable(a: Account, collKey: Pubkey, debtKey: Pubkey)
  {
    && a.Priced() && Distinct(a.deposits) && ValidBorrows(a.borrows)
    && IsNotNull(collKey) && IsNotNull(debtKey) && collKey in a.exchangeRates
    && DepositIndex(a.deposits, collKey) >= 0 && BorrowIndex(a.borrows, debtKey) >= 0
    && var ltv := WithdrawLtv(a.market, collKey, a.group, a.Debt() >= a.Limit()); ltv.Ok? && ltv.value > 0.0
  }

  lemma TermsOfAccount(a: Account, collKey: Pubkey, debtKey: Pubkey)
    requires Repayable(a, collKey, debtKey)
    ensures Sound(LoanOf(a), collKey, debtKey)
    ensures var t, k := TermsOf(LoanOf(a), collKey, debtKey).value, DepositIndex(a.deposits, collKey);
            && ReserveByAddress(a.market.reserves, collKey) == Some(t.coll)
            && Known(a.market, CollateralSlot(collKey, 0), Given(a.exchangeRates), a.group)
            && t.deposit.amount == a.deposits[k].depositedAmount as real / a.exchangeRates[collKey]
            && var ltv := WithdrawLtv(a.market, collKey, a.group, a.Debt() >= a.Limit()).value;
               && LtvForReserve(a.market, t.coll, a.group).Ok?
               && ltv == LtvOf(LtvForReserve(a.market, t.coll, a.group).value, a.Debt() >= a.Limit())
               && LimitOf(a.Deposits().value.totals, a.Debt() >= a.Limit()) == t.otherBacking + Mul(Value(t.deposit.amount, t.coll), ltv)
  {
    hide Mul, Value, DepositStatsOf, BorrowStatsOf, OtherBacking, DepositList, BorrowList, LtvForReserve;
    var k, b := DepositIndex(a.deposits, collKey), BorrowIndex(a.borrows, debtKey);
    PositionIsSlots(a, a.deposits, collKey, k);
    BackingIsTheLimit(a, a.deposits, collKey, k, a.Debt() >= a.Limit());
    BorrowsAreTheDebt(a, a.borrows, debtKey, b);
  }

  /** The recomputed limit once the collateral's slot is left with some cTokens. */
  lemma LimitWithLeft(a: Account, collKey: Pubkey, debtKey: Pubkey, left: nat)
    requires Repayable(a, collKey, debtKey)
    ensures Sound(LoanOf(a), collKey, debtKey)
    ensures var k, atLimit, t := DepositIndex(a.deposits, collKey), a.Debt() >= a.Limit(), TermsOf(LoanOf(a), collKey, debtKey).value;
            var after := DepositStatsOf(a.market, a.deposits[k := CollateralSlot(collKey, left)], Given(a.exchangeRates), a.group);
            && after.Ok?
            && LimitOf(after.value.totals, atLimit)
               == t.otherBacking + Mul(Value(left as real / a.exchangeRates[collKey], t.coll), WithdrawLtv(a.market, collKey, a.group, atLimit).value)
  {
    hide Mul, Value, DepositStatsOf, BorrowStatsOf, TermsOf, LoanOf, Known, LtvForReserve;
    var k, atLimit, rate := DepositIndex(a.deposits, collKey), a.Debt() >= a.Limit(), a.exchangeRates[collKey];
    TermsOfAccount(a, collKey, debtKey);
    var t := TermsOf(LoanOf(a), collKey, debtKey).value;
    var ltv := WithdrawLtv(a.market, collKey, a.group, atLimit).value;
    HeldSlotIsTarget(a.deposits, collKey);
    AmountMovesTotals(a.market, a.deposits, collKey, a.exchangeRates, a.group, left);
    var had := a.deposits[k].depositedAmount as real;
    CTokenValueIsLinear(had, left as real - had, rate, t.coll);
    MulDistributes(ltv, CTokenValue(had, rate, t.coll), CTokenValue(left as real - had, rate, t.coll));
  }

  /**
   Withdrawing from an account's slot at most what the plan allows leaves the recomputed limit at
   least at the debt the plan expects; withdrawing a lamport more does not, unless all collateral
   may go.
   */
  lemma PlanKeepsRecomputedLimit(a: Account, collKey: Pubkey, debtKey: Pubkey, repay: real, left: nat)
    requires Repayable(a, collKey, debtKey)
    requires left <= a.deposits[DepositIndex(a.deposits, collKey)].depositedAmount
    ensures MaxWithdrawCollateral(LoanOf(a), collKey, debtKey, repay).Ok? && TermsOf(LoanOf(a), collKey, debtKey).Ok?
    ensures var k, loan := DepositIndex(a.deposits, collKey), LoanOf(a);
            var plan, t := MaxWithdrawCollateral(loan, collKey, debtKey, repay).value, TermsOf(loan, collKey, debtKey).value;
            var taken := (a.deposits[k].depositedAmount - left) as real / a.exchangeRates[collKey];
            var after := DepositStatsOf(a.market, a.deposits[k := CollateralSlot(collKey, left)], Given(a.exchangeRates), a.group);
            && after.Ok?
            && var limit, expected := LimitOf(after.value.totals, loan.atLimit), ExpectedDebt(loan.borrows, t.borrow, t.debt, repay);
               && (plan.canWithdrawAllColl || taken <= plan.withdrawableCollLamports as real ==> limit >= expected)
               && (!plan.canWithdrawAllColl && taken >= plan.withdrawableCollLamports as real + 1.0 ==> limit < expected)
  {
    hide Mul, Value, DepositStatsOf, BorrowStatsOf, TermsOf, Known, LtvForReserve, ExpectedDebt, DepositList, BorrowList, WithdrawLtv;
    var k, loan, rate := DepositIndex(a.deposits, collKey), LoanOf(a), a.exchangeRates[collKey];
    TermsOfAccount(a, collKey, debtKey);
    LimitWithLeft(a, collKey, debtKey, left);
    PlanIsBackedAndMaximal(loan, collKey, debtKey, repay);
    var t, ltv := TermsOf(loan, collKey, debtKey).value, WithdrawLtv(a.market, collKey, a.group, loan.atLimit).value;
    var w := MaxWithdrawCollateral(loan, collKey, debtKey, repay).value.withdrawableCollLamports;
    var had, rest := a.deposits[k].depositedAmount, left as real / rate;
    var taken := (had - left) as real / rate;
    DividedDifference(had as real, left as real, rate);
    ValueIsLinear(0.0, rest, t.coll);
    ValueIsLinear(t.deposit.amount - w as real, rest, t.coll);
    ValueIsLinear(rest, t.deposit.amount - (w as real + 1.0), t.coll);
    MulNonNegative(Value(rest, t.coll), ltv);
    if taken <= w as real { MulMonotone(Value(t.deposit.amount - w as real, t.coll), Value(rest, t.coll), ltv); }
    if taken >= w as real + 1.0 { MulMonotone(Value(rest, t.coll), Value(t.deposit.amount - (w as real + 1.0), t.coll), ltv); }
    AllMayGo(loan, collKey, debtKey, repay);
  }

  lemma DividedDifference(x: real, y: real, rate: Positive)
    requires y >= 0.0
    ensures (x - y) / rate == x / rate - y / rate && y / rate >= 0.0
  {}

  lemma AllMayGo(loan: Loan, collKey: Pubkey, debtKey: Pubkey, repay: real)
    requires Sound(loan, collKey, debtKey) && MaxWithdrawCollateral(loan, collKey, debtKey, repay).Ok?
    ensures var t := TermsOf(loan, collKey, debtKey).value;
            MaxWithdrawCollateral(loan, collKey, debtKey, repay).value.canWithdrawAllColl ==>
              t.otherBacking >= ExpectedDebt(loan.borrows, t.borrow, t.debt, repay)
  {
    hide Mul, Value, TermsOf, ExpectedDebt, WithdrawLtv;
  }

  // ----- Recomputing the debt after the repayment -----

  lemma {:induction false} BorrowValuesAreNonNegative(a: Account, slots: seq<LiquiditySlot>)
    requires ValidBorrows(slots) && BorrowStatsOf(a.market, slots, Given(a.borrowRates), a.group).Ok?
    ensures var list := BorrowList(a, slots); forall i :: 0 <= i < |list| ==> list[i].marketValue >= 0.0
  {
    hide Mul, Value;
    if slots != [] {
      var n := |slots| - 1;
      BorrowValuesAreNonNegative(a, slots[..n]);
      if IsNotNull(slots[n].reserve) {
        var r := ReserveByAddress(a.market.reserves, slots[n].reserve).value;
        var d := BorrowOf(a.market, slots[n], Given(a.borrowRates), a.group).value.position;
        var rate := RateOf(Given(a.borrowRates), r.address, r.cumulativeBorrowRate).value;
        MulNonNegative(slots[n].borrowedAmount, rate);
        DividedDifference(Mul(slots[n].borrowedAmount, rate), Mul(slots[n].borrowedAmount, rate), slots[n].cumulativeBorrowRate);
        ValueIsLinear(0.0, d.amount, r);
        assert BorrowList(a, slots) == BorrowList(a, slots[..n]) + [d];
      } else {
        assert BorrowList(a, slots) == BorrowList(a, slots[..n]);
      }
    }
  }

  /** Once the debt's slot owes what the repayment leaves, the recomputed debt is what the calculation should expect. */
  lemma DebtLeftIsRecomputed(a: Account, collKey: Pubkey, debtKey: Pubkey, repay: real, x: real)
    requires Repayable(a, collKey, debtKey) && debtKey in a.borrowRates
    requires var slot := a.borrows[BorrowIndex(a.borrows, debtKey)];
             Owed(x, a.borrowRates[debtKey], slot.cumulativeBorrowRate)
             == PositiveOrZero(Owed(slot.borrowedAmount, a.borrowRates[debtKey], slot.cumulativeBorrowRate) - repay)
    ensures TermsOf(LoanOf(a), collKey, debtKey).Ok?
    ensures var b, t := BorrowIndex(a.borrows, debtKey), TermsOf(LoanOf(a), collKey, debtKey).value;
            var after := BorrowStatsOf(a.market, a.borrows[b := a.borrows[b].(borrowedAmount := x)], Given(a.borrowRates), a.group);
            && after.Ok?
            && after.value.totals.borrow == DebtLeft(LoanOf(a).borrows, t.borrow, t.debt, repay)
  {
    hide Mul, Value, Owed, DepositStatsOf, BorrowStatsOf, OtherBacking, DepositList, BorrowList, DebtTerms, LtvForReserve;
    var b := BorrowIndex(a.borrows, debtKey);
    var slot := a.borrows[b];
    TermsOfAccount(a, collKey, debtKey);
    BorrowsAreTheDebt(a, a.borrows, debtKey, b);
    DebtTermsOf(a.market, slot, a.borrowRates, a.group);
    DebtTermsOf(a.market, slot.(borrowedAmount := x), a.borrowRates, a.group);
    DebtAfterUpdate(a.market, a.borrows, Given(a.borrowRates), a.group, b, slot.(borrowedAmount := x));
    BorrowIsOwed(a, slot);
  }

  lemma BorrowIsOwed(a: Account, slot: LiquiditySlot)
    requires IsNotNull(slot.reserve) && slot.reserve in a.borrowRates && BorrowOf(a.market, slot, Given(a.borrowRates), a.group).Ok?
    ensures var r, p := ReserveByAddress(a.market.reserves, slot.reserve), BorrowOf(a.market, slot, Given(a.borrowRates), a.group).value.position;
            && r.Some? && p.reserve == slot.reserve
            && p.amount == Owed(slot.borrowedAmount, a.borrowRates[slot.reserve], slot.cumulativeBorrowRate)
            && p.marketValue == Value(p.amount, r.value)
  {
    hide Mul, Value;
  }

  /**
   With one borrow, or the chosen one repaid in full, a withdrawal within the plan leaves the
   recomputed limit at least at the recomputed debt.
   */
  lemma PlanKeepsAccountBacked(a: Account, collKey: Pubkey, debtKey: Pubkey, repay: real, left: nat, x: real)
    requires Repayable(a, collKey, debtKey) && debtKey in a.borrowRates && LtvsInOrder(a.market)
    requires left <= a.deposits[DepositIndex(a.deposits, collKey)].depositedAmount
    requires var slot := a.borrows[BorrowIndex(a.borrows, debtKey)];
             Owed(x, a.borrowRates[debtKey], slot.cumulativeBorrowRate)
             == PositiveOrZero(Owed(slot.borrowedAmount, a.borrowRates[debtKey], slot.cumulativeBorrowRate) - repay)
    requires TermsOf(LoanOf(a), collKey, debtKey).Ok?
    requires |LoanOf(a).borrows| == 1 || repay >= TermsOf(LoanOf(a), collKey, debtKey).value.borrow.amount
    ensures MaxWithdrawCollateral(LoanOf(a), collKey, debtKey, repay).Ok?
    ensures var k, b, plan := DepositIndex(a.deposits, collKey), BorrowIndex(a.borrows, debtKey), MaxWithdrawCollateral(LoanOf(a), collKey, debtKey, repay).value;
            var taken := (a.deposits[k].depositedAmount - left) as real / a.exchangeRates[collKey];
            var limits := DepositStatsOf(a.market, a.deposits[k := CollateralSlot(collKey, left)], Given(a.exchangeRates), a.group);
            var debts := BorrowStatsOf(a.market, a.borrows[b := a.borrows[b].(borrowedAmount := x)], Given(a.borrowRates), a.group);
            && limits.Ok? && debts.Ok?
            && (plan.canWithdrawAllColl || taken <= plan.withdrawableCollLamports as real ==>
                  LimitOf(limits.value.totals, LoanOf(a).atLimit) >= debts.value.totals.borrow)
  {
    hide Mul, Value, Owed, DepositStatsOf, BorrowStatsOf, TermsOf, DepositList, BorrowList, MaxWithdrawCollateral, ExpectedDebt, DebtLeft, LtvsInOrder, WithdrawLtv;
    var k := DepositIndex(a.deposits, collKey);
    TermsOfAccount(a, collKey, debtKey);
    PlanKeepsRecomputedLimit(a, collKey, debtKey, repay, left);
    DebtLeftIsRecomputed(a, collKey, debtKey, repay, x);
    BorrowValuesAreNonNegative(a, a.borrows);
    assert LoanOf(a).borrows == BorrowList(a, a.borrows);
    ExpectedDebtCoversIff(LoanOf(a), collKey, debtKey, repay);
    LimitsAreInOrder(a.market, a.deposits[k := CollateralSlot(collKey, left)], Given(a.exchangeRates), a.group);
  }
}
