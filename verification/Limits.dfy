/**
 Closed forms for what an obligation may still borrow or withdraw, checked against
 recomputing the totals after the action.
 */
module Limits {
  import opened Reals
  import opened Wrappers
  import opened Markets
  import opened Obligations

  /** An obligation together with the rates and the elevation group its totals are computed for. */
  datatype Account = Account(
    market: Market,
    deposits: seq<CollateralSlot>,
    borrows: seq<LiquiditySlot>,
    exchangeRates: map<Pubkey, Positive>,
    borrowRates: map<Pubkey, Positive>,
    group: nat)
  {
    function Deposits(): Result<DepositStats> { DepositStatsOf(market, deposits, Given(exchangeRates), group) }
    function Borrows(): Result<BorrowStats> { BorrowStatsOf(market, borrows, Given(borrowRates), group) }
    predicate Priced() { Deposits().Ok? && Borrows().Ok? }
    function Limit(): real requires Priced() { Deposits().value.totals.borrowLimit }
    function Debt(): real requires Priced() { Borrows().value.totals.adjusted }
  }

  // ----- Borrow power -----

  /** Some collateral may not be used outside an elevation group. */
  predicate NeedsGroup(a: Account)
  {
    exists i :: 0 <= i < |a.deposits| && IsNotNull(a.deposits[i].reserve)
                && var r := ReserveByAddress(a.market.reserves, a.deposits[i].reserve);
                   r.Some? && r.value.disableUsageAsCollOutsideEmode
  }

  /** Lamports whose adjusted value fills the room below the limit. */
  function PowerBeforeFee(room: real, r: ReserveView, borrowFactor: Positive): real
  {
    Mul(room / borrowFactor / r.price, r.mintFactor)
  }

  function BorrowPower(a: Account, key: Pubkey): Result<real>
  {
    match ReserveByAddress(a.market.reserves, key)
    case None => Err("Reserve not found")
    case Some(r) =>
      if !a.Priced() then Err("a position cannot be priced")
      else
        var power := PowerBeforeFee(a.Limit() - a.Debt(), r, BorrowFactorForReserve(r, a.group));
        if NeedsGroup(a) && !GroupActive(r, a.group) then Ok(0.0)
        else if r.borrowFee == -1.0 then Err("division by zero")
        else Ok(Max(0.0, power - Mul(power, r.borrowFee / (r.borrowFee + 1.0))))
  }

  lemma PowerIsWorthTheRoom(room: real, r: ReserveView, borrowFactor: Positive)
    ensures Mul(Value(PowerBeforeFee(room, r, borrowFactor), r), borrowFactor) == room
  {
    var x := room / borrowFactor;
    assert x * borrowFactor == room;
    ValueOfLamports(x, r);
  }

  lemma ValueOfLamports(value: real, r: ReserveView)
    ensures Value(Mul(value / r.price, r.mintFactor), r) == value
  {
    var y := value / r.price;
    assert y * r.price == value;
    assert y * r.mintFactor * r.price == value * r.mintFactor;
    assert value * r.mintFactor / r.mintFactor == value;
  }

  lemma InclusiveFeeUndone(power: real, fee: real)
    requires fee >= 0.0
    ensures var net := power - Mul(power, fee / (fee + 1.0)); net + Mul(net, fee) == power
  {
    hide Mul;
    var g := fee / (fee + 1.0);
    assert g + Mul(g, fee) == fee by {
      MulIs(g, fee);
      assert g * (fee + 1.0) == fee;
    }
    MulDistributes(fee, power - Mul(power, g), Mul(power, g));
    MulAssociates(power, g, fee);
    MulDistributes(power, g, Mul(g, fee));
  }

  /**
   Borrowing a positive borrow power together with its proportional fee, through the simulated
   slot change, brings the recomputed adjusted debt exactly to the borrow limit if and only if
   the changed slot carries the reserve's current rate (always so for a fresh slot opened at it).
   */
  lemma BorrowPowerReachesLimit(a: Account, key: Pubkey, currentRate: Positive)
    requires ValidBorrows(a.borrows) && IsNotNull(key) && key in a.borrowRates && TargetBorrow(a.borrows, key) >= 0
    requires BorrowPower(a, key).Ok? && BorrowPower(a, key).value > 0.0
    requires ReserveByAddress(a.market.reserves, key).value.borrowFee >= 0.0
    ensures var r := ReserveByAddress(a.market.reserves, key).value;
            var power := BorrowPower(a, key).value;
            var slot := ChangedBorrow(a.borrows, power + Mul(power, r.borrowFee), key, currentRate);
            var after := a.(borrows := a.borrows[TargetBorrow(a.borrows, key) := slot]);
            && after.Priced()
            && after.Limit() == a.Limit()
            && (after.Debt() == after.Limit() <==> slot.cumulativeBorrowRate == a.borrowRates[key])
  {
    hide Mul, Value, TargetBorrow, BorrowFactorForReserve, Owed, NeedsGroup, PowerBeforeFee, BorrowStatsOf, DepositStatsOf, ValidBorrows;
    var r := ReserveByAddress(a.market.reserves, key).value;
    var power := BorrowPower(a, key).value;
    var factor := BorrowFactorForReserve(r, a.group);
    var full := PowerBeforeFee(a.Limit() - a.Debt(), r, factor);
    InclusiveFeeUndone(full, r.borrowFee);
    MulNonNegative(power, r.borrowFee);
    BorrowIsEffective(a.borrows, full, key);
    BorrowChangeMovesDebt(a.market, a.borrows, full, key, currentRate, a.borrowRates, a.group);
    PowerIsWorthTheRoom(a.Limit() - a.Debt(), r, factor);
    var slot := ChangedBorrow(a.borrows, full, key, currentRate);
    ScaledPower(full, r, factor, a.borrowRates[key], slot.cumulativeBorrowRate);
  }

  /** Nothing can be borrowed exactly if some collateral needs a group that does not apply or there is no room below the limit. */
  lemma BorrowPowerIsZeroIff(a: Account, key: Pubkey)
    requires BorrowPower(a, key).Ok? && ReserveByAddress(a.market.reserves, key).value.borrowFee >= 0.0
    ensures BorrowPower(a, key).value >= 0.0
    ensures BorrowPower(a, key).value == 0.0 <==>
              || (NeedsGroup(a) && !GroupActive(ReserveByAddress(a.market.reserves, key).value, a.group))
              || a.Limit() <= a.Debt()
  {
    hide Mul, Value, NeedsGroup, GroupActive, BorrowFactorForReserve, PowerBeforeFee, BorrowStatsOf, DepositStatsOf;
    var r := ReserveByAddress(a.market.reserves, key).value;
    var room, factor := a.Limit() - a.Debt(), BorrowFactorForReserve(r, a.group);
    var full := PowerBeforeFee(room, r, factor);
    var net := full - Mul(full, r.borrowFee / (r.borrowFee + 1.0));
    InclusiveFeeUndone(full, r.borrowFee);
    PowerIsWorthTheRoom(room, r, factor);
    ValueIsLinear(0.0, 0.0, r);
    MulUnit(factor);
    ValueIsStrict(full, 0.0, r);
    ValueIsStrict(0.0, full, r);
    MulIsStrict(Value(full, r), 0.0, factor);
    MulIsStrict(0.0, Value(full, r), factor);
    assert full > 0.0 <==> room > 0.0;
    if net > 0.0 { MulNonNegative(net, r.borrowFee); }
    if net <= 0.0 { MulMonotone(net, 0.0, r.borrowFee); MulUnit(r.borrowFee); }
  }

  /** Owing at a rate ratio other than one changes the adjusted value of a positive amount. */
  lemma ScaledPower(full: real, r: ReserveView, factor: Positive, rate: Positive, slotRate: Positive)
    requires full > 0.0
    ensures Mul(Value(Owed(full, rate, slotRate), r), factor) == Mul(Value(full, r), factor) <==> rate == slotRate
  {
    hide Mul, Value, Owed;
    var owed := Owed(full, rate, slotRate);
    OwedCompares(full, rate, slotRate);
    ValueIsStrict(owed, full, r);
    ValueIsStrict(full, owed, r);
    MulIsStrict(Value(owed, r), Value(full, r), factor);
    MulIsStrict(Value(full, r), Value(owed, r), factor);
  }

  lemma OwedCompares(full: real, rate: Positive, slotRate: Positive)
    requires full > 0.0
    ensures Owed(full, rate, slotRate) == full <==> rate == slotRate
  {
    var owed := Owed(full, rate, slotRate);
    assert owed * slotRate == full * rate;
    if owed == full {
      assert full * (rate - slotRate) == 0.0;
    }
  }

  lemma ValueIsStrict(a: real, b: real, r: ReserveView)
    ensures a < b ==> Value(a, r) < Value(b, r)
  {
    if a < b {
      var x, y := Mul(a, r.price), Mul(b, r.price);
      assert (b - a) * r.price > 0.0;
      assert y - x == (b - a) * r.price;
      assert (y - x) / r.mintFactor > 0.0;
      assert y / r.mintFactor - x / r.mintFactor == (y - x) / r.mintFactor;
    }
  }

  lemma MulIsStrict(a: real, b: real, c: Positive)
    ensures a < b ==> Mul(a, c) < Mul(b, c)
  {
    if a < b { assert (b - a) * c > 0.0; }
  }

  function PlainReserve(key: Pubkey): ReserveView
  {
    ReserveView(key, 1.0, 1.0, 0.5, 0.6, 100.0, 0.0, [], false, 1.0, 1.0, 0, 0, false, false)
  }

  /** 100 deposited at half LTV; 10 borrowed when the cumulative rate was 1, and the rate is 2 now. */
  function OldRateAccount(): Account
  {
    Account(Market([PlainReserve(Key(1)), PlainReserve(Key(2))], []),
      [CollateralSlot(Key(1), 100)], [LiquiditySlot(Key(2), 10.0, 1.0)], map[Key(1) := 1.0], map[Key(2) := 2.0], 0)
  }

  lemma OldRateTotals()
    ensures var a := OldRateAccount();
            && ReserveByAddress(a.market.reserves, Key(1)) == Some(PlainReserve(Key(1)))
            && ReserveByAddress(a.market.reserves, Key(2)) == Some(PlainReserve(Key(2)))
            && a.Priced() && a.Limit() == 50.0 && a.Debt() == 20.0
  {
    var a := OldRateAccount();
    assert a.market.reserves[1..] == [PlainReserve(Key(2))];
    assert a.deposits[..0] == [] && a.borrows[..0] == [];
    assert DepositOf(a.market, a.deposits[0], Given(a.exchangeRates), 0).Ok?;
    assert BorrowOf(a.market, a.borrows[0], Given(a.borrowRates), 0).Ok?;
  }

  /** Borrowing its borrow power on the old slot misses the limit. */
  lemma OldRateMissesLimit()
    ensures var a := OldRateAccount();
            var power := BorrowPower(a, Key(2));
            && power == Ok(30.0) && TargetBorrow(a.borrows, Key(2)) == 0
            && var after := a.(borrows := a.borrows[0 := ChangedBorrow(a.borrows, 30.0, Key(2), 2.0)]);
               after.Priced() && after.Debt() != after.Limit()
  {
    hide DepositStatsOf, BorrowStatsOf;
    var a := OldRateAccount();
    OldRateTotals();
    assert a.borrows[..0] == [];
    assert BorrowIndex(a.borrows, Key(2)) == 0;
    assert PowerBeforeFee(30.0, PlainReserve(Key(2)), 1.0) == 30.0;
    BorrowPowerReachesLimit(a, Key(2), 2.0);
  }

  // ----- Maximum withdrawal -----

  function MaxWithdrawAmount(a: Account, key: Pubkey): Result<real>
  {
    match ReserveByAddress(a.market.reserves, key)
    case None => Err("Reserve not found")
    case Some(r) =>
      if !a.Priced() then Err("a position cannot be priced")
      else if key !in a.Deposits().value.positions then Err("Deposit reserve not found")
      else
        var amount := a.Deposits().value.positions[key].amount;
        if a.Debt() == 0.0 then Ok(amount)
        else
          var ltv :- LtvForReserve(a.market, r, a.group);
          if a.Debt() >= a.Limit() then Ok(0.0)
          else
            var maxWithdrawValue :=
              if ltv.maxLtv == 0.0 then amount else Mul((a.Limit() - a.Debt()) / ltv.maxLtv, 0.999);
            Ok(Max(0.0, Min(
              Min(amount, Mul(maxWithdrawValue / r.price, r.mintFactor)),
              Min(r.availableLiquidity as real, r.remainingWithdrawalCap as real))))
  }

  ghost predicate NonNegativeLtvs(market: Market)
  {
    forall i :: 0 <= i < |market.reserves| ==> market.reserves[i].loanToValue >= 0.0
  }

  /** The maximum LTV that applies to a reserve. */
  function MaxLtv(a: Account, key: Pubkey): real
  {
    var r := ReserveByAddress(a.market.reserves, key);
    if r.None? then 0.0
    else
      var ltv := LtvForReserve(a.market, r.value, a.group);
      if ltv.Ok? then ltv.value.maxLtv else 0.0
  }

  lemma {:induction false} LimitIsNonNegative(
    market: Market, slots: seq<CollateralSlot>, rates: map<Pubkey, Positive>, group: nat)
    requires NonNegativeLtvs(market) && DepositStatsOf(market, slots, Given(rates), group).Ok?
    ensures DepositStatsOf(market, slots, Given(rates), group).value.totals.borrowLimit >= 0.0
  {
    hide Mul, Value;
    if slots != [] {
      var n := |slots| - 1;
      LimitIsNonNegative(market, slots[..n], rates, group);
      if IsNotNull(slots[n].reserve) {
        var r := ReserveByAddress(market.reserves, slots[n].reserve).value;
        var amount := slots[n].depositedAmount as real / rates[r.address];
        ValueIsLinear(0.0, amount, r);
        MulNonNegative(Value(amount, r), LtvForReserve(market, r, group).value.maxLtv);
      }
    }
  }

  /** In every branch with debt the amount, valued at the LTV, fits into the room below the limit. */
  lemma MaxWithdrawFitsRoom(a: Account, key: Pubkey)
    requires NonNegativeLtvs(a.market) && MaxWithdrawAmount(a, key).Ok?
    requires a.Debt() <= a.Limit() && a.Debt() != 0.0
    ensures MaxLtv(a, key) >= 0.0
    ensures Mul(Value(MaxWithdrawAmount(a, key).value, ReserveByAddress(a.market.reserves, key).value), MaxLtv(a, key))
         <= a.Limit() - a.Debt()
  {
    hide Mul, Value;
    var r, room := ReserveByAddress(a.market.reserves, key).value, a.Limit() - a.Debt();
    var w, ltv := MaxWithdrawAmount(a, key).value, MaxLtv(a, key);
    ValueIsLinear(0.0, 0.0, r);
    MulUnit(ltv);
    MulUnit(Value(w, r));
    if ltv != 0.0 && room > 0.0 {
      var value := Mul(room / ltv, 0.999);
      ValueOfLamports(value, r);
      ValueIsLinear(w, Mul(value / r.price, r.mintFactor), r);
      ValueIsLinear(w, 0.0, r);
      PartOfRoom(room, ltv);
      MulMonotone(Value(w, r), value, ltv);
    }
  }

  /** Taken tokens leave a thousandth of the room below the limit; without an LTV their value is compared with the deposit's amount. */
  ghost predicate LeavesRoom(a: Account, key: Pubkey, r: ReserveView, amount: real, x: real)
    requires a.Priced()
  {
    if MaxLtv(a, key) == 0.0 then Value(x, r) <= amount
    else Mul(Value(x, r), MaxLtv(a, key)) <= Mul(a.Limit() - a.Debt(), 0.999)
  }

  /**
   Without debt the whole deposit may go, with debt at the limit nothing; in between the answer
   is the largest amount within the deposit, the reserve's liquidity, its withdrawal cap and the
   room below the limit.
   */
  lemma MaxWithdrawIsTheLargest(a: Account, key: Pubkey, x: real)
    requires NonNegativeLtvs(a.market) && MaxWithdrawAmount(a, key).Ok? && x > 0.0
    ensures ReserveByAddress(a.market.reserves, key).Some? && a.Priced() && key in a.Deposits().value.positions
    ensures var r, w := ReserveByAddress(a.market.reserves, key).value, MaxWithdrawAmount(a, key).value;
            var amount := a.Deposits().value.positions[key].amount;
            if a.Debt() == 0.0 then w == amount
            else if a.Debt() >= a.Limit() then w == 0.0
            else
              && w >= 0.0
              && (x <= w <==>
                    && x <= amount && x <= r.availableLiquidity as real && x <= r.remainingWithdrawalCap as real
                    && LeavesRoom(a, key, r, amount, x))
  {
    hide Mul, Value, DepositStatsOf, BorrowStatsOf;
    var r, ltv := ReserveByAddress(a.market.reserves, key).value, MaxLtv(a, key);
    var amount, room := a.Deposits().value.positions[key].amount, a.Limit() - a.Debt();
    if a.Debt() != 0.0 && room > 0.0 {
      var value := if ltv == 0.0 then amount else Mul(room / ltv, 0.999);
      var most := Mul(value / r.price, r.mintFactor);
      ValueOfLamports(value, r);
      ValueIsStrict(x, most, r);
      ValueIsStrict(most, x, r);
      if ltv != 0.0 {
        PartOfRoom(room, ltv);
        MulIsStrict(Value(x, r), value, ltv);
        MulIsStrict(value, Value(x, r), ltv);
      }
    }
  }

  lemma PartOfRoom(room: real, ltv: real)
    requires room > 0.0 && ltv > 0.0
    ensures 0.0 <= Mul(room / ltv, 0.999)
    ensures Mul(Mul(room / ltv, 0.999), ltv) == Mul(room, 0.999) <= room
  {
    var q := room / ltv;
    assert q * ltv == room;
    assert q * 0.999 * ltv == 0.999 * room;
  }

  /** A deposit of the reserve from which the maximum may be withdrawn, within the limit. */
  ghost predicate Withdrawable(a: Account, key: Pubkey)
  {
    && NonNegativeLtvs(a.market) && Distinct(a.deposits)
    && IsNotNull(key) && key in a.exchangeRates && DepositIndex(a.deposits, key) >= 0
    && Known(a.market, CollateralSlot(key, 0), Given(a.exchangeRates), a.group)
    && MaxWithdrawAmount(a, key).Ok? && a.Priced() && a.Debt() <= a.Limit()
  }

  /** The account with another number of cTokens in the reserve's slot. */
  function WithCTokens(a: Account, key: Pubkey, left: nat): Account
    requires DepositIndex(a.deposits, key) >= 0
  {
    a.(deposits := a.deposits[DepositIndex(a.deposits, key) := CollateralSlot(key, left)])
  }

  /** LTV-weighted value of some cTokens of a reserve. */
  function BackingOfCTokens(a: Account, key: Pubkey, cTokens: real): real
    requires key in a.exchangeRates
  {
    var r := ReserveByAddress(a.market.reserves, key);
    if r.None? then 0.0 else Mul(CTokenValue(cTokens, a.exchangeRates[key], r.value), MaxLtv(a, key))
  }

  /**
   Withdrawing at most the maximum from an obligation within its limit keeps the recomputed
   limit at least the debt, in every branch; rounding the withdrawal up by `slack` cTokens costs
   at most their LTV-weighted value.
   */
  lemma MaxWithdrawKeepsLimit(a: Account, key: Pubkey, left: nat, slack: real)
    requires Withdrawable(a, key) && slack >= 0.0
    requires a.deposits[DepositIndex(a.deposits, key)].depositedAmount as real - left as real
          <= Mul(MaxWithdrawAmount(a, key).value, a.exchangeRates[key]) + slack
    ensures WithCTokens(a, key, left).Priced()
    ensures WithCTokens(a, key, left).Limit() >= WithCTokens(a, key, left).Debt() - BackingOfCTokens(a, key, slack)
  {
    hide Mul, Value, CTokenValue, LtvForReserve, Known, MaxWithdrawAmount;
    var after := WithCTokens(a, key, left);
    assert ReserveByAddress(a.market.reserves, key).Some? by { MaxWithdrawHasReserve(a, key); }
    AmountMovesTotals(a.market, a.deposits, key, a.exchangeRates, a.group, left);
    if a.Debt() == 0.0 {
      LimitIsNonNegative(a.market, after.deposits, a.exchangeRates, a.group);
      BackingIsNonNegative(a, key, slack);
    } else {
      TakenFitsRoom(a, key, a.deposits[DepositIndex(a.deposits, key)].depositedAmount as real - left as real, slack);
    }
  }

  lemma BackingIsNonNegative(a: Account, key: Pubkey, cTokens: real)
    requires NonNegativeLtvs(a.market) && key in a.exchangeRates && cTokens >= 0.0
    ensures BackingOfCTokens(a, key, cTokens) >= 0.0
  {
    hide Mul, CTokenValue, MaxLtv;
    var r := ReserveByAddress(a.market.reserves, key);
    if r.Some? {
      MaxLtvIsNonNegative(a, key);
      CTokenValueIsLinear(0.0, cTokens, a.exchangeRates[key], r.value);
      MulNonNegative(CTokenValue(cTokens, a.exchangeRates[key], r.value), MaxLtv(a, key));
    }
  }

  /** Taking at most the maximum and some cTokens costs at most the room and the backing of those cTokens. */
  lemma TakenFitsRoom(a: Account, key: Pubkey, taken: real, slack: real)
    requires Withdrawable(a, key) && ReserveByAddress(a.market.reserves, key).Some? && a.Debt() != 0.0
    requires taken <= Mul(MaxWithdrawAmount(a, key).value, a.exchangeRates[key]) + slack
    ensures var r := ReserveByAddress(a.market.reserves, key).value;
            Mul(CTokenValue(-taken, a.exchangeRates[key], r), MaxLtv(a, key))
            >= -(a.Limit() - a.Debt()) - BackingOfCTokens(a, key, slack)
  {
    hide Mul, Value, CTokenValue, LtvForReserve, Known, MaxWithdrawAmount, MaxLtv, DepositStatsOf, BorrowStatsOf;
    var r, rate, ltv := ReserveByAddress(a.market.reserves, key).value, a.exchangeRates[key], MaxLtv(a, key);
    MaxLtvIsNonNegative(a, key);
    var w := MaxWithdrawAmount(a, key).value;
    MaxWithdrawFitsRoom(a, key);
    CTokenValueIsLinear(w, 0.0, rate, r);
    CTokenValueIsLinear(Mul(w, rate), slack, rate, r);
    CTokenValueIsLinear(taken, Mul(w, rate) + slack, rate, r);
    MulMonotone(CTokenValue(taken, rate, r), Value(w, r) + CTokenValue(slack, rate, r), ltv);
    MulDistributes(ltv, Value(w, r), CTokenValue(slack, rate, r));
    MulOfNegative(CTokenValue(taken, rate, r), ltv);
  }

  lemma MaxWithdrawHasReserve(a: Account, key: Pubkey)
    requires MaxWithdrawAmount(a, key).Ok?
    ensures ReserveByAddress(a.market.reserves, key).Some?
  {}

  lemma MaxLtvIsNonNegative(a: Account, key: Pubkey)
    requires NonNegativeLtvs(a.market)
    ensures MaxLtv(a, key) >= 0.0
  {}

  /** Through the simulated slot change, which rounds to whole cTokens, the debt stays within half a cToken of the limit. */
  lemma SimulatedMaxWithdrawKeepsLimit(a: Account, key: Pubkey)
    requires Withdrawable(a, key)
    ensures var changed := DepositChanged(a.deposits, -MaxWithdrawAmount(a, key).value, key, a.exchangeRates[key]);
            && changed.Ok?
            && var after := a.(deposits := changed.value);
               after.Priced() && after.Limit() >= after.Debt() - BackingOfCTokens(a, key, 0.5)
  {
    hide Mul, Known, MaxWithdrawAmount, DepositChanged, Credited, TargetSlot, BackingOfCTokens;
    var w, rate, k := MaxWithdrawAmount(a, key).value, a.exchangeRates[key], DepositIndex(a.deposits, key);
    HeldSlotIsTarget(a.deposits, key);
    DepositChangeIsLocal(a.deposits, -w, key, rate);
    CreditLosesAtMost(a.deposits[k].depositedAmount, w, rate);
    MaxWithdrawKeepsLimit(a, key, Credited(a.deposits[k].depositedAmount, -w, rate), 0.5);
  }

  lemma HeldSlotIsTarget(slots: seq<CollateralSlot>, key: Pubkey)
    requires DepositIndex(slots, key) >= 0
    ensures TargetSlot(slots, key) == DepositIndex(slots, key)
  {}

  lemma CreditLosesAtMost(amount: nat, w: real, rate: Positive)
    ensures amount as real - Credited(amount, -w, rate) as real <= Mul(w, rate) + 0.5
  {
    hide Mul, Rounded;
    MulOfNegative(w, rate);
    RoundedIsOdd(Mul(w, rate));
  }

  // ----- Eligibility for a group -----

  /**
   Whether the loan may move to a group: its positions fit the group, and its adjusted debt is
   within the borrow limit recomputed for the group.
   */
  function IsLoanEligible(
    a: Account, ds: seq<GroupDescription>, deposits: seq<Pubkey>, borrows: seq<Pubkey>, group: nat): Result<bool>
    requires a.Priced()
  {
    var fits :- ReservesFit(ds, deposits, borrows, group);
    if !fits then Ok(false)
    else
      var stats :- DepositStatsOf(a.market, a.deposits, Given(a.exchangeRates), group);
      Ok(a.Debt() <= stats.totals.borrowLimit)
  }

  /** Where the stored descriptions agree, a loan is eligible exactly if the group is listed for it and its debt is within the group's limit. */
  lemma EligibleIffListed(a: Account, ds: seq<GroupDescription>, deposits: seq<Pubkey>, borrows: seq<Pubkey>, group: nat)
    requires a.Priced() && 1 <= group <= |ds| && AgreesAt(ds, group)
    requires DepositStatsOf(a.market, a.deposits, Given(a.exchangeRates), group).Ok?
    ensures IsLoanEligible(a, ds, deposits, borrows, group)
         == Ok(Listed(ds, deposits, borrows, group)
               && a.Debt() <= DepositStatsOf(a.market, a.deposits, Given(a.exchangeRates), group).value.totals.borrowLimit)
  {
    hide AgreesAt, ReservesFit, Listed, DepositStatsOf, BorrowStatsOf;
    FitsIffListed(ds, deposits, borrows, group);
  }
}
