/**
 An obligation's positions: totals over its deposit and borrow slots, simulated changes of a
 slot, and the closed forms for how much more can be borrowed or withdrawn.
 */
module Obligations {
  import opened Reals
  import opened Wrappers
  import opened Markets

  datatype CollateralSlot = CollateralSlot(reserve: Pubkey, depositedAmount: nat)

  datatype LiquiditySlot = LiquiditySlot(reserve: Pubkey, borrowedAmount: real, cumulativeBorrowRate: Positive)

  datatype Position = Position(reserve: Pubkey, amount: real, marketValue: real)

  // ----- Per-reserve parameters -----

  datatype Ltv = Ltv(maxLtv: real, liquidationLtv: real)

  predicate GroupActive(r: ReserveView, group: nat) { group != 0 && group in r.elevationGroups }

  function LtvForReserve(market: Market, r: ReserveView, group: nat): Result<Ltv>
  {
    if GroupActive(r, group) then
      match ElevationGroupAt(market, group)
      case None => Err("elevation group is undefined")
      case Some(g) => Ok(Ltv(g.ltvPct as real / 100.0, g.liquidationThresholdPct as real / 100.0))
    else
      Ok(Ltv(r.loanToValue, r.liquidationThreshold))
  }

  function BorrowFactorForReserve(r: ReserveView, group: nat): Positive
  {
    if GroupActive(r, group) then 1.0 else r.borrowFactorPct / 100.0
  }

  /** Rates by reserve, or the reserves' own stored rates. */
  datatype Rates = Stored | Given(rates: map<Pubkey, Positive>)

  function RateOf(rates: Rates, key: Pubkey, stored: Positive): Result<Positive>
  {
    match rates
    case Stored => Ok(stored)
    case Given(m) => if key in m then Ok(m[key]) else Err("rate is undefined")
  }

  /** Value of an amount of lamports. */
  function Value(amount: real, r: ReserveView): real { Mul(amount, r.price) / r.mintFactor }

  lemma ValueIsLinear(a: real, b: real, r: ReserveView)
    ensures Value(a + b, r) == Value(a, r) + Value(b, r)
    ensures Value(-a, r) == -Value(a, r)
    ensures Value(0.0, r) == 0.0
    ensures a <= b ==> Value(a, r) <= Value(b, r)
  {
    var p, m := r.price, r.mintFactor;
    assert Mul(a + b, p) == Mul(a, p) + Mul(b, p);
    assert Mul(-a, p) == -Mul(a, p);
    assert (Mul(a, p) + Mul(b, p)) / m == Mul(a, p) / m + Mul(b, p) / m;
    assert (-Mul(a, p)) / m == -(Mul(a, p) / m);
    if a <= b {
      assert Mul(a, p) <= Mul(b, p);
      assert Mul(a, p) / m <= Mul(b, p) / m;
    }
  }

  // ----- Deposit totals -----

  datatype DepositTotals = DepositTotals(
    deposit: real, collateral: real, liquidatable: real, borrowLimit: real, liquidationLimit: real)
  {
    function Plus(o: DepositTotals): DepositTotals {
      DepositTotals(deposit + o.deposit, collateral + o.collateral, liquidatable + o.liquidatable,
        borrowLimit + o.borrowLimit, liquidationLimit + o.liquidationLimit)
    }
  }

  const NO_DEPOSITS := DepositTotals(0.0, 0.0, 0.0, 0.0, 0.0)

  /** The totals of one deposit of a given value. */
  function DepositTerms(value: real, ltv: Ltv): DepositTotals
  {
    DepositTotals(
      value,
      if ltv.maxLtv == 0.0 then 0.0 else value,
      if ltv.liquidationLtv == 0.0 then 0.0 else value,
      Mul(value, ltv.maxLtv),
      Mul(value, ltv.liquidationLtv))
  }

  datatype Deposit = Deposit(position: Position, ltv: Ltv)

  function DepositOf(market: Market, slot: CollateralSlot, rates: Rates, group: nat): Result<Deposit>
  {
    match ReserveByAddress(market.reserves, slot.reserve)
    case None => Err("deposit reserve was not found on the market")
    case Some(r) =>
      var ltv :- LtvForReserve(market, r, group);
      var exchangeRate :- RateOf(rates, r.address, r.collateralExchangeRate);
      var amount := slot.depositedAmount as real / exchangeRate;
      Ok(Deposit(Position(r.address, amount, Value(amount, r)), ltv))
  }

  datatype DepositStats = DepositStats(positions: map<Pubkey, Position>, totals: DepositTotals)

  /** Totals and positions over all slots in use. */
  function DepositStatsOf(market: Market, slots: seq<CollateralSlot>, rates: Rates, group: nat): Result<DepositStats>
  {
    if slots == [] then Ok(DepositStats(map[], NO_DEPOSITS))
    else
      var last := slots[|slots| - 1];
      var stats :- DepositStatsOf(market, slots[..|slots| - 1], rates, group);
      if !IsNotNull(last.reserve) then Ok(stats)
      else
        var d :- DepositOf(market, last, rates, group);
        Ok(DepositStats(
          stats.positions[d.position.reserve := d.position],
          stats.totals.Plus(DepositTerms(d.position.marketValue, d.ltv))))
  }

  method CalculateObligationDeposits(market: Market, slots: seq<CollateralSlot>, rates: Rates, group: nat)
    returns (r: Result<DepositStats>)
    ensures r == DepositStatsOf(market, slots, rates, group)
  {
    var deposit, collateral, liquidatable, borrowLimit, liquidationLimit := 0.0, 0.0, 0.0, 0.0, 0.0;
    var positions: map<Pubkey, Position> := map[];
    for i := 0 to |slots|
      invariant DepositStatsOf(market, slots[..i], rates, group)
             == Ok(DepositStats(positions, DepositTotals(deposit, collateral, liquidatable, borrowLimit, liquidationLimit)))
    {
      assert slots[..i + 1][..i] == slots[..i];
      if !IsNotNull(slots[i].reserve) {
        continue;
      }
      var d := DepositOf(market, slots[i], rates, group);
      if d.Err? {
        DepositFailureSticks(market, slots, rates, group, i + 1);
        return Err(d.error);
      }
      var value, ltv := d.value.position.marketValue, d.value.ltv;
      deposit := deposit + value;
      if ltv.maxLtv != 0.0 {
        collateral := collateral + value;
      }
      if ltv.liquidationLtv != 0.0 {
        liquidatable := liquidatable + value;
      }
      borrowLimit := borrowLimit + Mul(value, ltv.maxLtv);
      liquidationLimit := liquidationLimit + Mul(value, ltv.liquidationLtv);
      positions := positions[d.value.position.reserve := d.value.position];
    }
    assert slots[..|slots|] == slots;
    r := Ok(DepositStats(positions, DepositTotals(deposit, collateral, liquidatable, borrowLimit, liquidationLimit)));
  }

  lemma {:induction false} DepositFailureSticks(market: Market, slots: seq<CollateralSlot>, rates: Rates, group: nat, k: nat)
    requires k <= |slots| && DepositStatsOf(market, slots[..k], rates, group).Err?
    ensures DepositStatsOf(market, slots, rates, group) == DepositStatsOf(market, slots[..k], rates, group)
  {
    if k < |slots| {
      var init := slots[..|slots| - 1];
      assert init[..k] == slots[..k];
      DepositFailureSticks(market, init, rates, group, k);
    } else {
      assert slots[..k] == slots;
    }
  }

  /** What one slot adds to the totals. */
  function SlotTerms(market: Market, slot: CollateralSlot, rates: Rates, group: nat): DepositTotals
  {
    if !IsNotNull(slot.reserve) then NO_DEPOSITS
    else
      var d := DepositOf(market, slot, rates, group);
      if d.Err? then NO_DEPOSITS else DepositTerms(d.value.position.marketValue, d.value.ltv)
  }

  predicate Known(market: Market, slot: CollateralSlot, rates: Rates, group: nat)
  {
    IsNotNull(slot.reserve) ==> DepositOf(market, slot, rates, group).Ok?
  }

  /** Overwriting one slot replaces its terms and leaves the rest of every total alone. */
  lemma {:induction false} TotalsAfterUpdate(
    market: Market, slots: seq<CollateralSlot>, rates: Rates, group: nat, k: nat, slot: CollateralSlot)
    requires k < |slots| && DepositStatsOf(market, slots, rates, group).Ok? && Known(market, slot, rates, group)
    ensures DepositStatsOf(market, slots[k := slot], rates, group).Ok?
    ensures DepositStatsOf(market, slots[k := slot], rates, group).value.totals.Plus(SlotTerms(market, slots[k], rates, group))
         == DepositStatsOf(market, slots, rates, group).value.totals.Plus(SlotTerms(market, slot, rates, group))
  {
    hide DepositTerms, DepositOf;
    var n := |slots| - 1;
    var init := slots[..n];
    if k < n {
      TotalsAfterUpdate(market, init, rates, group, k, slot);
      assert slots[k := slot][..n] == init[k := slot];
    } else {
      assert slots[k := slot][..n] == init;
    }
  }

  // ----- What the totals say -----

  /** Inside a group of the reserve the group's percentages apply, outside the reserve's own LTVs. */
  lemma LtvIsConfigured(market: Market, r: ReserveView, group: nat)
    ensures GroupActive(r, group) ==>
              var g, ltv := ElevationGroupAt(market, group), LtvForReserve(market, r, group);
              && (ltv.Ok? <==> g.Some?)
              && (ltv.Ok? ==>
                    && 100.0 * ltv.value.maxLtv == g.value.ltvPct as real
                    && 100.0 * ltv.value.liquidationLtv == g.value.liquidationThresholdPct as real)
    ensures !GroupActive(r, group) ==> LtvForReserve(market, r, group) == Ok(Ltv(r.loanToValue, r.liquidationThreshold))
  {}

  /** No LTV, of a reserve or a group, is negative or above its liquidation LTV. */
  ghost predicate LtvsInOrder(market: Market)
  {
    && (forall i :: 0 <= i < |market.reserves| ==> 0.0 <= market.reserves[i].loanToValue <= market.reserves[i].liquidationThreshold)
    && (forall i :: 0 <= i < |market.elevationGroups| ==>
          market.elevationGroups[i].ltvPct <= market.elevationGroups[i].liquidationThresholdPct)
  }

  lemma LtvIsInOrder(market: Market, r: ReserveView, group: nat)
    requires LtvsInOrder(market) && r in market.reserves && LtvForReserve(market, r, group).Ok?
    ensures 0.0 <= LtvForReserve(market, r, group).value.maxLtv <= LtvForReserve(market, r, group).value.liquidationLtv
  {
    LtvIsConfigured(market, r, group);
    if GroupActive(r, group) { assert market.elevationGroups[group - 1] == ElevationGroupAt(market, group).value; }
  }

  /** With LTVs in order, nobody may borrow to where they are liquidated: the totals are in order too. */
  lemma {:induction false} LimitsAreInOrder(market: Market, slots: seq<CollateralSlot>, rates: Rates, group: nat)
    requires LtvsInOrder(market) && DepositStatsOf(market, slots, rates, group).Ok?
    ensures var t := DepositStatsOf(market, slots, rates, group).value.totals;
            && 0.0 <= t.borrowLimit <= t.liquidationLimit
            && 0.0 <= t.collateral <= t.liquidatable <= t.deposit
  {
    hide Mul, Value, LtvForReserve, RateOf;
    if slots != [] {
      var n := |slots| - 1;
      LimitsAreInOrder(market, slots[..n], rates, group);
      if IsNotNull(slots[n].reserve) {
        var r := ReserveByAddress(market.reserves, slots[n].reserve).value;
        var d := DepositOf(market, slots[n], rates, group).value;
        LtvIsInOrder(market, r, group);
        ValueIsLinear(0.0, d.position.amount, r);
        MulNonNegative(d.position.marketValue, d.ltv.maxLtv);
        MulMonotone(d.ltv.maxLtv, d.ltv.liquidationLtv, d.position.marketValue);
      }
    }
  }

  /** The totals and the position of a single deposit. */
  lemma OneDeposit(market: Market, key: Pubkey, cTokens: nat, rates: map<Pubkey, Positive>, group: nat)
    requires IsNotNull(key) && key in rates && ReserveByAddress(market.reserves, key).Some?
    requires LtvForReserve(market, ReserveByAddress(market.reserves, key).value, group).Ok?
    ensures var r := ReserveByAddress(market.reserves, key).value;
            var ltv := LtvForReserve(market, r, group).value;
            var amount := cTokens as real / rates[key];
            var stats := DepositStatsOf(market, [CollateralSlot(key, cTokens)], Given(rates), group);
            && stats.Ok? && stats.value.positions == map[key := Position(key, amount, Value(amount, r))]
            && TotalsMoved(NO_DEPOSITS, stats.value.totals, Value(amount, r), ltv)
  {
    hide Mul, Value, LtvForReserve;
    var slots := [CollateralSlot(key, cTokens)];
    assert slots[..0] == [];
  }

  // ----- Borrow totals -----

  datatype BorrowTotals = BorrowTotals(borrow: real, adjusted: real, positions: int) {
    function Plus(o: BorrowTotals): BorrowTotals {
      BorrowTotals(borrow + o.borrow, adjusted + o.adjusted, positions + o.positions)
    }
  }

  const NO_BORROWS := BorrowTotals(0.0, 0.0, 0)

  datatype Borrow = Borrow(position: Position, borrowFactor: Positive)

  function BorrowOf(market: Market, slot: LiquiditySlot, rates: Rates, group: nat): Result<Borrow>
  {
    match ReserveByAddress(market.reserves, slot.reserve)
    case None => Err("borrow reserve was not found on the market")
    case Some(r) =>
      var rate :- RateOf(rates, r.address, r.cumulativeBorrowRate);
      var amount := Mul(slot.borrowedAmount, rate) / slot.cumulativeBorrowRate;
      Ok(Borrow(Position(r.address, amount, Value(amount, r)), BorrowFactorForReserve(r, group)))
  }

  function BorrowTerms(b: Borrow): BorrowTotals
  {
    BorrowTotals(
      b.position.marketValue,
      Mul(b.position.marketValue, b.borrowFactor),
      if b.position.amount == 0.0 then 0 else 1)
  }

  datatype BorrowStats = BorrowStats(positions: map<Pubkey, Position>, totals: BorrowTotals)

  function BorrowStatsOf(market: Market, slots: seq<LiquiditySlot>, rates: Rates, group: nat): Result<BorrowStats>
  {
    if slots == [] then Ok(BorrowStats(map[], NO_BORROWS))
    else
      var last := slots[|slots| - 1];
      var stats :- BorrowStatsOf(market, slots[..|slots| - 1], rates, group);
      if !IsNotNull(last.reserve) then Ok(stats)
      else
        var b :- BorrowOf(market, last, rates, group);
        Ok(BorrowStats(stats.positions[b.position.reserve := b.position], stats.totals.Plus(BorrowTerms(b))))
  }

  method CalculateObligationBorrows(market: Market, slots: seq<LiquiditySlot>, rates: Rates, group: nat)
    returns (r: Result<BorrowStats>)
    ensures r == BorrowStatsOf(market, slots, rates, group)
  {
    var borrow, adjusted, count := 0.0, 0.0, 0;
    var positions: map<Pubkey, Position> := map[];
    for i := 0 to |slots|
      invariant BorrowStatsOf(market, slots[..i], rates, group)
             == Ok(BorrowStats(positions, BorrowTotals(borrow, adjusted, count)))
    {
      assert slots[..i + 1][..i] == slots[..i];
      if !IsNotNull(slots[i].reserve) {
        continue;
      }
      var b := BorrowOf(market, slots[i], rates, group);
      if b.Err? {
        BorrowFailureSticks(market, slots, rates, group, i + 1);
        return Err(b.error);
      }
      if b.value.position.amount != 0.0 {
        count := count + 1;
      }
      borrow := borrow + b.value.position.marketValue;
      adjusted := adjusted + Mul(b.value.position.marketValue, b.value.borrowFactor);
      positions := positions[b.value.position.reserve := b.value.position];
    }
    assert slots[..|slots|] == slots;
    r := Ok(BorrowStats(positions, BorrowTotals(borrow, adjusted, count)));
  }

  lemma {:induction false} BorrowFailureSticks(market: Market, slots: seq<LiquiditySlot>, rates: Rates, group: nat, k: nat)
    requires k <= |slots| && BorrowStatsOf(market, slots[..k], rates, group).Err?
    ensures BorrowStatsOf(market, slots, rates, group) == BorrowStatsOf(market, slots[..k], rates, group)
  {
    if k < |slots| {
      var init := slots[..|slots| - 1];
      assert init[..k] == slots[..k];
      BorrowFailureSticks(market, init, rates, group, k);
    } else {
      assert slots[..k] == slots;
    }
  }

  function DebtTerms(market: Market, slot: LiquiditySlot, rates: Rates, group: nat): BorrowTotals
  {
    if !IsNotNull(slot.reserve) then NO_BORROWS
    else
      var b := BorrowOf(market, slot, rates, group);
      if b.Err? then NO_BORROWS else BorrowTerms(b.value)
  }

  predicate KnownDebt(market: Market, slot: LiquiditySlot, rates: Rates, group: nat)
  {
    IsNotNull(slot.reserve) ==> BorrowOf(market, slot, rates, group).Ok?
  }

  lemma {:induction false} DebtAfterUpdate(
    market: Market, slots: seq<LiquiditySlot>, rates: Rates, group: nat, k: nat, slot: LiquiditySlot)
    requires k < |slots| && BorrowStatsOf(market, slots, rates, group).Ok? && KnownDebt(market, slot, rates, group)
    ensures BorrowStatsOf(market, slots[k := slot], rates, group).Ok?
    ensures BorrowStatsOf(market, slots[k := slot], rates, group).value.totals.Plus(DebtTerms(market, slots[k], rates, group))
         == BorrowStatsOf(market, slots, rates, group).value.totals.Plus(DebtTerms(market, slot, rates, group))
  {
    hide BorrowTerms, BorrowOf;
    var n := |slots| - 1;
    var init := slots[..n];
    if k < n {
      DebtAfterUpdate(market, init, rates, group, k, slot);
      assert slots[k := slot][..n] == init[k := slot];
    } else {
      assert slots[k := slot][..n] == init;
    }
  }

  /** The totals and the position of a single borrow. */
  lemma OneBorrow(market: Market, slot: LiquiditySlot, rates: map<Pubkey, Positive>, group: nat)
    requires IsNotNull(slot.reserve) && slot.reserve in rates && ReserveByAddress(market.reserves, slot.reserve).Some?
    ensures var r := ReserveByAddress(market.reserves, slot.reserve).value;
            var amount := Owed(slot.borrowedAmount, rates[slot.reserve], slot.cumulativeBorrowRate);
            var stats := BorrowStatsOf(market, [slot], Given(rates), group);
            && stats.Ok? && stats.value.positions == map[slot.reserve := Position(slot.reserve, amount, Value(amount, r))]
            && stats.value.totals == BorrowTotals(Value(amount, r), Mul(Value(amount, r), BorrowFactorForReserve(r, group)), if amount == 0.0 then 0 else 1)
  {
    hide Mul, Value, BorrowFactorForReserve;
    assert [slot][..0] == [];
  }

  /** Inside a group of the reserve a debt counts as it is, outside at the reserve's own percentage. */
  lemma BorrowFactorIsConfigured(r: ReserveView, group: nat, value: real)
    ensures var adjusted := Mul(value, BorrowFactorForReserve(r, group));
            if GroupActive(r, group) then adjusted == value else 100.0 * adjusted == Mul(value, r.borrowFactorPct)
  {
    var f := BorrowFactorForReserve(r, group);
    if !GroupActive(r, group) {
      assert f * 100.0 == r.borrowFactorPct;
      assert 100.0 * (value * f) == value * (f * 100.0);
    }
  }

  // ----- Positions and stored rates -----

  /** The positions are those of the slots in use, each slot's under its reserve. */
  lemma {:induction false} DepositPositionsAreTheSlots(market: Market, slots: seq<CollateralSlot>, rates: Rates, group: nat, i: nat)
    requires Distinct(slots) && DepositStatsOf(market, slots, rates, group).Ok? && i < |slots| && IsNotNull(slots[i].reserve)
    ensures var r, positions := ReserveByAddress(market.reserves, slots[i].reserve), DepositStatsOf(market, slots, rates, group).value.positions;
            && r.Some? && RateOf(rates, slots[i].reserve, r.value.collateralExchangeRate).Ok?
            && slots[i].reserve in positions
            && var amount := slots[i].depositedAmount as real / RateOf(rates, slots[i].reserve, r.value.collateralExchangeRate).value;
               positions[slots[i].reserve] == Position(slots[i].reserve, amount, Value(amount, r.value))
  {
    hide Value, LtvForReserve, DepositTerms, RateOf;
    var n := |slots| - 1;
    if i < n { DepositPositionsAreTheSlots(market, slots[..n], rates, group, i); }
  }

  lemma {:induction false} NoOtherDepositPositions(market: Market, slots: seq<CollateralSlot>, rates: Rates, group: nat)
    requires DepositStatsOf(market, slots, rates, group).Ok?
    ensures forall k :: k in DepositStatsOf(market, slots, rates, group).value.positions ==>
              exists i :: 0 <= i < |slots| && slots[i].reserve == k && IsNotNull(k)
  {
    hide Value, LtvForReserve, DepositTerms, RateOf;
    if slots != [] { NoOtherDepositPositions(market, slots[..|slots| - 1], rates, group); }
  }

  lemma {:induction false} BorrowPositionsAreTheSlots(market: Market, slots: seq<LiquiditySlot>, rates: Rates, group: nat, i: nat)
    requires ValidBorrows(slots) && BorrowStatsOf(market, slots, rates, group).Ok? && i < |slots| && IsNotNull(slots[i].reserve)
    ensures var r, positions := ReserveByAddress(market.reserves, slots[i].reserve), BorrowStatsOf(market, slots, rates, group).value.positions;
            && r.Some? && RateOf(rates, slots[i].reserve, r.value.cumulativeBorrowRate).Ok?
            && slots[i].reserve in positions
            && var amount := Owed(slots[i].borrowedAmount, RateOf(rates, slots[i].reserve, r.value.cumulativeBorrowRate).value, slots[i].cumulativeBorrowRate);
               positions[slots[i].reserve] == Position(slots[i].reserve, amount, Value(amount, r.value))
  {
    hide Mul, Value, BorrowFactorForReserve, BorrowTerms, RateOf;
    var n := |slots| - 1;
    if i < n { BorrowPositionsAreTheSlots(market, slots[..n], rates, group, i); }
  }

  lemma {:induction false} NoOtherBorrowPositions(market: Market, slots: seq<LiquiditySlot>, rates: Rates, group: nat)
    requires BorrowStatsOf(market, slots, rates, group).Ok?
    ensures forall k :: k in BorrowStatsOf(market, slots, rates, group).value.positions ==>
              exists i :: 0 <= i < |slots| && slots[i].reserve == k && IsNotNull(k)
  {
    hide Mul, Value, BorrowFactorForReserve, BorrowTerms, RateOf;
    if slots != [] { NoOtherBorrowPositions(market, slots[..|slots| - 1], rates, group); }
  }

  /** Without given rates the totals are those at the rates the reserves hold. */
  lemma {:induction false} StoredRatesAreTheReserves(market: Market, deposits: seq<CollateralSlot>, rates: map<Pubkey, Positive>, group: nat)
    requires forall i :: 0 <= i < |deposits| && IsNotNull(deposits[i].reserve) ==>
               var r := ReserveByAddress(market.reserves, deposits[i].reserve);
               r.Some? ==> deposits[i].reserve in rates && rates[deposits[i].reserve] == r.value.collateralExchangeRate
    ensures DepositStatsOf(market, deposits, Stored, group) == DepositStatsOf(market, deposits, Given(rates), group)
  {
    hide Value, LtvForReserve, DepositTerms;
    if deposits != [] { StoredRatesAreTheReserves(market, deposits[..|deposits| - 1], rates, group); }
  }

  lemma {:induction false} StoredDebtRatesAreTheReserves(market: Market, borrows: seq<LiquiditySlot>, rates: map<Pubkey, Positive>, group: nat)
    requires forall i :: 0 <= i < |borrows| && IsNotNull(borrows[i].reserve) ==>
               var r := ReserveByAddress(market.reserves, borrows[i].reserve);
               r.Some? ==> borrows[i].reserve in rates && rates[borrows[i].reserve] == r.value.cumulativeBorrowRate
    ensures BorrowStatsOf(market, borrows, Stored, group) == BorrowStatsOf(market, borrows, Given(rates), group)
  {
    hide Mul, Value, BorrowFactorForReserve, BorrowTerms;
    if borrows != [] { StoredDebtRatesAreTheReserves(market, borrows[..|borrows| - 1], rates, group); }
  }

  // ----- Simulated deposit changes -----

  /** Rounding to a whole number of cTokens, ties away from zero. */
  function Rounded(x: real): int { if x >= 0.0 then Floor(x + 0.5) else -Floor(-x + 0.5) }

  lemma RoundedIsOdd(x: real)
    ensures Rounded(-x) == -Rounded(x)
    ensures x - 0.5 <= Rounded(x) as real <= x + 0.5
    ensures x >= 0.0 ==> Rounded(x) >= 0
  {}

  function ClampToNat(x: int): nat { if x >= 0 then x else 0 }

  /** The first slot holding a key, or -1. */
  function DepositIndex(slots: seq<CollateralSlot>, key: Pubkey): (k: int)
    ensures -1 <= k < |slots|
    ensures k >= 0 ==> slots[k].reserve == key && forall i :: 0 <= i < k ==> slots[i].reserve != key
    ensures k == -1 ==> forall i :: 0 <= i < |slots| ==> slots[i].reserve != key
  {
    if slots == [] then -1
    else
      var k := DepositIndex(slots[..|slots| - 1], key);
      if k >= 0 then k else if slots[|slots| - 1].reserve == key then |slots| - 1 else -1
  }

  function Credited(amount: nat, change: real, rate: Positive): nat
  {
    ClampToNat(amount + Rounded(Mul(change, rate)))
  }

  /** The slots after a change, as the copying loop leaves them. */
  function CopiedWithChange(slots: seq<CollateralSlot>, change: real, key: Pubkey, rate: Positive): (r: seq<CollateralSlot>)
    ensures |r| == |slots|
    ensures forall i :: 0 <= i < |slots| ==> r[i] == SlotWithChange(slots[i], change, key, rate)
  {
    if slots == [] then []
    else
      var n := |slots| - 1;
      CopiedWithChange(slots[..n], change, key, rate) + [SlotWithChange(slots[n], change, key, rate)]
  }

  function SlotWithChange(slot: CollateralSlot, change: real, key: Pubkey, rate: Positive): CollateralSlot
  {
    if slot.reserve == key then slot.(depositedAmount := Credited(slot.depositedAmount, change, rate)) else slot
  }

  method SimulateDepositChange(
    slots: seq<CollateralSlot>, changeInLamports: real, changeReserve: Pubkey, rates: map<Pubkey, Positive>)
    returns (r: Result<seq<CollateralSlot>>)
    ensures changeReserve in rates ==> r == DepositChanged(slots, changeInLamports, changeReserve, rates[changeReserve])
    ensures changeReserve !in rates ==> r.Err?
  {
    if changeReserve !in rates {
      // every path needs the rate, except the one that finds no slot at all, which fails as well
      return Err("exchange rate is undefined");
    }
    var exchangeRate := rates[changeReserve];
    var newDeposits: seq<CollateralSlot> := [];
    var depositIndex := DepositIndex(slots, changeReserve);
    for i := 0 to |slots|
      invariant newDeposits == CopiedWithChange(slots[..i], changeInLamports, changeReserve, exchangeRate)
    {
      assert slots[..i + 1][..i] == slots[..i];
      if slots[i].reserve == changeReserve {
        var updated := slots[i].depositedAmount + Rounded(Mul(changeInLamports, exchangeRate));
        newDeposits := newDeposits + [slots[i].(depositedAmount := ClampToNat(updated))];
      } else {
        newDeposits := newDeposits + [slots[i]];
      }
    }
    assert slots[..|slots|] == slots;
    if depositIndex == -1 {
      var firstAvailable := DepositIndex(slots, DefaultKey);
      if firstAvailable == -1 {
        return Err("No available borrows to modify");
      }
      var amount := ClampToNat(Rounded(Mul(changeInLamports, exchangeRate)));
      newDeposits := newDeposits[firstAvailable := CollateralSlot(changeReserve, amount)];
    }
    r := Ok(newDeposits);
  }

  /** The slot a change goes to: the one holding the reserve, else the first free one. */
  function TargetSlot(slots: seq<CollateralSlot>, key: Pubkey): (k: int)
    ensures -1 <= k < |slots|
  {
    var k := DepositIndex(slots, key);
    if k >= 0 then k else DepositIndex(slots, DefaultKey)
  }

  function DepositChanged(slots: seq<CollateralSlot>, change: real, key: Pubkey, rate: Positive): Result<seq<CollateralSlot>>
  {
    var copied := CopiedWithChange(slots, change, key, rate);
    if DepositIndex(slots, key) >= 0 then Ok(copied)
    else if TargetSlot(slots, key) == -1 then Err("No available borrows to modify")
    else Ok(copied[TargetSlot(slots, key) := CollateralSlot(key, Credited(0, change, rate))])
  }

  /** No reserve holds two slots. */
  ghost predicate Distinct(slots: seq<CollateralSlot>)
  {
    forall i, j :: 0 <= i < j < |slots| && IsNotNull(slots[i].reserve) ==> slots[i].reserve != slots[j].reserve
  }

  function AmountAt(slots: seq<CollateralSlot>, k: int, key: Pubkey): nat
    requires 0 <= k < |slots|
  {
    if slots[k].reserve == key then slots[k].depositedAmount else 0
  }

  /** A change rewrites exactly one slot, credits it with the rounded cTokens, and keeps slots distinct. */
  lemma DepositChangeIsLocal(slots: seq<CollateralSlot>, change: real, key: Pubkey, rate: Positive)
    requires Distinct(slots) && IsNotNull(key)
    ensures DepositChanged(slots, change, key, rate).Err? <==> TargetSlot(slots, key) == -1
    ensures TargetSlot(slots, key) >= 0 ==>
              var k, after := TargetSlot(slots, key), DepositChanged(slots, change, key, rate).value;
              && after == slots[k := CollateralSlot(key, Credited(AmountAt(slots, k, key), change, rate))]
              && Distinct(after)
              && TargetSlot(after, key) == k
  {
    hide Credited;
    var k := TargetSlot(slots, key);
    if k >= 0 {
      var after := DepositChanged(slots, change, key, rate).value;
      var expected := slots[k := CollateralSlot(key, Credited(AmountAt(slots, k, key), change, rate))];
      forall i | 0 <= i < |slots| ensures after[i] == expected[i] {}
      assert after == expected;
      assert after[k].reserve == key;
      assert DepositIndex(after, key) == k;
    }
  }

  /** What a deposit slot of a known reserve adds, per cToken. */
  lemma SlotTermsOf(market: Market, key: Pubkey, amount: nat, rates: Rates, group: nat)
    requires IsNotNull(key) && Known(market, CollateralSlot(key, amount), rates, group)
    ensures var r := ReserveByAddress(market.reserves, key);
            && r.Some? && LtvForReserve(market, r.value, group).Ok?
            && RateOf(rates, key, r.value.collateralExchangeRate).Ok?
            && SlotTerms(market, CollateralSlot(key, amount), rates, group)
               == DepositTerms(
                    Value(amount as real / RateOf(rates, key, r.value.collateralExchangeRate).value, r.value),
                    LtvForReserve(market, r.value, group).value)
  {}

  lemma MulOfNegative(x: real, y: real)
    ensures Mul(-x, y) == -Mul(x, y)
  {}

  /** A slot not yet holding the reserve adds as much as an empty slot of that reserve: nothing. */
  lemma UnusedSlotAddsNothing(market: Market, slots: seq<CollateralSlot>, key: Pubkey, rates: Rates, group: nat)
    requires IsNotNull(key) && Known(market, CollateralSlot(key, 0), rates, group) && TargetSlot(slots, key) >= 0
    ensures var k := TargetSlot(slots, key);
            SlotTerms(market, slots[k], rates, group)
            == SlotTerms(market, CollateralSlot(key, AmountAt(slots, k, key)), rates, group)
  {
    hide Mul;
    var k := TargetSlot(slots, key);
    SlotTermsOf(market, key, 0, rates, group);
    if slots[k].reserve != key {
      var r := ReserveByAddress(market.reserves, key).value;
      var ltv := LtvForReserve(market, r, group).value;
      ValueIsLinear(0.0, 0.0, r);
      MulUnit(ltv.maxLtv);
      MulUnit(ltv.liquidationLtv);
    }
  }

  /** Value of a number of cTokens of a reserve. */
  function CTokenValue(cTokens: real, rate: Positive, r: ReserveView): real { Value(cTokens / rate, r) }

  lemma CTokenValueIsLinear(a: real, b: real, rate: Positive, r: ReserveView)
    ensures CTokenValue(a + b, rate, r) == CTokenValue(a, rate, r) + CTokenValue(b, rate, r)
    ensures CTokenValue(-a, rate, r) == -CTokenValue(a, rate, r)
    ensures a <= b ==> CTokenValue(a, rate, r) <= CTokenValue(b, rate, r)
    ensures CTokenValue(Mul(a, rate), rate, r) == Value(a, r)
  {
    hide Value;
    ValueIsLinear(a / rate, b / rate, r);
    assert (a + b) / rate == a / rate + b / rate;
    assert (-a) / rate == -(a / rate);
    assert Mul(a, rate) / rate == a;
    if a <= b { assert a / rate <= b / rate; }
  }

  /**
   The five totals move together: the deposit total by a value, the collateral and liquidatable
   totals by that value unless their LTV is zero, each limit by the value at its LTV.
   */
  ghost predicate TotalsMoved(before: DepositTotals, now: DepositTotals, moved: real, ltv: Ltv)
  {
    && now.deposit == before.deposit + moved
    && now.collateral == before.collateral + (if ltv.maxLtv == 0.0 then 0.0 else moved)
    && now.liquidatable == before.liquidatable + (if ltv.liquidationLtv == 0.0 then 0.0 else moved)
    && now.borrowLimit == before.borrowLimit + Mul(moved, ltv.maxLtv)
    && now.liquidationLimit == before.liquidationLimit + Mul(moved, ltv.liquidationLtv)
  }

  /** Rewriting the reserve's slot to another amount moves the totals by the value of the difference. */
  lemma AmountMovesTotals(
    market: Market, slots: seq<CollateralSlot>, key: Pubkey, rates: map<Pubkey, Positive>, group: nat, amount: nat)
    requires IsNotNull(key) && key in rates && TargetSlot(slots, key) >= 0
    requires Known(market, CollateralSlot(key, 0), Given(rates), group)
    requires DepositStatsOf(market, slots, Given(rates), group).Ok?
    ensures var k := TargetSlot(slots, key);
            var after := DepositStatsOf(market, slots[k := CollateralSlot(key, amount)], Given(rates), group);
            var r := ReserveByAddress(market.reserves, key);
            && after.Ok? && r.Some? && LtvForReserve(market, r.value, group).Ok?
            && var before := DepositStatsOf(market, slots, Given(rates), group).value.totals;
               var moved := CTokenValue(amount as real - AmountAt(slots, k, key) as real, rates[key], r.value);
               TotalsMoved(before, after.value.totals, moved, LtvForReserve(market, r.value, group).value)
  {
    hide Mul, Value, TargetSlot, LtvForReserve, SlotTerms;
    var k, rate := TargetSlot(slots, key), rates[key];
    var a := AmountAt(slots, k, key);
    UnusedSlotAddsNothing(market, slots, key, Given(rates), group);
    TotalsAfterUpdate(market, slots, Given(rates), group, k, CollateralSlot(key, amount));
    SlotTermsOf(market, key, a, Given(rates), group);
    SlotTermsOf(market, key, amount, Given(rates), group);
    var r := ReserveByAddress(market.reserves, key).value;
    CTokenValueIsLinear(a as real, amount as real - a as real, rate, r);
    var ltv, had, moved := LtvForReserve(market, r, group).value, CTokenValue(a as real, rate, r), CTokenValue(amount as real - a as real, rate, r);
    MulDistributes(ltv.maxLtv, had, moved);
    MulDistributes(ltv.liquidationLtv, had, moved);
  }

  /** Rounding a change to whole cTokens costs at most half a cToken either way. */
  lemma RoundingIsHalfACToken(change: real, rate: Positive, r: ReserveView)
    ensures var moved := CTokenValue(Rounded(Mul(change, rate)) as real, rate, r);
            -CTokenValue(0.5, rate, r) <= moved - Value(change, r) <= CTokenValue(0.5, rate, r)
  {
    hide Mul, Value, Rounded, CTokenValue;
    var exact := Mul(change, rate);
    var gap := Rounded(exact) as real - exact;
    RoundedIsOdd(exact);
    CTokenValueIsLinear(change, 0.0, rate, r);
    CTokenValueIsLinear(gap, 0.5, rate, r);
    CTokenValueIsLinear(-gap, 0.5, rate, r);
    CTokenValueIsLinear(gap, exact, rate, r);
  }

  /**
   An unclamped change moves all recomputed totals by the value of the rounded cTokens, which is
   the value of the change up to half a cToken.
   */
  lemma DepositChangeMovesTotals(
    market: Market, slots: seq<CollateralSlot>, change: real, key: Pubkey, rates: map<Pubkey, Positive>, group: nat)
    requires Distinct(slots) && IsNotNull(key) && key in rates && TargetSlot(slots, key) >= 0
    requires Known(market, CollateralSlot(key, 0), Given(rates), group)
    requires DepositStatsOf(market, slots, Given(rates), group).Ok?
    requires AmountAt(slots, TargetSlot(slots, key), key) + Rounded(Mul(change, rates[key])) >= 0
    ensures var after := DepositChanged(slots, change, key, rates[key]);
            var r := ReserveByAddress(market.reserves, key);
            && after.Ok? && DepositStatsOf(market, after.value, Given(rates), group).Ok?
            && r.Some? && LtvForReserve(market, r.value, group).Ok?
            && var before := DepositStatsOf(market, slots, Given(rates), group).value.totals;
               var now := DepositStatsOf(market, after.value, Given(rates), group).value.totals;
               var moved := now.deposit - before.deposit;
               && -CTokenValue(0.5, rates[key], r.value) <= moved - Value(change, r.value)
                  <= CTokenValue(0.5, rates[key], r.value)
               && TotalsMoved(before, now, moved, LtvForReserve(market, r.value, group).value)
  {
    hide Mul, Value, Rounded, CTokenValue, TargetSlot, DepositChanged, LtvForReserve, Known;
    var rate, k := rates[key], TargetSlot(slots, key);
    var a, n := AmountAt(slots, k, key), Rounded(Mul(change, rate));
    DepositChangeIsLocal(slots, change, key, rate);
    AmountMovesTotals(market, slots, key, rates, group, a + n);
    assert (a + n) as real - a as real == n as real;
    RoundingIsHalfACToken(change, rate, ReserveByAddress(market.reserves, key).value);
  }

  /** Depositing and then withdrawing the same amount restores every total, also when a fresh slot was taken. */
  lemma DepositThenWithdrawRestores(
    market: Market, slots: seq<CollateralSlot>, change: real, key: Pubkey, rates: map<Pubkey, Positive>, group: nat)
    requires Distinct(slots) && IsNotNull(key) && key in rates && TargetSlot(slots, key) >= 0 && change >= 0.0
    requires Known(market, CollateralSlot(key, 0), Given(rates), group)
    requires DepositStatsOf(market, slots, Given(rates), group).Ok?
    ensures var deposited := DepositChanged(slots, change, key, rates[key]);
            && deposited.Ok?
            && var withdrawn := DepositChanged(deposited.value, -change, key, rates[key]);
               && withdrawn.Ok? && DepositStatsOf(market, withdrawn.value, Given(rates), group).Ok?
               && DepositStatsOf(market, withdrawn.value, Given(rates), group).value.totals
                  == DepositStatsOf(market, slots, Given(rates), group).value.totals
  {
    hide Mul, Rounded, DepositChanged, TargetSlot, SlotTerms, DepositStatsOf, Distinct;
    var rate, k := rates[key], TargetSlot(slots, key);
    var a, n := AmountAt(slots, k, key), Rounded(Mul(change, rate));
    MulOfNegative(change, rate);
    MulNonNegative(change, rate);
    RoundedIsOdd(Mul(change, rate));
    DepositChangeIsLocal(slots, change, key, rate);
    var deposited := slots[k := CollateralSlot(key, a + n)];
    DepositChangeIsLocal(deposited, -change, key, rate);
    assert deposited[k := CollateralSlot(key, a)] == slots[k := CollateralSlot(key, a)];
    UnusedSlotAddsNothing(market, slots, key, Given(rates), group);
    TotalsAfterUpdate(market, slots, Given(rates), group, k, CollateralSlot(key, a));
  }

  // ----- Simulated borrow changes -----

  /** The first slot holding a key, or -1. */
  function BorrowIndex(slots: seq<LiquiditySlot>, key: Pubkey): (k: int)
    ensures -1 <= k < |slots|
    ensures k >= 0 ==> slots[k].reserve == key && forall i :: 0 <= i < k ==> slots[i].reserve != key
    ensures k == -1 ==> forall i :: 0 <= i < |slots| ==> slots[i].reserve != key
  {
    if slots == [] then -1
    else
      var k := BorrowIndex(slots[..|slots| - 1], key);
      if k >= 0 then k else if slots[|slots| - 1].reserve == key then |slots| - 1 else -1
  }

  /** The slot a borrow change goes to: the one holding the reserve, else the first free one. */
  function TargetBorrow(slots: seq<LiquiditySlot>, key: Pubkey): (k: int)
    ensures -1 <= k < |slots|
  {
    var k := BorrowIndex(slots, key);
    if k >= 0 then k else BorrowIndex(slots, DefaultKey)
  }

  /** The rewritten slot: an existing borrow keeps its rate, a fresh one takes the current rate. */
  function ChangedBorrow(slots: seq<LiquiditySlot>, change: real, key: Pubkey, currentRate: Positive): LiquiditySlot
    requires TargetBorrow(slots, key) >= 0
  {
    var slot := slots[TargetBorrow(slots, key)];
    if slot.reserve == key then slot.(borrowedAmount := PositiveOrZero(slot.borrowedAmount + change))
    else LiquiditySlot(key, change, currentRate)
  }

  /** Slot i after a change: every slot of the reserve becomes the changed copy of the first one. */
  function BorrowAt(slots: seq<LiquiditySlot>, i: nat, change: real, key: Pubkey, currentRate: Positive): LiquiditySlot
    requires i < |slots| && TargetBorrow(slots, key) >= 0
  {
    if slots[i].reserve == key || i == TargetBorrow(slots, key) then ChangedBorrow(slots, change, key, currentRate)
    else slots[i]
  }

  /** Fails when no slot is free, or when a fresh slot would start with a negative amount. */
  method SimulateBorrowChange(slots: seq<LiquiditySlot>, changeInLamports: real, changeReserve: Pubkey, currentRate: Positive)
    returns (r: Result<seq<LiquiditySlot>>)
    ensures r.Err? <==> TargetBorrow(slots, changeReserve) == -1
                        || (BorrowIndex(slots, changeReserve) == -1 && changeInLamports < 0.0)
    ensures r.Ok? ==> |r.value| == |slots|
    ensures r.Ok? ==> forall i :: 0 <= i < |slots| ==>
              r.value[i] == BorrowAt(slots, i, changeInLamports, changeReserve, currentRate)
  {
    var newBorrows: seq<LiquiditySlot> := [];
    var borrowIndex := BorrowIndex(slots, changeReserve);
    for i := 0 to |slots|
      invariant |newBorrows| == i
      invariant borrowIndex >= 0 ==> forall j :: 0 <= j < i ==>
                  newBorrows[j] == BorrowAt(slots, j, changeInLamports, changeReserve, currentRate)
      invariant borrowIndex == -1 ==> newBorrows == slots[..i]
    {
      if slots[i].reserve == changeReserve {
        var amount := slots[borrowIndex].borrowedAmount + changeInLamports;
        newBorrows := newBorrows + [slots[borrowIndex].(borrowedAmount := PositiveOrZero(amount))];
      } else {
        newBorrows := newBorrows + [slots[i]];
      }
    }
    if borrowIndex == -1 {
      var firstAvailable := BorrowIndex(slots, DefaultKey);
      if firstAvailable == -1 {
        return Err("No available borrows to modify");
      }
      if changeInLamports < 0.0 {
        return Err("Number out of range");
      }
      newBorrows := newBorrows[firstAvailable := LiquiditySlot(changeReserve, changeInLamports, currentRate)];
    }
    r := Ok(newBorrows);
  }

  /** No reserve holds two slots and no amount is negative. */
  ghost predicate ValidBorrows(slots: seq<LiquiditySlot>)
  {
    && (forall i, j :: 0 <= i < j < |slots| && IsNotNull(slots[i].reserve) ==> slots[i].reserve != slots[j].reserve)
    && (forall i :: 0 <= i < |slots| ==> slots[i].borrowedAmount >= 0.0)
  }

  /** On valid slots a change rewrites the target slot only, and keeps the slots valid. */
  lemma BorrowChangeIsLocal(
    slots: seq<LiquiditySlot>, change: real, key: Pubkey, currentRate: Positive, after: seq<LiquiditySlot>)
    requires ValidBorrows(slots) && IsNotNull(key) && TargetBorrow(slots, key) >= 0
    requires BorrowIndex(slots, key) == -1 ==> change >= 0.0
    requires |after| == |slots|
    requires forall i :: 0 <= i < |slots| ==> after[i] == BorrowAt(slots, i, change, key, currentRate)
    ensures after == slots[TargetBorrow(slots, key) := ChangedBorrow(slots, change, key, currentRate)]
    ensures ValidBorrows(after) && TargetBorrow(after, key) == TargetBorrow(slots, key)
  {
    var k := TargetBorrow(slots, key);
    forall i | 0 <= i < |slots|
      ensures after[i] == slots[k := ChangedBorrow(slots, change, key, currentRate)][i] {}
    assert after[k].reserve == key;
    assert BorrowIndex(after, key) == k;
  }

  /** Lamports owed on a slot at the reserve's rate. */
  function Owed(amount: real, rate: Positive, slotRate: Positive): real { Mul(amount, rate) / slotRate }

  lemma OwedIsLinear(a: real, b: real, rate: Positive, slotRate: Positive)
    ensures Owed(a + b, rate, slotRate) == Owed(a, rate, slotRate) + Owed(b, rate, slotRate)
    ensures Owed(0.0, rate, slotRate) == 0.0
    ensures Owed(a, slotRate, slotRate) == a
  {
    var x, y := Mul(a, rate), Mul(b, rate);
    assert Mul(a + b, rate) == x + y;
    assert (x + y) / slotRate == x / slotRate + y / slotRate;
    assert Mul(a, slotRate) / slotRate == a;
  }

  /** What the change's slot owes to the reserve before the change. */
  function BorrowedBefore(slots: seq<LiquiditySlot>, key: Pubkey): real
    requires TargetBorrow(slots, key) >= 0
  {
    var slot := slots[TargetBorrow(slots, key)];
    if slot.reserve == key then slot.borrowedAmount else 0.0
  }

  /** The part of a change that takes effect: a repayment stops at what is owed. */
  function EffectiveChange(slots: seq<LiquiditySlot>, change: real, key: Pubkey): real
    requires TargetBorrow(slots, key) >= 0
  {
    Max(change, -BorrowedBefore(slots, key))
  }

  lemma BorrowIsEffective(slots: seq<LiquiditySlot>, change: real, key: Pubkey)
    requires ValidBorrows(slots) && TargetBorrow(slots, key) >= 0 && change >= 0.0
    ensures EffectiveChange(slots, change, key) == change
  {}

  /**
   A change of either sign moves the plain debt by the value of its effective part at the ratio of
   the rates, and the adjusted debt by that value at the borrow factor.
   */
  lemma BorrowChangeMovesDebt(
    market: Market, slots: seq<LiquiditySlot>, change: real, key: Pubkey, currentRate: Positive,
    rates: map<Pubkey, Positive>, group: nat)
    requires ValidBorrows(slots) && IsNotNull(key) && key in rates && TargetBorrow(slots, key) >= 0
    requires ReserveByAddress(market.reserves, key).Some? && (BorrowIndex(slots, key) == -1 ==> change >= 0.0)
    requires BorrowStatsOf(market, slots, Given(rates), group).Ok?
    ensures var k, slot := TargetBorrow(slots, key), ChangedBorrow(slots, change, key, currentRate);
            var after := BorrowStatsOf(market, slots[k := slot], Given(rates), group);
            var r := ReserveByAddress(market.reserves, key).value;
            var moved := Value(Owed(EffectiveChange(slots, change, key), rates[key], slot.cumulativeBorrowRate), r);
            && after.Ok?
            && var before, now := BorrowStatsOf(market, slots, Given(rates), group).value.totals, after.value.totals;
               && now.borrow == before.borrow + moved
               && now.adjusted == before.adjusted + Mul(moved, BorrowFactorForReserve(r, group))
  {
    hide Mul, Value, TargetBorrow, BorrowFactorForReserve, Owed, DebtTerms, BorrowStatsOf;
    var k, slot := TargetBorrow(slots, key), ChangedBorrow(slots, change, key, currentRate);
    var r, rate := ReserveByAddress(market.reserves, key).value, rates[key];
    var had, effective := BorrowedBefore(slots, key), EffectiveChange(slots, change, key);
    var factor := BorrowFactorForReserve(r, group);
    TargetBorrowHolds(slots, key);
    assert slot.borrowedAmount == had + effective;
    DebtTermsOf(market, slot, rates, group);
    DebtAfterUpdate(market, slots, Given(rates), group, k, slot);
    UnusedDebtAddsNothing(market, slots, key, slot.cumulativeBorrowRate, rates, group);
    var before, extra := Owed(had, rate, slot.cumulativeBorrowRate), Owed(effective, rate, slot.cumulativeBorrowRate);
    OwedIsLinear(had, effective, rate, slot.cumulativeBorrowRate);
    ValueIsLinear(before, extra, r);
    MulDistributes(factor, Value(before, r), Value(extra, r));
  }

  lemma DebtTermsOf(market: Market, slot: LiquiditySlot, rates: map<Pubkey, Positive>, group: nat)
    requires IsNotNull(slot.reserve) && slot.reserve in rates && ReserveByAddress(market.reserves, slot.reserve).Some?
    ensures KnownDebt(market, slot, Given(rates), group)
    ensures var r := ReserveByAddress(market.reserves, slot.reserve).value;
            var value := Value(Owed(slot.borrowedAmount, rates[slot.reserve], slot.cumulativeBorrowRate), r);
            && DebtTerms(market, slot, Given(rates), group).borrow == value
            && DebtTerms(market, slot, Given(rates), group).adjusted == Mul(value, BorrowFactorForReserve(r, group))
  {}

  lemma UnusedDebtAddsNothing(
    market: Market, slots: seq<LiquiditySlot>, key: Pubkey, slotRate: Positive, rates: map<Pubkey, Positive>, group: nat)
    requires IsNotNull(key) && key in rates && ReserveByAddress(market.reserves, key).Some?
    requires TargetBorrow(slots, key) >= 0
    ensures var slot := slots[TargetBorrow(slots, key)];
            var r := ReserveByAddress(market.reserves, key).value;
            var value := Value(Owed(BorrowedBefore(slots, key), rates[key],
                                    if slot.reserve == key then slot.cumulativeBorrowRate else slotRate), r);
            && DebtTerms(market, slot, Given(rates), group).borrow == value
            && DebtTerms(market, slot, Given(rates), group).adjusted == Mul(value, BorrowFactorForReserve(r, group))
  {
    hide Mul, Value, BorrowFactorForReserve, Owed;
    TargetBorrowHolds(slots, key);
    var slot := slots[TargetBorrow(slots, key)];
    var r := ReserveByAddress(market.reserves, key).value;
    if slot.reserve == key {
      DebtTermsOf(market, slot, rates, group);
    } else {
      OwedIsLinear(0.0, 0.0, rates[key], slotRate);
      ValueIsLinear(0.0, 0.0, r);
      MulUnit(BorrowFactorForReserve(r, group));
    }
  }

  lemma TargetBorrowHolds(slots: seq<LiquiditySlot>, key: Pubkey)
    requires TargetBorrow(slots, key) >= 0
    ensures var k := TargetBorrow(slots, key);
            slots[k].reserve == key || (slots[k].reserve == DefaultKey && BorrowIndex(slots, key) == -1)
  {}

  /** Borrowing and then repaying the same amount restores every total, also when a fresh slot was taken. */
  lemma BorrowThenRepayRestores(
    market: Market, slots: seq<LiquiditySlot>, change: real, key: Pubkey, currentRate: Positive,
    rates: Rates, group: nat)
    requires ValidBorrows(slots) && IsNotNull(key) && TargetBorrow(slots, key) >= 0 && change >= 0.0
    requires KnownDebt(market, LiquiditySlot(key, 0.0, currentRate), rates, group)
    requires BorrowStatsOf(market, slots, rates, group).Ok?
    ensures var k := TargetBorrow(slots, key);
            var borrowed := slots[k := ChangedBorrow(slots, change, key, currentRate)];
            && ValidBorrows(borrowed) && TargetBorrow(borrowed, key) == k
            && var repaid := borrowed[k := ChangedBorrow(borrowed, -change, key, currentRate)];
               && BorrowStatsOf(market, repaid, rates, group).Ok?
               && BorrowStatsOf(market, repaid, rates, group).value.totals
                  == BorrowStatsOf(market, slots, rates, group).value.totals
  {
    hide Mul, DebtTerms, KnownDebt;
    var k := TargetBorrow(slots, key);
    var borrowed := slots[k := ChangedBorrow(slots, change, key, currentRate)];
    RepayUndoesBorrow(slots, change, key, currentRate);
    var second := ChangedBorrow(borrowed, -change, key, currentRate);
    if slots[k].reserve == key {
      assert slots[k := second] == slots;
    } else {
      DebtAfterUpdate(market, slots, rates, group, k, second);
      EmptyDebtAddsNothing(market, key, currentRate, rates, group);
      FreeSlotAddsNothing(market, slots[k], rates, group);
    }
  }

  lemma FreeSlotAddsNothing(market: Market, slot: LiquiditySlot, rates: Rates, group: nat)
    requires slot.reserve == DefaultKey
    ensures DebtTerms(market, slot, rates, group) == NO_BORROWS
  {}

  lemma RepayUndoesBorrow(slots: seq<LiquiditySlot>, change: real, key: Pubkey, currentRate: Positive)
    requires ValidBorrows(slots) && IsNotNull(key) && TargetBorrow(slots, key) >= 0 && change >= 0.0
    ensures var k := TargetBorrow(slots, key);
            var borrowed := slots[k := ChangedBorrow(slots, change, key, currentRate)];
            && ValidBorrows(borrowed) && TargetBorrow(borrowed, key) == k
            && var second := ChangedBorrow(borrowed, -change, key, currentRate);
               && borrowed[k := second] == slots[k := second]
               && second == (if slots[k].reserve == key then slots[k] else LiquiditySlot(key, 0.0, currentRate))
               && (slots[k].reserve == key || slots[k].reserve == DefaultKey)
  {
    var k := TargetBorrow(slots, key);
    TargetBorrowHolds(slots, key);
    var borrowed := slots[k := ChangedBorrow(slots, change, key, currentRate)];
    assert borrowed[k].reserve == key;
    assert BorrowIndex(borrowed, key) == k;
  }

  lemma EmptyDebtAddsNothing(market: Market, key: Pubkey, slotRate: Positive, rates: Rates, group: nat)
    requires IsNotNull(key) && KnownDebt(market, LiquiditySlot(key, 0.0, slotRate), rates, group)
    ensures DebtTerms(market, LiquiditySlot(key, 0.0, slotRate), rates, group) == NO_BORROWS
  {
    hide Mul, Value;
    var r := ReserveByAddress(market.reserves, key).value;
    var rate := RateOf(rates, r.address, r.cumulativeBorrowRate).value;
    OwedIsLinear(0.0, 0.0, rate, slotRate);
    ValueIsLinear(0.0, 0.0, r);
    MulUnit(BorrowFactorForReserve(r, group));
  }
}
