/**
 What lending steps move, summed over a trace by kind and reserve, against what the user asked
 for.
 */
module Movements {
  import opened Reals
  import opened Wrappers
  import opened Markets
  import opened Plans
  import opened Supports
  import opened ActionPlans
  import opened ActionTypes
  import Reserves

  /**
   Liquidity deposited, cTokens deposited, liquidity borrowed, liquidity repaid, cTokens withdrawn,
   and the least liquidity that a liquidation accepts.
   */
  datatype Movement = LiquidityIn | CollateralIn | BorrowOut | RepayIn | CollateralOut | LeastAccepted

  /** The amount an effect carries for its i-th reserve, if that is the key. */
  function AmountFor(e: Effect, i: nat, key: Pubkey): nat
    requires e.Lent?
  {
    if i < |e.acting| && i < |e.amounts| && e.acting[i] == key then e.amounts[i] else 0
  }

  function MovedBy(e: Effect, mv: Movement, key: Pubkey): nat
  {
    if e.Requested? then 0
    else
      match mv
      case LiquidityIn => if e.lending == DepositLiquidity then AmountFor(e, 0, key) else 0
      case CollateralIn => if e.lending == DepositObligationCollateral then AmountFor(e, 0, key) else 0
      case BorrowOut => if e.lending == BorrowLiquidity then AmountFor(e, 0, key) else 0
      case RepayIn => if e.lending in {RepayLiquidity, LiquidateObligation, RepayAndWithdrawInOne} then AmountFor(e, 0, key) else 0
      case CollateralOut =>
        if e.lending == WithdrawCollateral then AmountFor(e, 0, key)
        else if e.lending == RepayAndWithdrawInOne then AmountFor(e, 1, key)
        else 0
      case LeastAccepted => if e.lending == LiquidateObligation then AmountFor(e, 1, key) else 0
  }

  function Moved(trace: seq<Effect>, mv: Movement, key: Pubkey): nat
  {
    if trace == [] then 0 else Moved(trace[..|trace| - 1], mv, key) + MovedBy(trace[|trace| - 1], mv, key)
  }

  lemma {:induction false} MovedAppends(a: seq<Effect>, b: seq<Effect>, mv: Movement, key: Pubkey)
    ensures Moved(a + b, mv, key) == Moved(a, mv, key) + Moved(b, mv, key)
  {
    hide MovedBy;
    if b == [] {
      assert a + b == a;
    } else {
      var n := |b| - 1;
      assert (a + b)[..|a| + n] == a + b[..n];
      MovedAppends(a, b[..n], mv, key);
    }
  }

  lemma MovedOnce(e: Effect, mv: Movement, key: Pubkey)
    ensures Moved([e], mv, key) == MovedBy(e, mv, key) && Moved([], mv, key) == 0
  {
    hide MovedBy;
    assert [e][..0] == [];
  }

  lemma RequestsMoveNothing(group: Option<nat>, mv: Movement, key: Pubkey)
    ensures Moved(Requests(group), mv, key) == 0
  {
    if group.Some? { MovedOnce(Effect.Requested(group.value), mv, key); }
  }

  // ----- What was asked for -----

  /** The amount asked for, if the key is the action's reserve. */
  function Of(ctx: Context, key: Pubkey): nat { if key == ctx.reserve.address then ctx.amount else 0 }

  /** The outflow amount asked for, if the key is the outflow reserve. */
  function OutOf(ctx: Context, opts: Options, key: Pubkey): nat
  {
    if ctx.outflow.Some? && key == ctx.outflow.value.address then opts.outflowAmount else 0
  }

  /**
   What each action asks for: liquidity in, or out, by the amount; cTokens out by the amount they
   are to redeem for.
   */
  function AskedFor(action: ActionType, ctx: Context, opts: Options, mv: Movement, key: Pubkey): nat
  {
    match mv
    case LiquidityIn => if action in {Deposit, DepositAndBorrow} then Of(ctx, key) else 0
    case CollateralIn => if action == ActionType.DepositCollateral then Of(ctx, key) else 0
    case BorrowOut => if action == Borrow then Of(ctx, key) else if action == DepositAndBorrow then OutOf(ctx, opts, key) else 0
    case RepayIn => if action in {Repay, RepayAndWithdraw, RepayAndWithdrawV2, ActionType.Liquidate} then Of(ctx, key) else 0
    case CollateralOut =>
      if action == Withdraw && key == ctx.reserve.address then CollateralFor(ctx.reserve, ctx.amount)
      else if action in {RepayAndWithdraw, RepayAndWithdrawV2} && ctx.outflow.Some? && key == ctx.outflow.value.address then
        CollateralFor(ctx.outflow.value, opts.outflowAmount)
      else 0
    case LeastAccepted => if action == ActionType.Liquidate then OutOf(ctx, opts, key) else 0
  }

  lemma LendsMove(action: ActionType, ctx: Context, opts: Options, mv: Movement, key: Pubkey)
    requires NeedsSupport(action) && (MultiToken(action) ==> ctx.outflow.Some?)
    ensures var lends := Lends(action, ctx, opts);
            MovedBy(EffectOf(lends[0]), mv, key) + (if TwoStep(action) then MovedBy(EffectOf(lends[1]), mv, key) else 0)
            == AskedFor(action, ctx, opts, mv, key)
  {
    hide CollateralFor;
  }

  /** Every plan moves, of every kind and for every reserve, exactly what was asked for. */
  lemma PlanMovesWhatWasAsked(action: ActionType, ctx: Context, opts: Options, mv: Movement, key: Pubkey)
    requires Decided(action, ctx, opts)
    ensures Moved(TraceBeforeCleanup(action, ctx, opts), mv, key) == AskedFor(action, ctx, opts, mv, key)
    ensures Moved(ExpectedTrace(action, ctx, opts), mv, key) == AskedFor(action, ctx, opts, mv, key)
  {
    hide Moved, MovedBy, AskedFor, Lends, GroupBefore, GroupAfter, SetupCall, InBetweenCall, RepaidToSkip;
    var lends := Lends(action, ctx, opts);
    var first, last := GroupBefore(ctx, SetupCall(action, opts)).value, GroupAfter(ctx, SetupCall(action, opts)).value;
    var one := Requests(first) + [EffectOf(lends[0])];
    LendsMove(action, ctx, opts, mv, key);
    RequestsMoveNothing(first, mv, key);
    RequestsMoveNothing(last, mv, key);
    MovedOnce(EffectOf(lends[0]), mv, key);
    MovedAppends(Requests(first), [EffectOf(lends[0])], mv, key);
    var before := TraceBeforeCleanup(action, ctx, opts);
    if TwoStep(action) {
      var middle := GroupBefore(ctx, InBetweenCall(action, opts)).value;
      var two := Requests(middle) + [EffectOf(lends[1])];
      RequestsMoveNothing(middle, mv, key);
      MovedOnce(EffectOf(lends[1]), mv, key);
      MovedAppends(Requests(middle), [EffectOf(lends[1])], mv, key);
      MovedAppends(one, two, mv, key);
      assert before == one + two;
    } else {
      assert before == one + [] == one;
    }
    assert ExpectedTrace(action, ctx, opts) == before + Requests(last);
    MovedAppends(before, Requests(last), mv, key);
  }

  // ----- cTokens for an amount -----

  /** Less than everything redeems for at least the amount asked for, and less than a cToken's worth more. */
  lemma CollateralRedeems(reserve: ReserveView, amount: nat)
    requires amount != U64_MAX
    ensures var rate := reserve.collateralExchangeRate;
            var worth := CollateralFor(reserve, amount) as real / rate;
            amount as real <= worth < amount as real + 1.0 / rate && Floor(worth) >= amount
  {
    hide Mul;
    Reserves.CeilRedeems(amount as real, reserve.collateralExchangeRate, reserve.collateralExchangeRate);
  }

  lemma EverythingIsEverything(reserve: ReserveView)
    ensures CollateralFor(reserve, U64_MAX) == U64_MAX
  {}

  /** At the rate a reserve estimates for the slot these are the cTokens it computes. */
  lemma CollateralIsTheReserves(view: ReserveView, amount: nat, r: Reserves.Reserve, slot: int, referralFeeBps: nat)
    requires Reserves.EstimatedCollateralExchangeRate(r, slot, referralFeeBps) == Ok(view.collateralExchangeRate)
    ensures Reserves.WithdrawCollateralAmount(r, amount, slot, referralFeeBps) == Ok(CollateralFor(view, amount))
  {
    hide Reserves.EstimatedCollateralExchangeRate;
  }
}
