/**
 The mutable transaction builder: five instruction lists and a list of farm refreshes to come,
 each with its labels, filled step by step for one action.
 */
module ActionBuilder {
  import opened Wrappers
  import opened Markets
  import opened Plans
  import opened Supports
  import opened ActionPlans
  import opened ActionTypes
  import P = Programs

  lemma AppendTwice(p: Plan, where: AuxiliaryIx, a: seq<Ix>, b: seq<Ix>)
    ensures p.Append(where, a).Append(where, b) == p.Append(where, a + b)
  {
    assert p.List(where) + a + b == p.List(where) + (a + b);
  }

  lemma FarmsAddedTwice(p: Plan, where: AuxiliaryIx, a: seq<Ix>, b: seq<Ix>, twoToken: bool)
    ensures FarmsAdded(FarmsAdded(p, where, a, twoToken), where, b, twoToken) == FarmsAdded(p, where, a + b, twoToken)
    ensures FarmsAdded(p, where, [], twoToken) == p
  {
    assert p.setup + a + b == p.setup + (a + b) && p.setup + [] == p.setup;
    assert p.inBetween + a + b == p.inBetween + (a + b) && p.inBetween + [] == p.inBetween;
    assert p.farmsCleanup + a + b == p.farmsCleanup + (a + b) && p.farmsCleanup + [] == p.farmsCleanup;
  }

  lemma TokenAccountsUnfold(tags: seq<nat>)
    ensures tags == [] ==> TokenAccounts(tags) == []
    ensures tags != [] ==>
              && TokenAccounts(tags) == [Preparation(TokenAccount(tags[0]))] + TokenAccounts(tags[1..])
              && TokenAccounts(tags) == TokenAccounts(tags[..|tags| - 1]) + [Preparation(TokenAccount(tags[|tags| - 1]))]
  {}

  class KaminoAction {
    const ctx: Context

    var computeBudgetIxs: seq<Ix>
    var computeBudgetIxsLabels: seq<Label>
    var setupIxs: seq<Ix>
    var setupIxsLabels: seq<Label>
    var inBetweenIxs: seq<Ix>
    var inBetweenIxsLabels: seq<Label>
    var lendingIxs: seq<Ix>
    var lendingIxsLabels: seq<Label>
    var cleanupIxs: seq<Ix>
    var cleanupIxsLabels: seq<Label>
    var refreshFarmsCleanupTxnIxs: seq<Ix>
    var refreshFarmsCleanupTxnIxsLabels: seq<Label>
    var depositReserves: seq<Pubkey>
    var borrowReserves: seq<Pubkey>
    var preLoadedDepositReservesSameTx: seq<Pubkey>

    /** Every label list is parallel to its instruction list. */
    ghost predicate Valid()
      reads this
    {
      && Parallel(computeBudgetIxs, computeBudgetIxsLabels)
      && Parallel(setupIxs, setupIxsLabels)
      && Parallel(inBetweenIxs, inBetweenIxsLabels)
      && Parallel(lendingIxs, lendingIxsLabels)
      && Parallel(cleanupIxs, cleanupIxsLabels)
      && Parallel(refreshFarmsCleanupTxnIxs, refreshFarmsCleanupTxnIxsLabels)
    }

    ghost function State(): Plan
      reads this
    {
      Plan(computeBudgetIxs, setupIxs, inBetweenIxs, lendingIxs, cleanupIxs, refreshFarmsCleanupTxnIxs,
        depositReserves, borrowReserves, preLoadedDepositReservesSameTx)
    }

    constructor (context: Context)
      ensures Valid() && ctx == context && State() == EmptyPlan(context)
    {
      ctx := context;
      computeBudgetIxs, computeBudgetIxsLabels := [], [];
      setupIxs, setupIxsLabels := [], [];
      inBetweenIxs, inBetweenIxsLabels := [], [];
      lendingIxs, lendingIxsLabels := [], [];
      cleanupIxs, cleanupIxsLabels := [], [];
      refreshFarmsCleanupTxnIxs, refreshFarmsCleanupTxnIxsLabels := [], [];
      depositReserves := if context.obligation.Some? then context.obligation.value.deposits else [];
      borrowReserves := if context.obligation.Some? then context.obligation.value.borrows else [];
      preLoadedDepositReservesSameTx := [];
    }

    // ----- Single instructions -----

    method Push(where: AuxiliaryIx, ix: Ix, tag: Label)
      requires Valid() && tag == LabelOf(ix)
      modifies this
      ensures Valid() && State() == old(State()).Append(where, [ix])
    {
      match where {
        case Setup => setupIxs, setupIxsLabels := setupIxs + [ix], setupIxsLabels + [tag];
        case InBetween => inBetweenIxs, inBetweenIxsLabels := inBetweenIxs + [ix], inBetweenIxsLabels + [tag];
        case Cleanup => cleanupIxs, cleanupIxsLabels := cleanupIxs + [ix], cleanupIxsLabels + [tag];
      }
    }

    method AddComputeBudgetIxn(units: nat)
      requires Valid()
      modifies this`computeBudgetIxs, this`computeBudgetIxsLabels
      ensures Valid() && computeBudgetIxs == old(computeBudgetIxs) + [ComputeBudget(units)]
    {
      computeBudgetIxs := computeBudgetIxs + [ComputeBudget(units)];
      computeBudgetIxsLabels := computeBudgetIxsLabels + [ComputeBudgetLabel(units)];
    }

    /** Puts a preparation in front of the setup. */
    method UnshiftSetup(kind: SetupKind)
      requires Valid()
      modifies this`setupIxs, this`setupIxsLabels
      ensures Valid() && setupIxs == [Preparation(kind)] + old(setupIxs)
    {
      setupIxsLabels := [PreparationLabel(kind)] + setupIxsLabels;
      setupIxs := [Preparation(kind)] + setupIxs;
    }

    /** Token accounts are created in front of the setup, the last one first. */
    method UnshiftTokenAccounts(tags: seq<nat>)
      requires Valid()
      modifies this`setupIxs, this`setupIxsLabels
      ensures Valid() && setupIxs == TokenAccounts(tags) + old(setupIxs)
    {
      hide TokenAccounts, Parallel;
      var i := |tags|;
      TokenAccountsUnfold(tags[i..]);
      while i > 0
        invariant 0 <= i <= |tags|
        invariant Valid() && setupIxs == TokenAccounts(tags[i..]) + old(setupIxs)
      {
        i := i - 1;
        UnshiftSetup(TokenAccount(tags[i]));
        TokenAccountsUnfold(tags[i..]);
        assert tags[i..][1..] == tags[i + 1..];
      }
      assert tags[0..] == tags;
    }

    /** They are closed behind the cleanup. */
    method PushTokenAccounts(tags: seq<nat>)
      requires Valid()
      modifies this
      ensures Valid() && State() == old(State()).Append(Cleanup, TokenAccounts(tags))
    {
      hide TokenAccounts, Parallel;
      ghost var p := State();
      TokenAccountsUnfold([]);
      for j := 0 to |tags|
        invariant Valid() && State() == p.Append(Cleanup, TokenAccounts(tags[..j]))
      {
        Push(Cleanup, Preparation(TokenAccount(tags[j])), PreparationLabel(TokenAccount(tags[j])));
        TokenAccountsUnfold(tags[..j + 1]);
        assert tags[..j + 1][..j] == tags[..j];
        AppendTwice(p, Cleanup, TokenAccounts(tags[..j]), [Preparation(TokenAccount(tags[j]))]);
      }
      assert tags[..|tags|] == tags;
    }

    method AddAtaIxs(atas: Atas)
      requires Valid()
      modifies this
      ensures Valid() && State() == WithAtas(old(State()), Some(atas))
    {
      hide TokenAccounts, Parallel;
      UnshiftTokenAccounts(atas.pre);
      PushTokenAccounts(atas.post);
    }

    /** One refresh per reserve; stops at a reserve the market does not have. */
    method AddRefreshReserveIxs(reserves: seq<Pubkey>, where: AuxiliaryIx) returns (ok: bool)
      requires Valid()
      modifies this
      ensures Valid() && ok == InMarket(ctx, reserves)
      ensures ok ==> Ok(State()) == Refreshed(old(State()), ctx, where, reserves)
    {
      hide RefreshIxs;
      ghost var p := State();
      RefreshIxsUnfolds([]);
      for i := 0 to |reserves|
        invariant Valid() && State() == p.Append(where, RefreshIxs(reserves[..i]))
        invariant InMarket(ctx, reserves[..i])
      {
        if ReserveByAddress(ctx.market.reserves, reserves[i]).None? {
          assert reserves[i] in reserves;
          return false;
        }
        Push(where, RefreshReserve(reserves[i]), RefreshReserveLabel(reserves[i]));
        assert reserves[..i + 1][..i] == reserves[..i];
        RefreshIxsUnfolds(reserves[..i + 1]);
        AppendTwice(p, where, RefreshIxs(reserves[..i]), [RefreshReserve(reserves[i])]);
      }
      assert reserves[..|reserves|] == reserves;
      return true;
    }

    /** Files the preloaded reserves under the deposit reserves, through the list it returns. */
    method GetAdditionalDepositReservesList() returns (list: seq<Pubkey>)
      modifies this`depositReserves
      ensures State() == old(State()).WithPreloaded() && list == depositReserves
    {
      for i := 0 to |preLoadedDepositReservesSameTx|
        invariant depositReserves == Merged(old(depositReserves), preLoadedDepositReservesSameTx[..i])
      {
        var key := preLoadedDepositReservesSameTx[i];
        assert preLoadedDepositReservesSameTx[..i + 1][..i] == preLoadedDepositReservesSameTx[..i];
        if key !in depositReserves {
          depositReserves := depositReserves + [key];
        }
      }
      assert preLoadedDepositReservesSameTx[..|preLoadedDepositReservesSameTx|] == preLoadedDepositReservesSameTx;
      list := depositReserves;
    }

    method AddRefreshObligationIx(where: AuxiliaryIx, skip: seq<Pubkey>)
      requires Valid()
      modifies this
      ensures Valid() && State() == old(State()).ObligationRefreshed(where, skip)
    {
      var deposits := GetAdditionalDepositReservesList();
      Push(where, Ix.RefreshObligation(Naming(Without(deposits, skip), Without(borrowReserves, skip))), RefreshObligationLabel);
    }

    method AddRequestElevationIx(group: nat, where: AuxiliaryIx, skip: seq<Pubkey>)
      requires Valid()
      modifies this
      ensures Valid() && State() == old(State()).ElevationRequested(group, where, skip)
    {
      var deposits := GetAdditionalDepositReservesList();
      Push(where, RequestElevation(group, Naming(Without(deposits, skip), Without(borrowReserves, skip))), RequestElevationLabel(group));
    }

    method AddRefreshFarm(r: Pubkey, where: AuxiliaryIx, kind: FarmKind, twoToken: bool)
      requires Valid()
      modifies this
      ensures Valid() && State() == FarmsAdded(old(State()), where, [RefreshFarm(r, kind)], twoToken)
    {
      var ix, tag := RefreshFarm(r, kind), RefreshFarmLabel(kind, r);
      if where != Cleanup {
        Push(where, ix, tag);
        if where == Setup && twoToken {
          Push(InBetween, ix, tag);
        } else {
          refreshFarmsCleanupTxnIxs := refreshFarmsCleanupTxnIxs + [ix];
          refreshFarmsCleanupTxnIxsLabels := refreshFarmsCleanupTxnIxsLabels + [tag];
        }
      }
    }

    /** Farm refreshes, repeated in between or kept for the cleanup. */
    method AddRefreshFarmsForReserve(reserves: seq<ReserveView>, where: AuxiliaryIx, kind: FarmKind, twoToken: bool)
      requires Valid()
      modifies this
      ensures Valid() && State() == FarmsAdded(old(State()), where, FarmRefreshes(reserves, kind), twoToken)
    {
      ghost var p := State();
      FarmsAddedTwice(p, where, [], [], twoToken);
      for i := 0 to |reserves|
        invariant Valid() && State() == FarmsAdded(p, where, FarmRefreshes(reserves[..i], kind), twoToken)
      {
        assert reserves[..i + 1][..i] == reserves[..i];
        if HasFarm(reserves[i], kind) {
          FarmsAddedTwice(p, where, FarmRefreshes(reserves[..i], kind), [RefreshFarm(reserves[i].address, kind)], twoToken);
          AddRefreshFarm(reserves[i].address, where, kind, twoToken);
        } else {
          assert FarmRefreshes(reserves[..i], kind) + [] == FarmRefreshes(reserves[..i], kind);
        }
      }
      assert reserves[..|reserves|] == reserves;
    }

    method AddRefreshFarmsCleanupTxnIxsToCleanupIxs()
      requires Valid()
      modifies this`cleanupIxs, this`cleanupIxsLabels
      ensures Valid() && cleanupIxs == refreshFarmsCleanupTxnIxs + old(cleanupIxs)
    {
      cleanupIxs := refreshFarmsCleanupTxnIxs + cleanupIxs;
      cleanupIxsLabels := refreshFarmsCleanupTxnIxsLabels + cleanupIxsLabels;
    }

    method AddInitObligationForFarm(r: Option<ReserveView>, kind: FarmKind, where: AuxiliaryIx)
      requires Valid()
      modifies this
      ensures Valid() && State() == old(State()).Append(where, FarmInit(ctx, r, kind))
    {
      if r.Some? && HasFarm(r.value, kind) && (r.value.address, kind) in ctx.missingFarms {
        Push(where, InitFarm(r.value.address, kind), InitFarmLabel(r.value.address));
      } else {
        assert State().List(where) + [] == State().List(where);
      }
    }

    method AddInitObligationsForFarms(call: Call)
      requires Valid() && NeedsSupport(call.action)
      modifies this
      ensures Valid() && State() == old(State()).Append(call.where, FarmInits(ctx, call))
    {
      ghost var p := State();
      if call.initFarms {
        if call.action in {DepositAndBorrow, ActionType.DepositCollateral, Withdraw, Deposit} {
          AddInitObligationForFarm(Some(ctx.reserve), CollateralFarm, call.where);
          AddInitObligationForFarm(ctx.outflow, DebtFarm, call.where);
          AppendTwice(p, call.where, FarmInit(ctx, Some(ctx.reserve), CollateralFarm), FarmInit(ctx, ctx.outflow, DebtFarm));
        } else {
          AddInitObligationForFarm(Some(ctx.reserve), DebtFarm, call.where);
          AddInitObligationForFarm(ctx.outflow, CollateralFarm, call.where);
          AppendTwice(p, call.where, FarmInit(ctx, Some(ctx.reserve), DebtFarm), FarmInit(ctx, ctx.outflow, CollateralFarm));
        }
      } else {
        assert p.List(call.where) + [] == p.List(call.where);
      }
    }

    // ----- Support -----

    /** The request part: before the lending step with new refreshes, or behind it in the cleanup. */
    method AddGroupRequest(call: Call, others: seq<Pubkey>, current: seq<Pubkey>) returns (ok: bool)
      requires Valid()
      modifies this
      ensures Valid() && ok == GroupRequested(old(State()), ctx, call, others, current).Ok?
      ensures ok ==> State() == GroupRequested(old(State()), ctx, call, others, current).value
    {
      var before, after := GroupBefore(ctx, call), GroupAfter(ctx, call);
      if before.Err? || after.Err? {
        return false;
      }
      if before.value.Some? {
        var where := RequestWhere(call);
        AddRequestElevationIx(before.value.value, where, []);
        ok := AddRefreshReserveIxs(others, where);
        if !ok { return; }
        ok := AddRefreshReserveIxs(current, where);
        if !ok { return; }
        AddRefreshObligationIx(where, []);
      } else if after.value.Some? {
        var skip := SkippedAfter(ctx, call);
        if call.action != Withdraw {
          ok := AddRefreshReserveIxs(others, Cleanup);
          if !ok { return; }
        }
        AddRefreshObligationIx(Cleanup, skip);
        AddRequestElevationIx(after.value.value, Cleanup, skip);
      }
      ok := true;
    }

    method AddFarmRefreshes(call: Call, current: seq<ReserveView>) returns (ok: bool)
      requires Valid()
      modifies this
      ensures Valid() && ok == FarmsRefreshed(old(State()), ctx, call, current).Ok?
      ensures ok ==> State() == FarmsRefreshed(old(State()), ctx, call, current).value
    {
      if call.where == Setup {
        if call.action == ActionType.Liquidate {
          if ctx.outflow.None? { return false; }
          AddRefreshFarmsForReserve([ctx.outflow.value], Setup, CollateralFarm, false);
          AddRefreshFarmsForReserve([ctx.reserve], Setup, DebtFarm, false);
        } else if call.action in {DepositAndBorrow, ActionType.DepositCollateral, Withdraw, Deposit} {
          AddRefreshFarmsForReserve(current, Setup, CollateralFarm, call.twoToken);
        } else if call.action in {RepayAndWithdraw, Borrow, Repay} {
          AddRefreshFarmsForReserve(current, Setup, DebtFarm, call.twoToken);
        } else {
          return false;
        }
      } else {
        if ctx.outflow.None? { return false; }
        if call.action == DepositAndBorrow {
          AddRefreshFarmsForReserve([ctx.outflow.value], call.where, DebtFarm, false);
        } else if call.action == RepayAndWithdraw {
          AddRefreshFarmsForReserve([ctx.outflow.value], call.where, CollateralFarm, false);
        } else {
          return false;
        }
      }
      return true;
    }

    /** Refreshes everything up to and including the obligation. */
    method AddRefreshes(call: Call) returns (ok: bool, others: seq<Pubkey>, current: seq<Pubkey>)
      requires Valid() && NeedsSupport(call.action)
      modifies this
      ensures Valid() && ok == Prepared(old(State()), ctx, call).Ok?
      ensures ok ==> State() == Prepared(old(State()), ctx, call).value
      ensures ok ==> others == OtherKeys(old(State()), ctx, call) && current == CurrentKeys(ctx, call)
    {
      hide Addresses, FarmInits, Unique, Without, RefreshIxs, InMarket, Merged, RepaidToSkip;
      others, current := [], [];
      if call.atas.Some? {
        AddAtaIxs(call.atas.value);
      }
      var reserves := CurrentReserves(ctx, call.action);
      if reserves.Err? {
        return false, [], [];
      }
      if call.action == DepositAndBorrow && (ctx.obligation.None? || ctx.reserve.address !in ctx.obligation.value.deposits) {
        preLoadedDepositReservesSameTx := preLoadedDepositReservesSameTx + [ctx.reserve.address];
      }
      assert State() == Preloaded(WithAtas(old(State()), call.atas), ctx, call.action);
      current := Addresses(reserves.value);
      others := Without(Unique(depositReserves + borrowReserves), current);
      ok := AddRefreshReserveIxs(others, call.where);
      if !ok { return; }
      AddInitObligationsForFarms(call);
      ok := AddRefreshReserveIxs(current, call.where);
      if !ok { return; }
      var skip := RepaidToSkip(ctx, call);
      if skip.Err? {
        return false, others, current;
      }
      AddRefreshObligationIx(call.where, skip.value);
    }

    method AddSupportIxsWithoutInitObligation(call: Call) returns (ok: bool)
      requires Valid()
      modifies this
      ensures Valid() && ok == Support(old(State()), ctx, call).Ok?
      ensures ok ==> State() == Support(old(State()), ctx, call).value
    {
      hide Prepared, GroupRequested, FarmsRefreshed, OtherKeys;
      if !NeedsSupport(call.action) {
        if call.atas.Some? {
          AddAtaIxs(call.atas.value);
        }
        return true;
      }
      var others, current;
      ok, others, current := AddRefreshes(call);
      var reserves := CurrentReserves(ctx, call.action);
      if !ok || reserves.Err? {
        return false;
      }
      ok := AddGroupRequest(call, others, current);
      if !ok { return; }
      if !call.useV2Ixs {
        ok := AddFarmRefreshes(call, reserves.value);
      }
    }

    // ----- Building -----

    /** User accounts that have to exist before anything else. */
    method AddPreparations(opts: Options)
      requires Valid()
      modifies this
      ensures Valid() && State() == old(State()).Append(Setup, Preparations(ctx, opts))
    {
      ghost var p := State();
      ghost var done: seq<Ix> := [];
      assert p.setup + [] == p.setup;
      if opts.initUserMetadata {
        if opts.createLookupTable {
          Push(Setup, Preparation(CreateUserLut), PreparationLabel(CreateUserLut));
          AppendTwice(p, Setup, done, [Preparation(CreateUserLut)]);
          done := done + [Preparation(CreateUserLut)];
        }
        Push(Setup, Preparation(InitUserMetadata), PreparationLabel(InitUserMetadata));
        AppendTwice(p, Setup, done, [Preparation(InitUserMetadata)]);
        done := done + [Preparation(InitUserMetadata)];
      }
      if ctx.obligation.None? {
        Push(Setup, Preparation(InitObligation), PreparationLabel(InitObligation));
        AppendTwice(p, Setup, done, [Preparation(InitObligation)]);
        done := done + [Preparation(InitObligation)];
      }
      assert done == Preparations(ctx, opts);
    }

    method AddLendingIx(lending: LendingKind, acting: seq<Pubkey>, amounts: seq<nat>)
      requires Valid()
      modifies this`lendingIxs, this`lendingIxsLabels
      ensures Valid() && lendingIxs == old(lendingIxs) + [Lend(lending, acting, amounts)]
    {
      lendingIxsLabels := lendingIxsLabels + [LendLabel(lending)];
      lendingIxs := lendingIxs + [Lend(lending, acting, amounts)];
    }

    method AddLendingIxs(action: ActionType, opts: Options)
      requires Valid() && NeedsSupport(action) && (MultiToken(action) ==> ctx.outflow.Some?)
      modifies this
      ensures Valid() && State() == LendsAdded(old(State()), action, ctx, opts)
    {
      hide Merged;
      var _ := GetAdditionalDepositReservesList();
      var r := ctx.reserve.address;
      match action {
        case Deposit => AddLendingIx(DepositLiquidity, [r], [ctx.amount]);
        case DepositCollateral => AddLendingIx(DepositObligationCollateral, [r], [ctx.amount]);
        case Borrow => AddLendingIx(BorrowLiquidity, [r], [ctx.amount]);
        case Withdraw => AddLendingIx(WithdrawCollateral, [r], [CollateralFor(ctx.reserve, ctx.amount)]);
        case Repay => AddLendingIx(RepayLiquidity, [r], [ctx.amount]);
        case Liquidate => AddLendingIx(LiquidateObligation, [r, ctx.outflow.value.address], [ctx.amount, opts.outflowAmount]);
        case RepayAndWithdrawV2 =>
          AddLendingIx(RepayAndWithdrawInOne, [r, ctx.outflow.value.address], [ctx.amount, CollateralFor(ctx.outflow.value, opts.outflowAmount)]);
        case DepositAndBorrow =>
          AddLendingIx(DepositLiquidity, [r], [ctx.amount]);
          if depositReserves == [] {
            depositReserves := [r];
          }
          AddLendingIx(BorrowLiquidity, [ctx.outflow.value.address], [opts.outflowAmount]);
        case RepayAndWithdraw =>
          AddLendingIx(RepayLiquidity, [r], [ctx.amount]);
          AddLendingIx(WithdrawCollateral, [ctx.outflow.value.address], [CollateralFor(ctx.outflow.value, opts.outflowAmount)]);
      }
    }

    /** Everything up to the support instructions. */
    method Open(action: ActionType, opts: Options)
      requires Valid() && State() == EmptyPlan(ctx)
      modifies this
      ensures Valid() && State() == Opened(action, ctx, opts)
    {
      hide Preparations, Parallel;
      ghost var p := EmptyPlan(ctx);
      if opts.extraComputeBudget > 0 {
        AddComputeBudgetIxn(opts.extraComputeBudget);
      }
      ghost var budget := if opts.extraComputeBudget > 0 then [ComputeBudget(opts.extraComputeBudget)] else [];
      assert State() == p.(computeBudget := budget);
      if action in {Borrow, DepositAndBorrow} && opts.needsReferrerState {
        UnshiftSetup(InitReferrerTokenState);
      }
      ghost var referrer := if action in {Borrow, DepositAndBorrow} && opts.needsReferrerState then [Preparation(InitReferrerTokenState)] else [];
      assert State() == p.(computeBudget := budget, setup := referrer);
      if action == Withdraw {
        depositReserves := depositReserves + opts.addedDepositReserves;
      }
      assert p.depositReserves + [] == p.depositReserves;
      AddPreparations(opts);
    }

    method FinishOneStep(action: ActionType, opts: Options)
      requires Valid() && NeedsSupport(action) && (MultiToken(action) ==> ctx.outflow.Some?)
      modifies this
      ensures Valid() && State() == FinishedOneStep(old(State()), action, ctx, opts)
    {
      hide Lends;
      if opts.scopeRefresh {
        UnshiftSetup(RefreshScopePrices);
      }
      assert State() == WithScope(old(State()), opts.scopeRefresh);
      AddLendingIxs(action, opts);
      if action != RepayAndWithdrawV2 {
        AddRefreshFarmsCleanupTxnIxsToCleanupIxs();
      }
    }

    method FinishTwoStep(action: ActionType, opts: Options) returns (ok: bool)
      requires Valid() && TwoStep(action) && ctx.outflow.Some?
      modifies this
      ensures Valid() && ok == FinishedTwoStep(old(State()), action, ctx, opts).Ok?
      ensures ok ==> State() == FinishedTwoStep(old(State()), action, ctx, opts).value
    {
      hide LendsAdded, Support, InBetweenCall;
      AddLendingIxs(action, opts);
      ok := AddSupportIxsWithoutInitObligation(InBetweenCall(action, opts));
      if !ok { return; }
      AddRefreshFarmsCleanupTxnIxsToCleanupIxs();
      if opts.scopeRefresh {
        UnshiftSetup(RefreshScopePrices);
      }
    }

    /**
     Builds the transaction of an action on an obligation, which the lending program takes exactly
     if slots, group and positions are as the plan assumes and nothing it names is stale.
     */
    static method Build(action: ActionType, given: Context, opts: Options) returns (r: Result<KaminoAction>)
      requires NeedsSupport(action)
      ensures r.Ok? == Built(action, given, opts).Ok?
      ensures r.Ok? ==>
                && fresh(r.value) && r.value.Valid()
                && r.value.State() == Built(action, given, opts).value
                && |r.value.lendingIxs| <= 2
                && P.TakenAsPlanned(action, Initialized(action, given).value, opts, r.value.State())
    {
      hide Support, Opened, SetupCall, FinishedOneStep, FinishedTwoStep, EmptyPlan, Parallel, P.TakenAsPlanned;
      var initialized := Initialized(action, given);
      if initialized.Err? {
        return Err(initialized.error);
      }
      var axn := new KaminoAction(initialized.value);
      axn.Open(action, opts);
      var ok := axn.AddSupportIxsWithoutInitObligation(SetupCall(action, opts));
      if !ok {
        return Err("support instructions cannot be built");
      }
      if !HasObligation(action, initialized.value) {
        return Err("obligation is undefined");
      }
      if TwoStep(action) {
        ok := axn.FinishTwoStep(action, opts);
        if !ok {
          return Err("in-between instructions cannot be built");
        }
      } else {
        axn.FinishOneStep(action, opts);
      }
      P.BuiltIsTakenAsPlanned(action, given, opts);
      r := Ok(axn);
    }

    method AddRefreshObligation() returns (ok: bool)
      requires Valid()
      modifies this
      ensures Valid() && ok == RefreshedAll(old(State()), ctx).Ok?
      ensures ok ==> State() == RefreshedAll(old(State()), ctx).value
    {
      hide Unique, RefreshIxs, FarmRefreshes;
      var keys := Unique(depositReserves + borrowReserves);
      ok := AddRefreshReserveIxs(keys, Setup);
      if !ok { return; }
      assert forall k :: k in depositReserves || k in borrowReserves ==> k in keys;
      AddRefreshFarmsForReserve(Views(ctx.market, depositReserves), Setup, CollateralFarm, false);
      AddRefreshFarmsForReserve(Views(ctx.market, borrowReserves), Setup, DebtFarm, false);
      AddRefreshObligationIx(Setup, []);
    }

    /** Builds an obligation refresh or, given a group, its request. */
    static method BuildRefreshOrRequest(ctx: Context, units: nat, group: Option<nat>) returns (r: Result<KaminoAction>)
      ensures r.Ok? == RefreshOrRequest(ctx, units, group).Ok?
      ensures r.Ok? ==>
                && fresh(r.value) && r.value.Valid()
                && r.value.State() == RefreshOrRequest(ctx, units, group).value
                && ctx.obligation.Some? && P.TakenAsListed(ctx, group, r.value.State())
    {
      hide RefreshedAll, P.TakenAsListed;
      if ctx.obligation.None? || ctx.obligation.value.deposits == [] {
        return Err("obligation has no deposits");
      }
      if ReserveByAddress(ctx.market.reserves, ctx.obligation.value.deposits[0]).None? {
        return Err("Reserve not found");
      }
      var axn := new KaminoAction(ctx);
      if units > 0 {
        axn.AddComputeBudgetIxn(units);
      }
      assert axn.State() == WithBudget(EmptyPlan(ctx), units);
      var ok := axn.AddRefreshObligation();
      if !ok {
        return Err("Could not find reserve in reserves");
      }
      if group.Some? {
        axn.AddRequestElevationIx(group.value, Setup, []);
      }
      P.RefreshOrRequestIsTakenAsListed(ctx, units, group);
      r := Ok(axn);
    }

    static method BuildWithdrawReferrerFees(ctx: Context) returns (r: Result<KaminoAction>)
      ensures r.Ok? == ReferrerFeesPlan(ctx).Ok?
      ensures r.Ok? ==>
                && fresh(r.value) && r.value.Valid()
                && r.value.State() == ReferrerFeesPlan(ctx).value
                && P.AlwaysTaken(r.value.State())
    {
      hide RefreshIxs, P.AlwaysTaken;
      var axn := new KaminoAction(ctx);
      axn.Push(Setup, Preparation(TokenAccount(0)), PreparationLabel(TokenAccount(0)));
      var ok := axn.AddRefreshReserveIxs([ctx.reserve.address], Setup);
      if !ok {
        return Err("Could not find reserve in reserves");
      }
      axn.AddLendingIx(PayReferrerFees, [ctx.reserve.address], []);
      P.ReferrerFeesAreAlwaysTaken(ctx);
      r := Ok(axn);
    }

    // ----- Reading the plan -----

    method ActionToLendingIxs() returns (ixs: seq<Ix>, labels: seq<Label>)
      requires Valid()
      ensures ixs == State().LendingIxs() && Parallel(ixs, labels)
    {
      hide Interleaved, LabelOf;
      ixs, labels := [], [];
      InterleavedUnfolds([], inBetweenIxs);
      for i := 0 to |lendingIxs|
        invariant Parallel(ixs, labels)
        invariant State().LendingIxs() == ixs + Interleaved(lendingIxs[i..], inBetweenIxs)
      {
        InterleavedUnfolds(lendingIxs[i..], inBetweenIxs);
        assert lendingIxs[i..][1..] == lendingIxs[i + 1..];
        ixs, labels := ixs + [lendingIxs[i]], labels + [lendingIxsLabels[i]];
        if i != |lendingIxs| - 1 {
          ixs, labels := ixs + inBetweenIxs, labels + inBetweenIxsLabels;
        }
      }
    }

    /** The instructions in order, with index-parallel labels. */
    method ActionToIxs() returns (ixs: seq<Ix>, labels: seq<Label>)
      requires Valid()
      ensures ixs == State().Ixs() && Parallel(ixs, labels)
    {
      ixs, labels := ActionToLendingIxs();
      ixs := computeBudgetIxs + setupIxs + ixs + cleanupIxs;
      labels := computeBudgetIxsLabels + setupIxsLabels + labels + cleanupIxsLabels;
    }

    /** The same order without the compute budget, for plans of up to two lending steps. */
    method GetTransactions() returns (ixs: seq<Ix>)
      requires Valid()
      ensures ixs == State().Transaction()
      ensures |lendingIxs| <= 2 ==> State().Ixs() == computeBudgetIxs + ixs
    {
      if |lendingIxs| == 2 {
        ixs := setupIxs + [lendingIxs[0]] + inBetweenIxs + [lendingIxs[1]] + cleanupIxs;
      } else {
        ixs := setupIxs + lendingIxs + cleanupIxs;
      }
      TransactionDropsComputeBudgetIff(State());
    }
  }
}
