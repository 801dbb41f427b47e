/**
 The neighbours of a lending step.  The first versions of the lending instructions look around
 themselves: the refreshes of their reserves, of the obligation and of its farms must stand
 directly before them, and the farm refreshes directly behind them once more.
 */
module Guards {
  import opened Wrappers
  import opened Markets
  import opened Plans
  import opened Supports
  import opened ActionPlans
  import opened ActionTypes

  /** The reserves and farm refreshes a lending step demands around itself, in order. */
  datatype Guard = Guard(reserves: seq<Pubkey>, farms: seq<Ix>) {
    function Before(named: Naming): seq<Ix> { RefreshIxs(reserves) + [Ix.RefreshObligation(named)] + farms }
  }

  /** The refresh of a reserve's farm, if it has one. */
  function FarmOf(r: ReserveView, kind: FarmKind): seq<Ix>
  {
    if HasFarm(r, kind) then [RefreshFarm(r.address, kind)] else []
  }

  /** The guard of the step that a call of support precedes. */
  function GuardOf(ctx: Context, action: ActionType): Guard
    requires NeedsSupport(action) && (MultiToken(action) ==> ctx.outflow.Some?)
  {
    var r := ctx.reserve;
    if action == ActionType.Liquidate then
      var out := ctx.outflow.value;
      Guard(if out.address == r.address then [r.address] else [out.address, r.address],
        FarmOf(out, CollateralFarm) + FarmOf(r, DebtFarm))
    else if action == DepositAndBorrow then Guard([ctx.outflow.value.address], FarmOf(ctx.outflow.value, DebtFarm))
    else if action == RepayAndWithdraw then Guard([ctx.outflow.value.address], FarmOf(ctx.outflow.value, CollateralFarm))
    else if action in {Deposit, ActionType.DepositCollateral, Withdraw} then Guard([r.address], FarmOf(r, CollateralFarm))
    else Guard([r.address], FarmOf(r, DebtFarm))
  }

  lemma OneFarm(r: ReserveView, kind: FarmKind)
    ensures FarmRefreshes([r], kind) == FarmOf(r, kind)
  {
    assert [r][..0] == [];
  }

  lemma RefreshIxsOf(a: seq<Pubkey>, k: Pubkey)
    ensures RefreshIxs(a + [k]) == RefreshIxs(a) + [RefreshReserve(k)]
    ensures RefreshIxs([k]) == [RefreshReserve(k)]
  {
    assert (a + [k])[..|a|] == a;
    assert [k][..0] == [];
  }

  lemma UniqueOfOne(k: Pubkey)
    ensures Unique([k]) == [k]
  {
    assert [k][..0] == [];
  }

  lemma UniqueOfTwo(a: Pubkey, b: Pubkey)
    ensures Unique([a, b]) == if a == b then [a] else [a, b]
  {
    UniqueOfOne(a);
    assert [a, b][..1] == [a];
  }

  /** The reserves a call refreshes last are those its step is guarded by. */
  lemma CurrentEndsWithGuard(ctx: Context, call: Call) returns (front: seq<Ix>)
    requires BuilderCall(call) && CurrentReserves(ctx, call.action).Ok? && call.action != RepayAndWithdrawV2
    ensures MultiToken(call.action) ==> ctx.outflow.Some?
    ensures RefreshIxs(CurrentKeys(ctx, call)) == front + RefreshIxs(GuardOf(ctx, call.action).reserves)
  {
    hide RefreshIxs, FarmRefreshes, Unique;
    var reserves := CurrentReserves(ctx, call.action).value;
    var keys := seq(|reserves|, i requires 0 <= i < |reserves| => reserves[i].address);
    assert Addresses(reserves) == Unique(keys);
    var r := ctx.reserve.address;
    front := [];
    if |reserves| == 1 {
      assert keys == [reserves[0].address];
      UniqueOfOne(reserves[0].address);
    } else {
      var a, b := reserves[0].address, reserves[1].address;
      assert keys == [a, b];
      UniqueOfTwo(a, b);
      if call.action != ActionType.Liquidate && a != b {
        front := [RefreshReserve(a)];
        RefreshIxsOf([a], b);
        RefreshIxsOf([], a);
        assert [a] + [b] == [a, b];
      }
    }
  }

  lemma PreparedEnds(p: Plan, ctx: Context, call: Call) returns (front: seq<Ix>, named: Naming)
    requires BuilderCall(call) && Prepared(p, ctx, call).Ok?
    ensures Prepared(p, ctx, call).value.List(call.where)
         == front + RefreshIxs(CurrentKeys(ctx, call)) + [Ix.RefreshObligation(named)]
    ensures call.where == InBetween ==> p.inBetween <= front
  {
    hide RefreshIxs, FarmInits, Addresses, Merged, Without, TokenAccounts, OtherReserves, NeedsSupport, BuilderCall;
    var p1 := Preloaded(WithAtas(p, call.atas), ctx, call.action);
    var p3 := p1.Append(call.where, RefreshIxs(OtherKeys(p, ctx, call))).Append(call.where, FarmInits(ctx, call));
    var p4 := p3.Append(call.where, RefreshIxs(CurrentKeys(ctx, call)));
    front := p3.List(call.where);
    named := p4.Named(RepaidToSkip(ctx, call).value);
  }

  lemma RequestedEnds(p: Plan, ctx: Context, call: Call, others: seq<Pubkey>, current: seq<Pubkey>, front: seq<Ix>, named: Naming)
    returns (f: seq<Ix>, n: Naming)
    requires BuilderCall(call) && GroupRequested(p, ctx, call, others, current).Ok?
    requires p.List(call.where) == front + RefreshIxs(current) + [Ix.RefreshObligation(named)]
    ensures GroupRequested(p, ctx, call, others, current).value.List(call.where)
         == f + RefreshIxs(current) + [Ix.RefreshObligation(n)]
    ensures front <= f
  {
    hide RefreshIxs, Merged, Without, InMarket, GroupBefore, GroupAfter, NeedsSupport, BuilderCall;
    f, n := front, named;
    OneRequestAtMostIn(ctx, call);
    var before := GroupBefore(ctx, call).value;
    if before.Some? {
      var p2 := p.ElevationRequested(before.value, call.where, []).Append(call.where, RefreshIxs(others));
      var p3 := p2.Append(call.where, RefreshIxs(current));
      f := p2.List(call.where);
      n := p3.Named([]);
    } else {
      CleanupRequestFrame(p, ctx, call, others, current);
    }
  }

  lemma OneRequestAtMostIn(ctx: Context, call: Call)
    requires BuilderCall(call) && GroupBefore(ctx, call).Ok?
    ensures GroupBefore(ctx, call).value.Some? ==> call.where == RequestWhere(call)
    ensures call.where != Cleanup
  {
    if GroupBefore(ctx, call).value.Some? { RequestIsInTheList(ctx, call); }
  }

  /** Farm refreshes of a call go behind its list, and once more in between or into the cleanup. */
  lemma FarmsOf(p: Plan, ctx: Context, call: Call, reserves: seq<ReserveView>)
    requires BuilderCall(call) && call.action != RepayAndWithdrawV2 && CurrentReserves(ctx, call.action) == Ok(reserves)
    requires MultiToken(call.action) ==> ctx.outflow.Some?
    requires call.twoToken ==> call.where == Setup
    requires FarmsRefreshed(p, ctx, call, reserves).Ok?
    ensures var q, farms := FarmsRefreshed(p, ctx, call, reserves).value, GuardOf(ctx, call.action).farms;
            && q.List(call.where) == p.List(call.where) + farms
            && (if call.twoToken && call.action != ActionType.Liquidate then q.inBetween == p.inBetween + farms && q.farmsCleanup == p.farmsCleanup
                else q.farmsCleanup == p.farmsCleanup + farms && (call.where == Setup ==> q.inBetween == p.inBetween))
  {
    hide FarmRefreshes, FarmOf;
    OneFarm(ctx.reserve, CollateralFarm);
    OneFarm(ctx.reserve, DebtFarm);
    if ctx.outflow.Some? {
      OneFarm(ctx.outflow.value, CollateralFarm);
      OneFarm(ctx.outflow.value, DebtFarm);
    }
    if call.action == ActionType.Liquidate {
      var a, b := FarmOf(ctx.outflow.value, CollateralFarm), FarmOf(ctx.reserve, DebtFarm);
      assert p.setup + a + b == p.setup + (a + b) && p.farmsCleanup + a + b == p.farmsCleanup + (a + b);
    }
  }

  /** Without V2 instructions, support ends with the guard of its step and keeps its farm refreshes for behind the step. */
  lemma SupportGuards(p: Plan, ctx: Context, call: Call, q: Plan) returns (front: seq<Ix>, named: Naming)
    requires BuilderCall(call) && call.action != RepayAndWithdrawV2 && !call.useV2Ixs && (call.twoToken ==> call.where == Setup)
    requires call.action != ActionType.Liquidate || !call.twoToken
    requires Support(p, ctx, call) == Ok(q)
    ensures MultiToken(call.action) ==> ctx.outflow.Some?
    ensures var g := GuardOf(ctx, call.action);
            && q.List(call.where) == front + g.Before(named)
            && (call.where == InBetween ==> p.inBetween <= front)
            && (if call.twoToken then q.inBetween == p.inBetween + g.farms && q.farmsCleanup == p.farmsCleanup
                else q.farmsCleanup == p.farmsCleanup + g.farms && (call.where == Setup ==> q.inBetween == p.inBetween))
  {
    hide Support, Prepared, GroupRequested, FarmsRefreshed, RefreshIxs, FarmRefreshes, OtherKeys, CurrentKeys, NeedsSupport, GuardOf;
    SupportInStages(p, ctx, call);
    var others, current := OtherKeys(p, ctx, call), CurrentKeys(ctx, call);
    var p5 := Prepared(p, ctx, call).value;
    var f, n := PreparedEnds(p, ctx, call);
    front, named := RequestedEnds(p5, ctx, call, others, current, f, n);
    var p6 := GroupRequested(p5, ctx, call, others, current).value;
    var reserves := CurrentReserves(ctx, call.action).value;
    var rest := CurrentEndsWithGuard(ctx, call);
    FarmsOf(p6, ctx, call, reserves);
    PreparedFrame(p, ctx, call);
    RequestFrame(p5, ctx, call, others, current);
    var g := GuardOf(ctx, call.action);
    front := front + rest;
    assert q.List(call.where) == front + g.Before(named);
  }

  // ----- Finished plans -----

  lemma SetupCallIs(action: ActionType, opts: Options)
    requires NeedsSupport(action) && action != RepayAndWithdrawV2
    ensures var call := SetupCall(action, opts);
            && call.action != RepayAndWithdrawV2 && call.useV2Ixs == opts.useV2Ixs && call.where == Setup
            && call.twoToken == TwoStep(action)
            && (MultiToken(call.action) ==> MultiToken(action))
            && (call.twoToken ==> call.action != ActionType.Liquidate)
  {}

  lemma OneStepJoins(budget: seq<Ix>, scope: seq<Ix>, front: seq<Ix>, before: seq<Ix>, lend: Ix, farms: seq<Ix>, back: seq<Ix>)
    ensures budget + (scope + (front + before)) + [lend] + (farms + back)
         == (budget + (scope + front)) + before + [lend] + farms + back
  {}

  lemma FinishedOneStepIs(q: Plan, action: ActionType, ctx: Context, opts: Options)
    requires NeedsSupport(action) && (MultiToken(action) ==> ctx.outflow.Some?) && !TwoStep(action) && action != RepayAndWithdrawV2
    requires q.lending == []
    ensures var p := FinishedOneStep(q, action, ctx, opts);
            p.Ixs() == q.computeBudget + ((if opts.scopeRefresh then [Preparation(RefreshScopePrices)] else []) + q.setup)
                       + [Lends(action, ctx, opts)[0]] + (q.farmsCleanup + q.cleanup)
  {
    hide Lends, Merged;
    var lends := Lends(action, ctx, opts);
    assert lends == [lends[0]];
    assert [] + q.setup == q.setup;
  }

  lemma OneStepGuardedFrom(action: ActionType, ctx: Context, opts: Options, q: Plan)
    returns (front: seq<Ix>, named: Naming, back: seq<Ix>)
    requires SetupDone(action, ctx, opts, q) && !TwoStep(action) && action != RepayAndWithdrawV2 && !opts.useV2Ixs
    ensures var g := GuardOf(ctx, action);
            FinishedOneStep(q, action, ctx, opts).Ixs() == front + g.Before(named) + [Lends(action, ctx, opts)[0]] + g.farms + back
  {
    hide Support, Opened, SetupCall, Lends, NeedsSupport, GuardOf, FinishedOneStep, BuilderCall;
    var call := SetupCall(action, opts);
    CallsAreBuilderCalls(action, opts);
    SetupCallIs(action, opts);
    OneStepCallIs(action, opts);
    OpenedLists(action, ctx, opts);
    SupportFrame(Opened(action, ctx, opts), ctx, call);
    front, named := SupportGuards(Opened(action, ctx, opts), ctx, call, q);
    FinishedOneStepIs(q, action, ctx, opts);
    var g, lend := GuardOf(ctx, action), Lends(action, ctx, opts)[0];
    var scope := if opts.scopeRefresh then [Preparation(RefreshScopePrices)] else [];
    assert q.farmsCleanup == g.farms;
    back := q.cleanup;
    OneStepJoins(q.computeBudget, scope, front, g.Before(named), lend, g.farms, back);
    front := q.computeBudget + (scope + front);
  }

  /** In a one-step plan without V2 instructions the lending step stands directly between its refreshes. */
  lemma OneStepIsGuarded(action: ActionType, given: Context, opts: Options) returns (front: seq<Ix>, named: Naming, back: seq<Ix>)
    requires NeedsSupport(action) && !TwoStep(action) && action != RepayAndWithdrawV2 && !opts.useV2Ixs
    requires Built(action, given, opts).Ok?
    ensures Initialized(action, given).Ok?
    ensures var ctx := Initialized(action, given).value;
            var g := GuardOf(ctx, action);
            Built(action, given, opts).value.Ixs() == front + g.Before(named) + [Lends(action, ctx, opts)[0]] + g.farms + back
  {
    hide SetupDone, FinishedOneStep, Lends, NeedsSupport, GuardOf, Built;
    var ctx, q, _ := BuiltInStages(action, given, opts);
    front, named, back := OneStepGuardedFrom(action, ctx, opts, q);
  }

  lemma OneStepCallIs(action: ActionType, opts: Options)
    requires NeedsSupport(action) && !TwoStep(action)
    ensures SetupCall(action, opts).action == action
  {}

  lemma TwoStepJoins(
    budget: seq<Ix>, scope: seq<Ix>, atas: seq<Ix>, front: seq<Ix>, g: seq<Ix>, lend0: Ix, farms0: seq<Ix>, middle: seq<Ix>,
    h: seq<Ix>, lend1: Ix, farms1: seq<Ix>, back: seq<Ix>)
    ensures budget + (scope + (atas + (front + g))) + ([lend0] + (farms0 + middle + h) + [lend1]) + (farms1 + back)
         == (budget + (scope + (atas + front))) + g + [lend0] + farms0 + middle + h + [lend1] + farms1 + back
  {}

  lemma FinishedTwoStepIs(r: Plan, scopeRefresh: bool)
    ensures WithScope(r.(cleanup := r.farmsCleanup + r.cleanup), scopeRefresh).Ixs()
         == r.computeBudget + ((if scopeRefresh then [Preparation(RefreshScopePrices)] else []) + r.setup)
            + r.LendingIxs() + (r.farmsCleanup + r.cleanup)
  {
    assert [] + r.setup == r.setup;
  }

  lemma InBetweenCallIs(action: ActionType, opts: Options)
    requires TwoStep(action)
    ensures var call := InBetweenCall(action, opts);
            call.action == action && call.useV2Ixs == opts.useV2Ixs && call.where == InBetween && !call.twoToken
  {}

  lemma TwoStepGuardedFrom(action: ActionType, ctx: Context, opts: Options, q: Plan, r: Plan)
    returns (front: seq<Ix>, first: Naming, middle: seq<Ix>, second: Naming, back: seq<Ix>)
    requires BetweenDone(action, ctx, opts, q, r) && !opts.useV2Ixs
    ensures MultiToken(SetupCall(action, opts).action) ==> ctx.outflow.Some?
    ensures NeedsSupport(SetupCall(action, opts).action)
    ensures var lends := Lends(action, ctx, opts);
            var g, h := GuardOf(ctx, SetupCall(action, opts).action), GuardOf(ctx, action);
            WithScope(r.(cleanup := r.farmsCleanup + r.cleanup), opts.scopeRefresh).Ixs()
            == front + g.Before(first) + [lends[0]] + g.farms + middle + h.Before(second) + [lends[1]] + h.farms + back
  {
    hide Support, Opened, Lends, GuardOf, LendsAdded, SetupCall, InBetweenCall, BuilderCall, NeedsSupport;
    var call, between := SetupCall(action, opts), InBetweenCall(action, opts);
    CallsAreBuilderCalls(action, opts);
    SetupCallIs(action, opts);
    SetupCallIsInSetup(action, opts);
    InBetweenCallIs(action, opts);
    OpenedLists(action, ctx, opts);
    TwoStepLists(action, ctx, opts, q, r);
    var added := LendsAdded(q, action, ctx, opts);
    AddedKeepsInBetween(action, ctx, opts, q);
    front, first := SupportGuards(Opened(action, ctx, opts), ctx, call, q);
    middle, second := SupportGuards(added, ctx, between, r);
    var atas := SetupPrefix(added, ctx, between, r);
    var g, h, lends := GuardOf(ctx, call.action), GuardOf(ctx, action), Lends(action, ctx, opts);
    assert g.farms <= middle;
    middle := middle[|g.farms|..];
    var scope := if opts.scopeRefresh then [Preparation(RefreshScopePrices)] else [];
    FinishedTwoStepIs(r, opts.scopeRefresh);
    back := r.cleanup;
    assert r.inBetween == g.farms + middle + h.Before(second);
    assert r.farmsCleanup == h.farms;
    TwoStepJoins(r.computeBudget, scope, atas, front, g.Before(first), lends[0], g.farms, middle, h.Before(second), lends[1], h.farms, back);
    front := r.computeBudget + (scope + (atas + front));
  }

  /** The same for both steps of a two-step plan. */
  lemma TwoStepIsGuarded(action: ActionType, given: Context, opts: Options)
    returns (front: seq<Ix>, first: Naming, middle: seq<Ix>, second: Naming, back: seq<Ix>)
    requires TwoStep(action) && !opts.useV2Ixs && Built(action, given, opts).Ok?
    ensures Initialized(action, given).Ok?
    ensures var ctx := Initialized(action, given).value;
            var lends := Lends(action, ctx, opts);
            var g, h := GuardOf(ctx, SetupCall(action, opts).action), GuardOf(ctx, action);
            Built(action, given, opts).value.Ixs()
            == front + g.Before(first) + [lends[0]] + g.farms + middle + h.Before(second) + [lends[1]] + h.farms + back
  {
    hide BetweenDone, SetupDone, Lends, GuardOf, Built, SetupCall, WithScope;
    var ctx, q, r := BuiltInStages(action, given, opts);
    front, first, middle, second, back := TwoStepGuardedFrom(action, ctx, opts, q, r);
  }

  lemma AddedKeepsInBetween(action: ActionType, ctx: Context, opts: Options, q: Plan)
    requires TwoStep(action) && ctx.outflow.Some?
    ensures var added := LendsAdded(q, action, ctx, opts);
            added.inBetween == q.inBetween && added.farmsCleanup == q.farmsCleanup && added.setup == q.setup
  {
    hide Lends, Merged;
  }

  /** In-between support puts at most token accounts in front of the setup. */
  lemma SetupPrefix(p: Plan, ctx: Context, call: Call, q: Plan) returns (front: seq<Ix>)
    requires BuilderCall(call) && call.where == InBetween && Support(p, ctx, call) == Ok(q)
    ensures q.setup == front + p.setup
  {
    hide FarmRefreshes, TokenAccounts, FarmInits, Without, Unique, Merged, RefreshIxs;
    SupportInStages(p, ctx, call);
    front := if call.atas.Some? then TokenAccounts(call.atas.value.pre) else [];
    var p5 := Prepared(p, ctx, call).value;
    assert p5.setup == front + p.setup;
    var p6 := GroupRequested(p5, ctx, call, OtherKeys(p, ctx, call), CurrentKeys(ctx, call)).value;
    assert p6.setup == p5.setup;
  }
}
