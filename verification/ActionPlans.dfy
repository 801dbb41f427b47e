/**
 The plans of the client's actions, from initialization to the finished instruction lists,
 and the order their replay guarantees.
 */
module ActionPlans {
  import opened Reals
  import opened Wrappers
  import opened Markets
  import opened Plans
  import opened Supports
  import opened ActionTypes

  /** Choices of the caller and facts read from the network. */
  datatype Options = Options(
    extraComputeBudget: nat,
    atas: Option<Atas>,
    atasInBetween: Atas,
    request: bool,
    initUserMetadata: bool,
    createLookupTable: bool,
    useV2Ixs: bool,
    scopeRefresh: bool,
    overrideGroup: Option<nat>,
    addedDepositReserves: seq<Pubkey>,
    needsReferrerState: bool,
    outflowAmount: nat)

  predicate TwoStep(action: ActionType) { action in {DepositAndBorrow, RepayAndWithdraw} }

  predicate MultiToken(action: ActionType) { action in {ActionType.Liquidate, DepositAndBorrow, RepayAndWithdraw, RepayAndWithdrawV2} }

  /** Actions on one token have no outflow reserve, actions on two need one; no builder takes the others. */
  function Initialized(action: ActionType, ctx: Context): Result<Context>
  {
    if action == DepositAndWithdraw then Err("Invalid action")
    else if !MultiToken(action) then Ok(ctx.(outflow := None))
    else if ctx.outflow.None? then Err("reserve states are not fetched")
    else Ok(ctx)
  }

  function EmptyPlan(ctx: Context): Plan
  {
    var deposits := if ctx.obligation.Some? then ctx.obligation.value.deposits else [];
    var borrows := if ctx.obligation.Some? then ctx.obligation.value.borrows else [];
    Plan([], [], [], [], [], [], deposits, borrows, [])
  }

  function SetupCall(action: ActionType, opts: Options): Call
  {
    Call(
      if action == DepositAndBorrow then Deposit else if action == RepayAndWithdraw then Repay else action,
      opts.atas,
      if action == RepayAndWithdrawV2 then true else opts.useV2Ixs,
      Setup, opts.request, true,
      action in {DepositAndBorrow, RepayAndWithdraw, RepayAndWithdrawV2},
      if action in {Deposit, Borrow, Withdraw} then opts.overrideGroup else None)
  }

  function InBetweenCall(action: ActionType, opts: Options): Call
  {
    Call(action, if opts.atas.Some? then Some(opts.atasInBetween) else None, opts.useV2Ixs,
      InBetween, opts.request, false, false, None)
  }

  function Preparations(ctx: Context, opts: Options): (r: seq<Ix>)
    ensures AllNeutral(r)
  {
    (if !opts.initUserMetadata then []
     else (if opts.createLookupTable then [Preparation(CreateUserLut)] else []) + [Preparation(InitUserMetadata)])
    + if ctx.obligation.None? then [Preparation(InitObligation)] else []
  }

  /** The plan before support: budget, referrer account, added reserves, user accounts. */
  function Opened(action: ActionType, ctx: Context, opts: Options): Plan
  {
    var p := EmptyPlan(ctx);
    var referrer := if action in {Borrow, DepositAndBorrow} && opts.needsReferrerState then [Preparation(InitReferrerTokenState)] else [];
    p.(computeBudget := if opts.extraComputeBudget > 0 then [ComputeBudget(opts.extraComputeBudget)] else [],
       setup := referrer + Preparations(ctx, opts),
       depositReserves := p.depositReserves + if action == Withdraw then opts.addedDepositReserves else [])
  }

  function WithScope(p: Plan, refresh: bool): Plan
  {
    if refresh then p.(setup := [Preparation(RefreshScopePrices)] + p.setup) else p
  }

  lemma CollateralIsWhole(amount: nat, rate: Positive)
    ensures Ceil(Mul(amount as real, rate)) >= 0
  {
    MulNonNegative(amount as real, rate);
  }

  /** The cTokens withdrawn for an amount of liquidity, at the reserve's exchange rate for the current slot. */
  function CollateralFor(reserve: ReserveView, amount: nat): nat
  {
    if amount == U64_MAX then amount
    else
      CollateralIsWhole(amount, reserve.collateralExchangeRate);
      Ceil(Mul(amount as real, reserve.collateralExchangeRate))
  }

  function Lends(action: ActionType, ctx: Context, opts: Options): (r: seq<Ix>)
    requires NeedsSupport(action) && (MultiToken(action) ==> ctx.outflow.Some?)
    ensures |r| == (if TwoStep(action) then 2 else 1) && forall i :: 0 <= i < |r| ==> r[i].Lend?
  {
    var r := ctx.reserve.address;
    match action
    case Deposit => [Lend(DepositLiquidity, [r], [ctx.amount])]
    case DepositCollateral => [Lend(DepositObligationCollateral, [r], [ctx.amount])]
    case Borrow => [Lend(BorrowLiquidity, [r], [ctx.amount])]
    case Withdraw => [Lend(WithdrawCollateral, [r], [CollateralFor(ctx.reserve, ctx.amount)])]
    case Repay => [Lend(RepayLiquidity, [r], [ctx.amount])]
    case Liquidate => [Lend(LiquidateObligation, [r, ctx.outflow.value.address], [ctx.amount, opts.outflowAmount])]
    case RepayAndWithdrawV2 =>
      [Lend(RepayAndWithdrawInOne, [r, ctx.outflow.value.address], [ctx.amount, CollateralFor(ctx.outflow.value, opts.outflowAmount)])]
    case DepositAndBorrow =>
      [Lend(DepositLiquidity, [r], [ctx.amount]), Lend(BorrowLiquidity, [ctx.outflow.value.address], [opts.outflowAmount])]
    case RepayAndWithdraw =>
      [Lend(RepayLiquidity, [r], [ctx.amount]),
       Lend(WithdrawCollateral, [ctx.outflow.value.address], [CollateralFor(ctx.outflow.value, opts.outflowAmount)])]
  }

  /** Adding the lending steps also files a first deposit of a deposit-and-borrow under the deposit reserves. */
  function LendsAdded(p: Plan, action: ActionType, ctx: Context, opts: Options): Plan
    requires NeedsSupport(action) && (MultiToken(action) ==> ctx.outflow.Some?)
  {
    var q := p.WithPreloaded();
    q.(lending := q.lending + Lends(action, ctx, opts),
       depositReserves := if action == DepositAndBorrow && q.depositReserves == [] then [ctx.reserve.address] else q.depositReserves)
  }

  function FinishedOneStep(supported: Plan, action: ActionType, ctx: Context, opts: Options): Plan
    requires NeedsSupport(action) && (MultiToken(action) ==> ctx.outflow.Some?)
  {
    var p := LendsAdded(WithScope(supported, opts.scopeRefresh), action, ctx, opts);
    if action == RepayAndWithdrawV2 then p else p.(cleanup := p.farmsCleanup + p.cleanup)
  }

  function FinishedTwoStep(supported: Plan, action: ActionType, ctx: Context, opts: Options): Result<Plan>
    requires TwoStep(action) && ctx.outflow.Some?
  {
    var p :- Support(LendsAdded(supported, action, ctx, opts), ctx, InBetweenCall(action, opts));
    Ok(WithScope(p.(cleanup := p.farmsCleanup + p.cleanup), opts.scopeRefresh))
  }

  /** Borrowing, repaying and liquidating read the obligation that they add their step for. */
  predicate HasObligation(action: ActionType, ctx: Context)
  {
    action in {Borrow, Repay, ActionType.Liquidate} ==> ctx.obligation.Some?
  }

  /** The finished plan of an action on an obligation. */
  function Built(action: ActionType, given: Context, opts: Options): Result<Plan>
    requires NeedsSupport(action)
  {
    var ctx :- Initialized(action, given);
    var supported :- Support(Opened(action, ctx, opts), ctx, SetupCall(action, opts));
    if !HasObligation(action, ctx) then Err("obligation is undefined")
    else if TwoStep(action) then FinishedTwoStep(supported, action, ctx, opts)
    else Ok(FinishedOneStep(supported, action, ctx, opts))
  }

  // ----- The order of a finished plan -----

  function EffectOf(ix: Ix): Effect requires ix.Lend? { Lent(ix.lending, ix.acting, ix.amounts) }

  /** What the plan does, in order: the requests called for and the lending steps. */
  function ExpectedTrace(action: ActionType, ctx: Context, opts: Options): seq<Effect>
    requires NeedsSupport(action) && (MultiToken(action) ==> ctx.outflow.Some?)
    requires GroupBefore(ctx, SetupCall(action, opts)).Ok? && GroupAfter(ctx, SetupCall(action, opts)).Ok?
    requires TwoStep(action) ==> GroupBefore(ctx, InBetweenCall(action, opts)).Ok?
  {
    var lends := Lends(action, ctx, opts);
    Requests(GroupBefore(ctx, SetupCall(action, opts)).value) + [EffectOf(lends[0])]
    + (if TwoStep(action) then
         Requests(GroupBefore(ctx, InBetweenCall(action, opts)).value) + [EffectOf(lends[1])]
       else [])
    + Requests(GroupAfter(ctx, SetupCall(action, opts)).value)
  }

  lemma OpenedReplays(action: ActionType, ctx: Context, opts: Options, m: Machine)
    ensures Replay(m, Opened(action, ctx, opts).setup) == Some(m)
    ensures AllNeutral(Opened(action, ctx, opts).computeBudget)
  {
    ReplayNeutral(m, Opened(action, ctx, opts).setup);
  }

  lemma ReplayOne(m: Machine, ix: Ix)
    ensures Replay(m, [ix]) == Step(m, ix)
  {
    assert [ix][..0] == [];
  }

  lemma CallsAreBuilderCalls(action: ActionType, opts: Options)
    requires NeedsSupport(action)
    ensures BuilderCall(SetupCall(action, opts))
    ensures TwoStep(action) ==> BuilderCall(InBetweenCall(action, opts))
  {}

  /** The setup of an action went through: its initialized context and the plan after its support. */
  ghost predicate SetupDone(action: ActionType, ctx: Context, opts: Options, q: Plan)
  {
    && NeedsSupport(action) && (MultiToken(action) ==> ctx.outflow.Some?)
    && Support(Opened(action, ctx, opts), ctx, SetupCall(action, opts)) == Ok(q)
  }

  /** The same for the support between the two lending steps. */
  ghost predicate BetweenDone(action: ActionType, ctx: Context, opts: Options, q: Plan, r: Plan)
  {
    && TwoStep(action) && SetupDone(action, ctx, opts, q)
    && Support(LendsAdded(q, action, ctx, opts), ctx, InBetweenCall(action, opts)) == Ok(r)
  }

  /** A lending step on a current obligation and fresh reserves goes through. */
  lemma FirstLendSteps(action: ActionType, ctx: Context, opts: Options, m: Machine)
    requires NeedsSupport(action) && (MultiToken(action) ==> ctx.outflow.Some?)
    requires CurrentReserves(ctx, SetupCall(action, opts).action).Ok?
    requires m.current && KeySet(CurrentKeys(ctx, SetupCall(action, opts))) <= m.recent
    ensures LendTaken(m, Lends(action, ctx, opts)[0])
  {
    hide Addresses;
    CurrentAre(ctx, SetupCall(action, opts).action);
  }

  lemma SecondLendSteps(action: ActionType, ctx: Context, opts: Options, m: Machine)
    requires TwoStep(action) && ctx.outflow.Some?
    requires m.current && KeySet(CurrentKeys(ctx, InBetweenCall(action, opts))) <= m.recent
    ensures LendTaken(m, Lends(action, ctx, opts)[1])
  {
    hide Addresses;
    CurrentAre(ctx, action);
  }

  /** The lending step goes through, leaves its reserves and the obligation stale and records its effect. */
  ghost predicate LendTaken(m: Machine, lend: Ix)
    requires lend.Lend?
  {
    Step(m, lend) == Some(Machine(m.recent - KeySet(lend.acting), false, m.trace + [EffectOf(lend)]))
  }

  /** From any state, the setup prepares the first lending step. */
  lemma SetupReplays(action: ActionType, ctx: Context, opts: Options, q: Plan, start: Machine)
    requires SetupDone(action, ctx, opts, q)
    ensures var call := SetupCall(action, opts);
            && GroupBefore(ctx, call).Ok? && GroupAfter(ctx, call).Ok?
            && Replay(start, q.setup).Some?
            && var m := Replay(start, q.setup).value;
               && m.trace == start.trace + Requests(GroupBefore(ctx, call).value)
               && Holdings(q) <= m.recent
               && LendTaken(m, Lends(action, ctx, opts)[0])
  {
    hide Replay, Support, GroupBefore, GroupAfter, Opened, SetupCall, Lends, NeedsSupport, CurrentKeys, LendTaken, Holdings, Prepared;
    var p, call := Opened(action, ctx, opts), SetupCall(action, opts);
    OpenedReplays(action, ctx, opts, start);
    CallsAreBuilderCalls(action, opts);
    OpenedLists(action, ctx, opts);
    assert KeySet(p.preLoaded) == {};
    assert call.where == Setup by { SetupCallIsInSetup(action, opts); }
    SupportIsReady(p, ctx, call, start);
    SupportInStages(p, ctx, call);
    FirstLendSteps(action, ctx, opts, Replay(start, q.setup).value);
    RequestedGroupsAreDefined(Prepared(p, ctx, call).value, ctx, call, OtherKeys(p, ctx, call), CurrentKeys(ctx, call));
  }

  lemma SetupCallIsInSetup(action: ActionType, opts: Options)
    requires NeedsSupport(action)
    ensures SetupCall(action, opts).where == Setup && NeedsSupport(SetupCall(action, opts).action)
  {}

  lemma OpenedLists(action: ActionType, ctx: Context, opts: Options)
    ensures var p := Opened(action, ctx, opts);
            p.preLoaded == [] && p.cleanup == [] && p.inBetween == [] && p.farmsCleanup == [] && p.lending == []
  {}

  /**
   The request behind the lending steps names no reserve that one of them left stale: there is
   none, the cleanup refreshes what it names, or the acted-on reserve is not named.
   */
  ghost predicate CleanupIsFresh(action: ActionType, ctx: Context, opts: Options)
    requires MultiToken(action) ==> ctx.outflow.Some?
  {
    var after, held, r := GroupAfter(ctx, SetupCall(action, opts)), HeldAtStart(action, ctx, opts), ctx.reserve.address;
    after.Ok? &&
    (|| after.value.None?
     || action in {Repay, RepayAndWithdraw}
     || (action == Withdraw && (ctx.amount == U64_MAX || r !in held))
     || (action == RepayAndWithdrawV2 && (ctx.outflow.value.address !in held || ctx.outflow.value.address == r)))
  }

  lemma OtherKeysAre(action: ActionType, ctx: Context, opts: Options)
    requires NeedsSupport(action) && (MultiToken(action) ==> ctx.outflow.Some?)
    ensures var call := SetupCall(action, opts);
            && KeySet(CurrentKeys(ctx, call))
               == {ctx.reserve.address} + (if MultiToken(call.action) then {ctx.outflow.value.address} else {})
            && KeySet(OtherKeys(Opened(action, ctx, opts), ctx, call))
               == HeldAtStart(action, ctx, opts) - KeySet(CurrentKeys(ctx, call))
  {
    hide Addresses, Opened, HeldAtStart;
    var p, call := Opened(action, ctx, opts), SetupCall(action, opts);
    CurrentSet(ctx, call.action);
    OpenedKeys(action, ctx, opts);
    var p1 := Preloaded(WithAtas(p, call.atas), ctx, call.action);
    assert p1.depositReserves == p.depositReserves && p1.borrowReserves == p.borrowReserves;
    assert forall k :: k in OtherKeys(p, ctx, call) <==>
                       (k in p.depositReserves || k in p.borrowReserves) && k !in CurrentKeys(ctx, call);
  }

  /** What the last lending step leaves behind: everything held stays fresh but the reserves it acted on. */
  ghost predicate LeftBy(acting: seq<Pubkey>, held: set<Pubkey>, m: Machine)
  {
    held - KeySet(acting) <= m.recent && KeySet(acting) !! m.recent
  }

  lemma CleanupFreshIff(action: ActionType, ctx: Context, opts: Options, m: Machine)
    requires NeedsSupport(action) && (MultiToken(action) ==> ctx.outflow.Some?)
    requires GroupAfter(ctx, SetupCall(action, opts)).Ok? && GroupAfter(ctx, SetupCall(action, opts)).value.Some?
    requires !TwoStep(action) ==> LeftBy(Lends(action, ctx, opts)[0].acting, HeldAtStart(action, ctx, opts), m)
    ensures CleanupNamesFresh(Opened(action, ctx, opts), ctx, SetupCall(action, opts), HeldAtStart(action, ctx, opts), m)
            <==> CleanupIsFresh(action, ctx, opts)
  {
    hide Opened, HeldAtStart, OtherKeys, CurrentKeys, GroupBefore;
    OtherKeysAre(action, ctx, opts);
    var held, r := HeldAtStart(action, ctx, opts), ctx.reserve.address;
    var skip := KeySet(SkippedAfter(ctx, SetupCall(action, opts)));
    assert skip == if action == Withdraw && ctx.amount != U64_MAX then {} else {r};
    var others := KeySet(OtherKeys(Opened(action, ctx, opts), ctx, SetupCall(action, opts)));
    if action == Withdraw {
      assert KeySet([r]) == {r};
      if ctx.amount == U64_MAX || r !in held {
        assert held - skip <= m.recent + {};
      } else {
        assert r in held - skip && r !in m.recent;
      }
    } else if action == RepayAndWithdrawV2 {
      var out := ctx.outflow.value.address;
      assert KeySet([r, out]) == {r, out};
      if out in held && out != r {
        assert out in held - skip && out !in m.recent + others;
      } else {
        assert held - skip <= m.recent + others;
      }
    } else {
      assert others == held - {r};
    }
  }

  /** The cleanup goes through after the lending steps exactly if it names nothing they left stale. */
  lemma SetupCleanupReplaysIff(action: ActionType, ctx: Context, opts: Options, q: Plan, m: Machine)
    requires SetupDone(action, ctx, opts, q)
    requires !TwoStep(action) ==> LeftBy(Lends(action, ctx, opts)[0].acting, HeldAtStart(action, ctx, opts), m)
    ensures GroupAfter(ctx, SetupCall(action, opts)).Ok?
    ensures Replay(m, q.cleanup).Some? <==> CleanupIsFresh(action, ctx, opts)
    ensures Replay(m, q.cleanup).Some? ==>
              Replay(m, q.cleanup).value.trace == m.trace + Requests(GroupAfter(ctx, SetupCall(action, opts)).value)
  {
    hide Support, GroupBefore, GroupAfter, Opened, SetupCall, NeedsSupport, HeldAtStart, Lends, LeftBy, CleanupNamesFresh, Holdings;
    var p, call := Opened(action, ctx, opts), SetupCall(action, opts);
    CallsAreBuilderCalls(action, opts);
    OpenedLists(action, ctx, opts);
    HoldingsAfterSetup(action, ctx, opts, q);
    CleanupReplaysIff(p, ctx, call, q, m);
    if GroupAfter(ctx, call).value.Some? { CleanupFreshIff(action, ctx, opts, m); }
  }

  lemma HoldingsAfterSetup(action: ActionType, ctx: Context, opts: Options, q: Plan)
    requires SetupDone(action, ctx, opts, q)
    ensures Holdings(q) == HeldAtStart(action, ctx, opts)
  {
    hide Support, Opened, SetupCall, HeldAtStart, NeedsSupport;
    KeysAfterSetup(action, ctx, opts, q);
    assert KeySet(q.preLoaded) == {};
  }

  /** Joining budget, setup, lending and cleanup. */
  lemma ReplayJoins(p: Plan, start: Machine, m: Machine)
    requires AllNeutral(p.computeBudget)
    requires Replay(start, p.setup).Some? && Replay(Replay(start, p.setup).value, p.LendingIxs()) == Some(m)
    ensures Replay(start, p.BeforeCleanup()) == Some(m)
    ensures Replay(start, p.Ixs()) == Replay(m, p.cleanup)
  {
    hide Replay;
    ReplayNeutralPrefix(start, p.computeBudget, p.setup);
    ReplayAppends(start, p.computeBudget + p.setup, p.LendingIxs());
    ReplayAppends(start, p.BeforeCleanup(), p.cleanup);
  }

  lemma ScopeIsNeutral(p: Plan, refresh: bool, m: Machine)
    ensures Replay(m, WithScope(p, refresh).setup) == Replay(m, p.setup)
  {
    ReplayNeutralPrefix(m, [Preparation(RefreshScopePrices)], p.setup);
  }

  /** A plan that was built went through its setup and, in two steps, through what is in between. */
  lemma BuiltInStages(action: ActionType, given: Context, opts: Options) returns (ctx: Context, q: Plan, r: Plan)
    requires NeedsSupport(action) && Built(action, given, opts).Ok?
    ensures Initialized(action, given) == Ok(ctx) && HasObligation(action, ctx) && SetupDone(action, ctx, opts, q)
    ensures if TwoStep(action) then
              && BetweenDone(action, ctx, opts, q, r)
              && Built(action, given, opts).value == WithScope(r.(cleanup := r.farmsCleanup + r.cleanup), opts.scopeRefresh)
            else
              Built(action, given, opts).value == FinishedOneStep(q, action, ctx, opts)
  {
    hide Support, Opened, SetupCall, InBetweenCall, LendsAdded, NeedsSupport;
    ctx := Initialized(action, given).value;
    q := Support(Opened(action, ctx, opts), ctx, SetupCall(action, opts)).value;
    r := q;
    if TwoStep(action) {
      r := Support(LendsAdded(q, action, ctx, opts), ctx, InBetweenCall(action, opts)).value;
    }
  }

  /** The requests and lending steps before the cleanup. */
  function TraceBeforeCleanup(action: ActionType, ctx: Context, opts: Options): seq<Effect>
    requires NeedsSupport(action) && (MultiToken(action) ==> ctx.outflow.Some?)
    requires GroupBefore(ctx, SetupCall(action, opts)).Ok?
    requires TwoStep(action) ==> GroupBefore(ctx, InBetweenCall(action, opts)).Ok?
  {
    var lends := Lends(action, ctx, opts);
    Requests(GroupBefore(ctx, SetupCall(action, opts)).value) + [EffectOf(lends[0])]
    + (if TwoStep(action) then
         Requests(GroupBefore(ctx, InBetweenCall(action, opts)).value) + [EffectOf(lends[1])]
       else [])
  }

  /**
   Up to and including the last lending step the plan goes through with exactly the effects of
   the action; the whole plan goes through if and only if its cleanup names nothing stale, and
   then adds exactly the request called for.
   */
  ghost predicate ReplaysAsExpected(action: ActionType, ctx: Context, opts: Options, p: Plan, start: Machine)
    requires NeedsSupport(action) && (MultiToken(action) ==> ctx.outflow.Some?)
  {
    && GroupBefore(ctx, SetupCall(action, opts)).Ok? && GroupAfter(ctx, SetupCall(action, opts)).Ok?
    && (TwoStep(action) ==> GroupBefore(ctx, InBetweenCall(action, opts)).Ok?)
    && var lent, end := Replay(start, p.BeforeCleanup()), Replay(start, p.Ixs());
       && lent.Some? && lent.value.trace == start.trace + TraceBeforeCleanup(action, ctx, opts)
       && (end.Some? <==> CleanupIsFresh(action, ctx, opts))
       && (end.Some? ==> end.value.trace == start.trace + ExpectedTrace(action, ctx, opts))
  }

  lemma OneStepPlanReplays(action: ActionType, ctx: Context, opts: Options, q: Plan, start: Machine)
    requires !TwoStep(action) && SetupDone(action, ctx, opts, q)
    ensures ReplaysAsExpected(action, ctx, opts, FinishedOneStep(q, action, ctx, opts), start)
  {
    hide Replay, Support, GroupBefore, GroupAfter, Opened, Holdings, FinishedOneStep, SetupCall, Lends, CleanupIsFresh, HeldAtStart;
    SetupReplays(action, ctx, opts, q, start);
    HoldingsAfterSetup(action, ctx, opts, q);
    var ready := Replay(start, q.setup).value;
    var lend := Lends(action, ctx, opts)[0];
    var done := Step(ready, lend).value;
    var p := FinishedOneStep(q, action, ctx, opts);
    OneStepLists(action, ctx, opts, q);
    ScopeIsNeutral(q, opts.scopeRefresh, start);
    ReplayOne(ready, lend);
    ReplayJoins(p, start, done);
    SetupCleanupReplaysIff(action, ctx, opts, q, done);
    ReplayNeutralPrefix(done, q.farmsCleanup, q.cleanup);
  }

  lemma OneStepLists(action: ActionType, ctx: Context, opts: Options, q: Plan)
    requires !TwoStep(action) && SetupDone(action, ctx, opts, q)
    ensures var p := FinishedOneStep(q, action, ctx, opts);
            && p.setup == WithScope(q, opts.scopeRefresh).setup
            && p.LendingIxs() == [Lends(action, ctx, opts)[0]]
            && AllNeutral(p.computeBudget) && AllNeutral(q.farmsCleanup)
            && (p.cleanup == q.cleanup || p.cleanup == q.farmsCleanup + q.cleanup)
  {
    hide Support, Merged, Lends, Opened, NeedsSupport, SetupCall, AllNeutral;
    CallsAreBuilderCalls(action, opts);
    OpenedReplays(action, ctx, opts, START);
    OpenedLists(action, ctx, opts);
    assert AllNeutral([]) by { NothingIsNeutral(); }
    SupportFrame(Opened(action, ctx, opts), ctx, SetupCall(action, opts));
  }

  lemma NothingIsNeutral()
    ensures AllNeutral([])
  {}

  lemma TwoStepPlanReplays(action: ActionType, ctx: Context, opts: Options, q: Plan, r: Plan, start: Machine)
    requires BetweenDone(action, ctx, opts, q, r)
    ensures ReplaysAsExpected(action, ctx, opts, WithScope(r.(cleanup := r.farmsCleanup + r.cleanup), opts.scopeRefresh), start)
  {
    hide Replay, Support, GroupBefore, GroupAfter, Opened, Holdings, SetupCall, InBetweenCall, LendsAdded, Lends, CleanupIsFresh, HeldAtStart;
    SetupReplays(action, ctx, opts, q, start);
    var setUp := Replay(start, q.setup).value;
    var lends := Lends(action, ctx, opts);
    var middle := Step(setUp, lends[0]).value;
    InBetweenReplays(action, ctx, opts, q, r, middle);
    var added, call := LendsAdded(q, action, ctx, opts), InBetweenCall(action, opts);
    var ready := Replay(middle, r.inBetween).value;
    var done := Step(ready, lends[1]).value;
    var p := WithScope(r.(cleanup := r.farmsCleanup + r.cleanup), opts.scopeRefresh);
    TwoStepLists(action, ctx, opts, q, r);
    ScopeIsNeutral(r.(cleanup := r.farmsCleanup + r.cleanup), opts.scopeRefresh, start);
    CallsAreBuilderCalls(action, opts);
    SetupAfterInBetween(added, ctx, call, start);
    CleanupAfterInBetween(added, ctx, call, done);
    ReplayLendingPair(setUp, lends[0], r.inBetween, lends[1]);
    ReplayJoins(p, start, done);
    SetupCleanupReplaysIff(action, ctx, opts, q, done);
    ReplayNeutralPrefix(done, r.farmsCleanup, r.cleanup);
  }

  lemma ReplayLendingPair(m: Machine, first: Ix, between: seq<Ix>, second: Ix)
    requires Step(m, first).Some? && Replay(Step(m, first).value, between).Some?
    ensures Replay(m, [first] + between + [second]) == Step(Replay(Step(m, first).value, between).value, second)
  {
    hide Replay;
    ReplayOne(m, first);
    ReplayAppends(m, [first], between);
    ReplayAppends(m, [first] + between, [second]);
    ReplayOne(Replay(Step(m, first).value, between).value, second);
  }

  /** What stands between the two lending steps makes the replay ready for the second. */
  lemma InBetweenReplays(action: ActionType, ctx: Context, opts: Options, q: Plan, r: Plan, m: Machine)
    requires BetweenDone(action, ctx, opts, q, r)
    ensures var call := InBetweenCall(action, opts);
            && call.where == InBetween
            && GroupBefore(ctx, call).Ok?
            && Replay(m, r.inBetween).Some?
            && var ready := Replay(m, r.inBetween).value;
               && ready.trace == m.trace + Requests(GroupBefore(ctx, call).value)
               && LendTaken(ready, Lends(action, ctx, opts)[1])
  {
    hide Replay, Support, GroupBefore, GroupAfter, Opened, Merged, Lends, CurrentKeys, Step, Prepared, SetupCall, LendTaken;
    var p, call := Opened(action, ctx, opts), InBetweenCall(action, opts);
    CallsAreBuilderCalls(action, opts);
    OpenedLists(action, ctx, opts);
    SetupCallIsInSetup(action, opts);
    SupportFrame(p, ctx, SetupCall(action, opts));
    var added := LendsAdded(q, action, ctx, opts);
    ReplayNeutral(m, added.inBetween);
    SupportIsReady(added, ctx, call, m);
    SecondLendSteps(action, ctx, opts, Replay(m, r.inBetween).value);
  }

  lemma TwoStepLists(action: ActionType, ctx: Context, opts: Options, q: Plan, r: Plan)
    requires BetweenDone(action, ctx, opts, q, r)
    ensures var added := LendsAdded(q, action, ctx, opts);
            var lends := Lends(action, ctx, opts);
            && r.LendingIxs() == [lends[0]] + r.inBetween + [lends[1]]
            && added.setup == q.setup && added.cleanup == q.cleanup
            && AllNeutral(r.computeBudget) && AllNeutral(r.farmsCleanup)
  {
    hide Support, Merged, Lends, Opened, NeedsSupport, BuilderCall, SetupCall, InBetweenCall;
    CallsAreBuilderCalls(action, opts);
    OpenedLists(action, ctx, opts);
    OpenedReplays(action, ctx, opts, START);
    SupportFrame(Opened(action, ctx, opts), ctx, SetupCall(action, opts));
    var added := LendsAdded(q, action, ctx, opts);
    SupportFrame(added, ctx, InBetweenCall(action, opts));
    TwoLends(action, ctx, opts);
    assert added.lending == Lends(action, ctx, opts);
  }

  lemma TwoLends(action: ActionType, ctx: Context, opts: Options)
    requires TwoStep(action) && ctx.outflow.Some?
    ensures |Lends(action, ctx, opts)| == 2
    ensures forall between :: Interleaved(Lends(action, ctx, opts), between)
              == [Lends(action, ctx, opts)[0]] + between + [Lends(action, ctx, opts)[1]]
  {
    var lends := Lends(action, ctx, opts);
    assert lends[1..] == [lends[1]];
  }

  /**
   As to staleness, every finished plan goes from any state through up to its last lending step
   with exactly the effects asked for: no obligation refresh or request names a stale reserve,
   and each lending step finds its reserves and the obligation refreshed since the previous step
   and request.  The whole plan goes through if and only if the request behind it names nothing
   that a lending step left stale.
   */
  lemma BuiltPlanReplays(action: ActionType, given: Context, opts: Options, start: Machine)
    requires NeedsSupport(action) && Built(action, given, opts).Ok?
    ensures Initialized(action, given).Ok?
    ensures ReplaysAsExpected(action, Initialized(action, given).value, opts, Built(action, given, opts).value, start)
  {
    hide Replay, Support, GroupBefore, GroupAfter, Built, FinishedOneStep, ExpectedTrace, SetupDone, SetupCall, InBetweenCall, CleanupIsFresh;
    var ctx, q, r := BuiltInStages(action, given, opts);
    if TwoStep(action) { TwoStepPlanReplays(action, ctx, opts, q, r, start); } else { OneStepPlanReplays(action, ctx, opts, q, start); }
  }

  // ----- Plans without support: obligation refresh, group request, referrer fees -----

  function Views(market: Market, keys: seq<Pubkey>): seq<ReserveView>
    requires forall k :: k in keys ==> ReserveByAddress(market.reserves, k).Some?
  {
    seq(|keys|, i requires 0 <= i < |keys| => ReserveByAddress(market.reserves, keys[i]).value)
  }

  /** Refreshes all of the obligation's reserves, their farms and the obligation. */
  function RefreshedAll(p: Plan, ctx: Context): Result<Plan>
  {
    var p1 :- Refreshed(p, ctx, Setup, Unique(p.depositReserves + p.borrowReserves));
    assert forall k :: k in p.depositReserves || k in p.borrowReserves ==> k in Unique(p.depositReserves + p.borrowReserves);
    var p2 := FarmsAdded(p1, Setup, FarmRefreshes(Views(ctx.market, p.depositReserves), CollateralFarm), false);
    var p3 := FarmsAdded(p2, Setup, FarmRefreshes(Views(ctx.market, p.borrowReserves), DebtFarm), false);
    Ok(p3.ObligationRefreshed(Setup, []))
  }

  function WithBudget(p: Plan, units: nat): Plan
  {
    p.(computeBudget := p.computeBudget + if units > 0 then [ComputeBudget(units)] else [])
  }

  /** The plan of an obligation refresh, or of a group request when one is given. */
  function RefreshOrRequest(ctx: Context, units: nat, group: Option<nat>): Result<Plan>
  {
    if ctx.obligation.None? || ctx.obligation.value.deposits == [] then Err("obligation has no deposits")
    else if ReserveByAddress(ctx.market.reserves, ctx.obligation.value.deposits[0]).None? then Err("Reserve not found")
    else
      var p :- RefreshedAll(WithBudget(EmptyPlan(ctx), units), ctx);
      Ok(if group.Some? then p.ElevationRequested(group.value, Setup, []) else p)
  }

  function ReferrerFeesPlan(ctx: Context): Result<Plan>
  {
    var p := EmptyPlan(ctx).(setup := [Preparation(TokenAccount(0))]);
    var q :- Refreshed(p, ctx, Setup, [ctx.reserve.address]);
    Ok(q.(lending := [Lend(PayReferrerFees, [ctx.reserve.address], [])]))
  }

  lemma RefreshedAllReplays(p: Plan, ctx: Context, start: Machine)
    requires p.setup == [] && p.preLoaded == [] && RefreshedAll(p, ctx).Ok?
    ensures var q := RefreshedAll(p, ctx).value;
            var end := Replay(start, q.setup);
            end.Some? && end.value.current && end.value.trace == start.trace && Holdings(q) <= end.value.recent
  {
    hide Replay, RefreshIxs, FarmRefreshes, Unique;
    var keys := Unique(p.depositReserves + p.borrowReserves);
    var farms1, farms2 := FarmRefreshes(Views(ctx.market, p.depositReserves), CollateralFarm), FarmRefreshes(Views(ctx.market, p.borrowReserves), DebtFarm);
    assert Replay(start, []) == Some(start) by { ReplayNeutral(start, []); }
    ReplayRefreshAppended(p, Setup, keys, start);
    var p1 := p.Append(Setup, RefreshIxs(keys));
    var p3 := FarmsAdded(FarmsAdded(p1, Setup, farms1, false), Setup, farms2, false);
    ReplayNeutralSuffix(start, p1.setup, farms1);
    ReplayNeutralSuffix(start, p1.setup + farms1, farms2);
    assert Holdings(p3) <= KeySet(keys);
    var now := Replay(start, p3.setup).value;
    NamedWithin(p3, [], now.recent);
    ReplayObligationRefresh(p3, Setup, [], start);
    HoldingsOf(p3, Setup, [Ix.RefreshObligation(p3.Named([]))]);
  }

  /** These plans replay: the refresh names fresh reserves only, and the request, if any, follows a current obligation. */
  lemma RefreshOrRequestReplays(ctx: Context, units: nat, group: Option<nat>, start: Machine)
    requires RefreshOrRequest(ctx, units, group).Ok?
    ensures var end := Replay(start, RefreshOrRequest(ctx, units, group).value.Ixs());
            end.Some? && end.value.trace == start.trace + Requests(group) && end.value.current == group.None?
  {
    hide Replay, RefreshedAll, Refreshed, Merged;
    var p := WithBudget(EmptyPlan(ctx), units);
    var q := RefreshedAll(p, ctx).value;
    RefreshedAllReplays(p, ctx, start);
    RefreshedAllFrame(p, ctx);
    if group.Some? {
      NamedWithin(q, [], Replay(start, q.setup).value.recent);
      ReplayRequest(q, group.value, Setup, [], start);
    }
    var r := RefreshOrRequest(ctx, units, group).value;
    ReplayNeutralPrefix(start, r.computeBudget, r.setup);
    SetupAlone(r);
  }

  lemma SetupAlone(p: Plan)
    requires p.lending == [] && p.cleanup == []
    ensures p.Ixs() == p.computeBudget + p.setup
  {}

  lemma RefreshedAllFrame(p: Plan, ctx: Context)
    requires RefreshedAll(p, ctx).Ok?
    ensures var q := RefreshedAll(p, ctx).value;
            q.computeBudget == p.computeBudget && q.lending == p.lending && q.inBetween == p.inBetween && q.cleanup == p.cleanup
  {
    hide Unique, Merged, RefreshIxs, FarmRefreshes;
  }

  /** Paying out referrer fees needs its reserve fresh and no obligation. */
  lemma ReferrerFeesReplay(ctx: Context, start: Machine)
    requires ReferrerFeesPlan(ctx).Ok?
    ensures var end := Replay(start, ReferrerFeesPlan(ctx).value.Ixs());
            end.Some? && end.value.trace == start.trace + [Lent(PayReferrerFees, [ctx.reserve.address], [])]
  {
    hide Replay, RefreshIxs;
    var plan := ReferrerFeesPlan(ctx).value;
    var r := ctx.reserve.address;
    var lend := Lend(PayReferrerFees, [r], []);
    ReplayNeutralPrefix(start, [Preparation(TokenAccount(0))], RefreshIxs([r]));
    ReplayRefreshes(start, [r]);
    assert r in KeySet([r]);
    assert plan.Ixs() == plan.setup + [lend];
    ReplayAppends(start, plan.setup, [lend]);
    ReplayOne(Replay(start, plan.setup).value, lend);
  }

  // ----- The transaction of a plan -----

  lemma LendingOf(action: ActionType, given: Context, opts: Options)
    requires NeedsSupport(action) && Built(action, given, opts).Ok?
    ensures Initialized(action, given).Ok?
    ensures Built(action, given, opts).value.lending == Lends(action, Initialized(action, given).value, opts)
    ensures AllNeutral(Built(action, given, opts).value.computeBudget)
  {
    hide Support, Opened, SetupCall, InBetweenCall, Lends, NeedsSupport, Merged, Built, AllNeutral;
    var ctx, q, r := BuiltInStages(action, given, opts);
    CallsAreBuilderCalls(action, opts);
    OpenedLists(action, ctx, opts);
    OpenedReplays(action, ctx, opts, START);
    NothingIsNeutral();
    SupportFrame(Opened(action, ctx, opts), ctx, SetupCall(action, opts));
    if TwoStep(action) {
      SupportFrame(LendsAdded(q, action, ctx, opts), ctx, InBetweenCall(action, opts));
    }
  }

  lemma SameReplayWithoutBudget(p: Plan, m: Machine)
    requires |p.lending| <= 2 && AllNeutral(p.computeBudget)
    ensures p.Ixs() == p.computeBudget + p.Transaction() && Replay(m, p.Transaction()) == Replay(m, p.Ixs())
  {
    hide Replay;
    TransactionDropsComputeBudgetIff(p);
    ReplayNeutralPrefix(m, p.computeBudget, p.Transaction());
  }

  /** The transaction of every built plan is the plan in the same order without its compute budget, and replays alike. */
  lemma BuiltTransaction(action: ActionType, given: Context, opts: Options, m: Machine)
    requires NeedsSupport(action) && Built(action, given, opts).Ok?
    ensures var p := Built(action, given, opts).value;
            && 1 <= |p.lending| <= 2
            && p.Ixs() == p.computeBudget + p.Transaction() && Replay(m, p.Transaction()) == Replay(m, p.Ixs())
  {
    hide Replay, Built, Lends;
    LendingOf(action, given, opts);
    SameReplayWithoutBudget(Built(action, given, opts).value, m);
  }

  /** The same for plans without support. */
  lemma OtherTransactions(ctx: Context, units: nat, group: Option<nat>, m: Machine)
    ensures RefreshOrRequest(ctx, units, group).Ok? ==>
              var p := RefreshOrRequest(ctx, units, group).value;
              p.Ixs() == p.computeBudget + p.Transaction() && Replay(m, p.Transaction()) == Replay(m, p.Ixs())
    ensures ReferrerFeesPlan(ctx).Ok? ==>
              var p := ReferrerFeesPlan(ctx).value;
              p.Ixs() == p.computeBudget + p.Transaction() && Replay(m, p.Transaction()) == Replay(m, p.Ixs())
  {
    hide Replay, RefreshedAll;
    if RefreshOrRequest(ctx, units, group).Ok? {
      RefreshedAllFrame(WithBudget(EmptyPlan(ctx), units), ctx);
      SameReplayWithoutBudget(RefreshOrRequest(ctx, units, group).value, m);
    }
    if ReferrerFeesPlan(ctx).Ok? { SameReplayWithoutBudget(ReferrerFeesPlan(ctx).value, m); }
  }

  // ----- A plan that is refused -----

  /** A market with one reserve and one group. */
  function SmallMarket(r: ReserveView): Market { Market([r], [GroupConfig(1, r.address, 5, 90, 95)]) }

  /** Withdrawing 5 lamports of the only deposit, with a request for group 1 behind it. */
  function PartialWithdrawal(r: ReserveView): Context
  {
    Context(SmallMarket(r), r, None, Some(ObligationView([r.address], [], map[], 0)), 5, {})
  }

  function RequestBehind(group: nat): Options
  {
    Options(0, None, Atas([], []), true, false, false, true, false, Some(group), [], false, 0)
  }

  /** The plan exists, its withdrawal goes through, and its request names the reserve the withdrawal left stale. */
  lemma PartialWithdrawalIsRefused(r: ReserveView)
    ensures var ctx, opts := PartialWithdrawal(r), RequestBehind(1);
            && Built(Withdraw, ctx, opts).Ok?
            && Replay(START, Built(Withdraw, ctx, opts).value.BeforeCleanup()).Some?
            && Replay(START, Built(Withdraw, ctx, opts).value.Ixs()).None?
  {
    hide Built, Replay;
    var ctx, opts := PartialWithdrawal(r), RequestBehind(1);
    assert ctx.market.reserves[0].address == r.address;
    DepositOrWithdrawIsPlanned(Withdraw, ctx, opts);
    BuiltPlanReplays(Withdraw, ctx, opts, START);
    assert r.address in EmptyPlan(ctx).depositReserves;
  }

  // ----- Requests -----

  /** The group the obligation is in before the plan; a new one is in the default group. */
  function GroupAtStart(ctx: Context): nat { if ctx.obligation.Some? then ctx.obligation.value.elevationGroup else 0 }

  ghost predicate AsksFor(action: ActionType, ctx: Context, opts: Options, group: nat)
    requires Decided(action, ctx, opts)
  {
    Effect.Requested(group) in ExpectedTrace(action, ctx, opts)
  }

  /**
   The program refuses a request for the group an obligation is in.  A plan asks for that group
   exactly when a withdrawal is told to, or the default group is asked for a new obligation.
   */
  lemma AsksForCurrentGroupIff(action: ActionType, ctx: Context, opts: Options)
    requires Decided(action, ctx, opts) && HasObligation(action, ctx) && (!MultiToken(action) ==> ctx.outflow.None?)
    ensures AsksFor(action, ctx, opts, GroupAtStart(ctx)) <==>
            opts.request && opts.overrideGroup == Some(GroupAtStart(ctx)) &&
            (action == Withdraw || (action == Deposit && ctx.obligation.None?))
  {
    hide Lends, CommonGroups, BestGroup, GroupById;
    var before, after := GroupBefore(ctx, SetupCall(action, opts)).value, GroupAfter(ctx, SetupCall(action, opts)).value;
    var lends, trace := Lends(action, ctx, opts), ExpectedTrace(action, ctx, opts);
    var g := Effect.Requested(GroupAtStart(ctx));
    assert g in trace <==> g in Requests(before) || g in Requests(after)
                           || (TwoStep(action) && g in Requests(GroupBefore(ctx, InBetweenCall(action, opts)).value));
  }

  // ----- Plans that exist -----

  /** The market has all keys of a set. */
  ghost predicate AllListed(ctx: Context, keys: set<Pubkey>)
  {
    forall k :: k in keys ==> ReserveByAddress(ctx.market.reserves, k).Some?
  }

  lemma PreparedIffListed(p: Plan, ctx: Context, call: Call)
    requires BuilderCall(call) && CurrentReserves(ctx, call.action).Ok?
    ensures Prepared(p, ctx, call).Ok? <==>
            && AllListed(ctx, KeySet(p.depositReserves) + KeySet(p.borrowReserves) + KeySet(CurrentKeys(ctx, call)))
            && RepaidToSkip(ctx, call).Ok?
    ensures Prepared(p, ctx, call).Ok? ==> InMarket(ctx, OtherKeys(p, ctx, call)) && InMarket(ctx, CurrentKeys(ctx, call))
  {
    hide RefreshIxs, FarmInits, Merged, Addresses, RepaidToSkip, TokenAccounts, NeedsSupport, BuilderCall;
    var p1 := Preloaded(WithAtas(p, call.atas), ctx, call.action);
    var all, current, others := p.depositReserves + p.borrowReserves, CurrentKeys(ctx, call), OtherKeys(p, ctx, call);
    assert others == OtherReserves(p1, current) && p1.depositReserves + p1.borrowReserves == all;
    assert forall k :: k in others <==> k in all && k !in current;
    assert InMarket(ctx, others) && InMarket(ctx, current) <==>
           AllListed(ctx, KeySet(p.depositReserves) + KeySet(p.borrowReserves) + KeySet(current)) by {
      assert forall k :: k in KeySet(p.depositReserves) + KeySet(p.borrowReserves) <==> k in all;
      assert forall k :: k in KeySet(current) <==> k in current;
      ListedSplits(ctx, all, current, others);
    }
  }

  lemma ListedSplits(ctx: Context, all: seq<Pubkey>, current: seq<Pubkey>, others: seq<Pubkey>)
    requires forall k :: k in others <==> k in all && k !in current
    ensures InMarket(ctx, others) && InMarket(ctx, current) <==> AllListed(ctx, KeySet(all) + KeySet(current))
  {
    if InMarket(ctx, others) && InMarket(ctx, current) {
      forall k | k in KeySet(all) + KeySet(current) ensures ReserveByAddress(ctx.market.reserves, k).Some? {
        if k !in current { assert k in others; }
      }
    }
    if AllListed(ctx, KeySet(all) + KeySet(current)) {
      forall k | k in others ensures ReserveByAddress(ctx.market.reserves, k).Some? { assert k in KeySet(all); }
      forall k | k in current ensures ReserveByAddress(ctx.market.reserves, k).Some? { assert k in KeySet(current); }
    }
  }

  lemma RequestedIffDecided(p: Plan, ctx: Context, call: Call, others: seq<Pubkey>, current: seq<Pubkey>)
    requires InMarket(ctx, others) && InMarket(ctx, current)
    ensures GroupRequested(p, ctx, call, others, current).Ok? <==> GroupBefore(ctx, call).Ok? && GroupAfter(ctx, call).Ok?
  {
    hide InMarket, GroupBefore, GroupAfter, Merged, Without;
  }

  /** Farms can be refreshed for every builder call that does so. */
  lemma FarmsAreDecided(p: Plan, ctx: Context, call: Call, reserves: seq<ReserveView>)
    requires BuilderCall(call) && CurrentReserves(ctx, call.action).Ok? && call.action != RepayAndWithdrawV2
    ensures FarmsRefreshed(p, ctx, call, reserves).Ok?
  {
    hide FarmRefreshes;
  }

  lemma SupportIffListed(p: Plan, ctx: Context, call: Call)
    requires BuilderCall(call) && (call.action == RepayAndWithdrawV2 ==> call.useV2Ixs)
    ensures Support(p, ctx, call).Ok? <==>
            && CurrentReserves(ctx, call.action).Ok?
            && AllListed(ctx, KeySet(p.depositReserves) + KeySet(p.borrowReserves) + KeySet(CurrentKeys(ctx, call)))
            && RepaidToSkip(ctx, call).Ok? && GroupBefore(ctx, call).Ok? && GroupAfter(ctx, call).Ok?
  {
    hide Prepared, GroupRequested, FarmsRefreshed, AllListed, InMarket, GroupBefore, GroupAfter, RepaidToSkip, OtherKeys, CurrentKeys;
    if CurrentReserves(ctx, call.action).Ok? {
      PreparedIffListed(p, ctx, call);
      if Prepared(p, ctx, call).Ok? {
        var others, current := OtherKeys(p, ctx, call), CurrentKeys(ctx, call);
        var p5 := Prepared(p, ctx, call).value;
        RequestedIffDecided(p5, ctx, call, others, current);
        var p6 := GroupRequested(p5, ctx, call, others, current);
        if p6.Ok? && !call.useV2Ixs { FarmsAreDecided(p6.value, ctx, call, CurrentReserves(ctx, call.action).value); }
      }
    }
  }

  /** The groups requested and the repaid reserve skipped are known. */
  ghost predicate Decided(action: ActionType, ctx: Context, opts: Options)
  {
    && NeedsSupport(action) && (MultiToken(action) ==> ctx.outflow.Some?)
    && GroupBefore(ctx, SetupCall(action, opts)).Ok? && GroupAfter(ctx, SetupCall(action, opts)).Ok?
    && (TwoStep(action) ==> GroupBefore(ctx, InBetweenCall(action, opts)).Ok? && RepaidToSkip(ctx, InBetweenCall(action, opts)).Ok?)
  }

  /** The deposits of the obligation, with those an earlier instruction is known to have added. */
  ghost function DepositsAtStart(action: ActionType, ctx: Context, opts: Options): set<Pubkey>
  {
    KeySet(EmptyPlan(ctx).depositReserves) + KeySet(if action == Withdraw then opts.addedDepositReserves else [])
  }

  ghost function BorrowsAtStart(ctx: Context): set<Pubkey> { KeySet(EmptyPlan(ctx).borrowReserves) }

  ghost function HeldAtStart(action: ActionType, ctx: Context, opts: Options): set<Pubkey>
  {
    DepositsAtStart(action, ctx, opts) + BorrowsAtStart(ctx)
  }

  /** Every reserve the plan has to refresh. */
  ghost function Involved(action: ActionType, ctx: Context, opts: Options): set<Pubkey>
    requires MultiToken(action) ==> ctx.outflow.Some?
  {
    HeldAtStart(action, ctx, opts) + {ctx.reserve.address} + if MultiToken(action) then {ctx.outflow.value.address} else {}
  }

  lemma CurrentSet(ctx: Context, action: ActionType)
    requires CurrentReserves(ctx, action).Ok?
    ensures KeySet(Addresses(CurrentReserves(ctx, action).value))
         == {ctx.reserve.address} + if MultiToken(action) then {ctx.outflow.value.address} else {}
  {
    CurrentAre(ctx, action);
    var reserves := CurrentReserves(ctx, action).value;
    assert forall i :: 0 <= i < |reserves| ==>
      reserves[i].address == ctx.reserve.address || (MultiToken(action) && reserves[i].address == ctx.outflow.value.address);
  }

  lemma OpenedKeys(action: ActionType, ctx: Context, opts: Options)
    ensures var p := Opened(action, ctx, opts);
            KeySet(p.depositReserves) + KeySet(p.borrowReserves) == HeldAtStart(action, ctx, opts)
  {
    hide Preparations, EmptyPlan;
    var p, empty := Opened(action, ctx, opts), EmptyPlan(ctx);
    assert p.depositReserves == empty.depositReserves + if action == Withdraw then opts.addedDepositReserves else [];
    assert KeySet(p.depositReserves) == DepositsAtStart(action, ctx, opts);
  }

  lemma SetupCallSkipsNothing(action: ActionType, ctx: Context, opts: Options)
    requires NeedsSupport(action)
    ensures RepaidToSkip(ctx, SetupCall(action, opts)) == Ok([])
    ensures SetupCall(action, opts).action == RepayAndWithdrawV2 ==> SetupCall(action, opts).useV2Ixs
  {}

  /** The setup is planned exactly when the reserves it refreshes are listed and its requests are decided. */
  lemma SetupIffListed(action: ActionType, ctx: Context, opts: Options)
    requires NeedsSupport(action) && (MultiToken(action) ==> ctx.outflow.Some?)
    ensures Support(Opened(action, ctx, opts), ctx, SetupCall(action, opts)).Ok? <==>
            && AllListed(ctx, HeldAtStart(action, ctx, opts) + {ctx.reserve.address}
                              + if MultiToken(action) && !TwoStep(action) then {ctx.outflow.value.address} else {})
            && GroupBefore(ctx, SetupCall(action, opts)).Ok? && GroupAfter(ctx, SetupCall(action, opts)).Ok?
  {
    hide Support, Opened, AllListed, GroupBefore, GroupAfter, RepaidToSkip, HeldAtStart, Addresses, BuilderCall, NeedsSupport;
    var call := SetupCall(action, opts);
    CallsAreBuilderCalls(action, opts);
    SetupCallSkipsNothing(action, ctx, opts);
    OpenedKeys(action, ctx, opts);
    SupportIffListed(Opened(action, ctx, opts), ctx, call);
    CurrentSet(ctx, call.action);
    assert MultiToken(call.action) <==> MultiToken(action) && !TwoStep(action);
    var held := HeldAtStart(action, ctx, opts);
    assert held + KeySet(CurrentKeys(ctx, call))
        == held + {ctx.reserve.address} + if MultiToken(action) && !TwoStep(action) then {ctx.outflow.value.address} else {};
  }

  lemma InBetweenIffListed(action: ActionType, ctx: Context, opts: Options, q: Plan)
    requires TwoStep(action) && SetupDone(action, ctx, opts, q)
    requires KeySet(q.depositReserves) + KeySet(q.borrowReserves) == HeldAtStart(action, ctx, opts) && q.preLoaded == []
    ensures Support(LendsAdded(q, action, ctx, opts), ctx, InBetweenCall(action, opts)).Ok? <==>
            && AllListed(ctx, Involved(action, ctx, opts))
            && GroupBefore(ctx, InBetweenCall(action, opts)).Ok? && RepaidToSkip(ctx, InBetweenCall(action, opts)).Ok?
  {
    hide Support, Opened, AllListed, GroupBefore, GroupAfter, RepaidToSkip, HeldAtStart, Addresses, Lends, SetupCall, Merged;
    var call, added := InBetweenCall(action, opts), LendsAdded(q, action, ctx, opts);
    CallsAreBuilderCalls(action, opts);
    NoCleanupRequestInBetween(action, ctx, opts);
    SupportIffListed(added, ctx, call);
    CurrentSet(ctx, call.action);
    assert KeySet(added.depositReserves) + KeySet(added.borrowReserves) + KeySet(CurrentKeys(ctx, call)) == Involved(action, ctx, opts);
  }

  lemma NoCleanupRequestInBetween(action: ActionType, ctx: Context, opts: Options)
    requires TwoStep(action)
    ensures GroupAfter(ctx, InBetweenCall(action, opts)) == Ok(None)
  {}

  /** The lists of reserves after the setup. */
  lemma KeysAfterSetup(action: ActionType, ctx: Context, opts: Options, q: Plan)
    requires SetupDone(action, ctx, opts, q)
    ensures KeySet(q.depositReserves) + KeySet(q.borrowReserves) == HeldAtStart(action, ctx, opts) && q.preLoaded == []
  {
    hide Support, Opened, SetupCall, HeldAtStart, NeedsSupport, BuilderCall;
    var p, call := Opened(action, ctx, opts), SetupCall(action, opts);
    CallsAreBuilderCalls(action, opts);
    SetupCallIsInSetup(action, opts);
    OpenedLists(action, ctx, opts);
    OpenedKeys(action, ctx, opts);
    SupportFrame(p, ctx, call);
    SupportKeepsDeposits(p, ctx, call, q);
  }

  lemma SupportKeepsDeposits(p: Plan, ctx: Context, call: Call, q: Plan)
    requires BuilderCall(call) && call.where == Setup && p.preLoaded == [] && Support(p, ctx, call) == Ok(q)
    ensures q.depositReserves == p.depositReserves
  {
    hide RefreshIxs, Without, Addresses, FarmInits, FarmRefreshes, InMarket, GroupBefore, GroupAfter, TokenAccounts, RepaidToSkip, OtherReserves;
    SupportInStages(p, ctx, call);
    var p5 := Prepared(p, ctx, call).value;
    assert p5.depositReserves == p.depositReserves && p5.preLoaded == [];
    var p6 := GroupRequested(p5, ctx, call, OtherKeys(p, ctx, call), CurrentKeys(ctx, call)).value;
    assert p6.depositReserves == p5.depositReserves;
  }

  /**
   An action is planned exactly when it initializes, the obligation it reads exists, the market has
   every reserve involved, and the groups to request and the reserve to skip can be determined.
   */
  lemma PlanExistsIff(action: ActionType, given: Context, opts: Options)
    requires NeedsSupport(action)
    ensures Built(action, given, opts).Ok? <==>
            && Initialized(action, given).Ok?
            && var ctx := Initialized(action, given).value;
               HasObligation(action, ctx) && Decided(action, ctx, opts) && AllListed(ctx, Involved(action, ctx, opts))
  {
    hide Support, Opened, SetupCall, InBetweenCall, AllListed, HeldAtStart, GroupBefore, GroupAfter, RepaidToSkip, LendsAdded, FinishedOneStep, NeedsSupport;
    if Initialized(action, given).Ok? {
      var ctx := Initialized(action, given).value;
      SetupIffListed(action, ctx, opts);
      var held := HeldAtStart(action, ctx, opts);
      if TwoStep(action) {
        ListedSubset(ctx, held + {ctx.reserve.address}, Involved(action, ctx, opts));
        assert held + {ctx.reserve.address} + {} == held + {ctx.reserve.address};
        if q :| Support(Opened(action, ctx, opts), ctx, SetupCall(action, opts)) == Ok(q) {
          KeysAfterSetup(action, ctx, opts, q);
          InBetweenIffListed(action, ctx, opts, q);
        }
      }
    }
  }

  lemma ListedSubset(ctx: Context, a: set<Pubkey>, b: set<Pubkey>)
    requires a <= b
    ensures AllListed(ctx, b) ==> AllListed(ctx, a)
  {}

  /** Deposits and withdrawals are planned whenever the market has all reserves involved. */
  lemma DepositOrWithdrawIsPlanned(action: ActionType, ctx: Context, opts: Options)
    requires action in {Deposit, Withdraw} && ctx.obligation.Some? && ctx.outflow.None?
    requires InMarket(ctx, ctx.obligation.value.deposits + opts.addedDepositReserves + ctx.obligation.value.borrows + [ctx.reserve.address])
    ensures Built(action, ctx, opts).Ok?
  {
    hide Built;
    assert ctx.(outflow := None) == ctx;
    var all := ctx.obligation.value.deposits + opts.addedDepositReserves + ctx.obligation.value.borrows + [ctx.reserve.address];
    assert forall k :: k in Involved(action, ctx, opts) ==> k in all;
    PlanExistsIff(action, ctx, opts);
  }
}
