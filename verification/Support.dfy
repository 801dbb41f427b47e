/**
 The support instructions around a lending step: refreshes of reserves, farms and the
 obligation, and elevation group requests, as they extend a plan.
 */
module Supports {
  import opened Wrappers
  import opened Markets
  import opened Plans
  import opened ActionTypes

  /** What the builder knows of the obligation it acts on. */
  datatype ObligationView = ObligationView(
    deposits: seq<Pubkey>, borrows: seq<Pubkey>, borrowAmounts: map<Pubkey, real>, elevationGroup: nat)

  datatype Context = Context(
    market: Market,
    reserve: ReserveView,
    outflow: Option<ReserveView>,
    obligation: Option<ObligationView>,
    amount: nat,
    missingFarms: set<(Pubkey, FarmKind)>)

  /** Token-account instructions put in front of the setup and behind the cleanup. */
  datatype Atas = Atas(pre: seq<nat>, post: seq<nat>)

  datatype Call = Call(
    action: ActionType,
    atas: Option<Atas>,
    useV2Ixs: bool,
    where: AuxiliaryIx,
    request: bool,
    initFarms: bool,
    twoToken: bool,
    overrideGroup: Option<nat>)

  // ----- Pieces -----

  function TokenAccounts(tags: seq<nat>): (r: seq<Ix>)
    ensures AllNeutral(r)
  {
    seq(|tags|, i requires 0 <= i < |tags| => Preparation(TokenAccount(tags[i])))
  }

  function WithAtas(p: Plan, atas: Option<Atas>): Plan
  {
    if atas.None? then p
    else p.(setup := TokenAccounts(atas.value.pre) + p.setup, cleanup := p.cleanup + TokenAccounts(atas.value.post))
  }

  /** The reserves the action itself touches, in the order in which their farms are refreshed. */
  function CurrentReserves(ctx: Context, action: ActionType): Result<seq<ReserveView>>
  {
    if action in {Liquidate, DepositAndBorrow, RepayAndWithdraw, RepayAndWithdrawV2} then
      if ctx.outflow.None? then Err("outflowReserve is undefined")
      else if action != Liquidate then Ok([ctx.reserve, ctx.outflow.value])
      else if ctx.outflow.value.address != ctx.reserve.address then Ok([ctx.outflow.value, ctx.reserve])
      else Ok([ctx.reserve])
    else
      Ok([ctx.reserve])
  }

  function Addresses(reserves: seq<ReserveView>): (r: seq<Pubkey>)
    ensures forall k :: k in r <==> exists i :: 0 <= i < |reserves| && reserves[i].address == k
  {
    var all := seq(|reserves|, i requires 0 <= i < |reserves| => reserves[i].address);
    assert forall i :: 0 <= i < |reserves| ==> all[i] == reserves[i].address;
    Unique(all)
  }

  /** A deposit that the same transaction makes is preloaded for the borrow that follows it. */
  function Preloaded(p: Plan, ctx: Context, action: ActionType): Plan
  {
    if action == DepositAndBorrow && (ctx.obligation.None? || ctx.reserve.address !in ctx.obligation.value.deposits) then
      p.(preLoaded := p.preLoaded + [ctx.reserve.address])
    else p
  }

  function OtherReserves(p: Plan, current: seq<Pubkey>): seq<Pubkey>
  {
    Without(Unique(p.depositReserves + p.borrowReserves), current)
  }

  predicate InMarket(ctx: Context, keys: seq<Pubkey>)
  {
    forall k :: k in keys ==> ReserveByAddress(ctx.market.reserves, k).Some?
  }

  function Refreshed(p: Plan, ctx: Context, where: AuxiliaryIx, keys: seq<Pubkey>): Result<Plan>
  {
    if InMarket(ctx, keys) then Ok(p.Append(where, RefreshIxs(keys))) else Err("Could not find reserve in reserves")
  }

  predicate HasFarm(r: ReserveView, kind: FarmKind) { if kind == CollateralFarm then r.hasCollateralFarm else r.hasDebtFarm }

  function FarmInit(ctx: Context, r: Option<ReserveView>, kind: FarmKind): seq<Ix>
  {
    if r.Some? && HasFarm(r.value, kind) && (r.value.address, kind) in ctx.missingFarms then [InitFarm(r.value.address, kind)]
    else []
  }

  function FarmInits(ctx: Context, call: Call): (r: seq<Ix>)
    ensures AllNeutral(r)
  {
    if !call.initFarms then []
    else if call.action == Liquidate then
      FarmInit(ctx, Some(ctx.reserve), DebtFarm) + FarmInit(ctx, ctx.outflow, CollateralFarm)
    else if call.action in {DepositAndBorrow, DepositCollateral, Withdraw, Deposit} then
      FarmInit(ctx, Some(ctx.reserve), CollateralFarm) + FarmInit(ctx, ctx.outflow, DebtFarm)
    else
      FarmInit(ctx, Some(ctx.reserve), DebtFarm) + FarmInit(ctx, ctx.outflow, CollateralFarm)
  }

  function FarmRefreshes(reserves: seq<ReserveView>, kind: FarmKind): (r: seq<Ix>)
    ensures AllNeutral(r)
  {
    if reserves == [] then []
    else
      var n := |reserves| - 1;
      FarmRefreshes(reserves[..n], kind) + if HasFarm(reserves[n], kind) then [RefreshFarm(reserves[n].address, kind)] else []
  }

  /** Farm refreshes go into the list, and once more behind the lending step they precede. */
  function FarmsAdded(p: Plan, where: AuxiliaryIx, farms: seq<Ix>, twoToken: bool): Plan
  {
    match where
    case Setup =>
      if twoToken then p.(setup := p.setup + farms, inBetween := p.inBetween + farms)
      else p.(setup := p.setup + farms, farmsCleanup := p.farmsCleanup + farms)
    case InBetween => p.(inBetween := p.inBetween + farms, farmsCleanup := p.farmsCleanup + farms)
    case Cleanup => p
  }

  function FarmsRefreshed(p: Plan, ctx: Context, call: Call, current: seq<ReserveView>): Result<Plan>
  {
    if call.where == Setup then
      if call.action == Liquidate then
        if ctx.outflow.None? then Err("outflowReserve is undefined")
        else
          var first := FarmsAdded(p, Setup, FarmRefreshes([ctx.outflow.value], CollateralFarm), false);
          Ok(FarmsAdded(first, Setup, FarmRefreshes([ctx.reserve], DebtFarm), false))
      else if call.action in {DepositAndBorrow, DepositCollateral, Withdraw, Deposit} then
        Ok(FarmsAdded(p, Setup, FarmRefreshes(current, CollateralFarm), call.twoToken))
      else if call.action in {RepayAndWithdraw, Borrow, Repay} then
        Ok(FarmsAdded(p, Setup, FarmRefreshes(current, DebtFarm), call.twoToken))
      else Err("Could not decide on refresh farm for action")
    else if ctx.outflow.None? then Err("outflowReserve is undefined")
    else if call.action == DepositAndBorrow then
      Ok(FarmsAdded(p, call.where, FarmRefreshes([ctx.outflow.value], DebtFarm), false))
    else if call.action == RepayAndWithdraw then
      Ok(FarmsAdded(p, call.where, FarmRefreshes([ctx.outflow.value], CollateralFarm), false))
    else Err("Could not decide on refresh farm for action")
  }

  /** After a full repayment in the same transaction, the repaid reserve is no longer named. */
  function RepaidToSkip(ctx: Context, call: Call): Result<seq<Pubkey>>
  {
    if call.action == RepayAndWithdraw && call.where == InBetween then
      if ctx.obligation.None? || ctx.reserve.address !in ctx.obligation.value.borrowAmounts then
        Err("Could not find debt reserve in obligation")
      else Ok(if ctx.obligation.value.borrowAmounts[ctx.reserve.address] <= ctx.amount as real then [ctx.reserve.address] else [])
    else Ok([])
  }

  // ----- Choosing a group for a borrow -----

  function GroupById(groups: seq<GroupConfig>, id: nat): (r: Option<GroupConfig>)
    ensures r.Some? ==> r.value in groups && r.value.id == id
    ensures r.None? ==> forall i :: 0 <= i < |groups| ==> groups[i].id != id
  {
    if groups == [] then None else if groups[0].id == id then Some(groups[0]) else GroupById(groups[1..], id)
  }

  /** The groups both reserves share that lend the debt reserve. */
  function CommonGroups(market: Market, collGroups: seq<nat>, debtGroups: seq<nat>, debtReserve: Pubkey): Result<seq<nat>>
  {
    if collGroups == [] then Ok([])
    else
      var n := |collGroups| - 1;
      var before :- CommonGroups(market, collGroups[..n], debtGroups, debtReserve);
      if collGroups[n] !in debtGroups || collGroups[n] == 0 then Ok(before)
      else
        match ElevationGroupAt(market, collGroups[n])
        case None => Err("elevation group is undefined")
        case Some(g) => Ok(if g.debtReserve == debtReserve then before + [collGroups[n]] else before)
  }

  /** The one with the highest LTV, the last one among equals. */
  function BestGroup(market: Market, ids: seq<nat>): Result<nat>
    requires ids != []
  {
    if |ids| == 1 then Ok(ids[0])
    else
      var n := |ids| - 1;
      var best :- BestGroup(market, ids[..n]);
      var prev, curr := GroupById(market.elevationGroups, best), GroupById(market.elevationGroups, ids[n]);
      if prev.None? || curr.None? then Err("elevation group is undefined")
      else Ok(if prev.value.ltvPct > curr.value.ltvPct then best else ids[n])
  }

  /** The chosen group is one of the candidates and none of them has a higher LTV. */
  lemma {:induction false} BestGroupIsBest(market: Market, ids: seq<nat>)
    requires ids != [] && BestGroup(market, ids).Ok?
    ensures BestGroup(market, ids).value in ids
    ensures |ids| > 1 ==> forall i :: 0 <= i < |ids| ==>
              var best := GroupById(market.elevationGroups, BestGroup(market, ids).value);
              var g := GroupById(market.elevationGroups, ids[i]);
              best.Some? && g.Some? && g.value.ltvPct <= best.value.ltvPct
  {
    if |ids| > 1 {
      var n := |ids| - 1;
      BestGroupIsBest(market, ids[..n]);
      forall i | 0 <= i < n ensures ids[i] == ids[..n][i] {}
      if n == 1 { assert ids[..1] == [ids[0]]; }
    }
  }

  /** A group that both reserves name and that lends the debt reserve. */
  ghost predicate Shared(market: Market, coll: seq<nat>, debt: seq<nat>, debtReserve: Pubkey, g: nat)
  {
    && g != 0 && g in coll && g in debt
    && ElevationGroupAt(market, g).Some? && ElevationGroupAt(market, g).value.debtReserve == debtReserve
  }

  lemma {:induction false} CommonGroupsAreShared(market: Market, coll: seq<nat>, debt: seq<nat>, debtReserve: Pubkey)
    requires CommonGroups(market, coll, debt, debtReserve).Ok?
    ensures forall g :: g in CommonGroups(market, coll, debt, debtReserve).value <==> Shared(market, coll, debt, debtReserve, g)
  {
    if coll != [] {
      var n := |coll| - 1;
      CommonGroupsAreShared(market, coll[..n], debt, debtReserve);
      assert coll == coll[..n] + [coll[n]];
    }
  }

  /** No shared group has a higher LTV; with one shared group there is nothing to compare. */
  ghost predicate BestShared(market: Market, coll: seq<nat>, debt: seq<nat>, debtReserve: Pubkey, g: nat)
  {
    && Shared(market, coll, debt, debtReserve, g)
    && GroupById(market.elevationGroups, g).Some?
    && forall other :: Shared(market, coll, debt, debtReserve, other) ==>
         && GroupById(market.elevationGroups, other).Some?
         && GroupById(market.elevationGroups, other).value.ltvPct <= GroupById(market.elevationGroups, g).value.ltvPct
  }

  function CurrentGroup(ctx: Context): Option<nat>
  {
    if ctx.obligation.None? then None else Some(ctx.obligation.value.elevationGroup)
  }

  /** The group a borrow would move to, if it is a change. */
  function GroupForBorrow(ctx: Context, action: ActionType): Result<Option<nat>>
  {
    var groups :-
      if action == DepositAndBorrow then
        if ctx.outflow.None? then Err("outflowReserve is undefined")
        else CommonGroups(ctx.market, ctx.reserve.elevationGroups, ctx.outflow.value.elevationGroups, ctx.outflow.value.address)
      else if ctx.obligation.None? || ctx.obligation.value.deposits == [] then Err("deposit is undefined")
      else
        match ReserveByAddress(ctx.market.reserves, ctx.obligation.value.deposits[0])
        case None => Err("collateral reserve is undefined")
        case Some(coll) => CommonGroups(ctx.market, coll.elevationGroups, ctx.reserve.elevationGroups, ctx.reserve.address);
    if groups == [] then Ok(None)
    else
      var best :- BestGroup(ctx.market, groups);
      match GroupById(ctx.market.elevationGroups, best)
      case None => Err("elevation group is undefined")
      case Some(_) => Ok(if best != 0 && Some(best) != CurrentGroup(ctx) then Some(best) else None)
  }

  /** The collateral and the debt reserve a borrow compares: of its own deposit, or of the obligation's first one. */
  ghost predicate Sides(ctx: Context, action: ActionType, coll: ReserveView, debt: ReserveView)
  {
    if action == DepositAndBorrow then coll == ctx.reserve && ctx.outflow == Some(debt)
    else
      && debt == ctx.reserve && ctx.obligation.Some? && ctx.obligation.value.deposits != []
      && ReserveByAddress(ctx.market.reserves, ctx.obligation.value.deposits[0]) == Some(coll)
  }

  /**
   A borrow moves to a group that the collateral and the debt reserve both name, that lends the
   debt reserve, and that has the highest LTV of those; it stays if that is the current group or
   there is none.
   */
  lemma BorrowMovesToBestShared(ctx: Context, action: ActionType, coll: ReserveView, debt: ReserveView)
    requires Sides(ctx, action, coll, debt)
    ensures var chosen := GroupForBorrow(ctx, action);
            chosen.Ok? ==>
              match chosen.value
              case Some(g) =>
                BestShared(ctx.market, coll.elevationGroups, debt.elevationGroups, debt.address, g) && Some(g) != CurrentGroup(ctx)
              case None =>
                || (forall g :: !Shared(ctx.market, coll.elevationGroups, debt.elevationGroups, debt.address, g))
                || (CurrentGroup(ctx).Some?
                    && BestShared(ctx.market, coll.elevationGroups, debt.elevationGroups, debt.address, CurrentGroup(ctx).value))
  {
    hide CommonGroups, BestGroup;
    var groups := CommonGroups(ctx.market, coll.elevationGroups, debt.elevationGroups, debt.address);
    if groups.Ok? {
      CommonGroupsAreShared(ctx.market, coll.elevationGroups, debt.elevationGroups, debt.address);
      if groups.value != [] && BestGroup(ctx.market, groups.value).Ok? {
        BestGroupIsBest(ctx.market, groups.value);
      }
    }
  }

  /** The group requested before the lending step, if any. */
  function GroupBefore(ctx: Context, call: Call): Result<Option<nat>>
  {
    if !call.request then Ok(None)
    else if call.action in {DepositAndBorrow, Borrow} then
      var chosen :- if call.overrideGroup.Some? then Ok(call.overrideGroup) else GroupForBorrow(ctx, call.action);
      Ok(if chosen.Some? && chosen != CurrentGroup(ctx) then chosen else None)
    else if call.action == Deposit then
      Ok(if call.overrideGroup.Some? && call.overrideGroup != CurrentGroup(ctx) then call.overrideGroup else None)
    else Ok(None)
  }

  /** The group requested after the lending step, if any. */
  function GroupAfter(ctx: Context, call: Call): Result<Option<nat>>
  {
    if !call.request then Ok(None)
    else if call.action in {Repay, RepayAndWithdrawV2} then
      if ctx.obligation.None? || ctx.reserve.address !in ctx.obligation.value.borrowAmounts then
        Err("Could not find debt reserve in obligation")
      else
        var o := ctx.obligation.value;
        if o.borrowAmounts[ctx.reserve.address] <= ctx.amount as real && |o.borrows| == 1 && o.elevationGroup != 0 then
          Ok(Some(if call.overrideGroup.Some? then call.overrideGroup.value else 0))
        else Ok(None)
    else if call.action == Withdraw then Ok(call.overrideGroup)
    else Ok(None)
  }

  /** The reserves left out of what follows the lending step. */
  function SkippedAfter(ctx: Context, call: Call): seq<Pubkey>
  {
    if call.action == Withdraw && ctx.amount != U64_MAX then [] else [ctx.reserve.address]
  }

  /** Where a group request before the lending step goes. */
  function RequestWhere(call: Call): AuxiliaryIx
  {
    if call.action == DepositAndBorrow && call.overrideGroup.None? then InBetween else Setup
  }

  function GroupRequested(p: Plan, ctx: Context, call: Call, others: seq<Pubkey>, current: seq<Pubkey>): Result<Plan>
  {
    var before :- GroupBefore(ctx, call);
    var after :- GroupAfter(ctx, call);
    if before.Some? then
      var where := RequestWhere(call);
      var p1 := p.ElevationRequested(before.value, where, []);
      var p2 :- Refreshed(p1, ctx, where, others);
      var p3 :- Refreshed(p2, ctx, where, current);
      Ok(p3.ObligationRefreshed(where, []))
    else if after.Some? then
      var skip := SkippedAfter(ctx, call);
      var p1 :- if call.action == Withdraw then Ok(p) else Refreshed(p, ctx, Cleanup, others);
      Ok(p1.ObligationRefreshed(Cleanup, skip).ElevationRequested(after.value, Cleanup, skip))
    else Ok(p)
  }

  // ----- The whole -----

  predicate NeedsSupport(action: ActionType)
  {
    action in {Deposit, DepositCollateral, Withdraw, Borrow, Liquidate, Repay, DepositAndBorrow, RepayAndWithdraw, RepayAndWithdrawV2}
  }

  /** The plan at the point where support has refreshed the obligation. */
  function Prepared(p: Plan, ctx: Context, call: Call): Result<Plan>
  {
    var reserves :- CurrentReserves(ctx, call.action);
    var current := Addresses(reserves);
    var p1 := Preloaded(WithAtas(p, call.atas), ctx, call.action);
    var p2 :- Refreshed(p1, ctx, call.where, OtherReserves(p1, current));
    var p3 := p2.Append(call.where, FarmInits(ctx, call));
    var p4 :- Refreshed(p3, ctx, call.where, current);
    var skip :- RepaidToSkip(ctx, call);
    Ok(p4.ObligationRefreshed(call.where, skip))
  }

  /** The reserves the action touches, and the others it refreshes. */
  function CurrentKeys(ctx: Context, call: Call): seq<Pubkey>
  {
    var reserves := CurrentReserves(ctx, call.action);
    if reserves.Err? then [] else Addresses(reserves.value)
  }

  function OtherKeys(p: Plan, ctx: Context, call: Call): seq<Pubkey>
  {
    OtherReserves(Preloaded(WithAtas(p, call.atas), ctx, call.action), CurrentKeys(ctx, call))
  }

  function Support(p: Plan, ctx: Context, call: Call): Result<Plan>
  {
    if !NeedsSupport(call.action) then Ok(WithAtas(p, call.atas))
    else
      var reserves :- CurrentReserves(ctx, call.action);
      var prepared :- Prepared(p, ctx, call);
      var requested :- GroupRequested(prepared, ctx, call, OtherKeys(p, ctx, call), CurrentKeys(ctx, call));
      if call.useV2Ixs then Ok(requested) else FarmsRefreshed(requested, ctx, call, reserves)
  }

  // ----- Replaying support -----

  /** Every reserve the obligation refreshes of a plan can name. */
  ghost function Holdings(p: Plan): set<Pubkey>
  {
    KeySet(p.depositReserves) + KeySet(p.borrowReserves) + KeySet(p.preLoaded)
  }

  lemma NamedWithin(p: Plan, skip: seq<Pubkey>, s: set<Pubkey>)
    ensures AllIn(p.Named(skip).Keys(), s) <==> Holdings(p) - KeySet(skip) <= s
    ensures Holdings(p) <= s ==> AllIn(p.Named(skip).Keys(), s)
  {
    var keys := p.Named(skip).Keys();
    assert forall k :: k in keys <==> k in Holdings(p) - KeySet(skip);
  }

  lemma HoldingsOf(p: Plan, where: AuxiliaryIx, ixs: seq<Ix>)
    ensures Holdings(p.WithPreloaded()) == Holdings(p)
    ensures Holdings(p.Append(where, ixs)) == Holdings(p)
    ensures Holdings(p.WithPreloaded().Append(where, ixs)) == Holdings(p)
  {}

  /** A call as the builders make it: two-step actions in between, all others in the setup. */
  predicate BuilderCall(call: Call)
  {
    && NeedsSupport(call.action)
    && (call.where == if call.action in {DepositAndBorrow, RepayAndWithdraw} then InBetween else Setup)
    && (call.action == DepositAndBorrow ==> call.overrideGroup.None?)
  }

  lemma ReplayNeutralSuffix(m: Machine, ixs: seq<Ix>, more: seq<Ix>)
    requires AllNeutral(more)
    ensures Replay(m, ixs + more) == Replay(m, ixs)
  {
    ReplayAppends(m, ixs, more);
    if Replay(m, ixs).Some? { ReplayNeutral(Replay(m, ixs).value, more); }
  }

  lemma ReplayNeutralPrefix(m: Machine, more: seq<Ix>, ixs: seq<Ix>)
    requires AllNeutral(more)
    ensures Replay(m, more + ixs) == Replay(m, ixs)
  {
    ReplayAppends(m, more, ixs);
    ReplayNeutral(m, more);
  }

  lemma AtasAreNeutral(p: Plan, atas: Option<Atas>, where: AuxiliaryIx, m: Machine)
    ensures Replay(m, WithAtas(p, atas).List(where)) == Replay(m, p.List(where))
  {
    if atas.Some? {
      ReplayNeutralPrefix(m, TokenAccounts(atas.value.pre), p.setup);
      ReplayNeutralSuffix(m, p.cleanup, TokenAccounts(atas.value.post));
    }
  }

  /** The machine after the given reserves were refreshed. */
  ghost function WithRefreshed(m: Machine, keys: set<Pubkey>): Machine { m.(recent := m.recent + keys) }

  /** Other reserves, farm accounts, current reserves. */
  lemma ReserveStage(p: Plan, ctx: Context, call: Call, others: seq<Pubkey>, current: seq<Pubkey>, m: Machine)
    requires Replay(m, p.List(call.where)).Some? && InMarket(ctx, others) && InMarket(ctx, current)
    ensures var p2 := p.Append(call.where, RefreshIxs(others));
            var p3 := p2.Append(call.where, FarmInits(ctx, call));
            var p4 := p3.Append(call.where, RefreshIxs(current));
            && Replay(m, p4.List(call.where))
               == Some(WithRefreshed(Replay(m, p.List(call.where)).value, KeySet(others) + KeySet(current)))
            && Holdings(p4) == Holdings(p)
  {
    hide Replay, FarmInits, RefreshIxs, KeySet;
    var p2 := p.Append(call.where, RefreshIxs(others));
    var p3 := p2.Append(call.where, FarmInits(ctx, call));
    ReplayRefreshAppended(p, call.where, others, m);
    ReplayNeutralSuffix(m, p2.List(call.where), FarmInits(ctx, call));
    ReplayRefreshAppended(p3, call.where, current, m);
    var was := Replay(m, p.List(call.where)).value;
    assert was.recent + KeySet(others) + KeySet(current) == was.recent + (KeySet(others) + KeySet(current));
  }

  lemma OthersAndCurrentCover(p: Plan, ctx: Context, current: seq<Pubkey>)
    requires KeySet(p.preLoaded) <= {ctx.reserve.address} && ctx.reserve.address in current
    ensures Holdings(p) <= KeySet(OtherReserves(p, current)) + KeySet(current)
  {
    forall k | k in Holdings(p) ensures k in KeySet(OtherReserves(p, current)) + KeySet(current) {
      if k !in current { assert k in p.depositReserves + p.borrowReserves; }
    }
  }

  lemma CurrentAre(ctx: Context, action: ActionType)
    requires CurrentReserves(ctx, action).Ok?
    ensures ctx.reserve.address in Addresses(CurrentReserves(ctx, action).value)
    ensures action in {ActionType.Liquidate, DepositAndBorrow, RepayAndWithdraw, RepayAndWithdrawV2} ==>
              ctx.outflow.Some? && ctx.outflow.value.address in Addresses(CurrentReserves(ctx, action).value)
  {
    var reserves := CurrentReserves(ctx, action).value;
    assert reserves[0] == ctx.reserve || reserves[|reserves| - 1] == ctx.reserve;
    if action in {ActionType.Liquidate, DepositAndBorrow, RepayAndWithdraw, RepayAndWithdrawV2} {
      assert reserves[0].address == ctx.outflow.value.address || reserves[|reserves| - 1].address == ctx.outflow.value.address;
    }
  }

  function Requests(group: Option<nat>): seq<Effect> { if group.Some? then [Effect.Requested(group.value)] else [] }

  /** A request in the list is followed by fresh refreshes; one in the cleanup leaves the list alone. */
  lemma RequestStage(p: Plan, ctx: Context, call: Call, others: seq<Pubkey>, current: seq<Pubkey>, m: Machine)
    requires BuilderCall(call) && GroupRequested(p, ctx, call, others, current).Ok?
    requires Replay(m, p.List(call.where)).Some?
    requires var was := Replay(m, p.List(call.where)).value;
             was.current && Holdings(p) <= was.recent && Holdings(p) <= KeySet(others) + KeySet(current)
             && KeySet(current) <= was.recent
    ensures var q := GroupRequested(p, ctx, call, others, current).value;
            var was := Replay(m, p.List(call.where)).value;
            && Holdings(q) == Holdings(p)
            && Replay(m, q.List(call.where)).Some?
            && var now := Replay(m, q.List(call.where)).value;
               && now.current && KeySet(current) <= now.recent && Holdings(q) <= now.recent
               && now.trace == was.trace + Requests(GroupBefore(ctx, call).value)
  {
    hide Replay, RefreshIxs, KeySet, GroupBefore, GroupAfter;
    var where, group := call.where, GroupBefore(ctx, call).value;
    var was := Replay(m, p.List(where)).value;
    if group.Some? {
      assert where == RequestWhere(call) by { RequestIsInTheList(ctx, call); }
      NamedWithin(p, [], was.recent);
      ReplayRequest(p, group.value, where, [], m);
      var p1 := p.ElevationRequested(group.value, where, []);
      ReplayRefreshAppended(p1, where, others, m);
      var p2 := p1.Append(where, RefreshIxs(others));
      ReplayRefreshAppended(p2, where, current, m);
      var p3 := p2.Append(where, RefreshIxs(current));
      HoldingsOf(p, where, [RequestElevation(group.value, p.Named([]))]);
      HoldingsOf(p1, where, RefreshIxs(others));
      HoldingsOf(p2, where, RefreshIxs(current));
      HoldingsOf(p3, where, [Ix.RefreshObligation(p3.Named([]))]);
      var now := Replay(m, p3.List(where)).value;
      NamedWithin(p3, [], now.recent);
      ReplayObligationRefresh(p3, where, [], m);
    } else {
      CleanupRequestFrame(p, ctx, call, others, current);
    }
  }

  lemma RequestIsInTheList(ctx: Context, call: Call)
    requires BuilderCall(call) && GroupBefore(ctx, call).Ok? && GroupBefore(ctx, call).value.Some?
    ensures call.where == RequestWhere(call)
  {}

  /** Without a request before the lending step, only the cleanup may have grown. */
  lemma CleanupRequestFrame(p: Plan, ctx: Context, call: Call, others: seq<Pubkey>, current: seq<Pubkey>)
    requires GroupRequested(p, ctx, call, others, current).Ok? && GroupBefore(ctx, call).value.None?
    ensures var q := GroupRequested(p, ctx, call, others, current).value;
            && q == p.(cleanup := q.cleanup, depositReserves := q.depositReserves)
            && Holdings(q) == Holdings(p)
  {
    hide RefreshIxs, Without, Merged, InMarket, GroupBefore, GroupAfter;
  }

  lemma FarmsAreNeutral(p: Plan, ctx: Context, call: Call, reserves: seq<ReserveView>, where: AuxiliaryIx, m: Machine)
    requires FarmsRefreshed(p, ctx, call, reserves).Ok?
    ensures var q := FarmsRefreshed(p, ctx, call, reserves).value;
            && Replay(m, q.List(where)) == Replay(m, p.List(where))
            && Holdings(q) == Holdings(p)
  {
    hide Replay, FarmRefreshes;
    if call.where == Setup && call.action == ActionType.Liquidate {
      var a, b := FarmRefreshes([ctx.outflow.value], CollateralFarm), FarmRefreshes([ctx.reserve], DebtFarm);
      ReplayNeutralSuffix(m, p.setup, a);
      ReplayNeutralSuffix(m, p.setup + a, b);
    } else {
      var farms :=
        if call.where == Setup then
          FarmRefreshes(reserves, if call.action in {DepositAndBorrow, ActionType.DepositCollateral, Withdraw, Deposit}
                                  then CollateralFarm else DebtFarm)
        else FarmRefreshes([ctx.outflow.value], if call.action == DepositAndBorrow then DebtFarm else CollateralFarm);
      ReplayNeutralSuffix(m, p.setup, farms);
      ReplayNeutralSuffix(m, p.inBetween, farms);
    }
  }

  lemma SupportInStages(p: Plan, ctx: Context, call: Call)
    requires NeedsSupport(call.action) && Support(p, ctx, call).Ok?
    ensures Prepared(p, ctx, call).Ok? && CurrentReserves(ctx, call.action).Ok?
    ensures var p6 := GroupRequested(Prepared(p, ctx, call).value, ctx, call, OtherKeys(p, ctx, call), CurrentKeys(ctx, call));
            && p6.Ok?
            && Support(p, ctx, call)
               == if call.useV2Ixs then p6 else FarmsRefreshed(p6.value, ctx, call, CurrentReserves(ctx, call.action).value)
  {}

  lemma PreparedIsReady(p: Plan, ctx: Context, call: Call, m: Machine)
    requires BuilderCall(call) && Prepared(p, ctx, call).Ok?
    requires KeySet(p.preLoaded) <= {ctx.reserve.address} && Replay(m, p.List(call.where)).Some?
    ensures var q := Prepared(p, ctx, call).value;
            && Replay(m, q.List(call.where)).Some?
            && var was, now := Replay(m, p.List(call.where)).value, Replay(m, q.List(call.where)).value;
               && now.current && now.trace == was.trace
               && KeySet(CurrentKeys(ctx, call)) <= now.recent
               && Holdings(q) <= now.recent
               && Holdings(q) <= KeySet(OtherKeys(p, ctx, call)) + KeySet(CurrentKeys(ctx, call))
               && Holdings(p) <= Holdings(q) <= Holdings(p) + {ctx.reserve.address}
  {
    hide Replay, RefreshIxs, FarmInits, OtherReserves;
    var where, others, current := call.where, OtherKeys(p, ctx, call), CurrentKeys(ctx, call);
    AtasAreNeutral(p, call.atas, where, m);
    var p1 := Preloaded(WithAtas(p, call.atas), ctx, call.action);
    CurrentAre(ctx, call.action);
    OthersAndCurrentCover(p1, ctx, current);
    ReserveStage(p1, ctx, call, others, current, m);
    var p4 := p1.Append(where, RefreshIxs(others)).Append(where, FarmInits(ctx, call)).Append(where, RefreshIxs(current));
    var skip := RepaidToSkip(ctx, call).value;
    var now := Replay(m, p4.List(where)).value;
    NamedWithin(p4, skip, now.recent);
    ReplayObligationRefresh(p4, where, skip, m);
    HoldingsOf(p4, where, [Ix.RefreshObligation(p4.Named(skip))]);
    assert Holdings(p1) <= Holdings(p) + {ctx.reserve.address};
  }

  /**
   Support leaves its list ready for the lending step: the obligation refreshed over fresh
   reserves, with no request since, the action's own reserves fresh, and exactly the group
   request that was called for.
   */
  lemma SupportIsReady(p: Plan, ctx: Context, call: Call, m: Machine)
    requires BuilderCall(call) && Support(p, ctx, call).Ok?
    requires KeySet(p.preLoaded) <= {ctx.reserve.address} && Replay(m, p.List(call.where)).Some?
    ensures var q := Support(p, ctx, call).value;
            && GroupBefore(ctx, call).Ok?
            && Replay(m, q.List(call.where)).Some?
            && var was, now := Replay(m, p.List(call.where)).value, Replay(m, q.List(call.where)).value;
               && now.current && KeySet(CurrentKeys(ctx, call)) <= now.recent && Holdings(q) <= now.recent
               && now.trace == was.trace + Requests(GroupBefore(ctx, call).value)
               && Holdings(p) <= Holdings(q) <= Holdings(p) + {ctx.reserve.address}
  {
    hide Replay, Prepared, GroupRequested, FarmsRefreshed, Support;
    SupportInStages(p, ctx, call);
    PreparedIsReady(p, ctx, call, m);
    var p5 := Prepared(p, ctx, call).value;
    var others, current := OtherKeys(p, ctx, call), CurrentKeys(ctx, call);
    RequestStage(p5, ctx, call, others, current, m);
    var p6 := GroupRequested(p5, ctx, call, others, current).value;
    if !call.useV2Ixs {
      FarmsAreNeutral(p6, ctx, call, CurrentReserves(ctx, call.action).value, call.where, m);
    }
    RequestedGroupsAreDefined(p5, ctx, call, others, current);
  }

  lemma RequestedGroupsAreDefined(p: Plan, ctx: Context, call: Call, others: seq<Pubkey>, current: seq<Pubkey>)
    requires GroupRequested(p, ctx, call, others, current).Ok?
    ensures GroupBefore(ctx, call).Ok? && GroupAfter(ctx, call).Ok?
  {}

  // ----- What support does elsewhere -----

  /** All but the call's own list: only neutral instructions are added, apart from the cleanup's request. */
  lemma SupportFrame(p: Plan, ctx: Context, call: Call)
    requires BuilderCall(call) && Support(p, ctx, call).Ok?
    requires AllNeutral(p.farmsCleanup)
    ensures var q := Support(p, ctx, call).value;
            && q.computeBudget == p.computeBudget && q.lending == p.lending && q.borrowReserves == p.borrowReserves
            && AllNeutral(q.farmsCleanup)
            && (AllNeutral(p.inBetween) && call.where == Setup ==> AllNeutral(q.inBetween))
            && (call.where == Setup ==> q.preLoaded == p.preLoaded)
  {
    hide Support, Prepared, GroupRequested, FarmsRefreshed, AllNeutral, NeedsSupport;
    SupportInStages(p, ctx, call);
    var p5 := Prepared(p, ctx, call).value;
    var p6 := GroupRequested(p5, ctx, call, OtherKeys(p, ctx, call), CurrentKeys(ctx, call)).value;
    PreparedFrame(p, ctx, call);
    RequestFrame(p5, ctx, call, OtherKeys(p, ctx, call), CurrentKeys(ctx, call));
    if !call.useV2Ixs { FarmsFrame(p6, ctx, call, CurrentReserves(ctx, call.action).value); }
  }

  lemma PreparedFrame(p: Plan, ctx: Context, call: Call)
    requires BuilderCall(call) && Prepared(p, ctx, call).Ok?
    ensures var q := Prepared(p, ctx, call).value;
            && q.computeBudget == p.computeBudget && q.lending == p.lending && q.borrowReserves == p.borrowReserves
            && q.farmsCleanup == p.farmsCleanup
            && (call.where == Setup ==> q.preLoaded == p.preLoaded && q.inBetween == p.inBetween)
  {
    hide Addresses, FarmInits, RefreshIxs, Merged, Without, OtherReserves, RepaidToSkip, TokenAccounts;
  }

  lemma RequestFrame(p: Plan, ctx: Context, call: Call, others: seq<Pubkey>, current: seq<Pubkey>)
    requires BuilderCall(call) && GroupRequested(p, ctx, call, others, current).Ok?
    ensures var q := GroupRequested(p, ctx, call, others, current).value;
            && q.computeBudget == p.computeBudget && q.lending == p.lending && q.borrowReserves == p.borrowReserves
            && q.farmsCleanup == p.farmsCleanup && q.preLoaded == p.preLoaded
            && (call.where == Setup ==> q.inBetween == p.inBetween)
  {
    hide RefreshIxs, Without, Merged, InMarket, GroupForBorrow, GroupAfter;
  }

  lemma FarmsFrame(p: Plan, ctx: Context, call: Call, reserves: seq<ReserveView>)
    requires FarmsRefreshed(p, ctx, call, reserves).Ok?
    ensures var q := FarmsRefreshed(p, ctx, call, reserves).value;
            && q.computeBudget == p.computeBudget && q.lending == p.lending && q.borrowReserves == p.borrowReserves
            && q.preLoaded == p.preLoaded
            && (AllNeutral(p.farmsCleanup) ==> AllNeutral(q.farmsCleanup))
            && (AllNeutral(p.inBetween) ==> AllNeutral(q.inBetween))
  {
    hide FarmRefreshes;
  }

  /** In-between support touches the setup by its token accounts only. */
  lemma SetupAfterInBetween(p: Plan, ctx: Context, call: Call, m: Machine)
    requires BuilderCall(call) && call.where == InBetween && Support(p, ctx, call).Ok?
    ensures Replay(m, Support(p, ctx, call).value.setup) == Replay(m, p.setup)
  {
    hide Replay, FarmRefreshes, TokenAccounts, FarmInits, Without, Unique, Merged, RefreshIxs;
    SupportInStages(p, ctx, call);
    AtasAreNeutral(p, call.atas, Setup, m);
    var p5 := Prepared(p, ctx, call).value;
    assert p5.setup == WithAtas(p, call.atas).setup;
    var p6 := GroupRequested(p5, ctx, call, OtherKeys(p, ctx, call), CurrentKeys(ctx, call)).value;
    assert p6.setup == p5.setup;
  }

  /** In-between support touches the cleanup by its token accounts only. */
  lemma CleanupAfterInBetween(p: Plan, ctx: Context, call: Call, m: Machine)
    requires BuilderCall(call) && call.where == InBetween && Support(p, ctx, call).Ok?
    ensures Replay(m, Support(p, ctx, call).value.cleanup) == Replay(m, p.cleanup)
  {
    hide Replay, FarmRefreshes, TokenAccounts, FarmInits, Without, Unique, Merged, RefreshIxs;
    SupportInStages(p, ctx, call);
    AtasAreNeutral(p, call.atas, Cleanup, m);
    var p5 := Prepared(p, ctx, call).value;
    assert p5.cleanup == WithAtas(p, call.atas).cleanup;
    var p6 := GroupRequested(p5, ctx, call, OtherKeys(p, ctx, call), CurrentKeys(ctx, call)).value;
    assert p6.cleanup == p5.cleanup;
  }

  /** The reserves the cleanup refreshes before its request. */
  ghost function RefreshedAfter(p: Plan, ctx: Context, call: Call): set<Pubkey>
  {
    if call.action == Withdraw then {} else KeySet(OtherKeys(p, ctx, call))
  }

  /** What the cleanup's request names is not stale after the last lending step. */
  ghost predicate CleanupNamesFresh(p: Plan, ctx: Context, call: Call, held: set<Pubkey>, m: Machine)
  {
    held - KeySet(SkippedAfter(ctx, call)) <= m.recent + RefreshedAfter(p, ctx, call)
  }

  /** The cleanup goes through exactly if it has no request or its request names no stale reserve. */
  lemma CleanupReplaysIff(p: Plan, ctx: Context, call: Call, q: Plan, m: Machine)
    requires BuilderCall(call) && Support(p, ctx, call) == Ok(q)
    requires Replay(m, p.cleanup) == Some(m) && KeySet(p.preLoaded) <= {ctx.reserve.address}
    ensures GroupAfter(ctx, call).Ok?
    ensures Replay(m, q.cleanup).Some? <==>
            GroupAfter(ctx, call).value.None? || CleanupNamesFresh(p, ctx, call, Holdings(q), m)
    ensures Replay(m, q.cleanup).Some? ==>
              Replay(m, q.cleanup).value.trace == m.trace + Requests(GroupAfter(ctx, call).value)
  {
    hide Replay, FarmRefreshes, TokenAccounts, FarmInits, Without, Unique, Merged, RefreshIxs, GroupBefore, GroupAfter, SkippedAfter, KeySet;
    SupportInStages(p, ctx, call);
    var p5 := Prepared(p, ctx, call).value;
    var others, current := OtherKeys(p, ctx, call), CurrentKeys(ctx, call);
    var p6 := GroupRequested(p5, ctx, call, others, current).value;
    RequestedGroupsAreDefined(p5, ctx, call, others, current);
    assert Replay(m, p5.cleanup) == Some(m) by {
      AtasAreNeutral(p, call.atas, Cleanup, m);
      assert p5.cleanup == WithAtas(p, call.atas).cleanup;
    }
    if !call.useV2Ixs { FarmsAreNeutral(p6, ctx, call, CurrentReserves(ctx, call.action).value, Cleanup, m); }
    GroupRequestKeepsHoldings(p5, ctx, call, others, current);
    CleanupRequestReplaysIff(p5, ctx, call, others, current, m);
  }

  lemma GroupRequestKeepsHoldings(p: Plan, ctx: Context, call: Call, others: seq<Pubkey>, current: seq<Pubkey>)
    requires GroupRequested(p, ctx, call, others, current).Ok?
    ensures Holdings(GroupRequested(p, ctx, call, others, current).value) == Holdings(p)
  {
    hide Merged, Without, RefreshIxs, GroupBefore, GroupAfter, InMarket;
  }

  lemma CleanupRequestReplaysIff(p: Plan, ctx: Context, call: Call, others: seq<Pubkey>, current: seq<Pubkey>, m: Machine)
    requires BuilderCall(call) && GroupRequested(p, ctx, call, others, current).Ok?
    requires Replay(m, p.cleanup) == Some(m)
    ensures var end := Replay(m, GroupRequested(p, ctx, call, others, current).value.cleanup);
            && (end.Some? <==>
                || GroupAfter(ctx, call).value.None?
                || Holdings(p) - KeySet(SkippedAfter(ctx, call))
                   <= m.recent + if call.action == Withdraw then {} else KeySet(others))
            && (end.Some? ==> end.value.trace == m.trace + Requests(GroupAfter(ctx, call).value))
  {
    hide Replay, RefreshIxs, GroupBefore, GroupAfter, InMarket, AllIn, Merged, Without, KeySet, Holdings, SkippedAfter;
    OneRequestAtMost(ctx, call);
    if GroupAfter(ctx, call).value.Some? {
      var skip := SkippedAfter(ctx, call);
      var p1 := if call.action == Withdraw then p else p.Append(Cleanup, RefreshIxs(others));
      if call.action != Withdraw { ReplayRefreshAppended(p, Cleanup, others, m); }
      HoldingsOf(p, Cleanup, RefreshIxs(others));
      var now := Replay(m, p1.cleanup).value;
      assert now.recent == m.recent + if call.action == Withdraw then {} else KeySet(others);
      NamedWithin(p1, skip, now.recent);
      ReplayObligationRefresh(p1, Cleanup, skip, m);
      HoldingsOf(p1, Cleanup, [Ix.RefreshObligation(p1.Named(skip))]);
      var p2 := p1.ObligationRefreshed(Cleanup, skip);
      NamedWithin(p2, skip, now.recent);
      var request := RequestElevation(GroupAfter(ctx, call).value.value, p2.Named(skip));
      if Replay(m, p2.cleanup).Some? {
        ReplayRequest(p2, GroupAfter(ctx, call).value.value, Cleanup, skip, m);
      } else {
        ReplayStuck(m, p2.cleanup, [request]);
      }
    } else {
      assert GroupRequested(p, ctx, call, others, current).value.cleanup == p.cleanup;
    }
  }

  lemma OneRequestAtMost(ctx: Context, call: Call)
    requires GroupBefore(ctx, call).Ok? && GroupAfter(ctx, call).Ok?
    ensures GroupBefore(ctx, call).value.None? || GroupAfter(ctx, call).value.None?
    ensures GroupBefore(ctx, call).value.Some? ==> RequestWhere(call) != Cleanup
  {}
}
