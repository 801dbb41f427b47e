/**
 The accounts a plan works with: the user's metadata, the obligation, the referrer's account and
 the obligation's account at each farm.  Creating one that exists fails, and so does using one
 that does not.
 */
module Accounts {
  import opened Wrappers
  import opened Markets
  import opened Plans
  import opened Supports
  import opened ActionPlans
  import opened ActionTypes

  type Farm = (Pubkey, FarmKind)

  /** The accounts that exist. */
  datatype Existing = Existing(metadata: bool, obligation: bool, referrer: bool, farms: set<Farm>)

  /** The farms that a lending step refreshes: of collateral moved and of debt moved. */
  function FarmsAt(lending: LendingKind, acting: seq<Pubkey>): set<Farm>
  {
    if acting == [] then {}
    else
      match lending
      case DepositLiquidity => {(acting[0], CollateralFarm)}
      case DepositObligationCollateral => {(acting[0], CollateralFarm)}
      case WithdrawCollateral => {(acting[0], CollateralFarm)}
      case BorrowLiquidity => {(acting[0], DebtFarm)}
      case RepayLiquidity => {(acting[0], DebtFarm)}
      case LiquidateObligation => {(acting[0], DebtFarm), (acting[|acting| - 1], CollateralFarm)}
      case RepayAndWithdrawInOne => {(acting[0], DebtFarm), (acting[|acting| - 1], CollateralFarm)}
      case _ => {}
  }

  /** One instruction over the accounts, or refused; `farmed` are the farms that the reserves have. */
  function Uses(a: Existing, farmed: set<Farm>, ix: Ix): Option<Existing>
  {
    match ix
    case Preparation(InitUserMetadata) => if a.metadata then None else Some(a.(metadata := true))
    case Preparation(InitObligation) => if a.obligation || !a.metadata then None else Some(a.(obligation := true))
    case Preparation(InitReferrerTokenState) => if a.referrer then None else Some(a.(referrer := true))
    case InitFarm(r, k) =>
      if a.obligation && (r, k) in farmed && (r, k) !in a.farms then Some(a.(farms := a.farms + {(r, k)})) else None
    case RefreshFarm(r, k) => if (r, k) in a.farms then Some(a) else None
    case RefreshObligation(_) => if a.obligation then Some(a) else None
    case RequestElevation(_, _) => if a.obligation then Some(a) else None
    case Lend(lending, acting, _) =>
      if && (lending.OnObligation() ==> a.obligation && FarmsAt(lending, acting) * farmed <= a.farms)
         && (lending == BorrowLiquidity ==> a.referrer)
      then Some(a) else None
    case _ => Some(a)
  }

  function UsesAll(a: Existing, farmed: set<Farm>, ixs: seq<Ix>): Option<Existing>
  {
    if ixs == [] then Some(a)
    else
      var before := UsesAll(a, farmed, ixs[..|ixs| - 1]);
      if before.None? then None else Uses(before.value, farmed, ixs[|ixs| - 1])
  }

  lemma {:induction false} UsesAllAppends(a: Existing, farmed: set<Farm>, x: seq<Ix>, y: seq<Ix>)
    ensures UsesAll(a, farmed, x + y)
         == if UsesAll(a, farmed, x).None? then None else UsesAll(UsesAll(a, farmed, x).value, farmed, y)
  {
    hide Uses;
    if y == [] {
      assert x + y == x;
    } else {
      var n := |y| - 1;
      assert (x + y)[..|x| + n] == x + y[..n];
      UsesAllAppends(a, farmed, x, y[..n]);
    }
  }

  lemma UsesOne(a: Existing, farmed: set<Farm>, ix: Ix)
    ensures UsesAll(a, farmed, [ix]) == Uses(a, farmed, ix) && UsesAll(a, farmed, []) == Some(a)
  {
    hide Uses;
    assert [ix][..0] == [];
  }

  // ----- Instructions that create nothing -----

  /** Needs no account and creates none. */
  predicate Idle(ix: Ix)
  {
    || ix.ComputeBudget? || ix.RefreshReserve?
    || (ix.Preparation? && !ix.kind.InitUserMetadata? && !ix.kind.InitObligation? && !ix.kind.InitReferrerTokenState?)
  }

  /** Creates none, and needs at most the obligation and some farms. */
  predicate Quiet(ix: Ix, needs: set<Farm>)
  {
    Idle(ix) || ix.RefreshObligation? || ix.RequestElevation? || (ix.RefreshFarm? && (ix.reserve, ix.farm) in needs)
  }

  ghost predicate AllIdle(ixs: seq<Ix>) { forall i :: 0 <= i < |ixs| ==> Idle(ixs[i]) }

  ghost predicate AllQuiet(ixs: seq<Ix>, needs: set<Farm>) { forall i :: 0 <= i < |ixs| ==> Quiet(ixs[i], needs) }

  lemma {:induction false} QuietChangesNothing(a: Existing, farmed: set<Farm>, ixs: seq<Ix>, needs: set<Farm>)
    requires AllIdle(ixs) || (AllQuiet(ixs, needs) && a.obligation && needs <= a.farms)
    ensures UsesAll(a, farmed, ixs) == Some(a)
  {
    if ixs != [] { QuietChangesNothing(a, farmed, ixs[..|ixs| - 1], needs); }
  }

  /** A list grown by quiet instructions only. */
  ghost predicate Grown(before: seq<Ix>, now: seq<Ix>, needs: set<Farm>)
  {
    before <= now && AllQuiet(now[|before|..], needs)
  }

  lemma GrownTwice(x: seq<Ix>, y: seq<Ix>, z: seq<Ix>, needs: set<Farm>)
    requires Grown(x, y, needs) && Grown(y, z, needs)
    ensures Grown(x, z, needs)
  {
    assert z[|x|..] == y[|x|..] + z[|y|..];
  }

  lemma GrownBy(x: seq<Ix>, more: seq<Ix>, needs: set<Farm>)
    requires AllQuiet(more, needs)
    ensures Grown(x, x + more, needs)
  {
    assert (x + more)[|x|..] == more;
  }

  // ----- The farms of an action -----

  ghost function FarmsOf(action: ActionType, ctx: Context): set<Farm>
    requires MultiToken(action) ==> ctx.outflow.Some?
  {
    var r := ctx.reserve.address;
    if action in {Deposit, ActionType.DepositCollateral, Withdraw} then {(r, CollateralFarm)}
    else if action == DepositAndBorrow then {(r, CollateralFarm), (ctx.outflow.value.address, DebtFarm)}
    else if MultiToken(action) then {(r, DebtFarm), (ctx.outflow.value.address, CollateralFarm)}
    else {(r, DebtFarm)}
  }

  /** The farms agree with what the action's reserves say of theirs. */
  ghost predicate Farmed(farmed: set<Farm>, ctx: Context)
  {
    forall k :: && (HasFarm(ctx.reserve, k) <==> (ctx.reserve.address, k) in farmed)
                && (ctx.outflow.Some? ==> (HasFarm(ctx.outflow.value, k) <==> (ctx.outflow.value.address, k) in farmed))
  }

  lemma {:induction false} RefreshIxsAreIdle(keys: seq<Pubkey>)
    ensures AllIdle(RefreshIxs(keys))
  {
    if keys != [] { RefreshIxsAreIdle(keys[..|keys| - 1]); }
  }

  lemma {:induction false} FarmRefreshesAreQuiet(reserves: seq<ReserveView>, kind: FarmKind, needs: set<Farm>)
    requires forall i :: 0 <= i < |reserves| && HasFarm(reserves[i], kind) ==> (reserves[i].address, kind) in needs
    ensures AllQuiet(FarmRefreshes(reserves, kind), needs)
  {
    if reserves != [] { FarmRefreshesAreQuiet(reserves[..|reserves| - 1], kind, needs); }
  }

  // ----- What support adds -----

  /** The auxiliary lists have grown by quiet instructions only, and nothing else has changed. */
  ghost predicate ListsGrown(p: Plan, q: Plan, needs: set<Farm>)
  {
    && Grown(p.setup, q.setup, needs) && Grown(p.inBetween, q.inBetween, needs) && Grown(p.cleanup, q.cleanup, needs)
    && q.farmsCleanup == p.farmsCleanup && q.lending == p.lending && q.computeBudget == p.computeBudget
  }

  lemma ListsGrownTwice(p: Plan, q: Plan, r: Plan, needs: set<Farm>)
    requires ListsGrown(p, q, needs) && ListsGrown(q, r, needs)
    ensures ListsGrown(p, r, needs)
  {
    hide Grown;
    GrownTwice(p.setup, q.setup, r.setup, needs);
    GrownTwice(p.inBetween, q.inBetween, r.inBetween, needs);
    GrownTwice(p.cleanup, q.cleanup, r.cleanup, needs);
  }

  lemma AppendIsQuiet(p: Plan, where: AuxiliaryIx, ixs: seq<Ix>, needs: set<Farm>)
    requires AllQuiet(ixs, needs)
    ensures ListsGrown(p, p.Append(where, ixs), needs) && ListsGrown(p, p.WithPreloaded().Append(where, ixs), needs)
  {
    hide Grown, Merged;
    GrownBy(p.List(where), ixs, needs);
    GrownBy(p.setup, [], needs);
    GrownBy(p.inBetween, [], needs);
    GrownBy(p.cleanup, [], needs);
    assert p.setup + [] == p.setup && p.inBetween + [] == p.inBetween && p.cleanup + [] == p.cleanup;
  }

  lemma RefreshIsQuiet(p: Plan, where: AuxiliaryIx, skip: seq<Pubkey>, needs: set<Farm>)
    ensures ListsGrown(p, p.ObligationRefreshed(where, skip), needs)
  {
    hide ListsGrown;
    AppendIsQuiet(p, where, [Ix.RefreshObligation(p.Named(skip))], needs);
  }

  lemma ElevationIsQuiet(p: Plan, group: nat, where: AuxiliaryIx, skip: seq<Pubkey>, needs: set<Farm>)
    ensures ListsGrown(p, p.ElevationRequested(group, where, skip), needs)
  {
    hide ListsGrown;
    AppendIsQuiet(p, where, [RequestElevation(group, p.Named(skip))], needs);
  }

  /** Group requests come with refreshes only. */
  lemma RequestIsQuiet(p: Plan, ctx: Context, call: Call, others: seq<Pubkey>, current: seq<Pubkey>, needs: set<Farm>)
    requires GroupRequested(p, ctx, call, others, current).Ok?
    ensures ListsGrown(p, GroupRequested(p, ctx, call, others, current).value, needs)
  {
    hide RefreshIxs, InMarket, GroupBefore, GroupAfter, ListsGrown, Plan.Append, Plan.ElevationRequested, Plan.ObligationRefreshed;
    var before, after, where := GroupBefore(ctx, call).value, GroupAfter(ctx, call).value, RequestWhere(call);
    RefreshIxsAreIdle(others);
    RefreshIxsAreIdle(current);
    if before.Some? {
      var p1 := p.ElevationRequested(before.value, where, []);
      var p2 := p1.Append(where, RefreshIxs(others));
      var p3 := p2.Append(where, RefreshIxs(current));
      ElevationIsQuiet(p, before.value, where, [], needs);
      AppendIsQuiet(p1, where, RefreshIxs(others), needs);
      AppendIsQuiet(p2, where, RefreshIxs(current), needs);
      RefreshIsQuiet(p3, where, [], needs);
      ListsGrownTwice(p, p1, p2, needs);
      ListsGrownTwice(p, p2, p3, needs);
      ListsGrownTwice(p, p3, p3.ObligationRefreshed(where, []), needs);
    } else if after.Some? {
      var skip := SkippedAfter(ctx, call);
      var p1 := if call.action == Withdraw then p else p.Append(Cleanup, RefreshIxs(others));
      var p2 := p1.ObligationRefreshed(Cleanup, skip);
      AppendIsQuiet(p, Cleanup, RefreshIxs(others), needs);
      RefreshIsQuiet(p1, Cleanup, skip, needs);
      ElevationIsQuiet(p2, after.value, Cleanup, skip, needs);
      if call.action != Withdraw { ListsGrownTwice(p, p1, p2, needs); }
      ListsGrownTwice(p, p2, p2.ElevationRequested(after.value, Cleanup, skip), needs);
    } else {
      NothingGrows(p, needs);
    }
  }

  lemma NothingGrows(p: Plan, needs: set<Farm>)
    ensures ListsGrown(p, p, needs)
  {}

  lemma FarmsAreQuiet(p: Plan, ctx: Context, call: Call, farmed: set<Farm>, needs: set<Farm>, reserves: seq<ReserveView>)
    requires BuilderCall(call) && call.action != RepayAndWithdrawV2 && CurrentReserves(ctx, call.action) == Ok(reserves)
    requires FarmsRefreshed(p, ctx, call, reserves).Ok?
    requires MultiToken(call.action) ==> ctx.outflow.Some?
    requires Farmed(farmed, ctx) && FarmsOf(call.action, ctx) * farmed <= needs
    ensures var q := FarmsRefreshed(p, ctx, call, reserves).value;
            && Grown(p.setup, q.setup, needs) && Grown(p.inBetween, q.inBetween, needs) && q.cleanup == p.cleanup
            && Grown(p.farmsCleanup, q.farmsCleanup, needs) && q.lending == p.lending && q.computeBudget == p.computeBudget
  {
    hide FarmRefreshes;
    var r := ctx.reserve;
    if call.action == ActionType.Liquidate {
      FarmRefreshesAreQuiet([ctx.outflow.value], CollateralFarm, needs);
      FarmRefreshesAreQuiet([r], DebtFarm, needs);
    } else if call.where == Setup {
      FarmRefreshesAreQuiet(reserves, if call.action in {ActionType.DepositCollateral, Withdraw, Deposit} then CollateralFarm else DebtFarm, needs);
    } else {
      FarmRefreshesAreQuiet([ctx.outflow.value], if call.action == DepositAndBorrow then DebtFarm else CollateralFarm, needs);
    }
  }

  lemma TokenAccountsAreIdle(tags: seq<nat>)
    ensures AllIdle(TokenAccounts(tags))
  {}

  ghost function AtasBefore(call: Call): seq<Ix> { if call.atas.Some? then TokenAccounts(call.atas.value.pre) else [] }

  /** Support in the setup puts refreshes and farm accounts behind the list, and token accounts in front of it. */
  lemma SetupSupportIs(p: Plan, ctx: Context, call: Call, q: Plan, farmed: set<Farm>, needs: set<Farm>) returns (tail: seq<Ix>)
    requires BuilderCall(call) && call.where == Setup && Support(p, ctx, call) == Ok(q) && (call.action == RepayAndWithdrawV2 ==> call.useV2Ixs)
    requires MultiToken(call.action) ==> ctx.outflow.Some?
    requires Farmed(farmed, ctx) && FarmsOf(call.action, ctx) * farmed <= needs
    ensures AllQuiet(tail, needs)
    ensures q.setup == AtasBefore(call) + p.setup + RefreshIxs(OtherKeys(p, ctx, call)) + FarmInits(ctx, call) + tail
    ensures Grown(p.inBetween, q.inBetween, needs) && Grown(p.cleanup, q.cleanup, needs) && Grown(p.farmsCleanup, q.farmsCleanup, needs)
    ensures q.lending == p.lending && q.computeBudget == p.computeBudget
  {
    hide Support, Prepared, GroupRequested, FarmsRefreshed, RefreshIxs, FarmInits, OtherKeys, CurrentKeys, Farmed, FarmsOf;
    SupportInStages(p, ctx, call);
    var others, current := OtherKeys(p, ctx, call), CurrentKeys(ctx, call);
    var p5 := Prepared(p, ctx, call).value;
    tail := PreparedSetupIs(p, ctx, call, needs);
    RequestIsQuiet(p5, ctx, call, others, current, needs);
    var p6 := GroupRequested(p5, ctx, call, others, current).value;
    GrownTwice(p.inBetween, p5.inBetween, p6.inBetween, needs);
    GrownTwice(p.cleanup, p5.cleanup, p6.cleanup, needs);
    GrownBy(p6.setup, [], needs);
    GrownBy(p6.inBetween, [], needs);
    GrownBy(p6.farmsCleanup, [], needs);
    if !call.useV2Ixs { FarmsAreQuiet(p6, ctx, call, farmed, needs, CurrentReserves(ctx, call.action).value); }
    GrownTwice(p.inBetween, p6.inBetween, q.inBetween, needs);
    GrownTwice(p5.setup, p6.setup, q.setup, needs);
    tail := tail + q.setup[|p5.setup|..];
  }

  lemma PreparedSetupIs(p: Plan, ctx: Context, call: Call, needs: set<Farm>) returns (tail: seq<Ix>)
    requires BuilderCall(call) && call.where == Setup && Prepared(p, ctx, call).Ok?
    ensures AllQuiet(tail, needs)
    ensures var q := Prepared(p, ctx, call).value;
            && q.setup == AtasBefore(call) + p.setup + RefreshIxs(OtherKeys(p, ctx, call)) + FarmInits(ctx, call) + tail
            && Grown(p.inBetween, q.inBetween, needs) && Grown(p.cleanup, q.cleanup, needs)
            && q.farmsCleanup == p.farmsCleanup && q.lending == p.lending && q.computeBudget == p.computeBudget
  {
    hide RefreshIxs, FarmInits, Addresses, Merged, Without, TokenAccounts, OtherReserves;
    var p1 := Preloaded(WithAtas(p, call.atas), ctx, call.action);
    var p3 := p1.Append(Setup, RefreshIxs(OtherKeys(p, ctx, call))).Append(Setup, FarmInits(ctx, call));
    var p4 := p3.Append(Setup, RefreshIxs(CurrentKeys(ctx, call)));
    RefreshIxsAreIdle(CurrentKeys(ctx, call));
    if call.atas.Some? { TokenAccountsAreIdle(call.atas.value.post); }
    tail := RefreshIxs(CurrentKeys(ctx, call)) + [Ix.RefreshObligation(p4.Named(RepaidToSkip(ctx, call).value))];
    assert [] + p.setup == p.setup;
  }

  /** Support in between puts token accounts in front of the setup, and creates nothing else. */
  lemma InBetweenSupportIs(p: Plan, ctx: Context, call: Call, q: Plan, farmed: set<Farm>, needs: set<Farm>)
    requires BuilderCall(call) && call.where == InBetween && !call.initFarms && Support(p, ctx, call) == Ok(q)
    requires MultiToken(call.action) ==> ctx.outflow.Some?
    requires Farmed(farmed, ctx) && FarmsOf(call.action, ctx) * farmed <= needs
    ensures q.setup == AtasBefore(call) + p.setup
    ensures Grown(p.inBetween, q.inBetween, needs) && Grown(p.cleanup, q.cleanup, needs) && Grown(p.farmsCleanup, q.farmsCleanup, needs)
    ensures q.lending == p.lending && q.computeBudget == p.computeBudget
  {
    hide Support, Prepared, GroupRequested, FarmsRefreshed, RefreshIxs, OtherKeys, CurrentKeys, Farmed, FarmsOf;
    SupportInStages(p, ctx, call);
    var others, current := OtherKeys(p, ctx, call), CurrentKeys(ctx, call);
    var p5 := Prepared(p, ctx, call).value;
    PreparedInBetweenIs(p, ctx, call, needs);
    RequestIsQuiet(p5, ctx, call, others, current, needs);
    var p6 := GroupRequested(p5, ctx, call, others, current).value;
    GrownTwice(p.inBetween, p5.inBetween, p6.inBetween, needs);
    GrownTwice(p.cleanup, p5.cleanup, p6.cleanup, needs);
    GrownBy(p6.inBetween, [], needs);
    GrownBy(p6.farmsCleanup, [], needs);
    if !call.useV2Ixs { FarmsAreQuiet(p6, ctx, call, farmed, needs, CurrentReserves(ctx, call.action).value); }
    GrownTwice(p.inBetween, p6.inBetween, q.inBetween, needs);
    SetupOfInBetween(p5, ctx, call, others, current);
  }

  lemma SetupOfInBetween(p: Plan, ctx: Context, call: Call, others: seq<Pubkey>, current: seq<Pubkey>)
    requires BuilderCall(call) && call.where == InBetween && GroupRequested(p, ctx, call, others, current).Ok?
    ensures var q := GroupRequested(p, ctx, call, others, current).value;
            && q.setup == p.setup
            && (CurrentReserves(ctx, call.action).Ok? && FarmsRefreshed(q, ctx, call, CurrentReserves(ctx, call.action).value).Ok? ==>
                  FarmsRefreshed(q, ctx, call, CurrentReserves(ctx, call.action).value).value.setup == p.setup)
  {
    hide RefreshIxs, Merged, Without, InMarket, GroupForBorrow, FarmRefreshes;
  }

  lemma PreparedInBetweenIs(p: Plan, ctx: Context, call: Call, needs: set<Farm>)
    requires BuilderCall(call) && call.where == InBetween && !call.initFarms && Prepared(p, ctx, call).Ok?
    ensures var q := Prepared(p, ctx, call).value;
            && q.setup == AtasBefore(call) + p.setup
            && Grown(p.inBetween, q.inBetween, needs) && Grown(p.cleanup, q.cleanup, needs)
            && q.farmsCleanup == p.farmsCleanup && q.lending == p.lending && q.computeBudget == p.computeBudget
  {
    hide RefreshIxs, Addresses, Merged, Without, TokenAccounts, OtherReserves;
    RefreshIxsAreIdle(OtherKeys(p, ctx, call));
    RefreshIxsAreIdle(CurrentKeys(ctx, call));
    if call.atas.Some? { TokenAccountsAreIdle(call.atas.value.post); }
    assert [] + p.setup == p.setup;
  }

  // ----- Creating -----

  /** What the builder has read of the accounts before it plans. */
  ghost predicate AsRead(a: Existing, farmed: set<Farm>, action: ActionType, ctx: Context, opts: Options)
  {
    && Farmed(farmed, ctx) && a.farms == farmed - ctx.missingFarms && a.obligation == ctx.obligation.Some?
    && (opts.initUserMetadata ==> !a.metadata)
    && (action in {Borrow, DepositAndBorrow} ==> a.referrer == !opts.needsReferrerState)
  }

  /** The obligation exists or can be created. */
  ghost predicate CanOpen(a: Existing, opts: Options) { a.obligation || a.metadata || opts.initUserMetadata }

  lemma OpenedCreates(a: Existing, farmed: set<Farm>, action: ActionType, ctx: Context, opts: Options)
    requires AsRead(a, farmed, action, ctx, opts)
    ensures var end := UsesAll(a, farmed, Opened(action, ctx, opts).setup);
            && (end.Some? <==> CanOpen(a, opts))
            && (end.Some? ==> end.value.obligation && end.value.farms == a.farms && (action in {Borrow, DepositAndBorrow} ==> end.value.referrer))
    ensures AllIdle(Opened(action, ctx, opts).computeBudget)
  {
    hide Farmed, UsesAll, Uses;
    var referrer := if action in {Borrow, DepositAndBorrow} && opts.needsReferrerState then [Preparation(InitReferrerTokenState)] else [];
    var metadata :=
      if !opts.initUserMetadata then []
      else (if opts.createLookupTable then [Preparation(CreateUserLut)] else []) + [Preparation(InitUserMetadata)];
    var obligation := if ctx.obligation.None? then [Preparation(InitObligation)] else [];
    assert Opened(action, ctx, opts).setup == referrer + (metadata + obligation);
    UsesAllAppends(a, farmed, referrer, metadata + obligation);
    UsesOne(a, farmed, Preparation(InitReferrerTokenState));
    var b := if referrer == [] then a else a.(referrer := true);
    assert UsesAll(a, farmed, referrer) == Some(b) by { Initializes(a, farmed); }
    MetadataCreates(b, farmed, opts);
    var c := if opts.initUserMetadata then b.(metadata := true) else b;
    UsesAllAppends(b, farmed, metadata, obligation);
    UsesOne(c, farmed, Preparation(InitObligation));
    Initializes(c, farmed);
  }

  lemma Initializes(a: Existing, farmed: set<Farm>)
    ensures Uses(a, farmed, Preparation(InitReferrerTokenState)) == if a.referrer then None else Some(a.(referrer := true))
    ensures Uses(a, farmed, Preparation(InitObligation)) == if a.obligation || !a.metadata then None else Some(a.(obligation := true))
    ensures Uses(a, farmed, Preparation(InitUserMetadata)) == if a.metadata then None else Some(a.(metadata := true))
    ensures Uses(a, farmed, Preparation(CreateUserLut)) == Some(a)
  {}

  lemma MetadataCreates(a: Existing, farmed: set<Farm>, opts: Options)
    requires opts.initUserMetadata ==> !a.metadata
    ensures UsesAll(a, farmed, if !opts.initUserMetadata then []
                               else (if opts.createLookupTable then [Preparation(CreateUserLut)] else []) + [Preparation(InitUserMetadata)])
         == Some(if opts.initUserMetadata then a.(metadata := true) else a)
  {
    hide UsesAll, Uses;
    Initializes(a, farmed);
    UsesOne(a, farmed, Preparation(CreateUserLut));
    UsesOne(a, farmed, Preparation(InitUserMetadata));
    var lut := if opts.createLookupTable then [Preparation(CreateUserLut)] else [];
    UsesAllAppends(a, farmed, lut, [Preparation(InitUserMetadata)]);
  }

  lemma FarmInitCreates(a: Existing, farmed: set<Farm>, ctx: Context, r: Option<ReserveView>, kind: FarmKind)
    requires a.obligation && (r.Some? ==> (HasFarm(r.value, kind) <==> (r.value.address, kind) in farmed))
    requires r.Some? ==> ((r.value.address, kind) in a.farms <==> (r.value.address, kind) in farmed - ctx.missingFarms)
    ensures var end := UsesAll(a, farmed, FarmInit(ctx, r, kind));
            && end.Some? && end.value == a.(farms := end.value.farms)
            && end.value.farms == a.farms + (if r.Some? then {(r.value.address, kind)} * farmed else {})
  {
    if r.Some? { UsesOne(a, farmed, InitFarm(r.value.address, kind)); }
    UsesOne(a, farmed, InitFarm(ctx.reserve.address, kind));
  }

  /** The setup creates every missing farm account of the whole action, each once. */
  lemma FarmInitsCreate(a: Existing, farmed: set<Farm>, action: ActionType, ctx: Context, opts: Options)
    requires NeedsSupport(action) && (MultiToken(action) <==> ctx.outflow.Some?)
    requires Farmed(farmed, ctx) && a.obligation && a.farms == farmed - ctx.missingFarms
    ensures var end := UsesAll(a, farmed, FarmInits(ctx, SetupCall(action, opts)));
            && end.Some? && end.value == a.(farms := end.value.farms) && FarmsOf(action, ctx) * farmed <= end.value.farms
  {
    hide UsesAll, Uses, FarmInit;
    var deposits := action in {Deposit, ActionType.DepositCollateral, Withdraw, DepositAndBorrow};
    var first, second := if deposits then CollateralFarm else DebtFarm, if deposits then DebtFarm else CollateralFarm;
    var x, y := FarmInit(ctx, Some(ctx.reserve), first), FarmInit(ctx, ctx.outflow, second);
    assert FarmInits(ctx, SetupCall(action, opts)) == x + y;
    UsesAllAppends(a, farmed, x, y);
    FarmInitCreates(a, farmed, ctx, Some(ctx.reserve), first);
    FarmInitCreates(UsesAll(a, farmed, x).value, farmed, ctx, ctx.outflow, second);
  }

  // ----- Whole plans -----

  lemma LendFindsAccounts(a: Existing, farmed: set<Farm>, action: ActionType, ctx: Context, opts: Options, i: nat)
    requires NeedsSupport(action) && (MultiToken(action) ==> ctx.outflow.Some?) && i < |Lends(action, ctx, opts)|
    requires a.obligation && FarmsOf(action, ctx) * farmed <= a.farms && (action in {Borrow, DepositAndBorrow} ==> a.referrer)
    ensures Uses(a, farmed, Lends(action, ctx, opts)[i]) == Some(a)
  {
    hide CollateralFor;
    var lend := Lends(action, ctx, opts)[i];
    assert FarmsAt(lend.lending, lend.acting) <= FarmsOf(action, ctx);
  }

  /** Once the accounts are there, the lending steps and what surrounds them change nothing. */
  lemma LendingFindsAccounts(a: Existing, farmed: set<Farm>, action: ActionType, ctx: Context, opts: Options, between: seq<Ix>, back: seq<Ix>)
    requires NeedsSupport(action) && (MultiToken(action) ==> ctx.outflow.Some?)
    requires a.obligation && FarmsOf(action, ctx) * farmed <= a.farms && (action in {Borrow, DepositAndBorrow} ==> a.referrer)
    requires AllQuiet(between, FarmsOf(action, ctx) * farmed) && AllQuiet(back, FarmsOf(action, ctx) * farmed)
    ensures UsesAll(a, farmed, Interleaved(Lends(action, ctx, opts), between) + back) == Some(a)
  {
    hide UsesAll, Uses, Lends, FarmsOf;
    var lends, needs := Lends(action, ctx, opts), FarmsOf(action, ctx) * farmed;
    LendFindsAccounts(a, farmed, action, ctx, opts, 0);
    UsesOne(a, farmed, lends[0]);
    QuietChangesNothing(a, farmed, between, needs);
    QuietChangesNothing(a, farmed, back, needs);
    if TwoStep(action) {
      LendFindsAccounts(a, farmed, action, ctx, opts, 1);
      UsesOne(a, farmed, lends[1]);
      assert lends == [lends[0]] + [lends[1]] && lends[1..] == [lends[1]];
      assert Interleaved(lends, between) == [lends[0]] + between + [lends[1]];
      UsesAllAppends(a, farmed, [lends[0]], between);
      UsesAllAppends(a, farmed, [lends[0]] + between, [lends[1]]);
    } else {
      assert Interleaved(lends, between) == [lends[0]];
    }
    UsesAllAppends(a, farmed, Interleaved(lends, between), back);
  }

  /** The setup of every plan, whatever is put in front of it, ends with all accounts of the action. */
  lemma SetupCreates(
    a: Existing, farmed: set<Farm>, action: ActionType, ctx: Context, opts: Options, front: seq<Ix>, others: seq<Pubkey>, tail: seq<Ix>)
    requires NeedsSupport(action) && (MultiToken(action) <==> ctx.outflow.Some?) && AsRead(a, farmed, action, ctx, opts)
    requires AllIdle(front) && AllQuiet(tail, FarmsOf(action, ctx) * farmed)
    ensures var p := Opened(action, ctx, opts);
            var end := UsesAll(a, farmed, front + p.setup + RefreshIxs(others) + FarmInits(ctx, SetupCall(action, opts)) + tail);
            && (end.Some? <==> CanOpen(a, opts))
            && (end.Some? ==>
                  && end.value.obligation && FarmsOf(action, ctx) * farmed <= end.value.farms
                  && (action in {Borrow, DepositAndBorrow} ==> end.value.referrer))
  {
    hide UsesAll, Uses, Opened, FarmInits, SetupCall, RefreshIxs, FarmsOf, Farmed;
    var setup, inits, needs := Opened(action, ctx, opts).setup, FarmInits(ctx, SetupCall(action, opts)), FarmsOf(action, ctx) * farmed;
    QuietChangesNothing(a, farmed, front, needs);
    UsesAllAppends(a, farmed, front, setup);
    OpenedCreates(a, farmed, action, ctx, opts);
    RefreshIxsAreIdle(others);
    UsesAllAppends(a, farmed, front + setup, RefreshIxs(others));
    UsesAllAppends(a, farmed, front + setup + RefreshIxs(others), inits);
    UsesAllAppends(a, farmed, front + setup + RefreshIxs(others) + inits, tail);
    if CanOpen(a, opts) {
      var b := UsesAll(a, farmed, front + setup).value;
      QuietChangesNothing(b, farmed, RefreshIxs(others), needs);
      FarmInitsCreate(b, farmed, action, ctx, opts);
      QuietChangesNothing(UsesAll(b, farmed, inits).value, farmed, tail, needs);
    }
  }

  /** The instructions of a finished plan, apart as far as accounts go. */
  ghost predicate Apart(
    ixs: seq<Ix>, action: ActionType, ctx: Context, opts: Options, needs: set<Farm>,
    front: seq<Ix>, others: seq<Pubkey>, tail: seq<Ix>, between: seq<Ix>, back: seq<Ix>)
    requires NeedsSupport(action) && (MultiToken(action) ==> ctx.outflow.Some?)
  {
    && AllIdle(front) && AllQuiet(tail, needs) && AllQuiet(between, needs) && AllQuiet(back, needs)
    && var p := Opened(action, ctx, opts);
       ixs == p.computeBudget + (front + p.setup + RefreshIxs(others) + FarmInits(ctx, SetupCall(action, opts)) + tail)
              + (Interleaved(Lends(action, ctx, opts), between) + back)
  }

  /** The setup of a plan: what is put in front, and what behind. */
  lemma SetupParts(action: ActionType, ctx: Context, opts: Options, q: Plan, farmed: set<Farm>)
    returns (front: seq<Ix>, others: seq<Pubkey>, tail: seq<Ix>)
    requires SetupDone(action, ctx, opts, q) && Farmed(farmed, ctx)
    ensures var needs, p := FarmsOf(action, ctx) * farmed, Opened(action, ctx, opts);
            && AllIdle(front) && AllQuiet(tail, needs)
            && q.setup == front + (p.setup + RefreshIxs(others) + FarmInits(ctx, SetupCall(action, opts)) + tail)
            && AllQuiet(q.inBetween, needs) && AllQuiet(q.cleanup, needs) && AllQuiet(q.farmsCleanup, needs)
            && q.lending == [] && q.computeBudget == p.computeBudget
  {
    hide Support, Opened, SetupCall, FarmsOf, Farmed, FarmInits, RefreshIxs, BuilderCall, NeedsSupport, OtherKeys;
    var call, needs, p := SetupCall(action, opts), FarmsOf(action, ctx) * farmed, Opened(action, ctx, opts);
    CallsAreBuilderCalls(action, opts);
    SetupCallFits(action, ctx, opts);
    OpenedLists(action, ctx, opts);
    others := OtherKeys(p, ctx, call);
    tail := SetupSupportIs(p, ctx, call, q, farmed, needs);
    front := AtasBefore(call);
    if call.atas.Some? { TokenAccountsAreIdle(call.atas.value.pre); }
  }

  lemma OneStepParts(action: ActionType, ctx: Context, opts: Options, q: Plan, farmed: set<Farm>)
    returns (front: seq<Ix>, others: seq<Pubkey>, tail: seq<Ix>, between: seq<Ix>, back: seq<Ix>)
    requires SetupDone(action, ctx, opts, q) && !TwoStep(action) && Farmed(farmed, ctx)
    ensures Apart(FinishedOneStep(q, action, ctx, opts).Ixs(), action, ctx, opts, FarmsOf(action, ctx) * farmed, front, others, tail, between, back)
  {
    hide Support, Opened, SetupCall, Lends, FarmsOf, Farmed, FarmInits, RefreshIxs, Interleaved, NeedsSupport, FinishedOneStep;
    front, others, tail := SetupParts(action, ctx, opts, q, farmed);
    var scope := if opts.scopeRefresh then [Preparation(RefreshScopePrices)] else [];
    between := q.inBetween;
    back := if action == RepayAndWithdrawV2 then q.cleanup else q.farmsCleanup + q.cleanup;
    OneStepIxs(q, action, ctx, opts);
    Regroup(scope, front, Opened(action, ctx, opts).setup, RefreshIxs(others), FarmInits(ctx, SetupCall(action, opts)), tail);
    front := scope + front;
  }

  lemma Regroup(scope: seq<Ix>, front: seq<Ix>, a: seq<Ix>, b: seq<Ix>, c: seq<Ix>, d: seq<Ix>)
    ensures scope + (front + (a + b + c + d)) == (scope + front) + a + b + c + d
  {}

  lemma TwoStepParts(action: ActionType, ctx: Context, opts: Options, q: Plan, r: Plan, farmed: set<Farm>)
    returns (front: seq<Ix>, others: seq<Pubkey>, tail: seq<Ix>, between: seq<Ix>, back: seq<Ix>)
    requires BetweenDone(action, ctx, opts, q, r) && Farmed(farmed, ctx)
    ensures Apart(WithScope(r.(cleanup := r.farmsCleanup + r.cleanup), opts.scopeRefresh).Ixs(),
                  action, ctx, opts, FarmsOf(action, ctx) * farmed, front, others, tail, between, back)
  {
    hide Support, Opened, SetupCall, InBetweenCall, Lends, FarmsOf, Farmed, FarmInits, RefreshIxs, Interleaved, NeedsSupport, BuilderCall, WithScope, LendsAdded;
    var needs, second, added := FarmsOf(action, ctx) * farmed, InBetweenCall(action, opts), LendsAdded(q, action, ctx, opts);
    front, others, tail := SetupParts(action, ctx, opts, q, farmed);
    AddedIs(action, ctx, opts, q);
    CallsAreBuilderCalls(action, opts);
    InBetweenCallFits(action, opts);
    InBetweenSupportIs(added, ctx, second, r, farmed, needs);
    if second.atas.Some? { TokenAccountsAreIdle(second.atas.value.pre); }
    GrownIsQuiet(q.inBetween, r.inBetween, needs);
    GrownIsQuiet(q.cleanup, r.cleanup, needs);
    GrownIsQuiet(q.farmsCleanup, r.farmsCleanup, needs);
    between, back := r.inBetween, r.farmsCleanup + r.cleanup;
    var scope := if opts.scopeRefresh then [Preparation(RefreshScopePrices)] else [];
    TwoStepIxs(r, opts.scopeRefresh);
    var ahead := AtasBefore(second) + front;
    Regroup(scope, ahead, Opened(action, ctx, opts).setup, RefreshIxs(others), FarmInits(ctx, SetupCall(action, opts)), tail);
    assert r.setup == ahead + (Opened(action, ctx, opts).setup + RefreshIxs(others) + FarmInits(ctx, SetupCall(action, opts)) + tail);
    front := scope + ahead;
  }

  lemma GrownIsQuiet(x: seq<Ix>, y: seq<Ix>, needs: set<Farm>)
    requires AllQuiet(x, needs) && Grown(x, y, needs)
    ensures AllQuiet(y, needs)
  {
    assert y == x + y[|x|..];
  }

  lemma AddedIs(action: ActionType, ctx: Context, opts: Options, q: Plan)
    requires TwoStep(action) && ctx.outflow.Some? && q.lending == []
    ensures var added := LendsAdded(q, action, ctx, opts);
            && added.lending == Lends(action, ctx, opts) && added.setup == q.setup && added.inBetween == q.inBetween
            && added.cleanup == q.cleanup && added.farmsCleanup == q.farmsCleanup && added.computeBudget == q.computeBudget
  {
    hide Lends, Merged;
    assert [] + Lends(action, ctx, opts) == Lends(action, ctx, opts);
  }

  lemma SetupCallFits(action: ActionType, ctx: Context, opts: Options)
    requires NeedsSupport(action) && (MultiToken(action) ==> ctx.outflow.Some?)
    ensures var call := SetupCall(action, opts);
            && call.where == Setup && (call.action == RepayAndWithdrawV2 ==> call.useV2Ixs)
            && (MultiToken(call.action) ==> ctx.outflow.Some?) && FarmsOf(call.action, ctx) <= FarmsOf(action, ctx)
  {}

  lemma InBetweenCallFits(action: ActionType, opts: Options)
    requires TwoStep(action)
    ensures var call := InBetweenCall(action, opts); call.where == InBetween && !call.initFarms && call.action == action && MultiToken(action)
  {}

  lemma OneStepIxs(q: Plan, action: ActionType, ctx: Context, opts: Options)
    requires NeedsSupport(action) && (MultiToken(action) ==> ctx.outflow.Some?) && !TwoStep(action) && q.lending == []
    ensures FinishedOneStep(q, action, ctx, opts).Ixs()
         == q.computeBudget + ((if opts.scopeRefresh then [Preparation(RefreshScopePrices)] else []) + q.setup)
            + (Interleaved(Lends(action, ctx, opts), q.inBetween) + if action == RepayAndWithdrawV2 then q.cleanup else q.farmsCleanup + q.cleanup)
  {
    hide Lends, Merged, Interleaved;
    assert [] + q.setup == q.setup;
    assert [] + Lends(action, ctx, opts) == Lends(action, ctx, opts);
  }

  lemma TwoStepIxs(r: Plan, scopeRefresh: bool)
    ensures WithScope(r.(cleanup := r.farmsCleanup + r.cleanup), scopeRefresh).Ixs()
         == r.computeBudget + ((if scopeRefresh then [Preparation(RefreshScopePrices)] else []) + r.setup)
            + (Interleaved(r.lending, r.inBetween) + (r.farmsCleanup + r.cleanup))
  {
    hide Interleaved;
    assert [] + r.setup == r.setup;
  }

  /** A plan starts with its compute budget and the refresh of the prices, if these are asked for. */
  lemma PlanStartsWith(action: ActionType, given: Context, opts: Options) returns (rest: seq<Ix>)
    requires NeedsSupport(action) && Built(action, given, opts).Ok?
    ensures Built(action, given, opts).value.Ixs()
         == (if opts.extraComputeBudget > 0 then [ComputeBudget(opts.extraComputeBudget)] else [])
            + (if opts.scopeRefresh then [Preparation(RefreshScopePrices)] else []) + rest
  {
    hide Built, Support, Lends, Interleaved, FinishedOneStep, WithScope, LendsAdded, NeedsSupport, SetupDone, BetweenDone;
    var ctx, q, r := BuiltInStages(action, given, opts);
    var scope := if opts.scopeRefresh then [Preparation(RefreshScopePrices)] else [];
    BudgetIs(action, ctx, opts, q);
    if TwoStep(action) {
      BudgetIsKept(action, ctx, opts, q, r);
      TwoStepIxs(r, opts.scopeRefresh);
      rest := r.setup + (Interleaved(r.lending, r.inBetween) + (r.farmsCleanup + r.cleanup));
    } else {
      OneStepIxs(q, action, ctx, opts);
      rest := q.setup + (Interleaved(Lends(action, ctx, opts), q.inBetween)
                         + if action == RepayAndWithdrawV2 then q.cleanup else q.farmsCleanup + q.cleanup);
    }
  }

  lemma BudgetIs(action: ActionType, ctx: Context, opts: Options, q: Plan)
    requires SetupDone(action, ctx, opts, q)
    ensures q.computeBudget == (if opts.extraComputeBudget > 0 then [ComputeBudget(opts.extraComputeBudget)] else []) && q.lending == []
    ensures NeedsSupport(action) && (MultiToken(action) ==> ctx.outflow.Some?)
  {
    hide Support, SetupCall, BuilderCall, NeedsSupport;
    var p, call := Opened(action, ctx, opts), SetupCall(action, opts);
    CallsAreBuilderCalls(action, opts);
    assert p.farmsCleanup == [];
    SupportFrame(p, ctx, call);
  }

  lemma BudgetIsKept(action: ActionType, ctx: Context, opts: Options, q: Plan, r: Plan)
    requires BetweenDone(action, ctx, opts, q, r)
    ensures r.computeBudget == q.computeBudget
  {
    hide Support, Lends, Merged, SetupCall, InBetweenCall, BuilderCall, NeedsSupport;
    CallsAreBuilderCalls(action, opts);
    TwoStepLists(action, ctx, opts, q, r);
    OpenedLists(action, ctx, opts);
    SupportFrame(Opened(action, ctx, opts), ctx, SetupCall(action, opts));
    SupportFrame(LendsAdded(q, action, ctx, opts), ctx, InBetweenCall(action, opts));
  }

  lemma OutflowIff(action: ActionType, given: Context)
    requires Initialized(action, given).Ok?
    ensures MultiToken(action) <==> Initialized(action, given).value.outflow.Some?
  {}

  /**
   A plan finds every account it uses and creates none twice if and only if the obligation or the
   user's metadata exists, or the metadata is to be created; afterwards all accounts of the action exist.
   */
  lemma PlanFindsItsAccountsIff(action: ActionType, given: Context, opts: Options, a: Existing, farmed: set<Farm>)
    requires NeedsSupport(action) && Built(action, given, opts).Ok?
    requires Initialized(action, given).Ok? && AsRead(a, farmed, action, Initialized(action, given).value, opts)
    ensures var ctx, end := Initialized(action, given).value, UsesAll(a, farmed, Built(action, given, opts).value.Ixs());
            && (end.Some? <==> CanOpen(a, opts))
            && (end.Some? ==> end.value.obligation && FarmsOf(action, ctx) * farmed <= end.value.farms)
  {
    hide UsesAll, Built, Opened, FarmInits, SetupCall, RefreshIxs, FarmsOf, Farmed, Lends, Interleaved, SetupDone, BetweenDone, WithScope, FinishedOneStep, CanOpen;
    var ctx, q, r := BuiltInStages(action, given, opts);
    OutflowIff(action, given);
    var front, others, tail, between, back;
    if TwoStep(action) {
      front, others, tail, between, back := TwoStepParts(action, ctx, opts, q, r, farmed);
    } else {
      front, others, tail, between, back := OneStepParts(action, ctx, opts, q, farmed);
    }
    var p := Opened(action, ctx, opts);
    var setup := front + p.setup + RefreshIxs(others) + FarmInits(ctx, SetupCall(action, opts)) + tail;
    OpenedCreates(a, farmed, action, ctx, opts);
    QuietChangesNothing(a, farmed, p.computeBudget, {});
    SetupCreates(a, farmed, action, ctx, opts, front, others, tail);
    UsesAllAppends(a, farmed, p.computeBudget, setup);
    UsesAllAppends(a, farmed, p.computeBudget + setup, Interleaved(Lends(action, ctx, opts), between) + back);
    if CanOpen(a, opts) {
      LendingFindsAccounts(UsesAll(a, farmed, setup).value, farmed, action, ctx, opts, between, back);
    }
  }
}
