/**
 What a plan tells the lending program about the obligation: every obligation refresh and
 group request names the reserves of its deposits and of its borrows, and these must be the
 ones in the obligation's slots at that point, side by side and in slot order.
 */
module Ledgers {
  import opened Wrappers
  import opened Markets
  import opened Plans
  import opened Supports
  import opened ActionPlans
  import opened ActionTypes

  // ----- Events -----

  /** The reserves named by a refresh, or by a request with its group, or a lending step. */
  datatype Event = Names(named: Naming, request: Option<nat>) | Does(lending: LendingKind, acting: seq<Pubkey>, amounts: seq<nat>)

  function EventsOf(ix: Ix): seq<Event>
  {
    match ix
    case RefreshObligation(named) => [Names(named, None)]
    case RequestElevation(g, named) => [Names(named, Some(g))]
    case Lend(lending, acting, amounts) => [Does(lending, acting, amounts)]
    case _ => []
  }

  function Events(ixs: seq<Ix>): seq<Event>
  {
    if ixs == [] then [] else Events(ixs[..|ixs| - 1]) + EventsOf(ixs[|ixs| - 1])
  }

  lemma {:induction false} EventsAppend(a: seq<Ix>, b: seq<Ix>)
    ensures Events(a + b) == Events(a) + Events(b)
  {
    hide Events, EventsOf;
    if b == [] {
      assert a + b == a;
      NoEvents();
    } else {
      var n := |b| - 1;
      EventsAppend(a, b[..n]);
      EventsSnoc(a + b[..n], b[n]);
      EventsSnoc(b[..n], b[n]);
      assert a + b == a + b[..n] + [b[n]] && b == b[..n] + [b[n]];
    }
  }

  lemma NoEvents()
    ensures Events([]) == []
  {}

  lemma EventsSnoc(ixs: seq<Ix>, ix: Ix)
    ensures Events(ixs + [ix]) == Events(ixs) + EventsOf(ix)
  {
    assert (ixs + [ix])[..|ixs|] == ixs;
  }

  lemma {:induction false} NeutralHasNoEvents(ixs: seq<Ix>)
    requires AllNeutral(ixs)
    ensures Events(ixs) == []
  {
    if ixs != [] { NeutralHasNoEvents(ixs[..|ixs| - 1]); }
  }

  lemma {:induction false} RefreshesHaveNoEvents(keys: seq<Pubkey>)
    ensures Events(RefreshIxs(keys)) == []
  {
    if keys != [] {
      RefreshesHaveNoEvents(keys[..|keys| - 1]);
      EventsSnoc(RefreshIxs(keys[..|keys| - 1]), RefreshReserve(keys[|keys| - 1]));
    }
  }

  lemma NeutralSuffix(ixs: seq<Ix>, more: seq<Ix>)
    requires AllNeutral(more)
    ensures Events(ixs + more) == Events(more + ixs) == Events(ixs)
  {
    EventsAppend(ixs, more);
    EventsAppend(more, ixs);
    NeutralHasNoEvents(more);
  }

  lemma RefreshSuffix(ixs: seq<Ix>, keys: seq<Pubkey>)
    ensures Events(ixs + RefreshIxs(keys)) == Events(ixs)
  {
    EventsAppend(ixs, RefreshIxs(keys));
    RefreshesHaveNoEvents(keys);
  }

  // ----- What a plan names -----

  /** Both lists of a plan, with what is preloaded. */
  function ListsOf(p: Plan): Naming { Naming(Merged(p.depositReserves, p.preLoaded), p.borrowReserves) }

  function Skipping(n: Naming, skip: seq<Pubkey>): Naming { Naming(Without(n.deposits, skip), Without(n.borrows, skip)) }

  lemma {:induction false} WithoutNothing(keys: seq<Pubkey>)
    ensures Without(keys, []) == keys
  {
    if keys != [] {
      var n := |keys| - 1;
      WithoutNothing(keys[..n]);
      assert keys == keys[..n] + [keys[n]];
    }
  }

  lemma SkippingNothing(n: Naming)
    ensures Skipping(n, []) == n
  {
    WithoutNothing(n.deposits);
    WithoutNothing(n.borrows);
  }

  lemma {:induction false} MergedContained(deposits: seq<Pubkey>, more: seq<Pubkey>)
    requires forall k :: k in more ==> k in deposits
    ensures Merged(deposits, more) == deposits
  {
    if more != [] {
      var n := |more| - 1;
      assert more == more[..n] + [more[n]];
      MergedContained(deposits, more[..n]);
    }
  }

  /** Filing the preloaded reserves changes nothing about what is named. */
  lemma ListsStay(p: Plan, where: AuxiliaryIx, ixs: seq<Ix>)
    ensures ListsOf(p.WithPreloaded()) == ListsOf(p) == ListsOf(p.Append(where, ixs))
    ensures ListsOf(p.WithPreloaded().Append(where, ixs)) == ListsOf(p)
  {
    hide Merged;
    MergedContained(Merged(p.depositReserves, p.preLoaded), p.preLoaded);
  }

  // ----- Events of support -----

  lemma AtasHaveNoEvents(p: Plan, atas: Option<Atas>, where: AuxiliaryIx)
    ensures Events(WithAtas(p, atas).List(where)) == Events(p.List(where))
  {
    hide Events;
    if atas.Some? {
      NeutralSuffix(p.setup, TokenAccounts(atas.value.pre));
      NeutralSuffix(p.cleanup, TokenAccounts(atas.value.post));
    }
  }

  lemma PreparedEvents(p: Plan, ctx: Context, call: Call)
    requires BuilderCall(call) && Prepared(p, ctx, call).Ok?
    ensures RepaidToSkip(ctx, call).Ok?
    ensures var q, held := Prepared(p, ctx, call).value, ListsOf(Preloaded(p, ctx, call.action));
            && ListsOf(q) == held
            && Events(q.List(call.where)) == Events(p.List(call.where)) + [Names(Skipping(held, RepaidToSkip(ctx, call).value), None)]
            && Events(q.cleanup) == Events(p.cleanup)
            && (call.where == InBetween ==> Events(q.setup) == Events(p.setup))
  {
    hide Events, RefreshIxs, FarmInits, OtherReserves, Addresses, Merged, Without, KeySet, TokenAccounts;
    var where, others, current := call.where, OtherKeys(p, ctx, call), CurrentKeys(ctx, call);
    AtasHaveNoEvents(p, call.atas, where);
    AtasHaveNoEvents(p, call.atas, Cleanup);
    AtasHaveNoEvents(p, call.atas, Setup);
    var p1 := Preloaded(WithAtas(p, call.atas), ctx, call.action);
    var p2 := p1.Append(where, RefreshIxs(others));
    var p3 := p2.Append(where, FarmInits(ctx, call));
    var p4 := p3.Append(where, RefreshIxs(current));
    RefreshSuffix(p1.List(where), others);
    NeutralSuffix(p2.List(where), FarmInits(ctx, call));
    RefreshSuffix(p3.List(where), current);
    var skip := RepaidToSkip(ctx, call).value;
    EventsSnoc(p4.List(where), Ix.RefreshObligation(p4.Named(skip)));
    ListsStay(p4, where, [Ix.RefreshObligation(p4.Named(skip))]);
  }

  lemma RequestEvents(p: Plan, ctx: Context, call: Call, others: seq<Pubkey>, current: seq<Pubkey>)
    requires BuilderCall(call) && GroupRequested(p, ctx, call, others, current).Ok?
    ensures GroupBefore(ctx, call).Ok? && GroupAfter(ctx, call).Ok?
    ensures var q := GroupRequested(p, ctx, call, others, current).value;
            && ListsOf(q) == ListsOf(p)
            && Events(q.List(call.where))
               == Events(p.List(call.where)) + RequestRefresh(ListsOf(p), GroupBefore(ctx, call).value)
            && Events(q.cleanup)
               == Events(p.cleanup) + RefreshRequest(Skipping(ListsOf(p), SkippedAfter(ctx, call)), GroupAfter(ctx, call).value)
            && (call.where == InBetween ==> Events(q.setup) == Events(p.setup))
  {
    hide Events, RefreshIxs, Merged, Without, KeySet, GroupBefore, GroupAfter, InMarket, ListsOf, Skipping, SkippedAfter;
    OneRequestAtMost(ctx, call);
    var before, after := GroupBefore(ctx, call).value, GroupAfter(ctx, call).value;
    if before.Some? {
      var where := call.where;
      assert where == RequestWhere(call) by { RequestIsInTheList(ctx, call); }
      EventsOfRequest(p, before.value, where, []);
      var p1 := p.ElevationRequested(before.value, where, []);
      var p2 := p1.Append(where, RefreshIxs(others));
      var p3 := p2.Append(where, RefreshIxs(current));
      RefreshSuffix(p1.List(where), others);
      RefreshSuffix(p2.List(where), current);
      EventsOfRefresh(p3, where, []);
      ListsStay(p, where, [RequestElevation(before.value, p.Named([]))]);
      ListsStay(p1, where, RefreshIxs(others));
      ListsStay(p2, where, RefreshIxs(current));
      ListsStay(p3, where, [Ix.RefreshObligation(p3.Named([]))]);
      SkippingNothing(ListsOf(p));
    } else if after.Some? {
      var skip := SkippedAfter(ctx, call);
      var p1 := if call.action == Withdraw then p else p.Append(Cleanup, RefreshIxs(others));
      RefreshSuffix(p.cleanup, others);
      ListsStay(p, Cleanup, RefreshIxs(others));
      EventsOfRefresh(p1, Cleanup, skip);
      var p2 := p1.ObligationRefreshed(Cleanup, skip);
      ListsStay(p1, Cleanup, [Ix.RefreshObligation(p1.Named(skip))]);
      EventsOfRequest(p2, after.value, Cleanup, skip);
      ListsStay(p2, Cleanup, [RequestElevation(after.value, p2.Named(skip))]);
    }
  }

  /** A request with a refresh behind it, naming the same reserves. */
  function RequestRefresh(named: Naming, request: Option<nat>): seq<Event>
  {
    if request.Some? then [Names(named, request), Names(named, None)] else []
  }

  /** A request with a refresh in front of it. */
  function RefreshRequest(named: Naming, request: Option<nat>): seq<Event>
  {
    if request.Some? then [Names(named, None), Names(named, request)] else []
  }

  lemma EventsOfRefresh(p: Plan, where: AuxiliaryIx, skip: seq<Pubkey>)
    ensures Events(p.ObligationRefreshed(where, skip).List(where))
         == Events(p.List(where)) + [Names(Skipping(ListsOf(p), skip), None)]
  {
    hide Events, Merged, Without;
    EventsSnoc(p.List(where), Ix.RefreshObligation(p.Named(skip)));
  }

  lemma EventsOfRequest(p: Plan, group: nat, where: AuxiliaryIx, skip: seq<Pubkey>)
    ensures Events(p.ElevationRequested(group, where, skip).List(where))
         == Events(p.List(where)) + [Names(Skipping(ListsOf(p), skip), Some(group))]
  {
    hide Events, Merged, Without;
    EventsSnoc(p.List(where), RequestElevation(group, p.Named(skip)));
  }

  lemma FarmsHaveNoEvents(p: Plan, ctx: Context, call: Call, reserves: seq<ReserveView>, where: AuxiliaryIx)
    requires FarmsRefreshed(p, ctx, call, reserves).Ok?
    ensures var q := FarmsRefreshed(p, ctx, call, reserves).value;
            Events(q.List(where)) == Events(p.List(where)) && ListsOf(q) == ListsOf(p)
  {
    hide Events, FarmRefreshes, Merged;
    if call.where == Setup && call.action == ActionType.Liquidate {
      var a, b := FarmRefreshes([ctx.outflow.value], CollateralFarm), FarmRefreshes([ctx.reserve], DebtFarm);
      NeutralSuffix(p.setup, a);
      NeutralSuffix(p.setup + a, b);
    } else {
      var farms :=
        if call.where == Setup then
          FarmRefreshes(reserves, if call.action in {DepositAndBorrow, ActionType.DepositCollateral, Withdraw, Deposit}
                                  then CollateralFarm else DebtFarm)
        else FarmRefreshes([ctx.outflow.value], if call.action == DepositAndBorrow then DebtFarm else CollateralFarm);
      NeutralSuffix(p.setup, farms);
      NeutralSuffix(p.inBetween, farms);
    }
  }

  /** What support names in its own list and in the cleanup. */
  lemma SupportEvents(p: Plan, ctx: Context, call: Call, q: Plan)
    requires BuilderCall(call) && Support(p, ctx, call) == Ok(q)
    ensures RepaidToSkip(ctx, call).Ok? && GroupBefore(ctx, call).Ok? && GroupAfter(ctx, call).Ok?
    ensures var held := ListsOf(Preloaded(p, ctx, call.action));
            && ListsOf(q) == held
            && Events(q.List(call.where))
               == Events(p.List(call.where)) + [Names(Skipping(held, RepaidToSkip(ctx, call).value), None)]
                  + RequestRefresh(held, GroupBefore(ctx, call).value)
            && Events(q.cleanup)
               == Events(p.cleanup) + RefreshRequest(Skipping(held, SkippedAfter(ctx, call)), GroupAfter(ctx, call).value)
            && (call.where == InBetween ==> Events(q.setup) == Events(p.setup))
  {
    hide Events, Support, Prepared, GroupRequested, FarmsRefreshed, GroupBefore, GroupAfter, RepaidToSkip, ListsOf, Skipping, Preloaded,
      KeySet, OtherKeys, CurrentKeys, SkippedAfter;
    SupportInStages(p, ctx, call);
    PreparedEvents(p, ctx, call);
    var p5 := Prepared(p, ctx, call).value;
    var others, current := OtherKeys(p, ctx, call), CurrentKeys(ctx, call);
    RequestEvents(p5, ctx, call, others, current);
    var p6 := GroupRequested(p5, ctx, call, others, current).value;
    if !call.useV2Ixs {
      var reserves := CurrentReserves(ctx, call.action).value;
      FarmsHaveNoEvents(p6, ctx, call, reserves, call.where);
      FarmsHaveNoEvents(p6, ctx, call, reserves, Cleanup);
      FarmsHaveNoEvents(p6, ctx, call, reserves, Setup);
    }
  }

  // ----- Events of a finished plan -----

  function DoesOf(ix: Ix): Event requires ix.Lend? { Does(ix.lending, ix.acting, ix.amounts) }

  /** What the builder takes to be held at the start: the obligation's lists, with deposits it was told of. */
  function ListedAtStart(action: ActionType, ctx: Context, opts: Options): Naming
  {
    Naming(EmptyPlan(ctx).depositReserves + (if action == Withdraw then opts.addedDepositReserves else []), EmptyPlan(ctx).borrowReserves)
  }

  /** A deposit of the same plan is listed last. */
  function ListedInBetween(action: ActionType, ctx: Context, opts: Options): Naming
  {
    var n := ListedAtStart(action, ctx, opts);
    if action == DepositAndBorrow && ctx.reserve.address !in n.deposits then n.(deposits := n.deposits + [ctx.reserve.address]) else n
  }

  ghost function SetupEvents(action: ActionType, ctx: Context, opts: Options): seq<Event>
    requires Decided(action, ctx, opts)
  {
    var held := ListedAtStart(action, ctx, opts);
    [Names(held, None)] + RequestRefresh(held, GroupBefore(ctx, SetupCall(action, opts)).value)
  }

  ghost function InBetweenEvents(action: ActionType, ctx: Context, opts: Options): seq<Event>
    requires Decided(action, ctx, opts) && TwoStep(action)
  {
    var held := ListedInBetween(action, ctx, opts);
    [Names(Skipping(held, RepaidToSkip(ctx, InBetweenCall(action, opts)).value), None)]
    + RequestRefresh(held, GroupBefore(ctx, InBetweenCall(action, opts)).value)
  }

  ghost function CleanupEvents(action: ActionType, ctx: Context, opts: Options): seq<Event>
    requires Decided(action, ctx, opts)
  {
    RefreshRequest(Skipping(ListedAtStart(action, ctx, opts), SkippedAfter(ctx, SetupCall(action, opts))),
      GroupAfter(ctx, SetupCall(action, opts)).value)
  }

  ghost function EventsBeforeCleanup(action: ActionType, ctx: Context, opts: Options): seq<Event>
    requires Decided(action, ctx, opts)
  {
    var lends := Lends(action, ctx, opts);
    SetupEvents(action, ctx, opts) + [DoesOf(lends[0])]
    + if TwoStep(action) then InBetweenEvents(action, ctx, opts) + [DoesOf(lends[1])] else []
  }

  ghost function ExpectedEvents(action: ActionType, ctx: Context, opts: Options): seq<Event>
    requires Decided(action, ctx, opts)
  {
    EventsBeforeCleanup(action, ctx, opts) + CleanupEvents(action, ctx, opts)
  }

  lemma OpenedListed(action: ActionType, ctx: Context, opts: Options)
    requires NeedsSupport(action)
    ensures var p := Opened(action, ctx, opts);
            && ListsOf(Preloaded(p, ctx, SetupCall(action, opts).action)) == ListedAtStart(action, ctx, opts)
            && Events(p.setup) == [] && Events(p.cleanup) == []
  {
    hide Events, Preparations, EmptyPlan;
    var p, empty := Opened(action, ctx, opts), EmptyPlan(ctx);
    OpenedLists(action, ctx, opts);
    NoEvents();
    NeutralHasNoEvents(p.setup);
    assert p.depositReserves == empty.depositReserves + if action == Withdraw then opts.addedDepositReserves else [];
    assert p.borrowReserves == empty.borrowReserves;
    assert Preloaded(p, ctx, SetupCall(action, opts).action) == p;
  }

  lemma SetupListEvents(action: ActionType, ctx: Context, opts: Options, q: Plan)
    requires SetupDone(action, ctx, opts, q)
    ensures GroupBefore(ctx, SetupCall(action, opts)).Ok? && GroupAfter(ctx, SetupCall(action, opts)).Ok?
    ensures var held := ListedAtStart(action, ctx, opts);
            && ListsOf(q) == held
            && Events(q.setup) == [Names(held, None)] + RequestRefresh(held, GroupBefore(ctx, SetupCall(action, opts)).value)
            && Events(q.cleanup)
               == RefreshRequest(Skipping(held, SkippedAfter(ctx, SetupCall(action, opts))), GroupAfter(ctx, SetupCall(action, opts)).value)
  {
    hide Events, Support, GroupBefore, GroupAfter, Opened, SetupCall, ListsOf, ListedAtStart, NeedsSupport, RequestRefresh, RefreshRequest, SkippedAfter, Skipping;
    CallsAreBuilderCalls(action, opts);
    SetupCallIsInSetup(action, opts);
    SetupCallSkipsNothing(action, ctx, opts);
    OpenedListed(action, ctx, opts);
    SupportEvents(Opened(action, ctx, opts), ctx, SetupCall(action, opts), q);
    SkippingNothing(ListedAtStart(action, ctx, opts));
  }

  lemma InBetweenListEvents(action: ActionType, ctx: Context, opts: Options, q: Plan, r: Plan)
    requires BetweenDone(action, ctx, opts, q, r)
    ensures Decided(action, ctx, opts)
    ensures Events(r.inBetween) == InBetweenEvents(action, ctx, opts)
    ensures Events(r.setup) == Events(q.setup) && Events(r.cleanup) == Events(q.cleanup)
  {
    hide Events, Support, GroupBefore, GroupAfter, Opened, SetupCall, ListedAtStart, ListedInBetween, Merged, Lends, RepaidToSkip,
      KeySet, SkippedAfter, Preloaded, NeedsSupport, BuilderCall, ListsOf, Skipping;
    CallsAreBuilderCalls(action, opts);
    SetupListEvents(action, ctx, opts, q);
    OpenedLists(action, ctx, opts);
    SetupCallIsInSetup(action, opts);
    SupportFrame(Opened(action, ctx, opts), ctx, SetupCall(action, opts));
    var added, call := LendsAdded(q, action, ctx, opts), InBetweenCall(action, opts);
    NeutralHasNoEvents(added.inBetween);
    SupportEvents(added, ctx, call, r);
    AddedListed(action, ctx, opts, q);
    NoCleanupRequestInBetween(action, ctx, opts);
  }

  /** The first deposit of the plan is listed behind those of the obligation. */
  lemma AddedListed(action: ActionType, ctx: Context, opts: Options, q: Plan)
    requires TwoStep(action) && ctx.outflow.Some? && ListsOf(q) == ListedAtStart(action, ctx, opts) && q.preLoaded == []
    ensures ListsOf(Preloaded(LendsAdded(q, action, ctx, opts), ctx, action)) == ListedInBetween(action, ctx, opts)
  {
    hide Lends;
    var added, r := LendsAdded(q, action, ctx, opts), ctx.reserve.address;
    assert [r][..0] == [];
    var d := ListedAtStart(action, ctx, opts).deposits;
    assert q.depositReserves == d;
    assert added.depositReserves == if action == DepositAndBorrow && d == [] then [r] else d;
    assert Merged(added.depositReserves, [r]) == Add(added.depositReserves, r);
  }

  lemma IxsEvents(p: Plan)
    requires AllNeutral(p.computeBudget)
    ensures Events(p.BeforeCleanup()) == Events(p.setup) + Events(p.LendingIxs())
    ensures Events(p.Ixs()) == Events(p.setup) + Events(p.LendingIxs()) + Events(p.cleanup)
  {
    hide Events;
    NeutralSuffix(p.setup, p.computeBudget);
    EventsAppend(p.computeBudget + p.setup, p.LendingIxs());
    EventsAppend(p.computeBudget + p.setup + p.LendingIxs(), p.cleanup);
  }

  lemma ScopeHasNoEvents(p: Plan, refresh: bool)
    ensures Events(WithScope(p, refresh).setup) == Events(p.setup)
  {
    hide Events;
    NeutralSuffix(p.setup, [Preparation(RefreshScopePrices)]);
  }

  lemma LendEvents(lend: Ix)
    requires lend.Lend?
    ensures Events([lend]) == [DoesOf(lend)]
  {
    hide Events;
    NoEvents();
    EventsSnoc([], lend);
    assert [] + [lend] == [lend];
  }

  lemma OneStepEvents(action: ActionType, ctx: Context, opts: Options, q: Plan)
    requires !TwoStep(action) && SetupDone(action, ctx, opts, q)
    ensures Decided(action, ctx, opts)
    ensures Events(FinishedOneStep(q, action, ctx, opts).BeforeCleanup()) == EventsBeforeCleanup(action, ctx, opts)
    ensures Events(FinishedOneStep(q, action, ctx, opts).Ixs()) == ExpectedEvents(action, ctx, opts)
  {
    hide Events, Support, GroupBefore, GroupAfter, Opened, SetupCall, ListedAtStart, RequestRefresh, RefreshRequest, FinishedOneStep, Lends, DoesOf, ListsOf;
    var p, lend := FinishedOneStep(q, action, ctx, opts), Lends(action, ctx, opts)[0];
    SetupListEvents(action, ctx, opts, q);
    OneStepLists(action, ctx, opts, q);
    IxsEvents(p);
    ScopeHasNoEvents(q, opts.scopeRefresh);
    LendEvents(lend);
    NeutralSuffix(q.cleanup, q.farmsCleanup);
  }

  lemma TwoStepEvents(action: ActionType, ctx: Context, opts: Options, q: Plan, r: Plan)
    requires BetweenDone(action, ctx, opts, q, r)
    ensures Decided(action, ctx, opts)
    ensures var p := WithScope(r.(cleanup := r.farmsCleanup + r.cleanup), opts.scopeRefresh);
            && Events(p.BeforeCleanup()) == EventsBeforeCleanup(action, ctx, opts)
            && Events(p.Ixs()) == ExpectedEvents(action, ctx, opts)
  {
    hide Events, Support, GroupBefore, GroupAfter, Opened, SetupCall, ListedAtStart, RequestRefresh, RefreshRequest, Lends, DoesOf, InBetweenEvents, InBetweenCall,
      LendsAdded, ListsOf, RepaidToSkip, NeedsSupport;
    var p, lends := WithScope(r.(cleanup := r.farmsCleanup + r.cleanup), opts.scopeRefresh), Lends(action, ctx, opts);
    SetupListEvents(action, ctx, opts, q);
    InBetweenListEvents(action, ctx, opts, q, r);
    TwoStepLists(action, ctx, opts, q, r);
    IxsEvents(p);
    ScopeHasNoEvents(r.(cleanup := r.farmsCleanup + r.cleanup), opts.scopeRefresh);
    LendEvents(lends[0]);
    LendEvents(lends[1]);
    EventsAppend([lends[0]], r.inBetween);
    EventsAppend([lends[0]] + r.inBetween, [lends[1]]);
    NeutralSuffix(r.cleanup, r.farmsCleanup);
  }

  /** A finished plan names reserves and lends exactly as expected, in order. */
  lemma BuiltEvents(action: ActionType, given: Context, opts: Options)
    requires NeedsSupport(action) && Built(action, given, opts).Ok?
    ensures Initialized(action, given).Ok? && Decided(action, Initialized(action, given).value, opts)
    ensures var ctx, p := Initialized(action, given).value, Built(action, given, opts).value;
            && Events(p.BeforeCleanup()) == EventsBeforeCleanup(action, ctx, opts)
            && Events(p.Ixs()) == ExpectedEvents(action, ctx, opts)
  {
    hide Events, Built, ExpectedEvents, EventsBeforeCleanup, Decided, FinishedOneStep, SetupDone, BetweenDone;
    var ctx, q, r := BuiltInStages(action, given, opts);
    if TwoStep(action) { TwoStepEvents(action, ctx, opts, q, r); } else { OneStepEvents(action, ctx, opts, q); }
  }

  // ----- The obligation while a plan runs -----

  /** The keys in use, in slot order; a free slot holds the default key. */
  function Occupied(slots: seq<Pubkey>): seq<Pubkey> { Without(slots, [DefaultKey]) }

  /** The first free slot, or the number of slots. */
  function FirstFree(slots: seq<Pubkey>): (i: nat)
    ensures i <= |slots| && (i < |slots| ==> slots[i] == DefaultKey)
    ensures forall j :: 0 <= j < i ==> slots[j] != DefaultKey
  {
    if slots == [] || slots[0] == DefaultKey then 0 else 1 + FirstFree(slots[1..])
  }

  /** A key takes the first free slot unless it has one; without a free slot the program refuses, and nothing changes. */
  function Taken(slots: seq<Pubkey>, key: Pubkey): seq<Pubkey>
  {
    if key in slots || FirstFree(slots) == |slots| then slots else slots[FirstFree(slots) := key]
  }

  function Freed(slots: seq<Pubkey>, key: Pubkey): (r: seq<Pubkey>)
    ensures |r| == |slots| && forall i :: 0 <= i < |slots| ==> r[i] == if slots[i] == key then DefaultKey else slots[i]
  {
    seq(|slots|, i requires 0 <= i < |slots| => if slots[i] == key then DefaultKey else slots[i])
  }

  /** The slots of an obligation. */
  datatype Ledger = Ledger(deposits: seq<Pubkey>, borrows: seq<Pubkey>) {
    function Held(): Naming { Naming(Occupied(deposits), Occupied(borrows)) }
  }

  /** What the amounts amount to: the repayment clears the debt, the withdrawal uses up the deposit. */
  datatype Outcome = Outcome(repaid: bool, emptied: bool)

  function After(l: Ledger, e: Event, o: Outcome): Ledger
  {
    if !e.Does? || e.acting == [] then l
    else
      var r, last := e.acting[0], e.acting[|e.acting| - 1];
      match e.lending
      case DepositLiquidity => l.(deposits := Taken(l.deposits, r))
      case DepositObligationCollateral => l.(deposits := Taken(l.deposits, r))
      case BorrowLiquidity => l.(borrows := Taken(l.borrows, r))
      case RepayLiquidity => if o.repaid then l.(borrows := Freed(l.borrows, r)) else l
      case WithdrawCollateral => if o.emptied then l.(deposits := Freed(l.deposits, r)) else l
      case LiquidateObligation =>
        Ledger(if o.emptied then Freed(l.deposits, last) else l.deposits, if o.repaid then Freed(l.borrows, r) else l.borrows)
      case RepayAndWithdrawInOne =>
        Ledger(if o.emptied then Freed(l.deposits, last) else l.deposits, if o.repaid then Freed(l.borrows, r) else l.borrows)
      case _ => l
  }

  function AfterAll(l: Ledger, events: seq<Event>, o: Outcome): Ledger
  {
    if events == [] then l else After(AfterAll(l, events[..|events| - 1], o), events[|events| - 1], o)
  }

  /** Every naming is of exactly what the slots hold at its point, on each side and in slot order. */
  predicate Exact(l: Ledger, events: seq<Event>, o: Outcome)
  {
    events == [] ||
    (var init, e := events[..|events| - 1], events[|events| - 1];
     Exact(l, init, o) && (e.Names? ==> e.named == AfterAll(l, init, o).Held()))
  }

  lemma {:induction false} ExactAppend(l: Ledger, a: seq<Event>, b: seq<Event>, o: Outcome)
    ensures AfterAll(l, a + b, o) == AfterAll(AfterAll(l, a, o), b, o)
    ensures Exact(l, a + b, o) <==> Exact(l, a, o) && Exact(AfterAll(l, a, o), b, o)
  {
    hide After;
    if b == [] {
      assert a + b == a;
    } else {
      var n := |b| - 1;
      assert (a + b)[..|a| + n] == a + b[..n];
      ExactAppend(l, a, b[..n], o);
    }
  }

  lemma ExactOne(l: Ledger, e: Event, o: Outcome)
    ensures AfterAll(l, [e], o) == After(l, e, o)
    ensures Exact(l, [e], o) <==> (e.Names? ==> e.named == l.Held())
  {
    hide After, Occupied;
    assert [e][..0] == [];
    assert AfterAll(l, [], o) == l && Exact(l, [], o);
  }

  lemma ExactPair(l: Ledger, named: Naming, request: Option<nat>, o: Outcome)
    ensures AfterAll(l, RequestRefresh(named, request), o) == l && AfterAll(l, RefreshRequest(named, request), o) == l
    ensures Exact(l, RequestRefresh(named, request), o) <==> request.None? || named == l.Held()
    ensures Exact(l, RefreshRequest(named, request), o) <==> request.None? || named == l.Held()
  {
    hide Occupied;
    if request.Some? {
      var a, b := Names(named, None), Names(named, request);
      ExactOne(l, a, o);
      ExactOne(l, b, o);
      ExactAppend(l, [a], [b], o);
      ExactAppend(l, [b], [a], o);
      assert [a] + [b] == [a, b] && [b] + [a] == [b, a];
    }
  }

  // ----- Slots and lists -----

  lemma {:induction false} WithoutSplits(a: seq<Pubkey>, b: seq<Pubkey>, skip: seq<Pubkey>)
    ensures Without(a + b, skip) == Without(a, skip) + Without(b, skip)
  {
    hide Without;
    if b == [] {
      assert a + b == a;
      WithoutUnfolds([], skip);
    } else {
      var n := |b| - 1;
      assert (a + b)[..|a| + n] == a + b[..n];
      WithoutSplits(a, b[..n], skip);
      WithoutUnfolds(a + b, skip);
      WithoutUnfolds(b, skip);
    }
  }

  lemma WithoutUnfolds(keys: seq<Pubkey>, skip: seq<Pubkey>)
    ensures keys == [] ==> Without(keys, skip) == []
    ensures keys != [] ==>
              Without(keys, skip) == Without(keys[..|keys| - 1], skip) + if keys[|keys| - 1] in skip then [] else [keys[|keys| - 1]]
  {}

  lemma {:induction false} WithoutAbsent(keys: seq<Pubkey>, skip: seq<Pubkey>)
    requires forall k :: k in skip ==> k !in keys
    ensures Without(keys, skip) == keys
  {
    if keys != [] {
      var n := |keys| - 1;
      assert keys == keys[..n] + [keys[n]];
      WithoutAbsent(keys[..n], skip);
    }
  }

  /** Skipping a key changes a list exactly if it is there; skipping two keys alike needs them equal or both absent. */
  lemma SkipsAlikeIff(keys: seq<Pubkey>, a: Pubkey, b: Pubkey)
    ensures Without(keys, [a]) == keys <==> a !in keys
    ensures Without(keys, [a]) == Without(keys, [b]) <==> a == b || (a !in keys && b !in keys)
  {
    hide Without;
    if a !in keys { WithoutAbsent(keys, [a]); }
    if b !in keys { WithoutAbsent(keys, [b]); }
    assert a in keys && a != b ==> a in Without(keys, [b]) && a !in Without(keys, [a]);
    assert b in keys && a != b ==> b in Without(keys, [a]) && b !in Without(keys, [b]);
  }

  /** Freeing a key's slot drops the key from the list. */
  lemma {:induction false} FreedIsWithout(slots: seq<Pubkey>, key: Pubkey)
    ensures Occupied(Freed(slots, key)) == Without(Occupied(slots), [key])
  {
    hide Without;
    var freed := Freed(slots, key);
    WithoutUnfolds(slots, [DefaultKey]);
    WithoutUnfolds(freed, [DefaultKey]);
    WithoutUnfolds([], [key]);
    if slots == [] {
      assert freed == [];
    } else {
      var n := |slots| - 1;
      FreedIsWithout(slots[..n], key);
      assert freed[..n] == Freed(slots[..n], key);
      var last := if slots[n] == DefaultKey then [] else [slots[n]];
      WithoutSplits(Occupied(slots[..n]), last, [key]);
      WithoutUnfolds(last, [key]);
      assert [slots[n]][..0] == [];
    }
  }

  /** A free slot exists and every slot behind it is free. */
  predicate FreeAtEnd(slots: seq<Pubkey>)
  {
    var i := FirstFree(slots);
    i < |slots| && forall j :: i < j < |slots| ==> slots[j] == DefaultKey
  }

  lemma AllOccupied(slots: seq<Pubkey>)
    requires forall j :: 0 <= j < |slots| ==> slots[j] != DefaultKey
    ensures Occupied(slots) == slots
  {
    WithoutAbsent(slots, [DefaultKey]);
  }

  lemma {:induction false} NoneOccupiedIff(slots: seq<Pubkey>)
    ensures Occupied(slots) == [] <==> forall j :: 0 <= j < |slots| ==> slots[j] == DefaultKey
  {
    assert forall k :: k in Occupied(slots) <==> k in slots && k != DefaultKey;
    if Occupied(slots) == [] {
      forall j | 0 <= j < |slots| ensures slots[j] == DefaultKey { assert slots[j] in slots; }
    } else {
      assert Occupied(slots)[0] in Occupied(slots);
    }
  }

  lemma OccupiedAround(a: seq<Pubkey>, key: Pubkey, b: seq<Pubkey>)
    ensures Occupied(a + [key] + b) == Occupied(a) + (if key == DefaultKey then [] else [key]) + Occupied(b)
  {
    hide Without;
    WithoutSplits(a + [key], b, [DefaultKey]);
    WithoutSplits(a, [key], [DefaultKey]);
    WithoutUnfolds([key], [DefaultKey]);
    WithoutUnfolds([], [DefaultKey]);
    assert [key][..0] == [];
  }

  lemma MovesToTheEndIff(x: seq<Pubkey>, key: Pubkey, y: seq<Pubkey>)
    requires key !in y
    ensures x + [key] + y == x + y + [key] <==> y == []
  {
    if y != [] {
      assert (x + [key] + y)[|x|] == key && (x + y + [key])[|x|] == y[0];
    }
  }

  lemma FreeAtEndIff(slots: seq<Pubkey>)
    requires FirstFree(slots) < |slots|
    ensures FreeAtEnd(slots) <==> Occupied(slots[FirstFree(slots) + 1..]) == []
  {
    hide Occupied, FirstFree;
    var i := FirstFree(slots);
    var b := slots[i + 1..];
    NoneOccupiedIff(b);
    if forall j :: 0 <= j < |b| ==> b[j] == DefaultKey {
      forall j | i < j < |slots| ensures slots[j] == DefaultKey { assert slots[j] == b[j - i - 1]; }
    }
    if FreeAtEnd(slots) {
      forall j | 0 <= j < |b| ensures b[j] == DefaultKey { assert b[j] == slots[i + 1 + j]; }
    }
  }

  /** A new key is listed last exactly if the first free slot is behind all used ones. */
  lemma TakenIsLastIff(slots: seq<Pubkey>, key: Pubkey)
    requires key !in slots && key != DefaultKey
    ensures Occupied(Taken(slots, key)) == Occupied(slots) + [key] <==> FreeAtEnd(slots)
  {
    hide Occupied, FreeAtEnd, FirstFree;
    var i := FirstFree(slots);
    if i < |slots| {
      var a, b := slots[..i], slots[i + 1..];
      assert slots == a + [DefaultKey] + b && Taken(slots, key) == a + [key] + b;
      OccupiedAround(a, DefaultKey, b);
      OccupiedAround(a, key, b);
      ListedIffHeld(b, key);
      MovesToTheEndIff(Occupied(a), key, Occupied(b));
      FreeAtEndIff(slots);
      assert Occupied(a) + [] + Occupied(b) == Occupied(a) + Occupied(b);
    } else {
      NoFreeSlot(slots);
    }
  }

  lemma NoFreeSlot(slots: seq<Pubkey>)
    requires FirstFree(slots) == |slots|
    ensures !FreeAtEnd(slots)
  {}

  // ----- When a plan names what is held -----

  predicate RepaysInFull(ctx: Context)
  {
    && ctx.obligation.Some? && ctx.reserve.address in ctx.obligation.value.borrowAmounts
    && ctx.obligation.value.borrowAmounts[ctx.reserve.address] <= ctx.amount as real
  }

  /** The slots are as the builder has read them: what they hold is what it lists. */
  ghost predicate Matches(action: ActionType, ctx: Context, opts: Options, l: Ledger, o: Outcome)
  {
    l.Held() == ListedAtStart(action, ctx, opts) && Foreseen(action, ctx, o)
  }

  /** Reserves are not the default key, and a repayment clears the debt when the builder expects it to. */
  predicate Foreseen(action: ActionType, ctx: Context, o: Outcome)
  {
    && ctx.reserve.address != DefaultKey && (ctx.outflow.Some? ==> ctx.outflow.value.address != DefaultKey)
    && (action in {Repay, RepayAndWithdraw, RepayAndWithdrawV2} ==> o.repaid == RepaysInFull(ctx))
  }

  /**
   Between two lending steps: a first deposit is named last and must get the last slot in use; a
   debt repaid in full is no longer named, so its reserve must not be deposited too.
   */
  ghost predicate RightInBetween(action: ActionType, ctx: Context, l: Ledger, o: Outcome)
  {
    var r := ctx.reserve.address;
    && (action == DepositAndBorrow ==> r in l.deposits || FreeAtEnd(l.deposits))
    && (action == RepayAndWithdraw && o.repaid ==> r !in l.deposits)
  }

  /**
   The cleanup request names everything but the reserve of the position it takes for closed:
   right unless that reserve is also held on the other side, the position stays open, or another
   deposit is used up unannounced.
   */
  ghost predicate RightInCleanup(action: ActionType, ctx: Context, l: Ledger, o: Outcome)
    requires MultiToken(action) ==> ctx.outflow.Some?
  {
    var r := ctx.reserve.address;
    if action == Withdraw then
      if ctx.amount == U64_MAX then r !in l.borrows && (r in l.deposits ==> o.emptied) else r in l.deposits ==> !o.emptied
    else if action == Repay then r !in l.deposits
    else if action in {RepayAndWithdraw, RepayAndWithdrawV2} then
      var out := ctx.outflow.value.address;
      if o.emptied then out == r || (r !in l.deposits && out !in l.deposits) else r !in l.deposits
    else true
  }

  ghost predicate NamesRightly(action: ActionType, ctx: Context, opts: Options, l: Ledger, o: Outcome)
    requires Decided(action, ctx, opts)
  {
    && RightInBetween(action, ctx, l, o)
    && (GroupAfter(ctx, SetupCall(action, opts)).value.Some? ==> RightInCleanup(action, ctx, l, o))
  }

  /** The ledger after the first lending step, and after the last. */
  ghost function LedgerMidway(action: ActionType, ctx: Context, opts: Options, l: Ledger, o: Outcome): Ledger
    requires Decided(action, ctx, opts)
  {
    After(l, DoesOf(Lends(action, ctx, opts)[0]), o)
  }

  ghost function LedgerAtEnd(action: ActionType, ctx: Context, opts: Options, l: Ledger, o: Outcome): Ledger
    requires Decided(action, ctx, opts)
  {
    var m := LedgerMidway(action, ctx, opts, l, o);
    if TwoStep(action) then After(m, DoesOf(Lends(action, ctx, opts)[1]), o) else m
  }

  lemma SetupIsExact(action: ActionType, ctx: Context, opts: Options, l: Ledger, o: Outcome)
    requires Decided(action, ctx, opts) && Matches(action, ctx, opts, l, o)
    ensures Exact(l, SetupEvents(action, ctx, opts), o) && AfterAll(l, SetupEvents(action, ctx, opts), o) == l
  {
    hide Exact, AfterAll, GroupBefore, GroupAfter, ListedAtStart, Occupied;
    var held := ListedAtStart(action, ctx, opts);
    ExactOne(l, Names(held, None), o);
    ExactPair(l, held, GroupBefore(ctx, SetupCall(action, opts)).value, o);
    ExactAppend(l, [Names(held, None)], RequestRefresh(held, GroupBefore(ctx, SetupCall(action, opts)).value), o);
  }

  /** A key is in a slot exactly if it is listed. */
  lemma ListedIffHeld(slots: seq<Pubkey>, key: Pubkey)
    requires key != DefaultKey
    ensures key in Occupied(slots) <==> key in slots
  {}

  lemma InBetweenNamedIff(action: ActionType, ctx: Context, opts: Options, l: Ledger, o: Outcome)
    requires Decided(action, ctx, opts) && TwoStep(action) && Matches(action, ctx, opts, l, o)
    ensures Skipping(ListedInBetween(action, ctx, opts), RepaidToSkip(ctx, InBetweenCall(action, opts)).value)
            == LedgerMidway(action, ctx, opts, l, o).Held()
            <==> RightInBetween(action, ctx, l, o)
    ensures action == RepayAndWithdraw ==> GroupBefore(ctx, InBetweenCall(action, opts)).value.None?
    ensures action == DepositAndBorrow ==>
              Skipping(ListedInBetween(action, ctx, opts), RepaidToSkip(ctx, InBetweenCall(action, opts)).value)
              == ListedInBetween(action, ctx, opts)
  {
    hide Without, Occupied, ListedAtStart, GroupForBorrow, Taken, Freed;
    var r, listed := ctx.reserve.address, ListedAtStart(action, ctx, opts);
    ListedIffHeld(l.deposits, r);
    if action == DepositAndBorrow {
      SkippingNothing(ListedInBetween(action, ctx, opts));
      if r in l.deposits { TakenAgain(l.deposits, r); } else { TakenIsLastIff(l.deposits, r); }
    } else if o.repaid {
      FreedIsWithout(l.borrows, r);
      SkipsAlikeIff(listed.deposits, r, r);
    } else {
      SkippingNothing(listed);
    }
  }

  lemma TakenAgain(slots: seq<Pubkey>, key: Pubkey)
    requires key in slots
    ensures Taken(slots, key) == slots
  {}

  lemma InBetweenIsExactIff(action: ActionType, ctx: Context, opts: Options, l: Ledger, o: Outcome)
    requires Decided(action, ctx, opts) && TwoStep(action) && Matches(action, ctx, opts, l, o)
    ensures var m := LedgerMidway(action, ctx, opts, l, o);
            && AfterAll(m, InBetweenEvents(action, ctx, opts), o) == m
            && (Exact(m, InBetweenEvents(action, ctx, opts), o) <==> RightInBetween(action, ctx, l, o))
  {
    hide Exact, AfterAll, GroupAfter, GroupBefore, RepaidToSkip, RightInBetween, LedgerMidway, Skipping, ListedInBetween, Occupied, Matches, InBetweenCall;
    var m, held := LedgerMidway(action, ctx, opts, l, o), ListedInBetween(action, ctx, opts);
    var request := GroupBefore(ctx, InBetweenCall(action, opts)).value;
    var named := Skipping(held, RepaidToSkip(ctx, InBetweenCall(action, opts)).value);
    ExactOne(m, Names(named, None), o);
    ExactPair(m, held, request, o);
    ExactAppend(m, [Names(named, None)], RequestRefresh(held, request), o);
    InBetweenNamedIff(action, ctx, opts, l, o);
  }

  /** Plans with a request behind them end with what they withdrew and repaid. */
  lemma EndOfRequestingPlan(action: ActionType, ctx: Context, opts: Options, l: Ledger, o: Outcome)
    requires Decided(action, ctx, opts) && Matches(action, ctx, opts, l, o)
    requires GroupAfter(ctx, SetupCall(action, opts)).value.Some?
    ensures action in {Withdraw, Repay, RepayAndWithdraw, RepayAndWithdrawV2} && (MultiToken(action) ==> ctx.outflow.Some?)
    ensures var r, end := ctx.reserve.address, LedgerAtEnd(action, ctx, opts, l, o);
            if action == Withdraw then end == if o.emptied then l.(deposits := Freed(l.deposits, r)) else l
            else if action == Repay then end == l.(borrows := Freed(l.borrows, r))
            else end == Ledger(if o.emptied then Freed(l.deposits, ctx.outflow.value.address) else l.deposits, Freed(l.borrows, r))
    ensures SkippedAfter(ctx, SetupCall(action, opts)) == if action == Withdraw && ctx.amount != U64_MAX then [] else [ctx.reserve.address]
  {
    hide Without, Occupied, ListedAtStart, GroupBefore, Taken, Freed;
  }

  lemma NamedInCleanupIff(action: ActionType, ctx: Context, opts: Options, l: Ledger, o: Outcome)
    requires Decided(action, ctx, opts) && Matches(action, ctx, opts, l, o)
    requires GroupAfter(ctx, SetupCall(action, opts)).value.Some?
    ensures Skipping(ListedAtStart(action, ctx, opts), SkippedAfter(ctx, SetupCall(action, opts)))
            == LedgerAtEnd(action, ctx, opts, l, o).Held()
            <==> RightInCleanup(action, ctx, l, o)
  {
    hide Without, Occupied, ListedAtStart, GroupBefore, Taken, Freed, Decided;
    var r, listed := ctx.reserve.address, ListedAtStart(action, ctx, opts);
    EndOfRequestingPlan(action, ctx, opts, l, o);
    ListedIffHeld(l.deposits, r);
    ListedIffHeld(l.borrows, r);
    SkippingNothing(listed);
    FreedIsWithout(l.deposits, r);
    FreedIsWithout(l.borrows, r);
    SkipsAlikeIff(listed.borrows, r, r);
    if action in {RepayAndWithdraw, RepayAndWithdrawV2} {
      var out := ctx.outflow.value.address;
      FreedIsWithout(l.deposits, out);
      SkipsAlikeIff(listed.deposits, r, out);
      ListedIffHeld(l.deposits, out);
    } else {
      SkipsAlikeIff(listed.deposits, r, r);
    }
  }

  lemma CleanupIsExactIff(action: ActionType, ctx: Context, opts: Options, l: Ledger, o: Outcome)
    requires Decided(action, ctx, opts) && Matches(action, ctx, opts, l, o)
    ensures var end := LedgerAtEnd(action, ctx, opts, l, o);
            && AfterAll(end, CleanupEvents(action, ctx, opts), o) == end
            && (Exact(end, CleanupEvents(action, ctx, opts), o) <==>
                (GroupAfter(ctx, SetupCall(action, opts)).value.Some? ==> RightInCleanup(action, ctx, l, o)))
  {
    hide Exact, AfterAll, GroupBefore, GroupAfter, LedgerAtEnd, RightInCleanup, Skipping, ListedAtStart, SkippedAfter, Occupied, Matches, SetupCall;
    var end, after := LedgerAtEnd(action, ctx, opts, l, o), GroupAfter(ctx, SetupCall(action, opts)).value;
    ExactPair(end, Skipping(ListedAtStart(action, ctx, opts), SkippedAfter(ctx, SetupCall(action, opts))), after, o);
    if after.Some? { NamedInCleanupIff(action, ctx, opts, l, o); }
  }

  lemma LendIsExact(l: Ledger, lend: Ix, o: Outcome)
    requires lend.Lend?
    ensures Exact(l, [DoesOf(lend)], o) && AfterAll(l, [DoesOf(lend)], o) == After(l, DoesOf(lend), o)
  {
    hide Exact, AfterAll, After;
    ExactOne(l, DoesOf(lend), o);
  }

  lemma ExpectedIsExactIff(action: ActionType, ctx: Context, opts: Options, l: Ledger, o: Outcome)
    requires Decided(action, ctx, opts) && Matches(action, ctx, opts, l, o)
    ensures var events := ExpectedEvents(action, ctx, opts);
            && AfterAll(l, events, o) == LedgerAtEnd(action, ctx, opts, l, o)
            && (Exact(l, events, o) <==> NamesRightly(action, ctx, opts, l, o))
  {
    hide Exact, AfterAll, GroupBefore, GroupAfter, SetupEvents, InBetweenEvents, CleanupEvents, After, DoesOf, Lends,
      RightInBetween, RightInCleanup, SetupCall, InBetweenCall, Matches, RepaidToSkip;
    var lends := Lends(action, ctx, opts);
    var setup, cleanup := SetupEvents(action, ctx, opts), CleanupEvents(action, ctx, opts);
    var first := setup + [DoesOf(lends[0])];
    SetupIsExact(action, ctx, opts, l, o);
    LendIsExact(l, lends[0], o);
    ExactAppend(l, setup, [DoesOf(lends[0])], o);
    CleanupIsExactIff(action, ctx, opts, l, o);
    if TwoStep(action) {
      var mid, between := LedgerMidway(action, ctx, opts, l, o), InBetweenEvents(action, ctx, opts);
      InBetweenIsExactIff(action, ctx, opts, l, o);
      LendIsExact(mid, lends[1], o);
      ExactAppend(mid, between, [DoesOf(lends[1])], o);
      ExactAppend(l, first, between + [DoesOf(lends[1])], o);
      ExactAppend(l, first + (between + [DoesOf(lends[1])]), cleanup, o);
    } else {
      OneStepHasNoBetween(action, ctx, l, o);
      assert first + [] == first;
      ExactAppend(l, first, cleanup, o);
    }
  }

  lemma OneStepHasNoBetween(action: ActionType, ctx: Context, l: Ledger, o: Outcome)
    requires !TwoStep(action)
    ensures RightInBetween(action, ctx, l, o)
  {}

  /**
   Every obligation refresh and group request of a finished plan names exactly the reserves in
   the obligation's slots at its point, deposits and borrows each in slot order, if and only if a
   first deposit gets the last slot in use, no closed position's reserve is still held on the
   other side, and no deposit is closed or kept against what the cleanup assumes.
   */
  lemma PlanNamesWhatIsHeldIff(action: ActionType, given: Context, opts: Options, l: Ledger, o: Outcome)
    requires NeedsSupport(action) && Built(action, given, opts).Ok?
    requires Initialized(action, given).Ok? && Matches(action, Initialized(action, given).value, opts, l, o)
    ensures Decided(action, Initialized(action, given).value, opts)
    ensures var ctx := Initialized(action, given).value;
            var events := Events(Built(action, given, opts).value.Ixs());
            && AfterAll(l, events, o) == LedgerAtEnd(action, ctx, opts, l, o)
            && (Exact(l, events, o) <==> NamesRightly(action, ctx, opts, l, o))
  {
    hide Events, Built, Exact, AfterAll, GroupBefore, GroupAfter, ExpectedEvents, After, DoesOf, Lends, Decided, Matches,
      RightInBetween, RightInCleanup, SetupCall, InBetweenCall;
    BuiltEvents(action, given, opts);
    ExpectedIsExactIff(action, Initialized(action, given).value, opts, l, o);
  }

  /** The first thing a plan names is what the builder takes to be held at the start. */
  lemma PlanNamesTheStart(action: ActionType, given: Context, opts: Options, l: Ledger, o: Outcome)
    requires NeedsSupport(action) && Built(action, given, opts).Ok?
    requires Exact(l, Events(Built(action, given, opts).value.Ixs()), o)
    ensures Initialized(action, given).Ok? && l.Held() == ListedAtStart(action, Initialized(action, given).value, opts)
  {
    hide Events, Built, Exact, AfterAll, GroupBefore, GroupAfter, After, DoesOf, Lends, SetupCall, InBetweenCall, InBetweenEvents, CleanupEvents,
      ListedAtStart, Occupied;
    BuiltEvents(action, given, opts);
    var ctx := Initialized(action, given).value;
    var first, events := Names(ListedAtStart(action, ctx, opts), None), ExpectedEvents(action, ctx, opts);
    assert events[0] == first;
    assert events == [first] + events[1..];
    ExactAppend(l, [first], events[1..], o);
    ExactOne(l, first, o);
  }

  // ----- Plans that misname -----

  /** A withdrawal from an obligation that holds one reserve on both sides. */
  function BothSides(r: ReserveView, amount: nat): Context
  {
    Context(SmallMarket(r), r, None, Some(ObligationView([r.address], [r.address], map[], 0)), amount, {})
  }

  lemma BothSidesMatch(r: ReserveView, amount: nat, o: Outcome)
    requires r.address != DefaultKey
    ensures var ctx, opts, l := BothSides(r, amount), RequestBehind(1), Ledger([r.address], [r.address]);
            Built(Withdraw, ctx, opts).Ok? && Initialized(Withdraw, ctx) == Ok(ctx) && Matches(Withdraw, ctx, opts, l, o)
  {
    hide Built;
    var ctx, opts := BothSides(r, amount), RequestBehind(1);
    assert ctx.market.reserves[0].address == r.address;
    DepositOrWithdrawIsPlanned(Withdraw, ctx, opts);
    AllOccupied([r.address]);
  }

  /** Closing the deposit leaves the reserve out on the borrow side, where it is still held. */
  lemma BorrowedSourceIsLeftOut(r: ReserveView)
    requires r.address != DefaultKey
    ensures var ctx, opts, o := BothSides(r, U64_MAX), RequestBehind(1), Outcome(false, true);
            && Built(Withdraw, ctx, opts).Ok?
            && !Exact(Ledger([r.address], [r.address]), Events(Built(Withdraw, ctx, opts).value.Ixs()), o)
  {
    hide Built, Events, Exact, AfterAll;
    var o := Outcome(false, true);
    BothSidesMatch(r, U64_MAX, o);
    PlanNamesWhatIsHeldIff(Withdraw, BothSides(r, U64_MAX), RequestBehind(1), Ledger([r.address], [r.address]), o);
  }

  /** Using up the deposit with a smaller amount keeps naming it as a deposit, also when the reserve is borrowed. */
  lemma UsedUpDepositIsNamed(r: ReserveView)
    requires r.address != DefaultKey
    ensures var ctx, opts, o := BothSides(r, 5), RequestBehind(1), Outcome(false, true);
            && Built(Withdraw, ctx, opts).Ok?
            && !Exact(Ledger([r.address], [r.address]), Events(Built(Withdraw, ctx, opts).value.Ixs()), o)
  {
    hide Built, Events, Exact, AfterAll;
    var o := Outcome(false, true);
    BothSidesMatch(r, 5, o);
    PlanNamesWhatIsHeldIff(Withdraw, BothSides(r, 5), RequestBehind(1), Ledger([r.address], [r.address]), o);
  }
}
