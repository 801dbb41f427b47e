/**
 The collateral swap: flash-borrow the target, deposit it (dropping the elevation group if it
 has to), withdraw the source, request the wanted group, swap outside, repay.
 */
module SwapCollateral {
  import opened Reals
  import opened Wrappers
  import opened Markets
  import opened Fees
  import opened Plans
  import opened Supports
  import opened ActionPlans
  import opened ActionTypes
  import opened ActionBuilder
  import L = Ledgers
  import P = Programs
  import opened Movements

  datatype SwapIx =
    | ScopeRefresh(tag: nat)
    | Budget(tag: nat)
    | CreateAta(reserve: Pubkey)
    | FlashBorrow(reserve: Pubkey, amount: nat)
    | Klend(ix: Ix)
    | ExternalSwap(tag: nat)
    | FlashRepay(reserve: Pubkey, amount: nat, borrowIndex: nat)
    | CloseWsolAta

  /** The inputs; each token is identified with its reserve, and the comparison of the resulting LTV is given. */
  datatype Swap = Swap(
    market: Market,
    obligation: ObligationView,
    source: Pubkey,
    target: Pubkey,
    sourceCollSwapAmount: real,
    isClosingSourceColl: bool,
    newElevationGroup: nat,
    flashLoanFee: real,
    referralFeeBps: nat,
    hasReferrer: bool,
    priceAInB: real,
    useV2Ixs: bool,
    missingFarms: set<(Pubkey, FarmKind)>,
    scopeRefreshIxns: seq<nat>,
    budgetIxns: seq<nat>,
    externalIxns: seq<nat>,
    touchesWsol: bool,
    withinMaxLtv: bool)

  datatype KlendIxns = KlendIxns(
    setup: seq<SwapIx>,
    flashBorrow: SwapIx,
    deposit: seq<Ix>,
    withdraw: seq<Ix>,
    flashRepay: SwapIx,
    cleanup: seq<SwapIx>)

  // ----- Decisions -----

  function ExistingReserve(market: Market, key: Pubkey): (r: Result<ReserveView>)
    ensures r.Ok? ==> r.value in market.reserves && r.value.address == key
  {
    match ReserveByAddress(market.reserves, key)
    case None => Err("reserve not found in market")
    case Some(reserve) => Ok(reserve)
  }

  /** The description of a group, none for the default group. */
  function ExistingElevationGroup(ds: seq<GroupDescription>, group: nat): (r: Result<Option<GroupDescription>>)
    ensures r.Ok? && group != 0 ==> r.value.Some? && r.value.value in ds && r.value.value.elevationGroup == group
    ensures r.Ok? && group == 0 ==> r.value.None?
    ensures r.Err? ==> forall i :: 0 <= i < |ds| ==> ds[i].elevationGroup != group
  {
    if group == 0 then Ok(None)
    else if ds == [] then Err("elevation group not found in market")
    else if ds[0].elevationGroup == group then Ok(Some(ds[0]))
    else
      assert forall i :: 0 < i < |ds| ==> ds[i] == ds[1..][i - 1];
      ExistingElevationGroup(ds[1..], group)
  }

  /** Whether the group has to be dropped before the target can be deposited. */
  function MustRemoveElevationGroupBeforeDeposit(s: Swap, target: ReserveView): Result<bool>
  {
    var current := s.obligation.elevationGroup;
    if s.target in s.obligation.deposits || current == 0 then Ok(false)
    else if current !in target.elevationGroups then Ok(true)
    else
      match ElevationGroupAt(s.market, current)
      case None => Err("elevation group is undefined")
      case Some(g) => Ok(|s.obligation.deposits| >= g.maxReservesAsCollateral)
  }

  function ElevationGroupToRequestAfterWithdraw(s: Swap, depositRemoved: bool): Option<nat>
  {
    if s.newElevationGroup == 0 then
      if s.obligation.elevationGroup == 0 || depositRemoved then None else Some(0)
    else if depositRemoved then Some(s.newElevationGroup)
    else if s.obligation.elevationGroup == s.newElevationGroup then None
    else Some(s.newElevationGroup)
  }

  /** A duplicate-free list without one key. */
  function Removed(keys: seq<Pubkey>, key: Pubkey): (r: seq<Pubkey>)
    requires NoDuplicates(keys)
    ensures NoDuplicates(r) && forall k :: k in r <==> k in keys && k != key
  {
    if keys == [] then []
    else
      assert keys == [keys[0]] + keys[1..];
      assert keys[0] !in keys[1..];
      if keys[0] == key then keys[1..]
      else
        var rest := Removed(keys[1..], key);
        assert forall i :: 0 <= i < |rest| ==> rest[i] in rest && rest[i] != keys[0];
        [keys[0]] + rest
  }

  /** The collaterals expected after the swap, each once. */
  function ResultingCollaterals(s: Swap): (r: seq<Pubkey>)
    ensures NoDuplicates(r)
    ensures forall k :: k in r <==> (k in s.obligation.deposits || k == s.target) && !(s.isClosingSourceColl && k == s.source)
  {
    var all := Unique(s.obligation.deposits + [s.target]);
    if s.isClosingSourceColl then Removed(all, s.source) else all
  }

  ghost predicate ResultAllowedBy(s: Swap, d: GroupDescription)
  {
    && |s.obligation.borrows| <= 1
    && (forall k :: k in s.obligation.borrows ==> k == d.debtReserve)
    && |ResultingCollaterals(s)| <= d.maxReservesAsCollateral
    && forall k :: k in ResultingCollaterals(s) ==> k in d.collateralReserves
  }

  /** The check of the group part of the expected result. */
  method CheckResultingObligationValid(s: Swap, group: Option<GroupDescription>) returns (ok: bool)
    ensures ok <==> group.None? || ResultAllowedBy(s, group.value)
  {
    if group.Some? {
      var d := group.value;
      if |s.obligation.borrows| > 1 {
        return false;
      }
      if |s.obligation.borrows| == 1 && d.debtReserve != s.obligation.borrows[0] {
        assert s.obligation.borrows[0] in s.obligation.borrows;
        return false;
      }
      var colls := Unique(s.obligation.deposits + [s.target]);
      if s.isClosingSourceColl {
        colls := Removed(colls, s.source);
      }
      if |colls| > d.maxReservesAsCollateral {
        return false;
      }
      for i := 0 to |colls|
        invariant forall j :: 0 <= j < i ==> colls[j] in d.collateralReserves
      {
        if colls[i] !in d.collateralReserves {
          assert colls[i] in ResultingCollaterals(s);
          return false;
        }
      }
    }
    return true;
  }

  // ----- Plans -----

  function DepositContext(s: Swap, target: ReserveView, lamports: nat): Context
  {
    Context(s.market, target, None, Some(s.obligation), lamports, s.missingFarms)
  }

  function WithdrawContext(s: Swap, source: ReserveView, lamports: nat): Context
  {
    Context(s.market, source, None, Some(s.obligation), lamports, s.missingFarms)
  }

  function DepositOptions(s: Swap, removes: bool): Options
  {
    Options(0, None, Atas([], []), removes, false, false, s.useV2Ixs, false,
      if removes then Some(0) else None, [], false, 0)
  }

  function WithdrawOptions(s: Swap, requested: Option<nat>): Options
  {
    Options(0, None, Atas([], []), requested.Some?, false, false, s.useV2Ixs, false,
      requested, if s.target in s.obligation.deposits then [] else [s.target], false, 0)
  }

  /** An amount of lamports; negative ones cannot be encoded. */
  function Lamports(tokens: real, mintFactor: real): Result<nat>
  {
    var n := Floor(Mul(tokens, mintFactor));
    if n < 0 then Err("negative amount") else Ok(n)
  }

  function WithdrawnLamports(s: Swap, source: ReserveView): Result<nat>
  {
    if s.isClosingSourceColl then Ok(U64_MAX) else Lamports(s.sourceCollSwapAmount, source.mintFactor)
  }

  /** The flash-borrowed lamports for a swap-out amount. */
  function BorrowedLamports(s: Swap, target: ReserveView, swapOut: real): Result<nat>
  {
    var tokens :- TargetCollFlashBorrowedAmount(swapOut, target.mintFactor, s.flashLoanFee, s.referralFeeBps, s.hasReferrer);
    Lamports(tokens, target.mintFactor)
  }

  /** The two lending plans of the swap with what they were built from. */
  datatype Parts = Parts(
    source: ReserveView, target: ReserveView, borrowed: nat, withdrawn: nat, collateral: nat, removes: bool,
    deposit: Plan, withdraw: Plan)

  function PartsOf(s: Swap, swapOut: real): Result<Parts>
  {
    var source :- ExistingReserve(s.market, s.source);
    var target :- ExistingReserve(s.market, s.target);
    var borrowed :- BorrowedLamports(s, target, swapOut);
    var withdrawn :- WithdrawnLamports(s, source);
    var removes :- MustRemoveElevationGroupBeforeDeposit(s, target);
    var deposit :- Built(Deposit, DepositContext(s, target, borrowed), DepositOptions(s, removes));
    var withdraw :- Built(Withdraw, WithdrawContext(s, source, withdrawn),
      WithdrawOptions(s, ElevationGroupToRequestAfterWithdraw(s, removes)));
    Ok(Parts(source, target, borrowed, withdrawn, CollateralFor(source, withdrawn), removes, deposit, withdraw))
  }

  function SetupIxns(s: Swap): seq<SwapIx>
  {
    seq(|s.scopeRefreshIxns|, i requires 0 <= i < |s.scopeRefreshIxns| => ScopeRefresh(s.scopeRefreshIxns[i]))
    + seq(|s.budgetIxns|, i requires 0 <= i < |s.budgetIxns| => Budget(s.budgetIxns[i]))
    + [CreateAta(s.source), CreateAta(s.target)]
  }

  function KlendIxnsOf(s: Swap, parts: Parts): KlendIxns
  {
    KlendIxns(SetupIxns(s), FlashBorrow(s.target, parts.borrowed), parts.deposit.Ixs(), parts.withdraw.Ixs(),
      FlashRepay(s.target, parts.borrowed, |SetupIxns(s)|), if s.touchesWsol then [CloseWsolAta] else [])
  }

  function Wrapped(ixs: seq<Ix>): seq<SwapIx>
  {
    seq(|ixs|, i requires 0 <= i < |ixs| => Klend(ixs[i]))
  }

  function ExternalIxns(s: Swap): seq<SwapIx>
  {
    seq(|s.externalIxns|, i requires 0 <= i < |s.externalIxns| => ExternalSwap(s.externalIxns[i]))
  }

  function ListIxns(k: KlendIxns, external: seq<SwapIx>): seq<SwapIx>
  {
    k.setup + [k.flashBorrow] + Wrapped(k.deposit) + Wrapped(k.withdraw) + external + [k.flashRepay] + k.cleanup
  }

  /** What the swap lists for given parts. */
  function SwapList(s: Swap, parts: Parts): seq<SwapIx> { ListIxns(KlendIxnsOf(s, parts), ExternalIxns(s)) }

  function SwapOut(s: Swap): real { Mul(s.priceAInB, s.sourceCollSwapAmount) }

  const FAKE_TARGET_COLL_SWAP_OUT_AMOUNT: real := 1.0

  method BuildIxs(action: ActionType, ctx: Context, opts: Options) returns (r: Result<seq<Ix>>)
    requires NeedsSupport(action)
    ensures r.Ok? <==> Built(action, ctx, opts).Ok?
    ensures r.Ok? ==> r.value == Built(action, ctx, opts).value.Ixs()
  {
    var axn := KaminoAction.Build(action, ctx, opts);
    if axn.Err? {
      return Err(axn.error);
    }
    var ixs, _ := axn.value.ActionToIxs();
    return Ok(ixs);
  }

  method GetKlendIxns(s: Swap, swapOut: real) returns (r: Result<KlendIxns>)
    ensures r.Ok? <==> PartsOf(s, swapOut).Ok?
    ensures r.Ok? ==> r.value == KlendIxnsOf(s, PartsOf(s, swapOut).value)
  {
    hide Built, TargetCollFlashBorrowedAmount, MustRemoveElevationGroupBeforeDeposit, ElevationGroupToRequestAfterWithdraw;
    var source :- ExistingReserve(s.market, s.source);
    var target :- ExistingReserve(s.market, s.target);
    var setup := seq(|s.budgetIxns|, i requires 0 <= i < |s.budgetIxns| => Budget(s.budgetIxns[i]))
      + [CreateAta(s.source), CreateAta(s.target)];
    var scope := seq(|s.scopeRefreshIxns|, i requires 0 <= i < |s.scopeRefreshIxns| => ScopeRefresh(s.scopeRefreshIxns[i]));
    setup := scope + setup;
    assert setup == SetupIxns(s);
    var borrowed :- BorrowedLamports(s, target, swapOut);
    var flashBorrow, flashRepay := FlashBorrow(s.target, borrowed), FlashRepay(s.target, borrowed, |setup|);
    var removes :- MustRemoveElevationGroupBeforeDeposit(s, target);
    var deposit :- BuildIxs(Deposit, DepositContext(s, target, borrowed), DepositOptions(s, removes));
    var withdrawn :- WithdrawnLamports(s, source);
    var requested := ElevationGroupToRequestAfterWithdraw(s, removes);
    var withdraw :- BuildIxs(Withdraw, WithdrawContext(s, source, withdrawn), WithdrawOptions(s, requested));
    var cleanup := [];
    if s.touchesWsol {
      cleanup := cleanup + [CloseWsolAta];
    }
    return Ok(KlendIxns(setup, flashBorrow, deposit, withdraw, flashRepay, cleanup));
  }

  /** The inputs the swap takes on. */
  predicate Sound(s: Swap) { s.source != s.target && s.sourceCollSwapAmount > 0.0 }

  /** The requested group exists in the market's descriptions and allows the expected result. */
  ghost predicate Accepted(s: Swap, ds: seq<GroupDescription>)
  {
    && Filed(s.market.elevationGroups, s.market.reserves, ds)
    && (forall j :: 0 <= j < |s.market.reserves| ==> !NamesUnknownGroup(s.market.reserves[j], |ds|))
    && var group := ExistingElevationGroup(ds, s.newElevationGroup);
       group.Ok? && (group.value.Some? ==> ResultAllowedBy(s, group.value.value))
  }

  /** The descriptions differ at most in the order of their collaterals, so the check does not depend on it. */
  lemma {:induction false} SameGroupFound(a: seq<GroupDescription>, b: seq<GroupDescription>, group: nat)
    requires |a| == |b|
    requires forall i :: 0 <= i < |a| ==> SameDescription(a[i], b[i])
    ensures var x, y := ExistingElevationGroup(a, group), ExistingElevationGroup(b, group);
            x.Ok? == y.Ok? && (x.Ok? && x.value.Some? ==> y.value.Some? && SameDescription(x.value.value, y.value.value))
  {
    if group != 0 && a != [] && a[0].elevationGroup != group {
      var c, d := a[1..], b[1..];
      forall i | 0 <= i < |c| ensures SameDescription(c[i], d[i]) { assert SameDescription(a[i + 1], b[i + 1]); }
      SameGroupFound(a[1..], b[1..], group);
    }
  }

  ghost predicate SameDescription(d: GroupDescription, e: GroupDescription)
  {
    && d == e.(collateralReserves := d.collateralReserves)
    && forall k :: k in d.collateralReserves <==> k in e.collateralReserves
  }

  lemma AcceptedIsDetermined(s: Swap, ds: seq<GroupDescription>, other: seq<GroupDescription>)
    requires Accepted(s, other) && Filed(s.market.elevationGroups, s.market.reserves, ds)
    ensures Accepted(s, ds)
  {
    hide EmptyDescriptions;
    forall i | 0 <= i < |ds| ensures SameDescription(other[i], ds[i]) {
      assert FiledAt(s.market.reserves, other[i], i) && FiledAt(s.market.reserves, ds[i], i);
    }
    SameGroupFound(other, ds, s.newElevationGroup);
  }

  ghost predicate SomeAccepted(s: Swap) { exists ds :: Accepted(s, ds) }

  method GetSwapCollIxns(s: Swap) returns (r: Result<seq<SwapIx>>)
    ensures r.Ok? <==>
            && Sound(s) && (s.newElevationGroup != 0 ==> SomeAccepted(s)) && s.withinMaxLtv
            && PartsOf(s, FAKE_TARGET_COLL_SWAP_OUT_AMOUNT).Ok? && PartsOf(s, SwapOut(s)).Ok?
    ensures r.Ok? ==>
              var parts := PartsOf(s, SwapOut(s)).value;
              && r.value == SwapList(s, parts)
              && SwapTakenAsPlanned(s, parts, r.value)
  {
    hide PartsOf, SwapTakenAsPlanned, KlendIxnsOf, ResultAllowedBy, Filed, NamesUnknownGroup, EmptyDescriptions;
    if s.source == s.target {
      return Err("Cannot swap from/to the same collateral");
    }
    if s.sourceCollSwapAmount <= 0.0 {
      return Err("Cannot swap a negative amount");
    }
    var group := None;
    if s.newElevationGroup != 0 {
      var descriptions := GetMarketElevationGroupDescriptions(s.market);
      if descriptions.Err? {
        UnknownGroupIsNeverAccepted(s);
        return Err(descriptions.error);
      }
      var ds := descriptions.value;
      AcceptedByTheseIff(s, ds);
      group :- ExistingElevationGroup(ds, s.newElevationGroup);
      assert SomeAccepted(s) <==> ResultAllowedBy(s, group.value);
    }
    var _ :- GetKlendIxns(s, FAKE_TARGET_COLL_SWAP_OUT_AMOUNT);
    var ok := CheckResultingObligationValid(s, group);
    if !ok {
      return Err("the obligation cannot request the elevation group");
    }
    if !s.withinMaxLtv {
      return Err("the obligation's LTV would exceed its max LTV");
    }
    var klend :- GetKlendIxns(s, SwapOut(s));
    SwapIsTakenAsPlanned(s, SwapOut(s));
    return Ok(ListIxns(klend, ExternalIxns(s)));
  }

  lemma AcceptedByTheseIff(s: Swap, ds: seq<GroupDescription>)
    requires Filed(s.market.elevationGroups, s.market.reserves, ds) && s.newElevationGroup != 0
    requires forall j :: 0 <= j < |s.market.reserves| ==>
               !NamesUnknownGroup(s.market.reserves[j], |EmptyDescriptions(s.market.elevationGroups)|)
    ensures var group := ExistingElevationGroup(ds, s.newElevationGroup);
            SomeAccepted(s) <==> group.Ok? && ResultAllowedBy(s, group.value.value)
  {
    hide ResultAllowedBy, NamesUnknownGroup, EmptyDescriptions, FiledAt;
    if SomeAccepted(s) {
      var other :| Accepted(s, other);
      AcceptedIsDetermined(s, ds, other);
    }
    assert Accepted(s, ds) ==> SomeAccepted(s);
  }

  lemma UnknownGroupIsNeverAccepted(s: Swap)
    requires exists j :: 0 <= j < |s.market.reserves| &&
               NamesUnknownGroup(s.market.reserves[j], |EmptyDescriptions(s.market.elevationGroups)|)
    ensures !SomeAccepted(s)
  {
    hide ResultAllowedBy, NamesUnknownGroup, EmptyDescriptions, FiledAt;
  }

  // ----- The list -----

  /** The flash repay names the position of the one flash borrow, of the same amount of the same reserve, before it. */
  lemma FlashRepayNamesTheBorrow(s: Swap, parts: Parts, i: nat)
    requires i < |SwapList(s, parts)|
    ensures var list := SwapList(s, parts);
            var at := |SetupIxns(s)|;
            && (list[i].FlashBorrow? <==> i == at)
            && (list[i].FlashRepay? ==> list[i].borrowIndex == at < i && list[at] == FlashBorrow(list[i].reserve, list[i].amount))
            && (list[i].FlashRepay? <==> i == |list| - 1 - if s.touchesWsol then 1 else 0)
  {
    var list, k := SwapList(s, parts), KlendIxnsOf(s, parts);
    var front := k.setup + [k.flashBorrow];
    var middle := Wrapped(k.deposit) + Wrapped(k.withdraw) + ExternalIxns(s);
    assert list == front + middle + ([k.flashRepay] + k.cleanup);
    assert list[|k.setup|] == front[|k.setup|] == k.flashBorrow;
  }

  /** Lending steps run on the borrowed amount, the outside swap follows them, and the repayment comes last. */
  lemma StepsAreInOrder(s: Swap, parts: Parts, i: nat, j: nat)
    requires i < |SwapList(s, parts)| && j < |SwapList(s, parts)|
    ensures var list := SwapList(s, parts);
            var last := |list| - 1 - if s.touchesWsol then 1 else 0;
            && list[|SetupIxns(s)|].FlashBorrow? && list[last].FlashRepay?
            && (list[i].Klend? && list[j].ExternalSwap? ==> |SetupIxns(s)| < i < j < last)
            && (list[i].Klend? || list[i].ExternalSwap? ==> |SetupIxns(s)| < i < last)
  {
    hide SetupIxns;
    SetupHasNoSteps(s);
    var list, k := SwapList(s, parts), KlendIxnsOf(s, parts);
    var front, steps := k.setup + [k.flashBorrow], Wrapped(k.deposit) + Wrapped(k.withdraw);
    var back := [k.flashRepay] + k.cleanup;
    assert list == front + steps + ExternalIxns(s) + back;
    assert forall n :: 0 <= n < |steps| ==> steps[n].Klend?;
    assert forall n :: 0 <= n < |ExternalIxns(s)| ==> ExternalIxns(s)[n].ExternalSwap?;
    assert list[|k.setup|] == k.flashBorrow;
  }

  lemma SetupHasNoSteps(s: Swap)
    ensures forall n :: 0 <= n < |SetupIxns(s)| ==> !SetupIxns(s)[n].Klend? && !SetupIxns(s)[n].ExternalSwap?
  {}

  /** The lending program's own steps of a list. */
  function KlendSteps(list: seq<SwapIx>): seq<Ix>
  {
    if list == [] then []
    else KlendSteps(list[..|list| - 1]) + if list[|list| - 1].Klend? then [list[|list| - 1].ix] else []
  }

  lemma {:induction false} KlendStepsAppend(a: seq<SwapIx>, b: seq<SwapIx>)
    ensures KlendSteps(a + b) == KlendSteps(a) + KlendSteps(b)
  {
    if b == [] {
      assert a + b == a;
    } else {
      var n := |b| - 1;
      assert (a + b)[..|a| + n] == a + b[..n];
      KlendStepsAppend(a, b[..n]);
    }
  }

  lemma {:induction false} NoKlendSteps(list: seq<SwapIx>)
    requires forall i :: 0 <= i < |list| ==> !list[i].Klend?
    ensures KlendSteps(list) == []
  {
    if list != [] { NoKlendSteps(list[..|list| - 1]); }
  }

  lemma {:induction false} KlendStepsOfWrapped(ixs: seq<Ix>)
    ensures KlendSteps(Wrapped(ixs)) == ixs
  {
    if ixs != [] {
      var n := |ixs| - 1;
      assert Wrapped(ixs)[..n] == Wrapped(ixs[..n]);
      KlendStepsOfWrapped(ixs[..n]);
    }
  }

  lemma KlendStepsOfSwap(s: Swap, parts: Parts)
    ensures KlendSteps(SwapList(s, parts)) == parts.deposit.Ixs() + parts.withdraw.Ixs()
  {
    hide KlendSteps, Wrapped;
    var k := KlendIxnsOf(s, parts);
    var d, w := Wrapped(k.deposit), Wrapped(k.withdraw);
    var front, back := k.setup + [k.flashBorrow], ExternalIxns(s) + [k.flashRepay] + k.cleanup;
    assert SwapList(s, parts) == front + d + w + back;
    KlendStepsAppend(front + d + w, back);
    KlendStepsAppend(front + d, w);
    KlendStepsAppend(front, d);
    NoKlendSteps(front);
    NoKlendSteps(back);
    KlendStepsOfWrapped(k.deposit);
    KlendStepsOfWrapped(k.withdraw);
  }

  // ----- What the swap does -----

  function SwapTrace(s: Swap, parts: Parts): seq<Effect>
  {
    Requests(if parts.removes then Some(0) else None)
    + [Lent(DepositLiquidity, [s.target], [parts.borrowed])]
    + ([Lent(WithdrawCollateral, [s.source], [parts.collateral])]
       + Requests(ElevationGroupToRequestAfterWithdraw(s, parts.removes)))
  }

  lemma DepositTrace(s: Swap, target: ReserveView, lamports: nat, removes: bool, start: Machine)
    requires target.address == s.target && (removes ==> s.obligation.elevationGroup != 0)
    requires Built(Deposit, DepositContext(s, target, lamports), DepositOptions(s, removes)).Ok?
    ensures var end := Replay(start, Built(Deposit, DepositContext(s, target, lamports), DepositOptions(s, removes)).value.Ixs());
            && end.Some?
            && end.value.trace
               == start.trace + (Requests(if removes then Some(0) else None) + [Lent(DepositLiquidity, [s.target], [lamports])])
  {
    hide Built, Replay;
    BuiltPlanReplays(Deposit, DepositContext(s, target, lamports), DepositOptions(s, removes), start);
  }

  /** The final request, if any, names no source that the withdrawal left stale. */
  predicate RequestIsFresh(s: Swap, requested: Option<nat>, lamports: nat)
  {
    requested.None? || lamports == U64_MAX || (s.source !in s.obligation.deposits && s.source !in s.obligation.borrows)
  }

  lemma WithdrawTrace(s: Swap, source: ReserveView, lamports: nat, requested: Option<nat>, start: Machine)
    requires source.address == s.source && s.source != s.target
    requires Built(Withdraw, WithdrawContext(s, source, lamports), WithdrawOptions(s, requested)).Ok?
    ensures var plan := Built(Withdraw, WithdrawContext(s, source, lamports), WithdrawOptions(s, requested)).value;
            var end := Replay(start, plan.Ixs());
            && (end.Some? <==> RequestIsFresh(s, requested, lamports))
            && (end.Some? ==>
                  end.value.trace == start.trace + ([Lent(WithdrawCollateral, [s.source], [CollateralFor(source, lamports)])] + Requests(requested)))
  {
    hide Built, Replay;
    var ctx, opts := WithdrawContext(s, source, lamports), WithdrawOptions(s, requested);
    BuiltPlanReplays(Withdraw, ctx, opts, start);
    assert s.source in HeldAtStart(Withdraw, ctx, opts) <==> s.source in s.obligation.deposits || s.source in s.obligation.borrows;
  }

  /**
   The steps of the whole list go through if and only if the final request names no source that
   the withdrawal left stale, that is: no request is made, the source is closed or was not held.
   Their effects then are the swap's.
   */
  lemma SwapReplaysIff(s: Swap, swapOut: real)
    requires PartsOf(s, swapOut).Ok? && s.source != s.target
    ensures var parts := PartsOf(s, swapOut).value;
            var end := Replay(START, KlendSteps(SwapList(s, parts)));
            && (end.Some? <==> RequestIsFresh(s, ElevationGroupToRequestAfterWithdraw(s, parts.removes), parts.withdrawn))
            && (end.Some? ==> end.value.trace == SwapTrace(s, parts))
  {
    hide PartsOf, Built, Replay, KlendSteps, SwapList, RequestIsFresh, ElevationGroupToRequestAfterWithdraw;
    var parts := PartsOf(s, swapOut).value;
    PlansOf(s, swapOut);
    KlendStepsOfSwap(s, parts);
    DepositTrace(s, parts.target, parts.borrowed, parts.removes, START);
    var deposited := Replay(START, parts.deposit.Ixs()).value;
    WithdrawTrace(s, parts.source, parts.withdrawn, ElevationGroupToRequestAfterWithdraw(s, parts.removes), deposited);
    ReplayAppends(START, parts.deposit.Ixs(), parts.withdraw.Ixs());
  }

  lemma PlansOf(s: Swap, swapOut: real)
    requires PartsOf(s, swapOut).Ok?
    ensures var p := PartsOf(s, swapOut).value;
            && p.source.address == s.source && p.target.address == s.target
            && (p.removes ==> s.obligation.elevationGroup != 0)
            && Built(Deposit, DepositContext(s, p.target, p.borrowed), DepositOptions(s, p.removes)) == Ok(p.deposit)
            && p.collateral == CollateralFor(p.source, p.withdrawn)
            && Built(Withdraw, WithdrawContext(s, p.source, p.withdrawn),
                     WithdrawOptions(s, ElevationGroupToRequestAfterWithdraw(s, p.removes))) == Ok(p.withdraw)
  {
    hide Built, BorrowedLamports, WithdrawnLamports;
  }

  /** The quoted swap-out covers what the flash loan takes back, fee included, and would not cover a lamport more. */
  lemma SwapOutRepaysTheLoan(s: Swap, swapOut: real)
    requires PartsOf(s, swapOut).Ok?
    ensures var parts := PartsOf(s, swapOut).value;
            var owed := FlashRepayAmount(parts.borrowed as real, s.flashLoanFee, s.referralFeeBps, s.hasReferrer);
            var more := FlashRepayAmount((parts.borrowed + 1) as real, s.flashLoanFee, s.referralFeeBps, s.hasReferrer);
            && (owed.Ok? ==> owed.value <= Mul(swapOut, parts.target.mintFactor))
            && (more.Ok? ==> more.value > Mul(swapOut, parts.target.mintFactor))
  {
    hide Built, Mul, MustRemoveElevationGroupBeforeDeposit, WithdrawnLamports, CalculateFees;
    var target := PartsOf(s, swapOut).value.target;
    TokensAgreeWithLamports(swapOut, target.mintFactor, s.flashLoanFee, s.referralFeeBps, s.hasReferrer);
    FlooredBorrowIsLargest(Mul(swapOut, target.mintFactor), s.flashLoanFee, s.referralFeeBps, s.hasReferrer);
    FlooredBorrowIsCovered(Mul(swapOut, target.mintFactor), s.flashLoanFee, s.referralFeeBps, s.hasReferrer);
  }

  // ----- What the swap moves -----

  /** The swap deposits what it flash-borrowed of the target, withdraws its cTokens of the source, and moves nothing else. */
  lemma SwapMoves(s: Swap, parts: Parts, mv: Movement, key: Pubkey)
    ensures Moved(SwapTrace(s, parts), mv, key)
         == if mv == LiquidityIn && key == s.target then parts.borrowed
            else if mv == CollateralOut && key == s.source then parts.collateral
            else 0
  {
    hide Moved, ElevationGroupToRequestAfterWithdraw;
    var first, last := Requests(if parts.removes then Some(0) else None), Requests(ElevationGroupToRequestAfterWithdraw(s, parts.removes));
    var a, b := Lent(DepositLiquidity, [s.target], [parts.borrowed]), Lent(WithdrawCollateral, [s.source], [parts.collateral]);
    RequestsMoveNothing(if parts.removes then Some(0) else None, mv, key);
    RequestsMoveNothing(ElevationGroupToRequestAfterWithdraw(s, parts.removes), mv, key);
    MovedOnce(a, mv, key);
    MovedOnce(b, mv, key);
    MovedAppends(first, [a], mv, key);
    MovedAppends([b], last, mv, key);
    MovedAppends(first + [a], [b] + last, mv, key);
  }

  /**
   A closing swap withdraws everything.  Any other withdraws the fewest cTokens that redeem for the
   lamports swapped outside, rounded down to whole ones: what they redeem for covers these, and
   exceeds them by less than a cToken's worth.
   */
  lemma WithdrawalCoversTheSwap(s: Swap, swapOut: real)
    requires PartsOf(s, swapOut).Ok?
    ensures var parts := PartsOf(s, swapOut).value;
            var rate, input := parts.source.collateralExchangeRate, Mul(s.sourceCollSwapAmount, parts.source.mintFactor);
            && (s.isClosingSourceColl ==> parts.collateral == U64_MAX)
            && (!s.isClosingSourceColl && parts.withdrawn != U64_MAX ==>
                  && parts.withdrawn as real <= input < parts.withdrawn as real + 1.0
                  && parts.withdrawn as real <= parts.collateral as real / rate < parts.withdrawn as real + 1.0 / rate
                  && Floor(parts.collateral as real / rate) >= parts.withdrawn)
  {
    hide Built, BorrowedLamports, Mul, CollateralFor, MustRemoveElevationGroupBeforeDeposit;
    var parts := PartsOf(s, swapOut).value;
    EverythingIsEverything(parts.source);
    if parts.withdrawn != U64_MAX { CollateralRedeems(parts.source, parts.withdrawn); }
  }

  // ----- Groups throughout the swap -----

  /** The collaterals and the group of the obligation while the swap runs. */
  datatype Position = Position(deposits: set<Pubkey>, group: nat)

  ghost function StartOf(s: Swap): Position { Position(KeySet(s.obligation.deposits), s.obligation.elevationGroup) }

  /** One effect; `empties` tells whether a withdrawal of less than everything happens to use up the deposit. */
  function After(p: Position, effect: Effect, empties: bool): Position
  {
    match effect
    case Requested(g) => p.(group := g)
    case Lent(DepositLiquidity, rs, _) => p.(deposits := p.deposits + set r | r in rs)
    case Lent(WithdrawCollateral, rs, amounts) =>
      if amounts == [U64_MAX] || empties then p.(deposits := p.deposits - set r | r in rs) else p
    case _ => p
  }

  function AfterAll(p: Position, trace: seq<Effect>, empties: bool): Position
  {
    if trace == [] then p else After(AfterAll(p, trace[..|trace| - 1], empties), trace[|trace| - 1], empties)
  }

  /** A reserve of this address is configured for the group. */
  ghost predicate Configured(market: Market, key: Pubkey, group: nat)
  {
    exists j :: 0 <= j < |market.reserves| && market.reserves[j].address == key && group in market.reserves[j].elevationGroups
  }

  /** In the default group, or within a group's debt reserve, collateral reserves and their count. */
  ghost predicate GroupValid(market: Market, borrows: seq<Pubkey>, p: Position)
  {
    p.group == 0 ||
    (var g := ElevationGroupAt(market, p.group);
     && g.Some?
     && |borrows| <= 1 && (forall k :: k in borrows ==> k == g.value.debtReserve)
     && |p.deposits| <= g.value.maxReservesAsCollateral
     && forall k :: k in p.deposits ==> Configured(market, k, p.group))
  }

  /** Also without the group's own debt reserve among the collaterals, as the descriptions have it. */
  ghost predicate StrictlyValid(market: Market, borrows: seq<Pubkey>, p: Position)
  {
    && GroupValid(market, borrows, p)
    && (p.group == 0 || ElevationGroupAt(market, p.group).value.debtReserve !in p.deposits)
  }

  /** Group ids are stored as 1, 2, 3, ...; unused slots follow. */
  ghost predicate GroupsInOrder(groups: seq<GroupConfig>)
  {
    forall i :: 0 <= i < |groups| ==>
      groups[i].id == i + 1 || (groups[i].id == 0 && forall j :: i < j < |groups| ==> groups[j].id == 0)
  }

  lemma {:induction false} DescriptionsInOrder(groups: seq<GroupConfig>)
    requires GroupsInOrder(groups)
    ensures var ds := EmptyDescriptions(groups);
            && |ds| <= |groups|
            && (forall i :: 0 <= i < |ds| ==>
                  ds[i] == GroupDescription([], groups[i].debtReserve, i + 1, groups[i].maxReservesAsCollateral))
            && (forall i :: |ds| <= i < |groups| ==> groups[i].id == 0)
  {
    if groups != [] {
      var n := |groups| - 1;
      DescriptionsInOrder(groups[..n]);
      assert forall i :: 0 <= i < n ==> groups[..n][i] == groups[i];
      assert |EmptyDescriptions(groups[..n])| < n ==> groups[n].id == 0;
    }
  }

  lemma {:induction false} KeySetSize(keys: seq<Pubkey>)
    requires NoDuplicates(keys)
    ensures |KeySet(keys)| == |keys|
  {
    if keys == [] {
      assert KeySet(keys) == {};
    } else {
      var n := |keys| - 1;
      KeySetSize(keys[..n]);
      assert KeySet(keys) == KeySet(keys[..n]) + {keys[n]};
    }
  }

  lemma SubsetSize(a: set<Pubkey>, b: set<Pubkey>)
    requires a <= b
    ensures |a| <= |b|
  {
    assert b == a + (b - a);
  }

  /** With ids in order, the check of a swap into a group is exactly validity of the expected result there. */
  lemma CheckIsStrictValidity(s: Swap, ds: seq<GroupDescription>)
    requires GroupsInOrder(s.market.elevationGroups) && s.newElevationGroup != 0
    requires Filed(s.market.elevationGroups, s.market.reserves, ds)
    requires forall j :: 0 <= j < |s.market.reserves| ==> !NamesUnknownGroup(s.market.reserves[j], |ds|)
    requires s.newElevationGroup <= |ds|
    ensures Accepted(s, ds) <==>
            StrictlyValid(s.market, s.obligation.borrows, Position(KeySet(ResultingCollaterals(s)), s.newElevationGroup))
  {
    hide ResultingCollaterals, EmptyDescriptions, Filed, Configured;
    var g, colls := s.newElevationGroup, ResultingCollaterals(s);
    DescriptionFor(s.market, ds, g);
    var d, config := ds[g - 1], s.market.elevationGroups[g - 1];
    KeySetSize(colls);
    CollateralsAreConfigured(s.market, ds, g);
    assert forall k :: k in KeySet(colls) <==> k in colls;
    assert ElevationGroupAt(s.market, g) == Some(config);
    assert config.debtReserve !in KeySet(colls) <==> forall k :: k in colls ==> k != config.debtReserve;
    assert Accepted(s, ds) <==> ResultAllowedBy(s, d);
    var p := Position(KeySet(colls), g);
    assert (forall k :: k in colls ==> k in d.collateralReserves) <==>
           (forall k :: k in p.deposits ==> Configured(s.market, k, g)) && config.debtReserve !in p.deposits;
    assert StrictlyValid(s.market, s.obligation.borrows, p) <==> ResultAllowedBy(s, d);
  }

  /** With ids in order, a group's description is found at its position and agrees with the configuration. */
  lemma DescriptionFor(market: Market, ds: seq<GroupDescription>, group: nat)
    requires GroupsInOrder(market.elevationGroups) && Filed(market.elevationGroups, market.reserves, ds)
    requires 1 <= group <= |ds|
    ensures group <= |market.elevationGroups| && ExistingElevationGroup(ds, group) == Ok(Some(ds[group - 1]))
    ensures var d, config := ds[group - 1], market.elevationGroups[group - 1];
            d.debtReserve == config.debtReserve && d.maxReservesAsCollateral == config.maxReservesAsCollateral
  {
    DescriptionsInOrder(market.elevationGroups);
    assert IdsInOrder(ds);
    var found := ExistingElevationGroup(ds, group);
    assert ds[group - 1].elevationGroup == group;
    var i :| 0 <= i < |ds| && ds[i] == found.value.value;
    assert i == group - 1;
  }

  lemma CollateralsAreConfigured(market: Market, ds: seq<GroupDescription>, group: nat)
    requires Filed(market.elevationGroups, market.reserves, ds) && 1 <= group <= |ds|
    ensures forall k :: k in ds[group - 1].collateralReserves <==>
                        Configured(market, k, group) && k != ds[group - 1].debtReserve
  {
    var d := ds[group - 1];
    assert FiledAt(market.reserves, d, group - 1);
    forall k ensures k in d.collateralReserves <==> Configured(market, k, group) && k != d.debtReserve {
      if k in d.collateralReserves {
        var j :| 0 <= j < |market.reserves| && market.reserves[j].address == k && IsCollateralOf(market.reserves[j], d, group - 1);
      } else if Configured(market, k, group) && k != d.debtReserve {
        var j :| 0 <= j < |market.reserves| && market.reserves[j].address == k && group in market.reserves[j].elevationGroups;
        assert IsCollateralOf(market.reserves[j], d, group - 1);
      }
    }
  }

  // The stages a swap goes through.

  ghost function Dropped(s: Swap, parts: Parts): Position
  {
    if parts.removes then StartOf(s).(group := 0) else StartOf(s)
  }

  ghost function Deposited(s: Swap, parts: Parts): Position
  {
    var p := Dropped(s, parts);
    p.(deposits := p.deposits + {s.target})
  }

  ghost function Withdrawn(s: Swap, parts: Parts, empties: bool): Position
  {
    var p := Deposited(s, parts);
    if parts.collateral == U64_MAX || empties then p.(deposits := p.deposits - {s.source}) else p
  }

  ghost function Ended(s: Swap, parts: Parts, empties: bool): Position
  {
    var p, requested := Withdrawn(s, parts, empties), ElevationGroupToRequestAfterWithdraw(s, parts.removes);
    if requested.Some? then p.(group := requested.value) else p
  }

  lemma NothingHappens(p: Position, empties: bool)
    ensures AfterAll(p, [], empties) == p
  {}

  lemma NextPrefix(p: Position, trace: seq<Effect>, empties: bool, n: nat)
    requires n < |trace|
    ensures AfterAll(p, trace[..n + 1], empties) == After(AfterAll(p, trace[..n], empties), trace[n], empties)
  {
    assert trace[..n + 1][..n] == trace[..n];
  }

  /** Every position the swap passes through is one of its stages, and the last one is its end. */
  lemma StagesOfSwap(s: Swap, parts: Parts, empties: bool, n: nat)
    requires n <= |SwapTrace(s, parts)|
    ensures var p := AfterAll(StartOf(s), SwapTrace(s, parts)[..n], empties);
            && (p == StartOf(s) || p == Dropped(s, parts) || p == Deposited(s, parts)
                || p == Withdrawn(s, parts, empties) || p == Ended(s, parts, empties))
            && (n == |SwapTrace(s, parts)| ==> p == Ended(s, parts, empties))
            && (n == (if parts.removes then 2 else 1) ==> p == Deposited(s, parts))
  {
    hide ElevationGroupToRequestAfterWithdraw, AfterAll, StartOf;
    var trace := SwapTrace(s, parts);
    var at := if parts.removes then 1 else 0;
    assert trace[at] == Lent(DepositLiquidity, [s.target], [parts.borrowed]);
    assert trace[at + 1] == Lent(WithdrawCollateral, [s.source], [parts.collateral]);
    assert (set r | r in [s.target]) == {s.target} && (set r | r in [s.source]) == {s.source};
    assert AfterAll(StartOf(s), trace[..0], empties) == StartOf(s) by { NothingHappens(StartOf(s), empties); assert trace[..0] == []; }
    if n > 0 { NextPrefix(StartOf(s), trace, empties, 0); }
    if n > 1 { NextPrefix(StartOf(s), trace, empties, 1); }
    if n > 2 { NextPrefix(StartOf(s), trace, empties, 2); }
    if n > 3 { NextPrefix(StartOf(s), trace, empties, 3); }
  }

  /** A swap on a market with ids in order, from an obligation that is valid for its group. */
  ghost predicate GoodStart(s: Swap)
  {
    && Sound(s) && GroupsInOrder(s.market.elevationGroups) && NoDuplicates(s.obligation.deposits)
    && GroupValid(s.market, s.obligation.borrows, StartOf(s))
  }

  lemma DepositedIsValid(s: Swap, swapOut: real)
    requires GoodStart(s) && PartsOf(s, swapOut).Ok?
    ensures GroupValid(s.market, s.obligation.borrows, Deposited(s, PartsOf(s, swapOut).value))
  {
    hide PartsOf, GroupsInOrder, Configured, MustRemoveElevationGroupBeforeDeposit;
    DecisionOf(s, swapOut);
    var parts, current := PartsOf(s, swapOut).value, s.obligation.elevationGroup;
    var deposits := KeySet(s.obligation.deposits);
    KeySetSize(s.obligation.deposits);
    if s.target in deposits {
      assert deposits + {s.target} == deposits;
    } else if !parts.removes && current != 0 {
      KeptGroupHasRoom(s, parts.target);
    }
  }

  lemma DecisionOf(s: Swap, swapOut: real)
    requires PartsOf(s, swapOut).Ok?
    ensures var parts := PartsOf(s, swapOut).value;
            && ExistingReserve(s.market, s.target) == Ok(parts.target)
            && MustRemoveElevationGroupBeforeDeposit(s, parts.target) == Ok(parts.removes)
  {
    hide Built, BorrowedLamports, WithdrawnLamports, ExistingReserve, MustRemoveElevationGroupBeforeDeposit;
  }

  /** A group that is kept for a new target has the target configured and room for it. */
  lemma KeptGroupHasRoom(s: Swap, target: ReserveView)
    requires ExistingReserve(s.market, s.target) == Ok(target)
    requires MustRemoveElevationGroupBeforeDeposit(s, target) == Ok(false)
    requires s.target !in s.obligation.deposits && s.obligation.elevationGroup != 0
    ensures var g := ElevationGroupAt(s.market, s.obligation.elevationGroup);
            && g.Some? && |s.obligation.deposits| < g.value.maxReservesAsCollateral
            && Configured(s.market, s.target, s.obligation.elevationGroup)
  {
    var j :| 0 <= j < |s.market.reserves| && s.market.reserves[j] == target;
  }

  /** No two reserves of the market share an address. */
  ghost predicate AddressesDistinct(market: Market)
  {
    forall i, j :: 0 <= i < j < |market.reserves| ==> market.reserves[i].address != market.reserves[j].address
  }

  /** The group is dropped exactly when the obligation with the target added would not be valid for it. */
  lemma DropsGroupIff(s: Swap, target: ReserveView)
    requires GoodStart(s) && AddressesDistinct(s.market) && ExistingReserve(s.market, s.target) == Ok(target)
    ensures var start := StartOf(s);
            MustRemoveElevationGroupBeforeDeposit(s, target)
            == Ok(!GroupValid(s.market, s.obligation.borrows, start.(deposits := start.deposits + {s.target})))
  {
    hide GroupsInOrder, Sound;
    var deposits, current := KeySet(s.obligation.deposits), s.obligation.elevationGroup;
    KeySetSize(s.obligation.deposits);
    if s.target in deposits {
      assert deposits + {s.target} == deposits;
    } else if current != 0 {
      ConfiguredIff(s.market, target, current);
      assert |deposits + {s.target}| == |deposits| + 1;
    }
  }

  lemma ConfiguredIff(market: Market, r: ReserveView, group: nat)
    requires AddressesDistinct(market) && r in market.reserves
    ensures Configured(market, r.address, group) <==> group in r.elevationGroups
  {
    var i :| 0 <= i < |market.reserves| && market.reserves[i] == r;
    if Configured(market, r.address, group) {
      var j :| 0 <= j < |market.reserves| && market.reserves[j].address == r.address && group in market.reserves[j].elevationGroups;
      assert i == j;
    }
  }

  lemma FewerCollateralsStayValid(market: Market, borrows: seq<Pubkey>, p: Position, q: Position)
    requires q.deposits <= p.deposits && q.group == p.group
    ensures GroupValid(market, borrows, p) ==> GroupValid(market, borrows, q)
    ensures StrictlyValid(market, borrows, p) ==> StrictlyValid(market, borrows, q)
  {
    SubsetSize(q.deposits, p.deposits);
  }

  /** The end has the requested group, and at most the collaterals that were checked. */
  lemma EndIsAsRequested(s: Swap, swapOut: real, empties: bool)
    requires PartsOf(s, swapOut).Ok?
    ensures var parts := PartsOf(s, swapOut).value;
            && Ended(s, parts, empties).group == s.newElevationGroup
            && Ended(s, parts, empties).deposits <= KeySet(ResultingCollaterals(s))
  {
    hide Built, BorrowedLamports, Lamports, ReserveByAddress, ResultingCollaterals;
  }

  lemma EndIsValid(s: Swap, ds: seq<GroupDescription>, swapOut: real, empties: bool)
    requires GroupsInOrder(s.market.elevationGroups)
    requires PartsOf(s, swapOut).Ok? && (s.newElevationGroup != 0 ==> Accepted(s, ds))
    ensures StrictlyValid(s.market, s.obligation.borrows, Ended(s, PartsOf(s, swapOut).value, empties))
  {
    hide PartsOf, Ended, StrictlyValid, ResultingCollaterals, ResultAllowedBy, GroupsInOrder;
    var end := Ended(s, PartsOf(s, swapOut).value, empties);
    EndIsAsRequested(s, swapOut, empties);
    if s.newElevationGroup == 0 {
      DefaultGroupIsValid(s.market, s.obligation.borrows, end);
    } else {
      GroupIdsAreBounded(s, ds);
      CheckIsStrictValidity(s, ds);
      FewerCollateralsStayValid(s.market, s.obligation.borrows, Position(KeySet(ResultingCollaterals(s)), s.newElevationGroup), end);
    }
  }

  lemma DefaultGroupIsValid(market: Market, borrows: seq<Pubkey>, p: Position)
    requires p.group == 0
    ensures StrictlyValid(market, borrows, p)
  {}

  lemma GroupIdsAreBounded(s: Swap, ds: seq<GroupDescription>)
    requires GroupsInOrder(s.market.elevationGroups) && s.newElevationGroup != 0 && Accepted(s, ds)
    ensures s.newElevationGroup <= |ds|
  {
    DescriptionsInOrder(s.market.elevationGroups);
    var d := ExistingElevationGroup(ds, s.newElevationGroup).value.value;
    var i :| 0 <= i < |ds| && ds[i] == d;
  }

  /**
   An accepted swap from a valid obligation is valid for its group after every step, whatever
   the withdrawal leaves behind, and ends in exactly the requested group.
   */
  lemma SwapKeepsGroups(s: Swap, ds: seq<GroupDescription>, swapOut: real, empties: bool, n: nat)
    requires GoodStart(s) && PartsOf(s, swapOut).Ok? && (s.newElevationGroup != 0 ==> Accepted(s, ds))
    requires n <= |SwapTrace(s, PartsOf(s, swapOut).value)|
    ensures var trace := SwapTrace(s, PartsOf(s, swapOut).value);
            var p := AfterAll(StartOf(s), trace[..n], empties);
            && GroupValid(s.market, s.obligation.borrows, p)
            && (n == |trace| ==> p.group == s.newElevationGroup && StrictlyValid(s.market, s.obligation.borrows, p))
  {
    hide PartsOf, SwapTrace, GroupValid, Ended, AfterAll, GroupsInOrder;
    var parts, borrows := PartsOf(s, swapOut).value, s.obligation.borrows;
    StagesOfSwap(s, parts, empties, n);
    DepositedIsValid(s, swapOut);
    FewerCollateralsStayValid(s.market, borrows, Deposited(s, parts), Withdrawn(s, parts, empties));
    FewerCollateralsStayValid(s.market, borrows, Deposited(s, parts), Dropped(s, parts));
    EndIsValid(s, ds, swapOut, empties);
    EndIsAsRequested(s, swapOut, empties);
  }

  /** The target is new, is the debt reserve of the current group, and fits into the group by configuration and count. */
  ghost predicate DepositsOwnDebtReserve(s: Swap)
  {
    var current := s.obligation.elevationGroup;
    var g, target := ElevationGroupAt(s.market, current), ExistingReserve(s.market, s.target);
    && current != 0 && g.Some? && target.Ok?
    && s.target !in s.obligation.deposits && s.target == g.value.debtReserve
    && current in target.value.elevationGroups && |s.obligation.deposits| < g.value.maxReservesAsCollateral
  }

  lemma DepositedIsStrictIff(s: Swap, swapOut: real)
    requires GoodStart(s) && StrictlyValid(s.market, s.obligation.borrows, StartOf(s)) && PartsOf(s, swapOut).Ok?
    ensures StrictlyValid(s.market, s.obligation.borrows, Deposited(s, PartsOf(s, swapOut).value)) <==> !DepositsOwnDebtReserve(s)
  {
    hide PartsOf, GroupsInOrder, GroupValid;
    DepositedIsValid(s, swapOut);
    DecisionOf(s, swapOut);
  }

  /**
   Validity in the stricter sense of the descriptions is kept after every step exactly unless
   the swap deposits the current group's own debt reserve: the decision to keep the group asks
   the reserve's configuration, which lists the debt reserve too.
   */
  lemma StrictThroughoutIff(s: Swap, ds: seq<GroupDescription>, swapOut: real, empties: bool)
    requires GoodStart(s) && StrictlyValid(s.market, s.obligation.borrows, StartOf(s))
    requires PartsOf(s, swapOut).Ok? && (s.newElevationGroup != 0 ==> Accepted(s, ds))
    ensures var trace := SwapTrace(s, PartsOf(s, swapOut).value);
            (forall n :: 0 <= n <= |trace| ==>
               StrictlyValid(s.market, s.obligation.borrows, AfterAll(StartOf(s), trace[..n], empties)))
            <==> !DepositsOwnDebtReserve(s)
  {
    hide PartsOf, SwapTrace, StrictlyValid, Ended, AfterAll, GroupsInOrder, DepositsOwnDebtReserve, Accepted;
    var parts, borrows := PartsOf(s, swapOut).value, s.obligation.borrows;
    var trace := SwapTrace(s, parts);
    DepositedIsStrictIff(s, swapOut);
    EndIsValid(s, ds, swapOut, empties);
    if DepositsOwnDebtReserve(s) {
      var n := if parts.removes then 2 else 1;
      TraceIsLongEnough(s, parts);
      StagesOfSwap(s, parts, empties, n);
      assert !StrictlyValid(s.market, borrows, AfterAll(StartOf(s), trace[..n], empties));
    } else {
      FewerCollateralsStayValid(s.market, borrows, Deposited(s, parts), Withdrawn(s, parts, empties));
      FewerCollateralsStayValid(s.market, borrows, Deposited(s, parts), Dropped(s, parts));
      forall n | 0 <= n <= |trace| ensures StrictlyValid(s.market, borrows, AfterAll(StartOf(s), trace[..n], empties)) {
        StagesOfSwap(s, parts, empties, n);
      }
    }
  }

  lemma TraceIsLongEnough(s: Swap, parts: Parts)
    ensures |SwapTrace(s, parts)| >= if parts.removes then 3 else 2
  {}

  /** Every request of a swap is for another group than the one the obligation is in at that point. */
  lemma SwapRequestsAreNew(s: Swap, swapOut: real, empties: bool, n: nat)
    requires PartsOf(s, swapOut).Ok? && n < |SwapTrace(s, PartsOf(s, swapOut).value)|
    ensures var trace := SwapTrace(s, PartsOf(s, swapOut).value);
            trace[n].Requested? ==> AfterAll(StartOf(s), trace[..n], empties).group != trace[n].group
  {
    hide PartsOf, AfterAll, Built;
    RemovesOnlyAGroup(s, swapOut);
    var parts := PartsOf(s, swapOut).value;
    GroupBeforeLast(s, parts, empties, n);
    RequestsOfTrace(s, parts, n);
  }

  lemma RemovesOnlyAGroup(s: Swap, swapOut: real)
    requires PartsOf(s, swapOut).Ok?
    ensures PartsOf(s, swapOut).value.removes ==> s.obligation.elevationGroup != 0
  {
    PlansOf(s, swapOut);
  }

  /** The requests of a swap: the default group first of all, or the wanted group last of all. */
  lemma RequestsOfTrace(s: Swap, parts: Parts, n: nat)
    requires n < |SwapTrace(s, parts)|
    ensures var trace, requested := SwapTrace(s, parts), ElevationGroupToRequestAfterWithdraw(s, parts.removes);
            trace[n].Requested? ==>
              || (n == 0 && parts.removes && trace[n].group == 0)
              || (n > 0 && requested == Some(trace[n].group))
  {
    hide ElevationGroupToRequestAfterWithdraw;
  }

  lemma GroupBeforeLast(s: Swap, parts: Parts, empties: bool, n: nat)
    requires n < |SwapTrace(s, parts)|
    ensures var group := AfterAll(StartOf(s), SwapTrace(s, parts)[..n], empties).group;
            if n == 0 then group == s.obligation.elevationGroup else group == Dropped(s, parts).group
  {
    hide ElevationGroupToRequestAfterWithdraw, AfterAll;
    var trace := SwapTrace(s, parts);
    var at := if parts.removes then 1 else 0;
    assert trace[at] == Lent(DepositLiquidity, [s.target], [parts.borrowed]);
    assert trace[at + 1] == Lent(WithdrawCollateral, [s.source], [parts.collateral]);
    NothingHappens(StartOf(s), empties);
    assert trace[..0] == [];
    if n > 0 { NextPrefix(StartOf(s), trace, empties, 0); }
    if n > 1 { NextPrefix(StartOf(s), trace, empties, 1); }
    if n > 2 { NextPrefix(StartOf(s), trace, empties, 2); }
  }

  // ----- What the swap names -----

  /** The slots of the obligation hold what the client has read from them. */
  ghost predicate SlotsOf(s: Swap, l: L.Ledger)
  {
    && l.Held() == Naming(s.obligation.deposits, s.obligation.borrows)
    && s.source != DefaultKey && s.target != DefaultKey && s.source != s.target
  }

  lemma DepositPlanIsExact(s: Swap, swapOut: real, l: L.Ledger, o: L.Outcome)
    requires PartsOf(s, swapOut).Ok? && SlotsOf(s, l)
    ensures var events := L.Events(PartsOf(s, swapOut).value.deposit.Ixs());
            L.Exact(l, events, o) && L.AfterAll(l, events, o) == l.(deposits := L.Taken(l.deposits, s.target))
  {
    hide PartsOf, Built, L.Events, L.Exact, L.AfterAll, L.Occupied, L.Taken;
    PlansOf(s, swapOut);
    var p := PartsOf(s, swapOut).value;
    var ctx, opts := DepositContext(s, p.target, p.borrowed), DepositOptions(s, p.removes);
    assert s.obligation.deposits + [] == s.obligation.deposits;
    L.PlanNamesWhatIsHeldIff(Deposit, ctx, opts, l, o);
  }

  /** A new target is named last and must get the last slot in use. */
  ghost predicate TargetIsLast(s: Swap, l: L.Ledger) { s.target in s.obligation.deposits || L.FreeAtEnd(l.deposits) }

  /** The request after the withdrawal leaves out the source exactly if it was to be closed; it must be gone then, and only then. */
  ghost predicate NamesSourceRightly(s: Swap, parts: Parts, emptied: bool)
  {
    ElevationGroupToRequestAfterWithdraw(s, parts.removes).Some? ==>
      if parts.withdrawn == U64_MAX then s.source !in s.obligation.borrows && (s.source in s.obligation.deposits ==> emptied)
      else s.source in s.obligation.deposits ==> !emptied
  }

  /** What the client lists for the withdrawal is what the slots hold exactly if the target got the last one. */
  lemma TargetListedIff(s: Swap, l: L.Ledger)
    requires SlotsOf(s, l)
    ensures var d := s.obligation.deposits;
            L.Occupied(L.Taken(l.deposits, s.target)) == d + (if s.target in d then [] else [s.target]) <==> TargetIsLast(s, l)
    ensures s.source in L.Taken(l.deposits, s.target) <==> s.source in s.obligation.deposits
    ensures s.source in l.borrows <==> s.source in s.obligation.borrows
  {
    hide L.Occupied, L.FreeAtEnd, L.FirstFree;
    L.ListedIffHeld(l.deposits, s.target);
    L.ListedIffHeld(l.deposits, s.source);
    L.ListedIffHeld(l.borrows, s.source);
    assert s.obligation.deposits + [] == s.obligation.deposits;
    if s.target in s.obligation.deposits { L.TakenAgain(l.deposits, s.target); } else { L.TakenIsLastIff(l.deposits, s.target); }
    TakenKeeps(l.deposits, s.target, s.source);
  }

  lemma TakenKeeps(slots: seq<Pubkey>, key: Pubkey, other: Pubkey)
    requires other != key && other != DefaultKey
    ensures other in L.Taken(slots, key) <==> other in slots
  {
    hide L.FirstFree;
    var i, after := L.FirstFree(slots), L.Taken(slots, key);
    if other in slots {
      var j :| 0 <= j < |slots| && slots[j] == other;
      assert after[j] == other;
    }
  }

  lemma WithdrawPlanIsExactIff(s: Swap, swapOut: real, l: L.Ledger, o: L.Outcome)
    requires PartsOf(s, swapOut).Ok? && SlotsOf(s, l)
    ensures var parts := PartsOf(s, swapOut).value;
            L.Exact(l.(deposits := L.Taken(l.deposits, s.target)), L.Events(parts.withdraw.Ixs()), o)
            <==> TargetIsLast(s, l) && NamesSourceRightly(s, parts, o.emptied)
  {
    hide PartsOf, Built, L.Events, L.Exact, L.AfterAll, L.Occupied, L.Taken, ElevationGroupToRequestAfterWithdraw, TargetIsLast;
    PlansOf(s, swapOut);
    var p, now := PartsOf(s, swapOut).value, l.(deposits := L.Taken(l.deposits, s.target));
    var ctx := WithdrawContext(s, p.source, p.withdrawn);
    var opts := WithdrawOptions(s, ElevationGroupToRequestAfterWithdraw(s, p.removes));
    TargetListedIff(s, l);
    if TargetIsLast(s, l) {
      L.PlanNamesWhatIsHeldIff(Withdraw, ctx, opts, now, o);
    } else if L.Exact(now, L.Events(p.withdraw.Ixs()), o) {
      L.PlanNamesTheStart(Withdraw, ctx, opts, now, o);
    }
  }

  /**
   Throughout the swap every obligation refresh and group request names exactly the reserves in
   the obligation's slots, deposits and borrows each in slot order, if and only if a new target
   gets the last slot in use and the final request leaves out the source just when it is gone.
   */
  lemma SwapNamesWhatIsHeldIff(s: Swap, swapOut: real, l: L.Ledger, o: L.Outcome)
    requires PartsOf(s, swapOut).Ok? && SlotsOf(s, l)
    ensures var parts := PartsOf(s, swapOut).value;
            L.Exact(l, L.Events(KlendSteps(SwapList(s, parts))), o)
            <==> TargetIsLast(s, l) && NamesSourceRightly(s, parts, o.emptied)
  {
    hide PartsOf, L.Events, L.Exact, L.AfterAll, KlendSteps, SwapList, NamesSourceRightly, TargetIsLast, SlotsOf;
    var parts := PartsOf(s, swapOut).value;
    KlendStepsOfSwap(s, parts);
    L.EventsAppend(parts.deposit.Ixs(), parts.withdraw.Ixs());
    DepositPlanIsExact(s, swapOut, l, o);
    WithdrawPlanIsExactIff(s, swapOut, l, o);
    L.ExactAppend(l, L.Events(parts.deposit.Ixs()), L.Events(parts.withdraw.Ixs()), o);
  }

  // ----- Swaps that the program takes -----

  /**
   The target gets the last slot in use, the source is deposited, and a group is requested
   behind the withdrawal only if that closes the source, which is not borrowed too.
   */
  ghost predicate SwapGoesThrough(s: Swap, parts: Parts, l: L.Ledger, emptied: bool)
  {
    && TargetIsLast(s, l) && s.source in s.obligation.deposits
    && (ElevationGroupToRequestAfterWithdraw(s, parts.removes).Some? ==>
          parts.withdrawn == U64_MAX && emptied && s.source !in s.obligation.borrows)
  }

  /** The program's state is as the client has read it. */
  ghost predicate AsRead(s: Swap, p: P.Program) { SlotsOf(s, p.ledger) && p.group == s.obligation.elevationGroup }

  lemma LastSlotIsRoom(s: Swap, l: L.Ledger)
    requires SlotsOf(s, l) && TargetIsLast(s, l)
    ensures P.HasRoom(l.deposits, s.target)
  {
    hide L.FirstFree, L.Occupied;
    L.ListedIffHeld(l.deposits, s.target);
    if s.target !in s.obligation.deposits { assert l.deposits[L.FirstFree(l.deposits)] == DefaultKey; }
  }

  lemma DepositIsTakenIff(s: Swap, swapOut: real, p: P.Program, o: L.Outcome)
    requires PartsOf(s, swapOut).Ok? && AsRead(s, p)
    ensures var parts := PartsOf(s, swapOut).value;
            var end := P.TakesAll(p, parts.deposit.Ixs(), o);
            && (end.Some? <==> P.HasRoom(p.ledger.deposits, s.target) && (parts.removes ==> s.obligation.deposits != []))
            && (end.Some? ==>
                  && end.value.machine.trace
                     == p.machine.trace + (Requests(if parts.removes then Some(0) else None) + [Lent(DepositLiquidity, [s.target], [parts.borrowed])])
                  && end.value.ledger == p.ledger.(deposits := L.Taken(p.ledger.deposits, s.target))
                  && end.value.group == if parts.removes then 0 else p.group)
  {
    hide PartsOf, Built, P.TakesAll, L.Occupied, L.Taken;
    PlansOf(s, swapOut);
    var parts := PartsOf(s, swapOut).value;
    var ctx, opts := DepositContext(s, parts.target, parts.borrowed), DepositOptions(s, parts.removes);
    assert s.obligation.deposits + [] == s.obligation.deposits;
    P.PlanIsTakenIff(Deposit, ctx, opts, p, o);
    P.TraceAsksIff(Deposit, ctx, opts, p.group);
  }

  lemma WithdrawIsTakenIff(s: Swap, swapOut: real, l: L.Ledger, p: P.Program, o: L.Outcome)
    requires PartsOf(s, swapOut).Ok? && SlotsOf(s, l)
    requires p.ledger == l.(deposits := L.Taken(l.deposits, s.target))
    requires p.group == if PartsOf(s, swapOut).value.removes then 0 else s.obligation.elevationGroup
    requires P.HasRoom(l.deposits, s.target)
    ensures var parts := PartsOf(s, swapOut).value;
            var requested := ElevationGroupToRequestAfterWithdraw(s, parts.removes);
            var end := P.TakesAll(p, parts.withdraw.Ixs(), o);
            && (end.Some? <==> SwapGoesThrough(s, parts, l, o.emptied))
            && (end.Some? ==>
                  && end.value.machine.trace == p.machine.trace + ([Lent(WithdrawCollateral, [s.source], [parts.collateral])] + Requests(requested))
                  && end.value.group == if requested.Some? then requested.value else p.group)
  {
    hide PartsOf, Built, P.TakesAll, L.Occupied, L.Taken, TargetIsLast, Without, P.HasRoom;
    PlansOf(s, swapOut);
    var parts := PartsOf(s, swapOut).value;
    var requested := ElevationGroupToRequestAfterWithdraw(s, parts.removes);
    var ctx, opts := WithdrawContext(s, parts.source, parts.withdrawn), WithdrawOptions(s, requested);
    TargetListedIff(s, l);
    P.PlanIsTakenIff(Withdraw, ctx, opts, p, o);
    P.TraceAsksIff(Withdraw, ctx, opts, p.group);
    P.TakenIsHeld(l.deposits, s.target);
    L.ListedIffHeld(L.Taken(l.deposits, s.target), s.target);
    assert s.target in P.DepositsLeft(Withdraw, ctx, p.ledger, o);
    assert s.source in HeldAtStart(Withdraw, ctx, opts) <==> s.source in s.obligation.deposits || s.source in s.obligation.borrows;
  }

  /**
   The program takes the whole swap, from the state the client has read, if and only if
   `SwapGoesThrough`; its effects then are the swap's, and it ends in the requested group.
   */
  lemma SwapIsTakenIff(s: Swap, swapOut: real, p: P.Program, o: L.Outcome)
    requires PartsOf(s, swapOut).Ok? && AsRead(s, p)
    ensures var parts := PartsOf(s, swapOut).value;
            var end := P.TakesAll(p, KlendSteps(SwapList(s, parts)), o);
            && (end.Some? <==> SwapGoesThrough(s, parts, p.ledger, o.emptied))
            && (end.Some? ==> end.value.machine.trace == p.machine.trace + SwapTrace(s, parts) && end.value.group == s.newElevationGroup)
  {
    hide PartsOf, P.TakesAll, KlendSteps, SwapList, L.Taken, P.HasRoom, SlotsOf, TargetIsLast;
    var parts := PartsOf(s, swapOut).value;
    KlendStepsOfSwap(s, parts);
    P.TakesAllAppends(p, parts.deposit.Ixs(), parts.withdraw.Ixs(), o);
    DepositIsTakenIff(s, swapOut, p, o);
    if SwapGoesThrough(s, parts, p.ledger, o.emptied) {
      LastSlotIsRoom(s, p.ledger);
    }
    var deposited := P.TakesAll(p, parts.deposit.Ixs(), o);
    if deposited.Some? {
      WithdrawIsTakenIff(s, swapOut, p.ledger, deposited.value, o);
    }
  }

  /** The program ends having deposited the flash-borrowed target and withdrawn the source, and moved nothing else. */
  ghost predicate MovesAsSwapped(s: Swap, parts: Parts, before: Machine, after: Machine)
  {
    forall mv, key :: Moved(after.trace, mv, key)
      == Moved(before.trace, mv, key)
         + if mv == LiquidityIn && key == s.target then parts.borrowed
           else if mv == CollateralOut && key == s.source then parts.collateral
           else 0
  }

  /** The listed instructions are taken, from any state as read, exactly if `SwapGoesThrough`, and then move what the swap is for. */
  ghost predicate SwapTakenAsPlanned(s: Swap, parts: Parts, list: seq<SwapIx>)
  {
    forall p, o :: AsRead(s, p) ==>
      var end := P.TakesAll(p, KlendSteps(list), o);
      && (end.Some? <==> SwapGoesThrough(s, parts, p.ledger, o.emptied))
      && (end.Some? ==> MovesAsSwapped(s, parts, p.machine, end.value.machine))
  }

  lemma TakenSwapMoves(s: Swap, swapOut: real, p: P.Program, o: L.Outcome)
    requires PartsOf(s, swapOut).Ok? && AsRead(s, p)
    ensures var parts := PartsOf(s, swapOut).value;
            var end := P.TakesAll(p, KlendSteps(SwapList(s, parts)), o);
            end.Some? ==> MovesAsSwapped(s, parts, p.machine, end.value.machine)
  {
    hide PartsOf, P.TakesAll, KlendSteps, SwapList, AsRead, SwapGoesThrough, Moved, SwapTrace;
    var parts := PartsOf(s, swapOut).value;
    SwapIsTakenIff(s, swapOut, p, o);
    forall mv, key
      ensures Moved(p.machine.trace + SwapTrace(s, parts), mv, key)
           == Moved(p.machine.trace, mv, key)
              + if mv == LiquidityIn && key == s.target then parts.borrowed
                else if mv == CollateralOut && key == s.source then parts.collateral
                else 0 {
      MovedAppends(p.machine.trace, SwapTrace(s, parts), mv, key);
      SwapMoves(s, parts, mv, key);
    }
  }

  lemma SwapIsTakenAsPlanned(s: Swap, swapOut: real)
    requires PartsOf(s, swapOut).Ok?
    ensures SwapTakenAsPlanned(s, PartsOf(s, swapOut).value, SwapList(s, PartsOf(s, swapOut).value))
  {
    hide PartsOf, P.TakesAll, KlendSteps, SwapList, AsRead, SwapGoesThrough, MovesAsSwapped;
    var parts := PartsOf(s, swapOut).value;
    forall p, o | AsRead(s, p)
      ensures P.TakesAll(p, KlendSteps(SwapList(s, parts)), o).Some? <==> SwapGoesThrough(s, parts, p.ledger, o.emptied)
      ensures P.TakesAll(p, KlendSteps(SwapList(s, parts)), o).Some? ==>
                MovesAsSwapped(s, parts, p.machine, P.TakesAll(p, KlendSteps(SwapList(s, parts)), o).value.machine) {
      SwapIsTakenIff(s, swapOut, p, o);
      TakenSwapMoves(s, swapOut, p, o);
    }
  }

  // ----- Swaps that are planned -----

  /** A swap is planned once its amounts and the current group are known and the market has all reserves involved. */
  lemma SwapIsPlanned(s: Swap, swapOut: real)
    requires ExistingReserve(s.market, s.source).Ok? && ExistingReserve(s.market, s.target).Ok?
    requires var source, target := ExistingReserve(s.market, s.source).value, ExistingReserve(s.market, s.target).value;
             && BorrowedLamports(s, target, swapOut).Ok? && WithdrawnLamports(s, source).Ok?
             && MustRemoveElevationGroupBeforeDeposit(s, target).Ok?
    requires forall k :: k in s.obligation.deposits || k in s.obligation.borrows ==> ReserveByAddress(s.market.reserves, k).Some?
    ensures PartsOf(s, swapOut).Ok?
  {
    hide Built, BorrowedLamports, WithdrawnLamports, MustRemoveElevationGroupBeforeDeposit, ReserveByAddress;
    var source, target := ExistingReserve(s.market, s.source).value, ExistingReserve(s.market, s.target).value;
    var removes := MustRemoveElevationGroupBeforeDeposit(s, target).value;
    var withdrawn := WithdrawnLamports(s, source).value;
    DepositOrWithdrawIsPlanned(
      Deposit, DepositContext(s, target, BorrowedLamports(s, target, swapOut).value), DepositOptions(s, removes));
    DepositOrWithdrawIsPlanned(
      Withdraw, WithdrawContext(s, source, withdrawn),
      WithdrawOptions(s, ElevationGroupToRequestAfterWithdraw(s, removes)));
  }

  function ExampleReserve(key: Pubkey): ReserveView
  {
    ReserveView(key, 1.0, 1.0, 0.5, 0.6, 1.0, 0.0, [1], false, 1.0, 1.0, 0, 0, false, false)
  }

  /** One group that lends reserve 2, with reserve 1 deposited in it; all or part of it is swapped into reserve 2. */
  function ExampleSwap(closing: bool): Swap
  {
    Swap(Market([ExampleReserve(Key(1)), ExampleReserve(Key(2))], [GroupConfig(1, Key(2), 5, 90, 95)]),
      ObligationView([Key(1)], [], map[], 1), Key(1), Key(2), 1.0, closing, 0, 0.0, 0, false, 1.0, false, {}, [], [], [], false, true)
  }

  lemma ExampleStarts(closing: bool)
    ensures var s := ExampleSwap(closing);
            GoodStart(s) && StrictlyValid(s.market, s.obligation.borrows, StartOf(s))
  {
    var s := ExampleSwap(closing);
    assert s.market.reserves[0].address == Key(1);
    assert KeySet(s.obligation.deposits) == {Key(1)};
    assert Configured(s.market, Key(1), 1);
  }

  lemma ExampleLookups(closing: bool)
    ensures var s := ExampleSwap(closing);
            && ExistingReserve(s.market, Key(1)) == Ok(ExampleReserve(Key(1)))
            && ExistingReserve(s.market, Key(2)) == Ok(ExampleReserve(Key(2)))
  {
    var s := ExampleSwap(closing);
    assert s.market.reserves[1..] == [ExampleReserve(Key(2))];
  }

  lemma WholeLamports(n: nat)
    ensures Lamports(n as real, 1.0) == Ok(n)
  {}

  lemma FreeLoan(s: Swap, target: ReserveView, swapOut: nat)
    requires s.flashLoanFee == 0.0 && target.mintFactor == 1.0
    ensures BorrowedLamports(s, target, swapOut as real) == Ok(swapOut)
  {
    hide Lamports, Mul;
    WholeLamports(swapOut);
  }

  lemma WholeWithdrawal(s: Swap, source: ReserveView, amount: nat)
    requires s.sourceCollSwapAmount == amount as real && source.mintFactor == 1.0
    ensures WithdrawnLamports(s, source) == Ok(if s.isClosingSourceColl then U64_MAX else amount)
  {
    WholeLamports(amount);
  }

  /** Both example swaps are planned, keep the group for the deposit and request the default one behind. */
  lemma ExampleIsPlanned(closing: bool)
    ensures var s := ExampleSwap(closing);
            && PartsOf(s, SwapOut(s)).Ok?
            && !PartsOf(s, SwapOut(s)).value.removes
            && PartsOf(s, SwapOut(s)).value.withdrawn == (if closing then U64_MAX else 1)
  {
    hide BorrowedLamports, Mul, Built;
    var s := ExampleSwap(closing);
    var source, target := ExampleReserve(Key(1)), ExampleReserve(Key(2));
    ExampleLookups(closing);
    FreeLoan(s, target, 1);
    WholeWithdrawal(s, source, 1);
    MulUnit(1.0);
    assert MustRemoveElevationGroupBeforeDeposit(s, target) == Ok(false);
    SwapIsPlanned(s, SwapOut(s));
  }

  /** The closing swap is taken, starts strictly valid and is not after its deposit of the group's own debt reserve. */
  lemma OwnDebtReserveExample(m: Machine)
    ensures var s := ExampleSwap(true);
            && GoodStart(s) && StrictlyValid(s.market, s.obligation.borrows, StartOf(s))
            && PartsOf(s, SwapOut(s)).Ok? && DepositsOwnDebtReserve(s)
            && P.TakesAll(P.Program(m, L.Ledger([Key(1), DefaultKey], []), 1),
                          KlendSteps(SwapList(s, PartsOf(s, SwapOut(s)).value)), L.Outcome(false, true)).Some?
            && !StrictlyValid(s.market, s.obligation.borrows, Deposited(s, PartsOf(s, SwapOut(s)).value))
  {
    hide PartsOf, GoodStart, StrictlyValid, SwapOut, KlendSteps, SwapList, P.TakesAll, L.Occupied;
    var s, l := ExampleSwap(true), L.Ledger([Key(1), DefaultKey], []);
    ExampleStarts(true);
    ExampleLookups(true);
    ExampleIsPlanned(true);
    DepositedIsStrictIff(s, SwapOut(s));
    L.OccupiedAround([Key(1)], DefaultKey, []);
    assert [Key(1)] + [DefaultKey] + [] == l.deposits;
    L.AllOccupied([Key(1)]);
    L.AllOccupied([]);
    assert L.FirstFree(l.deposits[1..]) == 0 && L.FirstFree(l.deposits) == 1;
    SwapIsTakenIff(s, SwapOut(s), P.Program(m, l, 1), L.Outcome(false, true));
  }

  /** The partial swap is refused: its final request names the source the withdrawal left stale. */
  lemma PartialSwapIsRefused(p: P.Program, o: L.Outcome)
    requires AsRead(ExampleSwap(false), p)
    ensures var s := ExampleSwap(false);
            && GoodStart(s) && PartsOf(s, SwapOut(s)).Ok?
            && Replay(START, KlendSteps(SwapList(s, PartsOf(s, SwapOut(s)).value))).None?
            && P.TakesAll(p, KlendSteps(SwapList(s, PartsOf(s, SwapOut(s)).value)), o).None?
  {
    hide PartsOf, GoodStart, SwapOut, KlendSteps, SwapList, Replay, P.TakesAll, L.Occupied;
    var s := ExampleSwap(false);
    ExampleStarts(false);
    ExampleIsPlanned(false);
    assert Key(1) in s.obligation.deposits;
    SwapReplaysIff(s, SwapOut(s));
    SwapIsTakenIff(s, SwapOut(s), p, o);
  }

  /** With a free slot in front of the source's, the target is put before the source but named behind it, and the swap refused. */
  lemma TargetNamedOutOfOrder(m: Machine, o: L.Outcome)
    ensures var s, l := ExampleSwap(true), L.Ledger([DefaultKey, Key(1)], []);
            && SlotsOf(s, l) && PartsOf(s, SwapOut(s)).Ok?
            && !L.Exact(l, L.Events(KlendSteps(SwapList(s, PartsOf(s, SwapOut(s)).value))), o)
            && P.TakesAll(P.Program(m, l, 1), KlendSteps(SwapList(s, PartsOf(s, SwapOut(s)).value)), o).None?
  {
    hide PartsOf, SwapOut, KlendSteps, SwapList, L.Events, L.Exact, L.Occupied, P.TakesAll;
    var s, l := ExampleSwap(true), L.Ledger([DefaultKey, Key(1)], []);
    ExampleIsPlanned(true);
    L.OccupiedAround([], DefaultKey, [Key(1)]);
    assert [] + [DefaultKey] + [Key(1)] == l.deposits;
    L.AllOccupied([Key(1)]);
    L.AllOccupied([]);
    assert l.deposits[1] != DefaultKey;
    SwapNamesWhatIsHeldIff(s, SwapOut(s), l, o);
    SwapIsTakenIff(s, SwapOut(s), P.Program(m, l, 1), o);
  }
}
