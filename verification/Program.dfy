/**
 The lending program as far as the order of instructions goes: which reserves and whether the
 obligation are stale, the obligation's slots and its elevation group.  A plan is taken when
 every instruction is.
 */
module Programs {
  import opened Wrappers
  import opened Markets
  import opened Plans
  import opened Supports
  import opened ActionPlans
  import opened Ledgers
  import opened Movements
  import opened ActionTypes

  datatype Program = Program(machine: Machine, ledger: Ledger, group: nat)

  /** A reserve has a slot or can get one. */
  predicate HasRoom(slots: seq<Pubkey>, key: Pubkey) { key in slots || DefaultKey in slots }

  /** The positions a lending step acts on are there; a borrow also needs some deposit. */
  predicate Admits(l: Ledger, lending: LendingKind, acting: seq<Pubkey>)
  {
    if acting == [] then true
    else
      var r, last := acting[0], acting[|acting| - 1];
      match lending
      case DepositLiquidity => HasRoom(l.deposits, r)
      case DepositObligationCollateral => HasRoom(l.deposits, r)
      case BorrowLiquidity => l.Held().deposits != [] && HasRoom(l.borrows, r)
      case RepayLiquidity => r in l.borrows
      case WithdrawCollateral => r in l.deposits
      case LiquidateObligation => r in l.borrows && last in l.deposits
      case RepayAndWithdrawInOne => r in l.borrows && last in l.deposits
      case _ => true
  }

  /**
   One instruction, or refused.  A refresh of the obligation must be handed exactly its deposit
   and borrow reserves, in slot order and not stale.  A request must be too; it needs the
   obligation not stale and with a deposit, and another group than the current one.  A lending
   step needs its reserves and the obligation not stale, and the positions it acts on.
   */
  function Takes(p: Program, ix: Ix, o: Outcome): Option<Program>
  {
    var m, l := p.machine, p.ledger;
    match ix
    case RefreshReserve(r) => Some(p.(machine := m.(recent := m.recent + {r})))
    case RefreshObligation(named) =>
      if named == l.Held() && AllIn(named.Keys(), m.recent) then Some(p.(machine := m.(current := true))) else None
    case RequestElevation(g, named) =>
      if named == l.Held() && AllIn(named.Keys(), m.recent) && m.current && named.deposits != [] && g != p.group then
        Some(p.(machine := m.(current := false, trace := m.trace + [Requested(g)]), group := g))
      else None
    case Lend(lending, acting, amounts) =>
      if AllIn(acting, m.recent) && (lending.OnObligation() ==> m.current) && Admits(l, lending, acting) then
        Some(Program(
          Machine(m.recent - KeySet(acting), m.current && !lending.OnObligation(), m.trace + [Lent(lending, acting, amounts)]),
          After(l, Does(lending, acting, amounts), o), p.group))
      else None
    case _ => Some(p)
  }

  function TakesAll(p: Program, ixs: seq<Ix>, o: Outcome): Option<Program>
  {
    if ixs == [] then Some(p)
    else
      var before := TakesAll(p, ixs[..|ixs| - 1], o);
      if before.None? then None else Takes(before.value, ixs[|ixs| - 1], o)
  }

  lemma {:induction false} TakesAllAppends(p: Program, a: seq<Ix>, b: seq<Ix>, o: Outcome)
    ensures TakesAll(p, a + b, o) == if TakesAll(p, a, o).None? then None else TakesAll(TakesAll(p, a, o).value, b, o)
  {
    hide Takes;
    if b == [] {
      assert a + b == a;
    } else {
      var n := |b| - 1;
      assert (a + b)[..|a| + n] == a + b[..n];
      TakesAllAppends(p, a, b[..n], o);
    }
  }

  // ----- Staleness apart from slots and group -----

  /** The slots and the group, without staleness. */
  datatype State = State(ledger: Ledger, group: nat)

  predicate Allows(s: State, e: Event)
  {
    if e.Names? then
      && e.named == s.ledger.Held()
      && (e.request.Some? ==> e.named.deposits != [] && e.request.value != s.group)
    else Admits(s.ledger, e.lending, e.acting)
  }

  function Next(s: State, e: Event, o: Outcome): State
  {
    State(After(s.ledger, e, o), if e.Names? && e.request.Some? then e.request.value else s.group)
  }

  function Run(s: State, events: seq<Event>, o: Outcome): Option<State>
  {
    if events == [] then Some(s)
    else
      var n := |events| - 1;
      var before := Run(s, events[..n], o);
      if before.None? || !Allows(before.value, events[n]) then None else Some(Next(before.value, events[n], o))
  }

  lemma {:induction false} RunAppends(s: State, a: seq<Event>, b: seq<Event>, o: Outcome)
    ensures Run(s, a + b, o) == if Run(s, a, o).None? then None else Run(Run(s, a, o).value, b, o)
  {
    hide Allows, Next;
    if b == [] {
      assert a + b == a;
    } else {
      var n := |b| - 1;
      assert (a + b)[..|a| + n] == a + b[..n];
      RunAppends(s, a, b[..n], o);
    }
  }

  lemma RunOne(s: State, e: Event, o: Outcome)
    ensures Run(s, [e], o) == if Allows(s, e) then Some(Next(s, e, o)) else None
    ensures Run(s, [], o) == Some(s)
  {
    hide Allows, Next;
    assert [e][..0] == [];
  }

  /** Both parts of the program together. */
  function Joined(m: Option<Machine>, s: Option<State>): Option<Program>
  {
    if m.None? || s.None? then None else Some(Program(m.value, s.value.ledger, s.value.group))
  }

  lemma TakesInParts(p: Program, ix: Ix, o: Outcome)
    ensures Takes(p, ix, o) == Joined(Step(p.machine, ix), Run(State(p.ledger, p.group), EventsOf(ix), o))
  {
    hide Run, Admits, After, AllIn;
    var s := State(p.ledger, p.group);
    match ix {
      case RefreshObligation(named) =>
        RunOne(s, Names(named, None), o);
        NamingChangesNothing(p.ledger, named, None, o);
      case RequestElevation(g, named) =>
        RunOne(s, Names(named, Some(g)), o);
        NamingChangesNothing(p.ledger, named, Some(g), o);
      case Lend(lending, acting, amounts) => RunOne(s, Does(lending, acting, amounts), o);
      case _ => RunOne(s, Names(p.ledger.Held(), None), o);
    }
  }

  lemma NamingChangesNothing(l: Ledger, named: Naming, request: Option<nat>, o: Outcome)
    ensures After(l, Names(named, request), o) == l
  {}

  /** The program takes a list exactly if it finds nothing stale and slots and group are as the list assumes. */
  lemma {:induction false} TakesAllInParts(p: Program, ixs: seq<Ix>, o: Outcome)
    ensures TakesAll(p, ixs, o) == Joined(Replay(p.machine, ixs), Run(State(p.ledger, p.group), Events(ixs), o))
  {
    hide Takes, Step, Run, EventsOf;
    var s := State(p.ledger, p.group);
    if ixs == [] {
      RunOne(s, Names(p.ledger.Held(), None), o);
    } else {
      var n := |ixs| - 1;
      TakesAllInParts(p, ixs[..n], o);
      RunAppends(s, Events(ixs[..n]), EventsOf(ixs[n]), o);
      if Replay(p.machine, ixs[..n]).Some? && Run(s, Events(ixs[..n]), o).Some? {
        TakesInParts(TakesAll(p, ixs[..n], o).value, ixs[n], o);
      }
    }
  }

  // ----- Slots and group along a plan -----

  lemma RunNames(s: State, named: Naming, request: Option<nat>, o: Outcome)
    ensures Run(s, [Names(named, request)], o)
         == if Allows(s, Names(named, request)) then Some(s.(group := if request.Some? then request.value else s.group)) else None
  {
    hide Run, Allows;
    RunOne(s, Names(named, request), o);
    NamingChangesNothing(s.ledger, named, request, o);
  }

  /** What a request asks for: a deposit, and another group than the current one. */
  ghost predicate MayAsk(s: State, request: Option<nat>)
  {
    request.Some? ==> s.ledger.Held().deposits != [] && request.value != s.group
  }

  function Asked(s: State, request: Option<nat>): State { if request.Some? then s.(group := request.value) else s }

  lemma RunPair(s: State, named: Naming, request: Option<nat>, o: Outcome)
    ensures var end := if request.None? || (named == s.ledger.Held() && MayAsk(s, request)) then Some(Asked(s, request)) else None;
            && Run(s, RequestRefresh(named, request), o) == end
            && Run(s, RefreshRequest(named, request), o) == end
  {
    hide Run, Occupied;
    RunOne(s, Names(named, None), o);
    if request.Some? {
      var a, b := Names(named, None), Names(named, request);
      RunNames(s, named, None, o);
      RunNames(s, named, request, o);
      RunNames(Asked(s, request), named, None, o);
      RunAppends(s, [a], [b], o);
      RunAppends(s, [b], [a], o);
      assert [a] + [b] == [a, b] && [b] + [a] == [b, a];
    }
  }

  /** The request made before the lending steps, and the one made behind them. */
  ghost function FirstRequest(action: ActionType, ctx: Context, opts: Options): Option<nat>
    requires Decided(action, ctx, opts)
  {
    GroupBefore(ctx, SetupCall(action, opts)).value
  }

  ghost function MiddleRequest(action: ActionType, ctx: Context, opts: Options): Option<nat>
    requires Decided(action, ctx, opts)
  {
    if TwoStep(action) then GroupBefore(ctx, InBetweenCall(action, opts)).value else None
  }

  ghost function LastRequest(action: ActionType, ctx: Context, opts: Options): Option<nat>
    requires Decided(action, ctx, opts)
  {
    GroupAfter(ctx, SetupCall(action, opts)).value
  }

  /** A plan makes one request at most, and two-step plans none at first. */
  lemma OneRequestPerPlan(action: ActionType, ctx: Context, opts: Options)
    requires Decided(action, ctx, opts)
    ensures TwoStep(action) ==> FirstRequest(action, ctx, opts).None?
    ensures LastRequest(action, ctx, opts).Some? ==>
              FirstRequest(action, ctx, opts).None? && MiddleRequest(action, ctx, opts).None?
    ensures MiddleRequest(action, ctx, opts).Some? ==> action == DepositAndBorrow
  {
    hide GroupForBorrow;
  }

  lemma SetupRuns(action: ActionType, ctx: Context, opts: Options, s: State, o: Outcome)
    requires Decided(action, ctx, opts)
    ensures var request := FirstRequest(action, ctx, opts);
            Run(s, SetupEvents(action, ctx, opts), o)
            == if s.ledger.Held() == ListedAtStart(action, ctx, opts) && MayAsk(s, request) then Some(Asked(s, request)) else None
  {
    hide Run, GroupBefore, GroupAfter, ListedAtStart, Occupied, SetupCall, RequestRefresh;
    var held, request := ListedAtStart(action, ctx, opts), FirstRequest(action, ctx, opts);
    RunNames(s, held, None, o);
    RunPair(s, held, request, o);
    RunAppends(s, [Names(held, None)], RequestRefresh(held, request), o);
  }

  /** The positions the action's lending steps act on are there. */
  ghost predicate Acts(action: ActionType, ctx: Context, l: Ledger)
    requires MultiToken(action) ==> ctx.outflow.Some?
  {
    var r := ctx.reserve.address;
    if action in {Deposit, ActionType.DepositCollateral} then HasRoom(l.deposits, r)
    else if action == Borrow then l.Held().deposits != [] && HasRoom(l.borrows, r)
    else if action == Withdraw then r in l.deposits
    else if action == Repay then r in l.borrows
    else if action == DepositAndBorrow then HasRoom(l.deposits, r) && HasRoom(l.borrows, ctx.outflow.value.address)
    else if MultiToken(action) then r in l.borrows && ctx.outflow.value.address in l.deposits
    else true
  }

  lemma LendRuns(s: State, lend: Ix, o: Outcome)
    requires lend.Lend?
    ensures Run(s, [DoesOf(lend)], o)
         == if Admits(s.ledger, lend.lending, lend.acting) then Some(s.(ledger := After(s.ledger, DoesOf(lend), o))) else None
  {
    hide Run, Admits, After;
    RunOne(s, DoesOf(lend), o);
  }

  /** The admission of both lending steps is known at the start. */
  lemma ActsAre(action: ActionType, ctx: Context, opts: Options, l: Ledger, o: Outcome)
    requires Decided(action, ctx, opts) && Foreseen(action, ctx, o)
    ensures var lends := Lends(action, ctx, opts);
            var first := Admits(l, lends[0].lending, lends[0].acting);
            var mid := LedgerMidway(action, ctx, opts, l, o);
            && (!TwoStep(action) ==> (first <==> Acts(action, ctx, l)))
            && (TwoStep(action) ==> (first && Admits(mid, lends[1].lending, lends[1].acting) <==> Acts(action, ctx, l)))
            && (action == DepositAndBorrow && first ==> mid.Held().deposits != [])
  {
    hide GroupBefore, GroupAfter, Occupied, FirstFree, RepaidToSkip;
    if action == DepositAndBorrow {
      var r := ctx.reserve.address;
      if HasRoom(l.deposits, r) { TakenIsHeld(l.deposits, r); }
    }
  }

  lemma TakenIsHeld(slots: seq<Pubkey>, key: Pubkey)
    requires HasRoom(slots, key) && key != DefaultKey
    ensures key in Taken(slots, key) && Occupied(Taken(slots, key)) != []
  {
    var after := Taken(slots, key);
    if key !in slots {
      var j :| 0 <= j < |slots| && slots[j] == DefaultKey;
      assert after[FirstFree(slots)] == key;
    }
    ListedIffHeld(after, key);
  }

  lemma InBetweenRuns(action: ActionType, ctx: Context, opts: Options, l: Ledger, s: State, o: Outcome)
    requires Decided(action, ctx, opts) && TwoStep(action) && Matches(action, ctx, opts, l, o)
    requires s.ledger == LedgerMidway(action, ctx, opts, l, o)
    ensures var request := MiddleRequest(action, ctx, opts);
            Run(s, InBetweenEvents(action, ctx, opts), o)
            == if RightInBetween(action, ctx, l, o) && MayAsk(s, request) then Some(Asked(s, request)) else None
  {
    hide Run, GroupBefore, GroupAfter, RepaidToSkip, RightInBetween, LedgerMidway, Skipping, ListedInBetween, Occupied, Matches, InBetweenCall, SetupCall,
      RequestRefresh, MayAsk;
    var held, request := ListedInBetween(action, ctx, opts), MiddleRequest(action, ctx, opts);
    var named := Skipping(held, RepaidToSkip(ctx, InBetweenCall(action, opts)).value);
    InBetweenNamedIff(action, ctx, opts, l, o);
    OneRequestPerPlan(action, ctx, opts);
    NoRequestMayBeMade(s);
    RunNames(s, named, None, o);
    RunPair(s, held, request, o);
    RunAppends(s, [Names(named, None)], RequestRefresh(held, request), o);
  }

  lemma NoRequestMayBeMade(s: State)
    ensures MayAsk(s, None)
  {}

  /** The deposits left when a request is made behind the lending steps. */
  function DepositsLeft(action: ActionType, ctx: Context, l: Ledger, o: Outcome): seq<Pubkey>
    requires MultiToken(action) ==> ctx.outflow.Some?
  {
    var deposits := l.Held().deposits;
    if !o.emptied then deposits
    else if action == Withdraw then Without(deposits, [ctx.reserve.address])
    else if action in {RepayAndWithdraw, RepayAndWithdrawV2} then Without(deposits, [ctx.outflow.value.address])
    else deposits
  }

  lemma CleanupRuns(action: ActionType, ctx: Context, opts: Options, l: Ledger, s: State, o: Outcome)
    requires Decided(action, ctx, opts) && Matches(action, ctx, opts, l, o)
    requires s.ledger == LedgerAtEnd(action, ctx, opts, l, o)
    ensures var request := LastRequest(action, ctx, opts);
            Run(s, CleanupEvents(action, ctx, opts), o)
            == if request.None? || (RightInCleanup(action, ctx, l, o) && DepositsLeft(action, ctx, l, o) != [] && request.value != s.group)
               then Some(Asked(s, request)) else None
  {
    hide Run, GroupBefore, GroupAfter, RightInCleanup, Skipping, ListedAtStart, Occupied, SetupCall, RefreshRequest, LedgerAtEnd, SkippedAfter, Freed;
    var request := LastRequest(action, ctx, opts);
    RunPair(s, Skipping(ListedAtStart(action, ctx, opts), SkippedAfter(ctx, SetupCall(action, opts))), request, o);
    if request.Some? {
      NamedInCleanupIff(action, ctx, opts, l, o);
      EndOfRequestingPlan(action, ctx, opts, l, o);
      FreedIsWithout(l.deposits, ctx.reserve.address);
      if ctx.outflow.Some? { FreedIsWithout(l.deposits, ctx.outflow.value.address); }
    }
  }

  /**
   The slots hold what the plan lists, a request before the lending steps finds a deposit and
   asks for another group, and the lending steps find their positions and are named rightly.
   */
  ghost predicate LendsRightly(action: ActionType, ctx: Context, opts: Options, l: Ledger, group: nat, o: Outcome)
    requires Decided(action, ctx, opts)
  {
    && l.Held() == ListedAtStart(action, ctx, opts)
    && (FirstRequest(action, ctx, opts).Some? ==> l.Held().deposits != [])
    && Effect.Requested(group) !in TraceBeforeCleanup(action, ctx, opts)
    && Acts(action, ctx, l)
    && RightInBetween(action, ctx, l, o)
  }

  /** And a request behind the lending steps names what is held and not stale, finds a deposit and asks for another group. */
  ghost predicate EndsRightly(action: ActionType, ctx: Context, opts: Options, l: Ledger, group: nat, o: Outcome)
    requires Decided(action, ctx, opts)
  {
    && LendsRightly(action, ctx, opts, l, group, o)
    && Effect.Requested(group) !in ExpectedTrace(action, ctx, opts)
    && (LastRequest(action, ctx, opts).Some? ==>
          CleanupIsFresh(action, ctx, opts) && RightInCleanup(action, ctx, l, o) && DepositsLeft(action, ctx, l, o) != [])
  }

  lemma TraceAsksIff(action: ActionType, ctx: Context, opts: Options, group: nat)
    requires Decided(action, ctx, opts)
    ensures Effect.Requested(group) in TraceBeforeCleanup(action, ctx, opts) <==>
            FirstRequest(action, ctx, opts) == Some(group) || MiddleRequest(action, ctx, opts) == Some(group)
    ensures Effect.Requested(group) in ExpectedTrace(action, ctx, opts) <==>
            Effect.Requested(group) in TraceBeforeCleanup(action, ctx, opts) || LastRequest(action, ctx, opts) == Some(group)
  {
    hide GroupBefore, GroupAfter, Lends, SetupCall, InBetweenCall, RepaidToSkip;
  }

  /** The group after a plan's requests. */
  ghost function GroupAfterRequests(group: nat, action: ActionType, ctx: Context, opts: Options): nat
    requires Decided(action, ctx, opts)
  {
    var first, middle, last := FirstRequest(action, ctx, opts), MiddleRequest(action, ctx, opts), LastRequest(action, ctx, opts);
    if last.Some? then last.value else if middle.Some? then middle.value else if first.Some? then first.value else group
  }

  /** The only borrow of the obligation is repaid in full. */
  predicate RepaysOnlyBorrow(ctx: Context)
  {
    && ctx.obligation.Some? && |ctx.obligation.value.borrows| == 1
    && ctx.reserve.address in ctx.obligation.value.borrowAmounts
    && ctx.obligation.value.borrowAmounts[ctx.reserve.address] <= ctx.amount as real
  }

  /**
   Where a plan with requests leads: to the group asked for with a deposit, borrow or withdrawal;
   else a borrow leads to the best group its collateral and its debt share, if there is one, and
   repaying the only borrow in full to the default group; every other plan stays.
   */
  lemma PlanLeadsToGroup(action: ActionType, ctx: Context, opts: Options, coll: ReserveView, debt: ReserveView)
    requires Decided(action, ctx, opts) && HasObligation(action, ctx) && (!MultiToken(action) ==> ctx.outflow.None?)
    requires action in {Borrow, DepositAndBorrow} && (action == Borrow ==> opts.request && opts.overrideGroup.None?) ==> Sides(ctx, action, coll, debt)
    ensures var start := GroupAtStart(ctx);
            var end := GroupAfterRequests(start, action, ctx, opts);
            if !opts.request then end == start
            else if action in {Deposit, Borrow, Withdraw} && opts.overrideGroup.Some? then end == opts.overrideGroup.value
            else if action in {Borrow, DepositAndBorrow} then
              || BestShared(ctx.market, coll.elevationGroups, debt.elevationGroups, debt.address, end)
              || (end == start && forall g :: !Shared(ctx.market, coll.elevationGroups, debt.elevationGroups, debt.address, g))
            else if action in {Repay, RepayAndWithdraw, RepayAndWithdrawV2} then end == if RepaysOnlyBorrow(ctx) then 0 else start
            else end == start
  {
    hide GroupForBorrow, BestShared, Shared;
    if action in {Borrow, DepositAndBorrow} && opts.request && (action == Borrow ==> opts.overrideGroup.None?) {
      BorrowMovesToBestShared(ctx, action, coll, debt);
    }
  }

  lemma OneStepRuns(action: ActionType, ctx: Context, opts: Options, s: State, o: Outcome)
    requires Decided(action, ctx, opts) && !TwoStep(action) && Foreseen(action, ctx, o)
    ensures Run(s, EventsBeforeCleanup(action, ctx, opts), o)
         == if LendsRightly(action, ctx, opts, s.ledger, s.group, o)
            then Some(Asked(s, FirstRequest(action, ctx, opts)).(ledger := LedgerAtEnd(action, ctx, opts, s.ledger, o))) else None
  {
    hide Run, GroupBefore, GroupAfter, SetupEvents, Acts, Admits, After, ListedAtStart, Occupied, Lends, SetupCall, InBetweenCall, TraceBeforeCleanup,
      RightInBetween, Foreseen;
    var lend, setup, request := Lends(action, ctx, opts)[0], SetupEvents(action, ctx, opts), FirstRequest(action, ctx, opts);
    SetupRuns(action, ctx, opts, s, o);
    LendRuns(Asked(s, request), lend, o);
    RunAppends(s, setup, [DoesOf(lend)], o);
    assert EventsBeforeCleanup(action, ctx, opts) == setup + [DoesOf(lend)];
    ActsAre(action, ctx, opts, s.ledger, o);
    TraceAsksIff(action, ctx, opts, s.group);
    OneStepHasNoBetween(action, ctx, s.ledger, o);
  }

  lemma TwoStepRuns(action: ActionType, ctx: Context, opts: Options, s: State, o: Outcome)
    requires Decided(action, ctx, opts) && TwoStep(action) && Foreseen(action, ctx, o)
    ensures Run(s, EventsBeforeCleanup(action, ctx, opts), o)
         == if LendsRightly(action, ctx, opts, s.ledger, s.group, o)
            then Some(Asked(s, MiddleRequest(action, ctx, opts)).(ledger := LedgerAtEnd(action, ctx, opts, s.ledger, o))) else None
  {
    hide Run, GroupBefore, GroupAfter, SetupEvents, InBetweenEvents, Acts, Admits, After, ListedAtStart, Occupied, Lends, SetupCall, InBetweenCall,
      TraceBeforeCleanup, RightInBetween, Foreseen, RepaidToSkip;
    var lends, setup, between := Lends(action, ctx, opts), SetupEvents(action, ctx, opts), InBetweenEvents(action, ctx, opts);
    var first, second := [DoesOf(lends[0])], [DoesOf(lends[1])];
    var middle := MiddleRequest(action, ctx, opts);
    OneRequestPerPlan(action, ctx, opts);
    SetupRuns(action, ctx, opts, s, o);
    LendRuns(s, lends[0], o);
    RunAppends(s, setup, first, o);
    RunAppends(s, setup + first, between + second, o);
    ActsAre(action, ctx, opts, s.ledger, o);
    TraceAsksIff(action, ctx, opts, s.group);
    var mid := s.(ledger := LedgerMidway(action, ctx, opts, s.ledger, o));
    if s.ledger.Held() == ListedAtStart(action, ctx, opts) && Admits(s.ledger, lends[0].lending, lends[0].acting) {
      InBetweenRuns(action, ctx, opts, s.ledger, mid, o);
      LendRuns(Asked(mid, middle), lends[1], o);
      RunAppends(mid, between, second, o);
    }
  }

  // ----- Plans that the program takes -----

  lemma BeforeCleanupRuns(action: ActionType, ctx: Context, opts: Options, s: State, o: Outcome)
    requires Decided(action, ctx, opts) && Foreseen(action, ctx, o)
    ensures var end := Run(s, EventsBeforeCleanup(action, ctx, opts), o);
            && (end.Some? <==> LendsRightly(action, ctx, opts, s.ledger, s.group, o))
            && (end.Some? ==>
                  && end.value.ledger == LedgerAtEnd(action, ctx, opts, s.ledger, o)
                  && end.value == Asked(Asked(end.value.(group := s.group), FirstRequest(action, ctx, opts)), MiddleRequest(action, ctx, opts)))
  {
    hide Run, EventsBeforeCleanup, LendsRightly, LedgerAtEnd, GroupBefore, GroupAfter, SetupCall, InBetweenCall, Foreseen;
    OneRequestPerPlan(action, ctx, opts);
    if TwoStep(action) { TwoStepRuns(action, ctx, opts, s, o); } else { OneStepRuns(action, ctx, opts, s, o); }
  }

  lemma ExpectedRuns(action: ActionType, ctx: Context, opts: Options, s: State, o: Outcome)
    requires Decided(action, ctx, opts) && Foreseen(action, ctx, o)
    ensures var end := Run(s, ExpectedEvents(action, ctx, opts), o);
            && (end.Some? && CleanupIsFresh(action, ctx, opts) <==> EndsRightly(action, ctx, opts, s.ledger, s.group, o))
            && (end.Some? ==> end.value == State(LedgerAtEnd(action, ctx, opts, s.ledger, o), GroupAfterRequests(s.group, action, ctx, opts)))
  {
    hide Run, EventsBeforeCleanup, CleanupEvents, LedgerAtEnd, GroupBefore, GroupAfter, SetupCall, InBetweenCall, Foreseen, Acts, RightInBetween,
      RightInCleanup, DepositsLeft, ListedAtStart, TraceBeforeCleanup, ExpectedTrace, CleanupIsFresh, Occupied;
    var l := s.ledger;
    BeforeCleanupRuns(action, ctx, opts, s, o);
    RunAppends(s, EventsBeforeCleanup(action, ctx, opts), CleanupEvents(action, ctx, opts), o);
    TraceAsksIff(action, ctx, opts, s.group);
    OneRequestPerPlan(action, ctx, opts);
    var lent := Run(s, EventsBeforeCleanup(action, ctx, opts), o);
    if lent.Some? { CleanupRuns(action, ctx, opts, l, lent.value, o); }
    if LastRequest(action, ctx, opts).None? { NothingBehindIsFresh(action, ctx, opts); }
  }

  lemma NothingBehindIsFresh(action: ActionType, ctx: Context, opts: Options)
    requires Decided(action, ctx, opts) && LastRequest(action, ctx, opts).None?
    ensures CleanupIsFresh(action, ctx, opts)
  {}

  /**
   From any state of the program, a finished plan is taken up to and including its last lending
   step if and only if `LendsRightly`, and as a whole if and only if `EndsRightly`.  Its effects
   then are exactly those asked for.
   */
  lemma PlanIsTakenIff(action: ActionType, given: Context, opts: Options, p: Program, o: Outcome)
    requires NeedsSupport(action) && Built(action, given, opts).Ok?
    requires Initialized(action, given).Ok? && Foreseen(action, Initialized(action, given).value, o)
    ensures Decided(action, Initialized(action, given).value, opts)
    ensures var ctx, plan := Initialized(action, given).value, Built(action, given, opts).value;
            var lent, end := TakesAll(p, plan.BeforeCleanup(), o), TakesAll(p, plan.Ixs(), o);
            && (lent.Some? <==> LendsRightly(action, ctx, opts, p.ledger, p.group, o))
            && (lent.Some? ==> lent.value.machine.trace == p.machine.trace + TraceBeforeCleanup(action, ctx, opts))
            && (end.Some? <==> EndsRightly(action, ctx, opts, p.ledger, p.group, o))
            && (end.Some? ==>
                  && end.value.machine.trace == p.machine.trace + ExpectedTrace(action, ctx, opts)
                  && end.value.ledger == LedgerAtEnd(action, ctx, opts, p.ledger, o)
                  && end.value.group == GroupAfterRequests(p.group, action, ctx, opts))
  {
    hide Run, TakesAll, Replay, Built, Events, EventsBeforeCleanup, ExpectedEvents, LendsRightly, EndsRightly, LedgerAtEnd, GroupAfterRequests,
      TraceBeforeCleanup, ExpectedTrace, CleanupIsFresh, Foreseen, GroupBefore, GroupAfter, SetupCall, InBetweenCall, Initialized, RepaidToSkip;
    var ctx, plan := Initialized(action, given).value, Built(action, given, opts).value;
    var s := State(p.ledger, p.group);
    TakesAllInParts(p, plan.BeforeCleanup(), o);
    TakesAllInParts(p, plan.Ixs(), o);
    BuiltPlanReplays(action, given, opts, p.machine);
    BuiltEvents(action, given, opts);
    BeforeCleanupRuns(action, ctx, opts, s, o);
    ExpectedRuns(action, ctx, opts, s, o);
  }

  /** The program ends having moved, of every kind and for every reserve, what was asked for and no more. */
  ghost predicate MovesAsAsked(action: ActionType, ctx: Context, opts: Options, before: Machine, after: Machine)
  {
    forall mv, key :: Moved(after.trace, mv, key) == Moved(before.trace, mv, key) + AskedFor(action, ctx, opts, mv, key)
  }

  /**
   A plan of an action is taken, from any state of the program, exactly if `EndsRightly`, and then
   moves exactly what was asked for.
   */
  ghost predicate TakenAsPlanned(action: ActionType, ctx: Context, opts: Options, plan: Plan)
  {
    Decided(action, ctx, opts) && forall p, o :: Foreseen(action, ctx, o) ==> TakenFrom(action, ctx, opts, plan, p, o)
  }

  ghost predicate TakenFrom(action: ActionType, ctx: Context, opts: Options, plan: Plan, p: Program, o: Outcome)
    requires Decided(action, ctx, opts)
  {
    var end := TakesAll(p, plan.Ixs(), o);
    && (end.Some? <==> EndsRightly(action, ctx, opts, p.ledger, p.group, o))
    && (end.Some? ==> MovesAsAsked(action, ctx, opts, p.machine, end.value.machine))
  }

  /** A taken plan moves exactly what was asked for. */
  lemma TakenPlanMovesWhatWasAsked(action: ActionType, given: Context, opts: Options, p: Program, o: Outcome)
    requires NeedsSupport(action) && Built(action, given, opts).Ok?
    requires Initialized(action, given).Ok? && Foreseen(action, Initialized(action, given).value, o)
    ensures var end := TakesAll(p, Built(action, given, opts).value.Ixs(), o);
            end.Some? ==> MovesAsAsked(action, Initialized(action, given).value, opts, p.machine, end.value.machine)
  {
    hide Built, TakesAll, EndsRightly, LendsRightly, Foreseen, Moved, AskedFor, ExpectedTrace, TraceBeforeCleanup, LedgerAtEnd, GroupAfterRequests,
      GroupBefore, GroupAfter, SetupCall, InBetweenCall, RepaidToSkip;
    PlanIsTakenIff(action, given, opts, p, o);
    var ctx, end := Initialized(action, given).value, TakesAll(p, Built(action, given, opts).value.Ixs(), o);
    if end.Some? {
      forall mv, key
        ensures Moved(end.value.machine.trace, mv, key) == Moved(p.machine.trace, mv, key) + AskedFor(action, ctx, opts, mv, key) {
        MovedAppends(p.machine.trace, ExpectedTrace(action, ctx, opts), mv, key);
        PlanMovesWhatWasAsked(action, ctx, opts, mv, key);
      }
    }
  }

  lemma BuiltIsTakenAsPlanned(action: ActionType, given: Context, opts: Options)
    requires NeedsSupport(action) && Built(action, given, opts).Ok?
    ensures Initialized(action, given).Ok?
    ensures TakenAsPlanned(action, Initialized(action, given).value, opts, Built(action, given, opts).value)
    ensures |Built(action, given, opts).value.lending| <= 2
  {
    hide Built, Decided, Foreseen, Replay, TakenFrom;
    BuiltTransaction(action, given, opts, START);
    BuiltEvents(action, given, opts);
    var ctx, plan := Initialized(action, given).value, Built(action, given, opts).value;
    forall p, o | Foreseen(action, ctx, o) ensures TakenFrom(action, ctx, opts, plan, p, o) {
      BuiltIsTakenFrom(action, given, opts, p, o);
    }
  }

  lemma BuiltIsTakenFrom(action: ActionType, given: Context, opts: Options, p: Program, o: Outcome)
    requires NeedsSupport(action) && Built(action, given, opts).Ok?
    requires Initialized(action, given).Ok? && Foreseen(action, Initialized(action, given).value, o)
    ensures var ctx := Initialized(action, given).value;
            Decided(action, ctx, opts) && TakenFrom(action, ctx, opts, Built(action, given, opts).value, p, o)
  {
    hide Built, TakesAll, EndsRightly, Foreseen, MovesAsAsked;
    BuiltEvents(action, given, opts);
    PlanIsTakenIff(action, given, opts, p, o);
    TakenPlanMovesWhatWasAsked(action, given, opts, p, o);
  }

  /** A refresh or request is taken exactly if the slots are as listed and the group asked for is another one. */
  ghost predicate TakenAsListed(ctx: Context, group: Option<nat>, plan: Plan)
    requires ctx.obligation.Some?
  {
    forall p, o :: TakesAll(p, plan.Ixs(), o).Some? <==>
      p.ledger.Held() == Naming(ctx.obligation.value.deposits, ctx.obligation.value.borrows) && group != Some(p.group)
  }

  lemma RefreshOrRequestIsTakenAsListed(ctx: Context, units: nat, group: Option<nat>)
    requires RefreshOrRequest(ctx, units, group).Ok?
    ensures ctx.obligation.Some? && TakenAsListed(ctx, group, RefreshOrRequest(ctx, units, group).value)
  {
    hide TakesAll, RefreshedAll, Occupied;
    forall p, o
      ensures TakesAll(p, RefreshOrRequest(ctx, units, group).value.Ixs(), o).Some? <==>
              p.ledger.Held() == Naming(ctx.obligation.value.deposits, ctx.obligation.value.borrows) && group != Some(p.group) {
      RefreshOrRequestIsTakenIff(ctx, units, group, p, o);
    }
  }

  /** The transaction of a built plan is taken exactly as the plan is. */
  lemma TransactionIsTakenAlike(action: ActionType, given: Context, opts: Options, p: Program, o: Outcome)
    requires NeedsSupport(action) && Built(action, given, opts).Ok?
    ensures var plan := Built(action, given, opts).value;
            TakesAll(p, plan.Transaction(), o) == TakesAll(p, plan.Ixs(), o)
  {
    hide Run, TakesAll, Replay, Built, Events;
    var plan := Built(action, given, opts).value;
    BuiltTransaction(action, given, opts, p.machine);
    LendingOf(action, given, opts);
    EventsAppend(plan.computeBudget, plan.Transaction());
    NeutralHasNoEvents(plan.computeBudget);
    assert [] + Events(plan.Transaction()) == Events(plan.Transaction());
    TakesAllInParts(p, plan.Transaction(), o);
    TakesAllInParts(p, plan.Ixs(), o);
  }

  // ----- Plans without support -----

  lemma RefreshedAllEvents(plan: Plan, ctx: Context)
    requires plan.setup == [] && plan.preLoaded == [] && RefreshedAll(plan, ctx).Ok?
    ensures var q := RefreshedAll(plan, ctx).value;
            var held := Naming(plan.depositReserves, plan.borrowReserves);
            Events(q.setup) == [Names(held, None)] && ListsOf(q) == held
  {
    hide Events, RefreshIxs, FarmRefreshes, Unique, Without;
    var keys := Unique(plan.depositReserves + plan.borrowReserves);
    var a, b := FarmRefreshes(Views(ctx.market, plan.depositReserves), CollateralFarm), FarmRefreshes(Views(ctx.market, plan.borrowReserves), DebtFarm);
    NoEvents();
    var p1 := plan.Append(Setup, RefreshIxs(keys));
    RefreshSuffix([], keys);
    NeutralSuffix(p1.setup, a);
    NeutralSuffix(p1.setup + a, b);
    var p3 := FarmsAdded(FarmsAdded(p1, Setup, a, false), Setup, b, false);
    assert ListsOf(p3) == Naming(plan.depositReserves, plan.borrowReserves);
    SkippingNothing(ListsOf(p3));
    EventsOfRefresh(p3, Setup, []);
    ListsStay(p3, Setup, [Ix.RefreshObligation(p3.Named([]))]);
  }

  lemma RefreshOrRequestEvents(ctx: Context, units: nat, group: Option<nat>)
    requires RefreshOrRequest(ctx, units, group).Ok?
    ensures var held := Naming(ctx.obligation.value.deposits, ctx.obligation.value.borrows);
            Events(RefreshOrRequest(ctx, units, group).value.Ixs())
            == [Names(held, None)] + if group.Some? then [Names(held, group)] else []
  {
    hide Events, RefreshedAll, ListsOf, Skipping;
    var start := WithBudget(EmptyPlan(ctx), units);
    var q, plan := RefreshedAll(start, ctx).value, RefreshOrRequest(ctx, units, group).value;
    RefreshedAllEvents(start, ctx);
    RefreshedAllFrame(start, ctx);
    if group.Some? {
      SkippingNothing(ListsOf(q));
      EventsOfRequest(q, group.value, Setup, []);
    }
    assert plan.LendingIxs() == [];
    NoEvents();
    IxsEvents(plan);
  }

  /** A refresh of the obligation is taken exactly if the slots are as listed, a request exactly if it asks for another group too. */
  lemma RefreshOrRequestIsTakenIff(ctx: Context, units: nat, group: Option<nat>, p: Program, o: Outcome)
    requires RefreshOrRequest(ctx, units, group).Ok?
    ensures var end := TakesAll(p, RefreshOrRequest(ctx, units, group).value.Ixs(), o);
            && (end.Some? <==>
                p.ledger.Held() == Naming(ctx.obligation.value.deposits, ctx.obligation.value.borrows) && group != Some(p.group))
            && (end.Some? ==> end.value.ledger == p.ledger && end.value.group == if group.Some? then group.value else p.group)
  {
    hide Run, TakesAll, Replay, Events, RefreshedAll, Occupied;
    var plan, s := RefreshOrRequest(ctx, units, group).value, State(p.ledger, p.group);
    var held := Naming(ctx.obligation.value.deposits, ctx.obligation.value.borrows);
    RefreshOrRequestEvents(ctx, units, group);
    RefreshOrRequestReplays(ctx, units, group, p.machine);
    TakesAllInParts(p, plan.Ixs(), o);
    RunNames(s, held, None, o);
    RunNames(s, held, group, o);
    RunOne(s, Names(held, None), o);
    RunAppends(s, [Names(held, None)], if group.Some? then [Names(held, group)] else [], o);
  }

  /** The payout of referrer fees is always taken. */
  lemma ReferrerFeesAreTaken(ctx: Context, p: Program, o: Outcome)
    requires ReferrerFeesPlan(ctx).Ok?
    ensures TakesAll(p, ReferrerFeesPlan(ctx).value.Ixs(), o).Some?
  {
    hide Run, TakesAll, Replay, Events, RefreshIxs;
    var plan, r := ReferrerFeesPlan(ctx).value, ctx.reserve.address;
    var lend := Lend(PayReferrerFees, [r], []);
    ReferrerFeesReplay(ctx, p.machine);
    TakesAllInParts(p, plan.Ixs(), o);
    IxsEvents(plan);
    NoEvents();
    NeutralSuffix(RefreshIxs([r]), [Preparation(TokenAccount(0))]);
    RefreshesHaveNoEvents([r]);
    LendEvents(lend);
    assert Events(plan.Ixs()) == [DoesOf(lend)];
    LendRuns(State(p.ledger, p.group), lend, o);
  }

  ghost predicate AlwaysTaken(plan: Plan) { forall p, o :: TakesAll(p, plan.Ixs(), o).Some? }

  lemma ReferrerFeesAreAlwaysTaken(ctx: Context)
    requires ReferrerFeesPlan(ctx).Ok?
    ensures AlwaysTaken(ReferrerFeesPlan(ctx).value)
  {
    hide TakesAll, ReferrerFeesPlan;
    forall p, o ensures TakesAll(p, ReferrerFeesPlan(ctx).value.Ixs(), o).Some? { ReferrerFeesAreTaken(ctx, p, o); }
  }

  // ----- Instances -----

  /** Closing a deposit whose reserve is also borrowed, with a request behind it, is refused. */
  lemma ClosingBothSidesIsRefused(r: ReserveView, m: Machine, o: Outcome)
    requires r.address != DefaultKey
    ensures var ctx, opts := BothSides(r, U64_MAX), RequestBehind(1);
            && Built(Withdraw, ctx, opts).Ok?
            && TakesAll(Program(m, Ledger([r.address], [r.address]), 0), Built(Withdraw, ctx, opts).value.Ixs(), o).None?
  {
    hide Built, TakesAll;
    var ctx, opts, l := BothSides(r, U64_MAX), RequestBehind(1), Ledger([r.address], [r.address]);
    BothSidesMatch(r, U64_MAX, o);
    PlanIsTakenIff(Withdraw, ctx, opts, Program(m, l, 0), o);
  }

  /** A withdrawal of everything that asks for the group the obligation is in is refused. */
  lemma CurrentGroupIsRefused(r: ReserveView, m: Machine, l: Ledger, group: nat, o: Outcome)
    requires r.address != DefaultKey
    ensures var ctx := PartialWithdrawal(r).(amount := U64_MAX);
            var opts := RequestBehind(group);
            && Built(Withdraw, ctx, opts).Ok?
            && TakesAll(Program(m, l, group), Built(Withdraw, ctx, opts).value.Ixs(), o).None?
  {
    hide Built, TakesAll;
    var ctx, opts := PartialWithdrawal(r).(amount := U64_MAX), RequestBehind(group);
    assert ctx.market.reserves[0].address == r.address;
    DepositOrWithdrawIsPlanned(Withdraw, ctx, opts);
    PlanIsTakenIff(Withdraw, ctx, opts, Program(m, l, group), o);
    TraceAsksIff(Withdraw, ctx, opts, group);
  }

  /** Withdrawing all of the first of two deposits, with a request for group 1 behind it. */
  function FirstOfTwo(a: ReserveView, b: ReserveView): Context
  {
    Context(Market([a, b], [GroupConfig(1, b.address, 5, 90, 95)]), a, None,
      Some(ObligationView([a.address, b.address], [], map[], 0)), U64_MAX, {})
  }

  /** It is taken once the withdrawal empties the deposit. */
  lemma ClosingOneOfTwoIsTaken(a: ReserveView, b: ReserveView, m: Machine)
    requires a.address != DefaultKey && b.address != DefaultKey && a.address != b.address
    ensures var ctx, opts := FirstOfTwo(a, b), RequestBehind(1);
            && Built(Withdraw, ctx, opts).Ok?
            && TakesAll(Program(m, Ledger([a.address, b.address], []), 0), Built(Withdraw, ctx, opts).value.Ixs(), Outcome(false, true)).Some?
  {
    hide Built, TakesAll, Without;
    var ctx, opts, l := FirstOfTwo(a, b), RequestBehind(1), Ledger([a.address, b.address], []);
    var o := Outcome(false, true);
    assert ctx.market.reserves[0].address == a.address && ctx.market.reserves[1].address == b.address;
    DepositOrWithdrawIsPlanned(Withdraw, ctx, opts);
    PlanIsTakenIff(Withdraw, ctx, opts, Program(m, l, 0), o);
    AllOccupied(l.deposits);
    AllOccupied([]);
    assert [a.address, b.address] + [] == l.deposits;
    TraceAsksIff(Withdraw, ctx, opts, 0);
    assert b.address in Without(l.deposits, [a.address]);
  }

  /** Depositing a new reserve and borrowing another, for an obligation whose only deposit is not in the first slot. */
  function DepositBeforeHole(held: ReserveView, deposited: ReserveView, borrowed: ReserveView): Context
  {
    Context(Market([held, deposited, borrowed], []), deposited, Some(borrowed),
      Some(ObligationView([held.address], [], map[], 0)), 5, {})
  }

  function PlainOptions(): Options
  {
    Options(0, None, Atas([], []), false, false, false, true, false, None, [], false, 5)
  }

  /** The deposit lands in the first slot but is named behind the other, so the plan is refused before its borrow. */
  lemma DepositIntoHoleIsRefused(held: ReserveView, deposited: ReserveView, borrowed: ReserveView, m: Machine, o: Outcome)
    requires held.address != DefaultKey && deposited.address != DefaultKey && borrowed.address != DefaultKey
    requires deposited.address != held.address
    ensures var ctx, opts := DepositBeforeHole(held, deposited, borrowed), PlainOptions();
            && Built(DepositAndBorrow, ctx, opts).Ok?
            && TakesAll(Program(m, Ledger([DefaultKey, held.address], []), 0), Built(DepositAndBorrow, ctx, opts).value.BeforeCleanup(), o).None?
  {
    hide Built, TakesAll, Occupied;
    var ctx, opts, l := DepositBeforeHole(held, deposited, borrowed), PlainOptions(), Ledger([DefaultKey, held.address], []);
    var reserves := ctx.market.reserves;
    assert reserves[0].address == held.address && reserves[1].address == deposited.address && reserves[2].address == borrowed.address;
    PlanExistsIff(DepositAndBorrow, ctx, opts);
    PlanIsTakenIff(DepositAndBorrow, ctx, opts, Program(m, l, 0), o);
    assert FirstFree(l.deposits) == 0 && l.deposits[1] != DefaultKey;
  }
}
