/**
 Transaction plans: the instructions a builder collects, the machine that replays them in
 order, and the lists of a plan under construction.
 */
module Plans {
  import opened Wrappers
  import opened Markets

  // ----- Instructions and labels -----

  datatype FarmKind = CollateralFarm | DebtFarm

  datatype LendingKind =
    | DepositLiquidity | DepositObligationCollateral | BorrowLiquidity | WithdrawCollateral | RepayLiquidity
    | LiquidateObligation | RepayAndWithdrawInOne | PayReferrerFees | MintCollateral | RedeemCollateral
  {
    /** The step acts on the obligation. */
    predicate OnObligation() { !PayReferrerFees? && !MintCollateral? && !RedeemCollateral? }
  }

  datatype SetupKind =
    | CreateUserLut | InitUserMetadata | InitObligation | InitReferrerTokenState | RefreshScopePrices | TokenAccount(tag: nat)

  /** The reserves handed over with an obligation: those of its deposits, then those of its borrows. */
  datatype Naming = Naming(deposits: seq<Pubkey>, borrows: seq<Pubkey>) {
    function Keys(): seq<Pubkey> { deposits + borrows }
  }

  datatype Ix =
    | ComputeBudget(units: nat)
    | Preparation(kind: SetupKind)
    | InitFarm(reserve: Pubkey, farm: FarmKind)
    | RefreshFarm(reserve: Pubkey, farm: FarmKind)
    | RefreshReserve(reserve: Pubkey)
    | RefreshObligation(named: Naming)
    | RequestElevation(group: nat, named: Naming)
    | Lend(lending: LendingKind, acting: seq<Pubkey>, amounts: seq<nat>)

  datatype Label =
    | ComputeBudgetLabel(units: nat)
    | PreparationLabel(kind: SetupKind)
    | InitFarmLabel(reserve: Pubkey)
    | RefreshFarmLabel(farm: FarmKind, reserve: Pubkey)
    | RefreshReserveLabel(reserve: Pubkey)
    | RefreshObligationLabel
    | RequestElevationLabel(group: nat)
    | LendLabel(lending: LendingKind)

  function LabelOf(ix: Ix): Label
  {
    match ix
    case ComputeBudget(units) => ComputeBudgetLabel(units)
    case Preparation(kind) => PreparationLabel(kind)
    case InitFarm(reserve, _) => InitFarmLabel(reserve)
    case RefreshFarm(reserve, farm) => RefreshFarmLabel(farm, reserve)
    case RefreshReserve(reserve) => RefreshReserveLabel(reserve)
    case RefreshObligation(_) => RefreshObligationLabel
    case RequestElevation(group, _) => RequestElevationLabel(group)
    case Lend(lending, _, _) => LendLabel(lending)
  }

  /** The label list is index-parallel to the instruction list. */
  ghost predicate Parallel(ixs: seq<Ix>, labels: seq<Label>)
  {
    |labels| == |ixs| && forall i :: 0 <= i < |ixs| ==> labels[i] == LabelOf(ixs[i])
  }

  // ----- Replay -----

  datatype Effect = Requested(group: nat) | Lent(lending: LendingKind, acting: seq<Pubkey>, amounts: seq<nat>)

  /**
   What the lending program remembers of staleness: the reserves that are not stale, whether the
   obligation is not stale, and the effects so far.
   */
  datatype Machine = Machine(recent: set<Pubkey>, current: bool, trace: seq<Effect>)

  const START := Machine({}, false, [])

  predicate AllIn(keys: seq<Pubkey>, s: set<Pubkey>) { forall k :: k in keys ==> k in s }

  function KeySet(keys: seq<Pubkey>): set<Pubkey> { set k | k in keys }

  /**
   One step, or refused as stale.  An obligation refresh or group request may not name a stale reserve; a
   request needs an obligation that is not stale and leaves it stale; a lending step needs its own
   reserves and, on an obligation, the obligation not stale, and leaves all of them stale.
   */
  function Step(m: Machine, ix: Ix): Option<Machine>
  {
    match ix
    case RefreshReserve(r) => Some(m.(recent := m.recent + {r}))
    case RefreshObligation(named) => if AllIn(named.Keys(), m.recent) then Some(m.(current := true)) else None
    case RequestElevation(g, named) =>
      if m.current && AllIn(named.Keys(), m.recent) then Some(m.(current := false, trace := m.trace + [Requested(g)]))
      else None
    case Lend(lending, acting, amounts) =>
      if AllIn(acting, m.recent) && (lending.OnObligation() ==> m.current) then
        Some(Machine(m.recent - KeySet(acting), m.current && !lending.OnObligation(), m.trace + [Lent(lending, acting, amounts)]))
      else None
    case _ => Some(m)
  }

  function Replay(m: Machine, ixs: seq<Ix>): Option<Machine>
  {
    if ixs == [] then Some(m)
    else
      var before := Replay(m, ixs[..|ixs| - 1]);
      if before.None? then None else Step(before.value, ixs[|ixs| - 1])
  }

  lemma {:induction false} ReplayAppends(m: Machine, a: seq<Ix>, b: seq<Ix>)
    ensures Replay(m, a + b) == if Replay(m, a).None? then None else Replay(Replay(m, a).value, b)
  {
    if b == [] {
      assert a + b == a;
    } else {
      var n := |b| - 1;
      assert (a + b)[..|a| + n] == a + b[..n];
      ReplayAppends(m, a, b[..n]);
    }
  }

  /** The second machine knows at least as much as the first. */
  ghost predicate Covers(n: Machine, m: Machine)
  {
    m.recent <= n.recent && (m.current ==> n.current)
  }

  lemma StepFromMore(m: Machine, n: Machine, ix: Ix)
    requires Covers(n, m) && Step(m, ix).Some?
    ensures Step(n, ix).Some? && Covers(Step(n, ix).value, Step(m, ix).value)
    ensures var trace := Step(m, ix).value.trace;
            m.trace <= trace && Step(n, ix).value.trace == n.trace + trace[|m.trace|..]
  {}

  /** What replays from one machine replays from any that knows more, with the same effects. */
  lemma {:induction false} ReplayFromMore(m: Machine, n: Machine, ixs: seq<Ix>)
    requires Covers(n, m) && Replay(m, ixs).Some?
    ensures Replay(n, ixs).Some? && Covers(Replay(n, ixs).value, Replay(m, ixs).value)
    ensures var trace := Replay(m, ixs).value.trace;
            m.trace <= trace && Replay(n, ixs).value.trace == n.trace + trace[|m.trace|..]
  {
    hide Step, Covers;
    if ixs != [] {
      var init := ixs[..|ixs| - 1];
      ReplayFromMore(m, n, init);
      StepFromMore(Replay(m, init).value, Replay(n, init).value, ixs[|ixs| - 1]);
    }
  }

  predicate Neutral(ix: Ix) { ix.ComputeBudget? || ix.Preparation? || ix.InitFarm? || ix.RefreshFarm? }

  ghost predicate AllNeutral(ixs: seq<Ix>) { forall i :: 0 <= i < |ixs| ==> Neutral(ixs[i]) }

  lemma {:induction false} ReplayNeutral(m: Machine, ixs: seq<Ix>)
    requires AllNeutral(ixs)
    ensures Replay(m, ixs) == Some(m)
  {
    if ixs != [] { ReplayNeutral(m, ixs[..|ixs| - 1]); }
  }

  function RefreshIxs(keys: seq<Pubkey>): seq<Ix>
  {
    if keys == [] then [] else RefreshIxs(keys[..|keys| - 1]) + [RefreshReserve(keys[|keys| - 1])]
  }

  lemma {:induction false} ReplayRefreshes(m: Machine, keys: seq<Pubkey>)
    ensures Replay(m, RefreshIxs(keys)) == Some(m.(recent := m.recent + KeySet(keys)))
  {
    hide Replay, RefreshIxs;
    RefreshIxsUnfolds(keys);
    if keys == [] {
      ReplayNeutral(m, []);
      assert m.recent + KeySet(keys) == m.recent;
    } else {
      var n := |keys| - 1;
      ReplayRefreshes(m, keys[..n]);
      assert keys == keys[..n] + [keys[n]];
      assert KeySet(keys) == KeySet(keys[..n]) + {keys[n]};
      ReplaySnoc(m, RefreshIxs(keys[..n]), RefreshReserve(keys[n]));
      assert m.recent + KeySet(keys) == m.recent + KeySet(keys[..n]) + {keys[n]};
    }
  }

  lemma RefreshIxsUnfolds(keys: seq<Pubkey>)
    ensures keys == [] ==> RefreshIxs(keys) == []
    ensures keys != [] ==> RefreshIxs(keys) == RefreshIxs(keys[..|keys| - 1]) + [RefreshReserve(keys[|keys| - 1])]
  {}

  lemma ReplaySnoc(m: Machine, ixs: seq<Ix>, ix: Ix)
    ensures Replay(m, ixs + [ix]) == if Replay(m, ixs).None? then None else Step(Replay(m, ixs).value, ix)
  {
    assert (ixs + [ix])[..|ixs|] == ixs;
  }

  // ----- Key lists -----

  /** Keys that are not skipped, in order. */
  function Without(keys: seq<Pubkey>, skip: seq<Pubkey>): (r: seq<Pubkey>)
    ensures forall k :: k in r <==> k in keys && k !in skip
  {
    if keys == [] then []
    else
      var n := |keys| - 1;
      assert keys == keys[..n] + [keys[n]];
      Without(keys[..n], skip) + if keys[n] in skip then [] else [keys[n]]
  }

  /** The keys of a list, each once, in order of first appearance. */
  function Unique(keys: seq<Pubkey>): (r: seq<Pubkey>)
    ensures forall k :: k in r <==> k in keys
    ensures NoDuplicates(r)
  {
    if keys == [] then []
    else
      var n := |keys| - 1;
      assert keys == keys[..n] + [keys[n]];
      Add(Unique(keys[..n]), keys[n])
  }

  /** The deposit reserves with the preloaded ones that are missing. */
  function Merged(deposits: seq<Pubkey>, preLoaded: seq<Pubkey>): (r: seq<Pubkey>)
    ensures forall k :: k in r <==> k in deposits || k in preLoaded
  {
    if preLoaded == [] then deposits
    else
      var n := |preLoaded| - 1;
      assert preLoaded == preLoaded[..n] + [preLoaded[n]];
      Add(Merged(deposits, preLoaded[..n]), preLoaded[n])
  }

  // ----- Plans -----

  datatype AuxiliaryIx = Setup | InBetween | Cleanup

  datatype Plan = Plan(
    computeBudget: seq<Ix>,
    setup: seq<Ix>,
    inBetween: seq<Ix>,
    lending: seq<Ix>,
    cleanup: seq<Ix>,
    farmsCleanup: seq<Ix>,
    depositReserves: seq<Pubkey>,
    borrowReserves: seq<Pubkey>,
    preLoaded: seq<Pubkey>)
  {
    function List(where: AuxiliaryIx): seq<Ix> {
      match where
      case Setup => setup
      case InBetween => inBetween
      case Cleanup => cleanup
    }

    function Append(where: AuxiliaryIx, ixs: seq<Ix>): (p: Plan)
      ensures p.List(where) == List(where) + ixs
    {
      match where
      case Setup => this.(setup := setup + ixs)
      case InBetween => this.(inBetween := inBetween + ixs)
      case Cleanup => this.(cleanup := cleanup + ixs)
    }

    /** The reserves an obligation refresh or a group request names. */
    function Named(skip: seq<Pubkey>): Naming {
      Naming(Without(Merged(depositReserves, preLoaded), skip), Without(borrowReserves, skip))
    }

    function WithPreloaded(): Plan { this.(depositReserves := Merged(depositReserves, preLoaded)) }

    function ObligationRefreshed(where: AuxiliaryIx, skip: seq<Pubkey>): Plan {
      WithPreloaded().Append(where, [RefreshObligation(Named(skip))])
    }

    function ElevationRequested(group: nat, where: AuxiliaryIx, skip: seq<Pubkey>): Plan {
      WithPreloaded().Append(where, [RequestElevation(group, Named(skip))])
    }

    /** The lending steps with the in-between list after each but the last. */
    function LendingIxs(): seq<Ix> { Interleaved(lending, inBetween) }

    /** Everything up to and including the last lending step. */
    function BeforeCleanup(): seq<Ix> { computeBudget + setup + LendingIxs() }

    function Ixs(): seq<Ix> { BeforeCleanup() + cleanup }

    /** The list put into a transaction. */
    function Transaction(): seq<Ix> {
      if |lending| == 2 then setup + [lending[0]] + inBetween + [lending[1]] + cleanup
      else setup + lending + cleanup
    }
  }

  function Interleaved<T>(steps: seq<T>, between: seq<T>): seq<T>
  {
    if steps == [] then []
    else if |steps| == 1 then steps
    else [steps[0]] + between + Interleaved(steps[1..], between)
  }

  lemma InterleavedUnfolds<T>(steps: seq<T>, between: seq<T>)
    ensures steps == [] ==> Interleaved(steps, between) == []
    ensures steps != [] ==>
              Interleaved(steps, between)
              == [steps[0]] + (if |steps| > 1 then between else []) + Interleaved(steps[1..], between)
  {
    if |steps| == 1 { assert steps == [steps[0]]; }
  }

  lemma {:induction false} InterleavedLength<T>(steps: seq<T>, between: seq<T>)
    ensures |Interleaved(steps, between)| == |steps| + if steps == [] then 0 else (|steps| - 1) * |between|
  {
    if |steps| > 1 {
      InterleavedLength(steps[1..], between);
      assert (|steps| - 1) * |between| == |between| + (|steps| - 2) * |between|;
    }
  }

  /** The transaction is the plan without the compute budget exactly up to two lending steps, or with nothing in between. */
  lemma TransactionDropsComputeBudgetIff(p: Plan)
    ensures p.Ixs() == p.computeBudget + p.Transaction() <==> |p.lending| <= 2 || p.inBetween == []
  {
    InterleavedLength(p.lending, p.inBetween);
    if |p.lending| == 2 {
      assert p.lending[1..] == [p.lending[1]];
      assert p.Ixs() == p.computeBudget + p.Transaction();
    } else if |p.lending| <= 1 {
      assert p.LendingIxs() == p.lending;
      assert p.Ixs() == p.computeBudget + p.Transaction();
    } else if p.inBetween == [] {
      InterleavedWithNothing(p.lending);
      assert p.Ixs() == p.computeBudget + p.Transaction();
    } else {
      assert |p.Ixs()| > |p.computeBudget + p.Transaction()|;
    }
  }

  lemma {:induction false} InterleavedWithNothing<T>(steps: seq<T>)
    ensures Interleaved(steps, []) == steps
  {
    if |steps| > 1 { InterleavedWithNothing(steps[1..]); }
  }

  // ----- What building steps do to a replay -----

  /** An appended obligation refresh goes through exactly over fresh reserves. */
  lemma ReplayObligationRefresh(p: Plan, where: AuxiliaryIx, skip: seq<Pubkey>, m: Machine)
    requires Replay(m, p.List(where)).Some?
    ensures var was := Replay(m, p.List(where)).value;
            Replay(m, p.ObligationRefreshed(where, skip).List(where))
            == if AllIn(p.Named(skip).Keys(), was.recent) then Some(was.(current := true)) else None
  {
    hide Replay, Merged, Without;
    ReplaySnoc(m, p.List(where), RefreshObligation(p.Named(skip)));
  }

  lemma ReplayRequest(p: Plan, group: nat, where: AuxiliaryIx, skip: seq<Pubkey>, m: Machine)
    requires Replay(m, p.List(where)).Some? && Replay(m, p.List(where)).value.current
    ensures var was := Replay(m, p.List(where)).value;
            Replay(m, p.ElevationRequested(group, where, skip).List(where))
            == if AllIn(p.Named(skip).Keys(), was.recent) then Some(was.(current := false, trace := was.trace + [Requested(group)]))
               else None
  {
    hide Replay, Merged, Without;
    ReplaySnoc(m, p.List(where), RequestElevation(group, p.Named(skip)));
  }

  lemma ReplayRefreshAppended(p: Plan, where: AuxiliaryIx, keys: seq<Pubkey>, m: Machine)
    requires Replay(m, p.List(where)).Some?
    ensures var was := Replay(m, p.List(where)).value;
            Replay(m, p.Append(where, RefreshIxs(keys)).List(where)) == Some(was.(recent := was.recent + KeySet(keys)))
  {
    ReplayAppends(m, p.List(where), RefreshIxs(keys));
    ReplayRefreshes(Replay(m, p.List(where)).value, keys);
  }

  /** A refusal is final. */
  lemma ReplayStuck(m: Machine, a: seq<Ix>, b: seq<Ix>)
    requires Replay(m, a).None?
    ensures Replay(m, a + b).None?
  {
    ReplayAppends(m, a, b);
  }
}
