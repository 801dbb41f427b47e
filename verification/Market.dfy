/**
 A lending market: its reserves, its elevation groups, the descriptions of the groups
 collected from the reserves, and which groups a set of positions qualifies for.
 */
module Markets {
  import opened Reals
  import opened Wrappers

  datatype Pubkey = DefaultKey | NullKey | Key(id: nat)

  predicate IsNotNull(key: Pubkey) { key.Key? }

  datatype ReserveView = ReserveView(
    address: Pubkey,
    price: Positive,
    mintFactor: Positive,
    loanToValue: real,
    liquidationThreshold: real,
    borrowFactorPct: Positive,
    borrowFee: real,
    elevationGroups: seq<nat>,
    disableUsageAsCollOutsideEmode: bool,
    collateralExchangeRate: Positive,
    cumulativeBorrowRate: Positive,
    availableLiquidity: nat,
    remainingWithdrawalCap: int,
    hasCollateralFarm: bool,
    hasDebtFarm: bool)

  datatype GroupConfig = GroupConfig(
    id: nat,
    debtReserve: Pubkey,
    maxReservesAsCollateral: nat,
    ltvPct: nat,
    liquidationThresholdPct: nat)

  datatype Market = Market(reserves: seq<ReserveView>, elevationGroups: seq<GroupConfig>)

  function ReserveByAddress(reserves: seq<ReserveView>, key: Pubkey): (r: Option<ReserveView>)
    ensures r.Some? <==> exists i :: 0 <= i < |reserves| && reserves[i].address == key
    ensures r.Some? ==> r.value in reserves && r.value.address == key
  {
    if reserves == [] then None
    else if reserves[0].address == key then Some(reserves[0])
    else
      assert forall i :: 0 < i < |reserves| ==> reserves[i] == reserves[1..][i - 1];
      ReserveByAddress(reserves[1..], key)
  }

  /** Lookup by position: `elevationGroups[group - 1]`. */
  function ElevationGroupAt(market: Market, group: nat): Option<GroupConfig>
  {
    if 1 <= group <= |market.elevationGroups| then Some(market.elevationGroups[group - 1]) else None
  }

  // ----- Duplicate-free key lists -----

  ghost predicate NoDuplicates<T(!new)>(s: seq<T>) { forall i, j :: 0 <= i < j < |s| ==> s[i] != s[j] }

  function Add(keys: seq<Pubkey>, key: Pubkey): (r: seq<Pubkey>)
    ensures forall k :: k in r <==> k in keys || k == key
    ensures NoDuplicates(keys) ==> NoDuplicates(r)
  {
    if key in keys then keys else keys + [key]
  }

  // ----- Group descriptions -----

  datatype GroupDescription = GroupDescription(
    collateralReserves: seq<Pubkey>,
    debtReserve: Pubkey,
    elevationGroup: nat,
    maxReservesAsCollateral: nat)

  /** The descriptions before any reserve is filed under them. */
  function EmptyDescriptions(groups: seq<GroupConfig>): seq<GroupDescription>
  {
    if groups == [] then []
    else
      var before := EmptyDescriptions(groups[..|groups| - 1]);
      var g := groups[|groups| - 1];
      if g.id == 0 then before else before + [GroupDescription([], g.debtReserve, g.id, g.maxReservesAsCollateral)]
  }

  /** The reserve is collateral of the group filed at position i, by its own configuration. */
  predicate IsCollateralOf(r: ReserveView, d: GroupDescription, i: nat)
  {
    i + 1 in r.elevationGroups && r.address != d.debtReserve
  }

  /** The descriptions hold exactly the collaterals configured by the given reserves, without repeats. */
  ghost predicate Filed(groups: seq<GroupConfig>, reserves: seq<ReserveView>, ds: seq<GroupDescription>)
  {
    var empty := EmptyDescriptions(groups);
    && |ds| == |empty|
    && forall i :: 0 <= i < |ds| ==>
         && ds[i] == empty[i].(collateralReserves := ds[i].collateralReserves)
         && NoDuplicates(ds[i].collateralReserves)
         && FiledAt(reserves, ds[i], i)
  }

  ghost predicate FiledAt(reserves: seq<ReserveView>, d: GroupDescription, i: nat)
  {
    forall k :: k in d.collateralReserves <==>
                exists j :: 0 <= j < |reserves| && reserves[j].address == k && IsCollateralOf(reserves[j], d, i)
  }

  /** The reserve names a group that the market does not have. */
  predicate NamesUnknownGroup(r: ReserveView, count: nat)
  {
    exists g :: g in r.elevationGroups && g > count
  }

  lemma {:induction false} EmptyAreEmpty(groups: seq<GroupConfig>)
    ensures forall i :: 0 <= i < |EmptyDescriptions(groups)| ==> EmptyDescriptions(groups)[i].collateralReserves == []
  {
    if groups != [] { EmptyAreEmpty(groups[..|groups| - 1]); }
  }

  /** One description after a reserve was filed under the first groups it names. */
  function FiledUnder(d: GroupDescription, i: nat, r: ReserveView, named: seq<nat>): GroupDescription
  {
    if i + 1 in named && r.address != d.debtReserve then d.(collateralReserves := Add(d.collateralReserves, r.address))
    else d
  }

  method FileReserve(r: ReserveView, ds: seq<GroupDescription>) returns (out: Result<seq<GroupDescription>>)
    ensures out.Err? <==> NamesUnknownGroup(r, |ds|)
    ensures out.Ok? ==> |out.value| == |ds|
    ensures out.Ok? ==> forall i :: 0 <= i < |ds| ==> out.value[i] == FiledUnder(ds[i], i, r, r.elevationGroups)
  {
    var filed := ds;
    for n := 0 to |r.elevationGroups|
      invariant |filed| == |ds|
      invariant forall i :: 0 <= i < |ds| ==> filed[i] == FiledUnder(ds[i], i, r, r.elevationGroups[..n])
      invariant forall g :: g in r.elevationGroups[..n] ==> g <= |ds|
    {
      var id := r.elevationGroups[n];
      assert r.elevationGroups[..n + 1] == r.elevationGroups[..n] + [id];
      if id != 0 {
        if id > |filed| {
          assert id in r.elevationGroups;
          return Err("Invalid elevation group id");
        }
        var d := filed[id - 1];
        if r.address != d.debtReserve {
          filed := filed[id - 1 := d.(collateralReserves := Add(d.collateralReserves, r.address))];
        }
      }
    }
    assert r.elevationGroups[..|r.elevationGroups|] == r.elevationGroups;
    out := Ok(filed);
  }

  lemma FiledExtends(
    groups: seq<GroupConfig>, reserves: seq<ReserveView>, r: ReserveView,
    ds: seq<GroupDescription>, after: seq<GroupDescription>)
    requires Filed(groups, reserves, ds) && |after| == |ds|
    requires forall i :: 0 <= i < |ds| ==> after[i] == FiledUnder(ds[i], i, r, r.elevationGroups)
    ensures Filed(groups, reserves + [r], after)
  {
    forall i | 0 <= i < |ds| ensures FiledAt(reserves + [r], after[i], i) {
      var all := reserves + [r];
      forall k ensures k in after[i].collateralReserves <==>
                       exists j :: 0 <= j < |all| && all[j].address == k && IsCollateralOf(all[j], after[i], i) {
        if k in after[i].collateralReserves {
          if k in ds[i].collateralReserves {
            var j :| 0 <= j < |reserves| && reserves[j].address == k && IsCollateralOf(reserves[j], ds[i], i);
            assert all[j] == reserves[j];
          } else {
            assert all[|reserves|] == r;
          }
        } else if j :| 0 <= j < |all| && all[j].address == k && IsCollateralOf(all[j], after[i], i) {
          if j < |reserves| { assert IsCollateralOf(reserves[j], ds[i], i); }
        }
      }
    }
  }

  /** The groups of the market with the reserves configured for them; fails on an unknown group id. */
  method GetMarketElevationGroupDescriptions(market: Market) returns (r: Result<seq<GroupDescription>>)
    ensures var count := |EmptyDescriptions(market.elevationGroups)|;
            r.Err? <==> exists j :: 0 <= j < |market.reserves| && NamesUnknownGroup(market.reserves[j], count)
    ensures r.Ok? ==> Filed(market.elevationGroups, market.reserves, r.value)
  {
    var ds: seq<GroupDescription> := [];
    for i := 0 to |market.elevationGroups|
      invariant ds == EmptyDescriptions(market.elevationGroups[..i])
    {
      var g := market.elevationGroups[i];
      assert market.elevationGroups[..i + 1][..i] == market.elevationGroups[..i];
      if g.id != 0 {
        ds := ds + [GroupDescription([], g.debtReserve, g.id, g.maxReservesAsCollateral)];
      }
    }
    assert market.elevationGroups[..|market.elevationGroups|] == market.elevationGroups;
    EmptyAreEmpty(market.elevationGroups);
    for j := 0 to |market.reserves|
      invariant Filed(market.elevationGroups, market.reserves[..j], ds)
      invariant forall n :: 0 <= n < j ==> !NamesUnknownGroup(market.reserves[n], |ds|)
    {
      r := FileReserve(market.reserves[j], ds);
      if r.Err? {
        return;
      }
      assert market.reserves[..j + 1] == market.reserves[..j] + [market.reserves[j]];
      FiledExtends(market.elevationGroups, market.reserves[..j], market.reserves[j], ds, r.value);
      ds := r.value;
    }
    assert market.reserves[..|market.reserves|] == market.reserves;
    r := Ok(ds);
  }

  // ----- Groups that positions qualify for -----

  predicate Qualifies(d: GroupDescription, collReserves: seq<Pubkey>, debtReserve: Option<Pubkey>)
  {
    && (forall k :: k in collReserves ==> k in d.collateralReserves)
    && (debtReserve.None? || debtReserve.value == d.debtReserve)
  }

  function GroupsForReservesCombination(
    ds: seq<GroupDescription>, collReserves: seq<Pubkey>, debtReserve: Option<Pubkey>): (r: seq<GroupDescription>)
    ensures forall d :: d in r <==> d in ds && Qualifies(d, collReserves, debtReserve)
  {
    if ds == [] then []
    else
      var rest := GroupsForReservesCombination(ds[1..], collReserves, debtReserve);
      assert ds == [ds[0]] + ds[1..];
      if Qualifies(ds[0], collReserves, debtReserve) then [ds[0]] + rest else rest
  }

  /** The groups an obligation qualifies for, by its deposited and borrowed reserves. */
  function ElevationGroupsForObligation(
    ds: seq<GroupDescription>, deposits: seq<Pubkey>, borrows: seq<Pubkey>): seq<GroupDescription>
  {
    if |borrows| > 1 then []
    else GroupsForReservesCombination(ds, deposits, if borrows == [] then None else Some(borrows[0]))
  }

  /** Whether the positions fit the group stored at the id's position; the default group takes all. */
  function ReservesFit(ds: seq<GroupDescription>, deposits: seq<Pubkey>, borrows: seq<Pubkey>, group: nat): Result<bool>
  {
    if |borrows| > 1 then Ok(false)
    else if group == 0 then Ok(true)
    else if group > |ds| then Err("elevation group description is undefined")
    else
      var d := ds[group - 1];
      var allCollsIncluded := forall k :: k in deposits ==> k in d.collateralReserves;
      var allDebtsIncluded := |borrows| == 0 || (|borrows| == 1 && d.debtReserve == borrows[0]);
      Ok(allCollsIncluded && allDebtsIncluded)
  }

  /** The group is among those listed for the positions. */
  ghost predicate Listed(ds: seq<GroupDescription>, deposits: seq<Pubkey>, borrows: seq<Pubkey>, group: nat)
  {
    exists d :: d in ElevationGroupsForObligation(ds, deposits, borrows) && d.elevationGroup == group
  }

  ghost predicate Includes(d: GroupDescription, e: GroupDescription)
  {
    d.debtReserve == e.debtReserve && forall k :: k in e.collateralReserves ==> k in d.collateralReserves
  }

  /**
   The description stored at a group's position takes no less than any description of the
   group's id, and some description of that id takes no less than it.
   */
  ghost predicate AgreesAt(ds: seq<GroupDescription>, group: nat)
    requires 1 <= group <= |ds|
  {
    && (forall i :: 0 <= i < |ds| && ds[i].elevationGroup == group ==> Includes(ds[group - 1], ds[i]))
    && (exists i :: 0 <= i < |ds| && ds[i].elevationGroup == group && Includes(ds[i], ds[group - 1]))
  }

  lemma FitsIffListed(ds: seq<GroupDescription>, deposits: seq<Pubkey>, borrows: seq<Pubkey>, group: nat)
    requires 1 <= group <= |ds| && AgreesAt(ds, group)
    ensures ReservesFit(ds, deposits, borrows, group) == Ok(Listed(ds, deposits, borrows, group))
  {
    if |borrows| <= 1 {
      var debt := if borrows == [] then None else Some(borrows[0]);
      var d := ds[group - 1];
      assert ReservesFit(ds, deposits, borrows, group) == Ok(Qualifies(d, deposits, debt));
      if Qualifies(d, deposits, debt) {
        var i :| 0 <= i < |ds| && ds[i].elevationGroup == group && Includes(ds[i], d);
        assert ds[i] in ds && Qualifies(ds[i], deposits, debt);
        assert ds[i] in ElevationGroupsForObligation(ds, deposits, borrows);
      }
      if Listed(ds, deposits, borrows, group) {
        var e :| e in ElevationGroupsForObligation(ds, deposits, borrows) && e.elevationGroup == group;
        var i :| 0 <= i < |ds| && ds[i] == e;
        assert Includes(d, ds[i]);
      }
    } else {
      assert ElevationGroupsForObligation(ds, deposits, borrows) == [];
    }
  }

  ghost predicate FitAgreesForAll(ds: seq<GroupDescription>, group: nat)
  {
    forall deposits, borrows :: ReservesFit(ds, deposits, borrows, group) == Ok(Listed(ds, deposits, borrows, group))
  }

  /** Fitting a group and being listed for it agree for all positions exactly when the group's index is stored and the descriptions agree. */
  lemma FitsIffListedForAll(ds: seq<GroupDescription>, group: nat)
    requires 1 <= group
    ensures FitAgreesForAll(ds, group) <==> group <= |ds| && AgreesAt(ds, group)
  {
    if group > |ds| {
      assert ReservesFit(ds, [], [], group).Err?;
    } else {
      FitsIffListedWithin(ds, group);
    }
  }

  lemma FitsIffListedWithin(ds: seq<GroupDescription>, group: nat)
    requires 1 <= group <= |ds|
    ensures FitAgreesForAll(ds, group) <==> AgreesAt(ds, group)
  {
    var d := ds[group - 1];
    if AgreesAt(ds, group) {
      forall deposits, borrows ensures ReservesFit(ds, deposits, borrows, group) == Ok(Listed(ds, deposits, borrows, group)) {
        FitsIffListed(ds, deposits, borrows, group);
      }
    }
    if FitAgreesForAll(ds, group) {
      forall i | 0 <= i < |ds| && ds[i].elevationGroup == group ensures Includes(d, ds[i]) {
        var deposits, borrows := ds[i].collateralReserves, [ds[i].debtReserve];
        assert ds[i] in ds && Qualifies(ds[i], deposits, Some(borrows[0]));
        assert ds[i] in ElevationGroupsForObligation(ds, deposits, borrows);
        assert Listed(ds, deposits, borrows, group);
        assert ReservesFit(ds, deposits, borrows, group) == Ok(true);
      }
      var deposits, borrows := d.collateralReserves, [d.debtReserve];
      assert ReservesFit(ds, deposits, borrows, group) == Ok(true);
      assert Listed(ds, deposits, borrows, group);
      var e :| e in ElevationGroupsForObligation(ds, deposits, borrows) && e.elevationGroup == group;
      var i :| 0 <= i < |ds| && ds[i] == e;
      assert Includes(ds[i], d);
    }
  }

  /** Group ids are stored as 1, 2, 3, ... from the first position on. */
  ghost predicate IdsInOrder(ds: seq<GroupDescription>)
  {
    forall i :: 0 <= i < |ds| ==> ds[i].elevationGroup == i + 1
  }

  /** Ids stored in order agree at every group. */
  lemma OrderedIdsAgree(ds: seq<GroupDescription>, group: nat)
    requires IdsInOrder(ds) && 1 <= group <= |ds|
    ensures AgreesAt(ds, group)
  {
    assert Includes(ds[group - 1], ds[group - 1]);
  }

  /** With ids out of order the two disagree: group 2 stored first is offered, yet not eligible by its id. */
  lemma OutOfOrderIdsDisagree()
    ensures var a, b := GroupDescription([Key(7)], Key(1), 2, 5), GroupDescription([], Key(1), 1, 5);
            var ds := [a, b];
            && a in ElevationGroupsForObligation(ds, [Key(7)], [Key(1)])
            && ReservesFit(ds, [Key(7)], [Key(1)], a.elevationGroup) == Ok(false)
  {
    var a, b := GroupDescription([Key(7)], Key(1), 2, 5), GroupDescription([], Key(1), 1, 5);
    assert Qualifies(a, [Key(7)], Some(Key(1)));
    assert a in [a, b];
    assert Key(7) in [Key(7)] && Key(7) !in b.collateralReserves;
  }

  // ----- Groups common to reserves, by counting -----

  /** How often a group is named across the reserves. */
  function Occurrences(lists: seq<seq<nat>>, g: nat): nat
  {
    if lists == [] then 0 else Occurrences(lists[..|lists| - 1], g) + multiset(lists[|lists| - 1])[g]
  }

  /** Counts of the groups seen so far, with the order in which they were first seen. */
  datatype Counter = Counter(counts: map<nat, nat>, order: seq<nat>)

  /** The counter after some lists and part of the next one. */
  ghost predicate Counts(c: Counter, lists: seq<seq<nat>>, part: seq<nat>)
  {
    && NoDuplicates(c.order)
    && (forall g :: g in c.order <==> g in c.counts)
    && (forall g :: g in c.counts <==> g != 0 && Seen(lists, part, g) > 0)
    && (forall g :: g in c.counts ==> c.counts[g] == Seen(lists, part, g))
  }

  function Seen(lists: seq<seq<nat>>, part: seq<nat>, g: nat): nat { Occurrences(lists, g) + multiset(part)[g] }

  function Bump(c: Counter, g: nat): Counter
  {
    if g == 0 then c
    else if g in c.counts && c.counts[g] != 0 then c.(counts := c.counts[g := c.counts[g] + 1])
    else Counter(c.counts[g := 1], if g in c.counts then c.order else c.order + [g])
  }

  lemma BumpCounts(c: Counter, lists: seq<seq<nat>>, part: seq<nat>, g: nat)
    requires Counts(c, lists, part)
    ensures Counts(Bump(c, g), lists, part + [g])
  {
    var next := Bump(c, g);
    assert forall h :: Seen(lists, part + [g], h) == Seen(lists, part, h) + if h == g then 1 else 0;
    assert NoDuplicates(next.order);
    assert forall h :: h in next.order <==> h in next.counts;
  }

  lemma NextListCounts(c: Counter, lists: seq<seq<nat>>, list: seq<nat>)
    requires Counts(c, lists, list)
    ensures Counts(c, lists + [list], [])
  {
    var all := lists + [list];
    assert all[..|all| - 1] == lists && all[|all| - 1] == list;
    assert forall g :: Seen(all, [], g) == Seen(lists, list, g);
  }

  method CountGroups(lists: seq<seq<nat>>) returns (c: Counter)
    ensures Counts(c, lists, [])
  {
    c := Counter(map[], []);
    for n := 0 to |lists|
      invariant Counts(c, lists[..n], [])
    {
      var list := lists[n];
      for k := 0 to |list|
        invariant Counts(c, lists[..n], list[..k])
      {
        BumpCounts(c, lists[..n], list[..k], list[k]);
        assert list[..k + 1] == list[..k] + [list[k]];
        c := Bump(c, list[k]);
      }
      assert list[..|list|] == list;
      NextListCounts(c, lists[..n], list);
      assert lists[..n + 1] == lists[..n] + [list];
    }
    assert lists[..|lists|] == lists;
  }

  /** The non-zero groups whose total count equals the number of reserves, each once. */
  method GetElevationGroupsForReserves(lists: seq<seq<nat>>) returns (active: seq<nat>)
    ensures NoDuplicates(active)
    ensures forall g :: g in active <==> g != 0 && 0 < Occurrences(lists, g) == |lists|
  {
    var c := CountGroups(lists);
    active := [];
    for i := 0 to |c.order|
      invariant NoDuplicates(active)
      invariant forall g :: g in active <==> g in c.order[..i] && c.counts[g] == |lists|
    {
      var g := c.order[i];
      assert c.order[..i + 1] == c.order[..i] + [g];
      assert g !in c.order[..i];
      if c.counts[g] == |lists| {
        active := active + [g];
      }
    }
    assert c.order[..|c.order|] == c.order;
    assert forall g :: Seen(lists, [], g) == Occurrences(lists, g);
  }

  /** A list may repeat the filler 0 but no group. */
  ghost predicate GroupsOnce(list: seq<nat>) { forall g :: g != 0 ==> multiset(list)[g] <= 1 }

  lemma {:induction false} OccurrencesBounded(lists: seq<seq<nat>>, g: nat)
    requires g != 0 && forall i :: 0 <= i < |lists| ==> GroupsOnce(lists[i])
    ensures Occurrences(lists, g) <= |lists|
    ensures Occurrences(lists, g) == |lists| <==> forall i :: 0 <= i < |lists| ==> g in lists[i]
  {
    if lists != [] {
      var n := |lists| - 1;
      OccurrencesBounded(lists[..n], g);
      assert g in multiset(lists[n]) <==> g in lists[n];
      assert forall i :: 0 <= i < n ==> lists[..n][i] == lists[i];
    }
  }

  ghost predicate Counted(lists: seq<seq<nat>>, g: nat) { g != 0 && 0 < Occurrences(lists, g) == |lists| }

  ghost predicate Common(lists: seq<seq<nat>>, g: nat) { g != 0 && forall i :: 0 <= i < |lists| ==> g in lists[i] }

  /** When no list repeats a group, what is counted is exactly what is common to all of a non-empty list of reserves. */
  lemma CountedGroupsAreCommon(lists: seq<seq<nat>>, g: nat)
    requires lists != [] && forall i :: 0 <= i < |lists| ==> GroupsOnce(lists[i])
    ensures Counted(lists, g) <==> Common(lists, g)
  {
    if g != 0 { OccurrencesBounded(lists, g); }
  }

  /** A non-empty choice of reserves from a pool of group lists. */
  ghost predicate ChosenFrom(lists: seq<seq<nat>>, pool: seq<seq<nat>>)
  {
    lists != [] && forall i :: 0 <= i < |lists| ==> lists[i] in pool
  }

  ghost predicate CountingIsRight(pool: seq<seq<nat>>)
  {
    forall lists, g :: ChosenFrom(lists, pool) ==> (Counted(lists, g) <==> Common(lists, g))
  }

  /** Counting finds the common groups of every choice from a pool of reserves exactly when no reserve repeats a group. */
  lemma CountingIsRightIff(pool: seq<seq<nat>>)
    ensures CountingIsRight(pool) <==> forall i :: 0 <= i < |pool| ==> GroupsOnce(pool[i])
  {
    if forall i :: 0 <= i < |pool| ==> GroupsOnce(pool[i]) {
      forall lists, g | ChosenFrom(lists, pool) ensures Counted(lists, g) <==> Common(lists, g) {
        forall i | 0 <= i < |lists| ensures GroupsOnce(lists[i]) {
          assert lists[i] in pool;
          var j :| 0 <= j < |pool| && pool[j] == lists[i];
        }
        CountedGroupsAreCommon(lists, g);
      }
    }
    if CountingIsRight(pool) {
      forall i | 0 <= i < |pool| ensures GroupsOnce(pool[i]) {
        forall g | g != 0 ensures multiset(pool[i])[g] <= 1 {
          var lists := [pool[i]];
          assert ChosenFrom(lists, pool);
          assert Counted(lists, g) <==> Common(lists, g);
          assert lists[..0] == [];
          assert Occurrences(lists, g) == multiset(pool[i])[g];
          assert g in pool[i] <==> multiset(pool[i])[g] > 0;
          assert Common(lists, g) <==> g in lists[0];
        }
      }
    }
  }

  /** A repeated group is counted twice and can pass for common. */
  lemma RepeatedGroupPassesForCommon()
    ensures var lists := [[1, 1], [2]];
            0 < Occurrences(lists, 1) == |lists| && 1 !in lists[1]
  {
    var lists: seq<seq<nat>> := [[1, 1], [2]];
    assert lists[..1] == [[1, 1]];
    assert lists[..1][..0] == [];
    assert multiset([1, 1])[1] == 2;
    assert multiset([2])[1] == 0;
  }
}
