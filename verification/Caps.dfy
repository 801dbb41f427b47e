/** How much a reserve can still lend under its caps, outside a group or inside one. */
module Caps {
  import opened Reals
  import opened Wrappers
  import opened Markets
  import opened ActionTypes

  const U64_MAX_REAL: real := U64_MAX as real

  datatype CollateralCap = CollateralCap(collateralReserve: Pubkey, elevationGroup: nat, maxDebt: real, currentValue: real)

  /** Per-reserve counters for debt taken against it inside groups; the lookup is `[group - 1]`. */
  datatype GroupCounters = GroupCounters(limits: seq<nat>, borrowed: seq<nat>)

  datatype CapsAndCounters = CapsAndCounters(
    utilizationCap: real,
    netWithdrawalCap: real,
    netWithdrawalCurrentValue: real,
    netWithdrawalIntervalDurationSeconds: real,
    globalDebtCap: real,
    debtOutsideEmodeCap: real,
    borrowedOutsideEmode: real,
    debtAgainstCollateralReserveCaps: seq<CollateralCap>)

  /** The reserve's own amounts. */
  datatype Amounts = Amounts(available: real, borrowed: real, supply: real)

  // ----- Caps against collaterals -----

  function CapAgainst(key: Pubkey, group: nat, counters: map<Pubkey, GroupCounters>): Result<CollateralCap>
  {
    if key !in counters || !(1 <= group <= |counters[key].limits|) || group > |counters[key].borrowed| then
      Err("counter is undefined")
    else
      Ok(CollateralCap(key, group, counters[key].limits[group - 1] as real, counters[key].borrowed[group - 1] as real))
  }

  function CapsOfGroup(keys: seq<Pubkey>, group: nat, counters: map<Pubkey, GroupCounters>): Result<seq<CollateralCap>>
  {
    if keys == [] then Ok([])
    else
      var cap :- CapAgainst(keys[0], group, counters);
      var rest :- CapsOfGroup(keys[1..], group, counters);
      Ok([cap] + rest)
  }

  /** One cap per collateral of every group that lends this reserve. */
  function CapsAgainstCollaterals(
    ds: seq<GroupDescription>, debtReserve: Pubkey, counters: map<Pubkey, GroupCounters>): Result<seq<CollateralCap>>
  {
    if ds == [] then Ok([])
    else
      var here :- if ds[0].debtReserve != debtReserve then Ok([])
                  else CapsOfGroup(ds[0].collateralReserves, ds[0].elevationGroup, counters);
      var rest :- CapsAgainstCollaterals(ds[1..], debtReserve, counters);
      Ok(here + rest)
  }

  lemma {:induction false} CapsOfGroupAre(keys: seq<Pubkey>, group: nat, counters: map<Pubkey, GroupCounters>)
    requires CapsOfGroup(keys, group, counters).Ok?
    ensures forall c :: c in CapsOfGroup(keys, group, counters).value <==>
              c.collateralReserve in keys && IsStored(c, group, counters)
  {
    if keys != [] {
      CapsOfGroupAre(keys[1..], group, counters);
      assert keys == [keys[0]] + keys[1..];
    }
  }

  /** The caps listed are exactly those of the collaterals of the groups that lend this reserve. */
  lemma {:induction false} CapsAreOfLendingGroups(
    ds: seq<GroupDescription>, debtReserve: Pubkey, counters: map<Pubkey, GroupCounters>, c: CollateralCap)
    requires CapsAgainstCollaterals(ds, debtReserve, counters).Ok?
    ensures c in CapsAgainstCollaterals(ds, debtReserve, counters).value <==>
            exists i :: 0 <= i < |ds| && LendsAgainst(ds[i], debtReserve, counters, c)
  {
    if ds != [] {
      CapsAreOfLendingGroups(ds[1..], debtReserve, counters, c);
      if ds[0].debtReserve == debtReserve {
        CapsOfGroupAre(ds[0].collateralReserves, ds[0].elevationGroup, counters);
      }
      if i :| 0 <= i < |ds| && LendsAgainst(ds[i], debtReserve, counters, c) {
        if i > 0 { assert ds[1..][i - 1] == ds[i]; }
      }
      if i :| 0 <= i < |ds| - 1 && LendsAgainst(ds[1..][i], debtReserve, counters, c) {
        assert ds[i + 1] == ds[1..][i];
      }
    }
  }

  predicate LendsAgainst(d: GroupDescription, debtReserve: Pubkey, counters: map<Pubkey, GroupCounters>, c: CollateralCap)
  {
    d.debtReserve == debtReserve && c.collateralReserve in d.collateralReserves && IsStored(c, d.elevationGroup, counters)
  }

  /** The cap is the group's stored limit, and what counts against it the group's stored debt. */
  predicate IsStored(c: CollateralCap, group: nat, counters: map<Pubkey, GroupCounters>)
  {
    && c.elevationGroup == group && c.collateralReserve in counters
    && var stored := counters[c.collateralReserve];
       && 1 <= group <= |stored.limits| && group <= |stored.borrowed|
       && c.maxDebt == stored.limits[group - 1] as real && c.currentValue == stored.borrowed[group - 1] as real
  }

  // ----- Available liquidity -----

  /** Room under the tightest cap among the group's collaterals that the borrower uses; others do not bind. */
  function RoomInGroup(caps: seq<CollateralCap>, group: nat, collaterals: seq<Pubkey>): Option<real>
  {
    if caps == [] then None
    else
      var rest := RoomInGroup(caps[1..], group, collaterals);
      if caps[0].elevationGroup != group then rest
      else
        var room := if caps[0].collateralReserve in collaterals then caps[0].maxDebt - caps[0].currentValue else U64_MAX_REAL;
        Some(if rest.None? then room else Min(room, rest.value))
  }

  function AvailableForGroup(a: Amounts, caps: CapsAndCounters, group: nat, collaterals: seq<Pubkey>): real
  {
    var utilization := if a.supply == 0.0 then 0.0 else a.borrowed / a.supply;
    var givenUtilization := Mul(a.supply, caps.utilizationCap - utilization);
    var daily :=
      if caps.netWithdrawalIntervalDurationSeconds == 0.0 then U64_MAX_REAL
      else caps.netWithdrawalCap - caps.netWithdrawalCurrentValue;
    var global := caps.globalDebtCap - a.borrowed;
    var mode :=
      if group == 0 then caps.debtOutsideEmodeCap - caps.borrowedOutsideEmode
      else
        var inside := RoomInGroup(caps.debtAgainstCollateralReserveCaps, group, collaterals);
        if inside.None? then 0.0 else inside.value;
    Min(Min(PositiveOrZero(a.available), PositiveOrZero(mode)),
      Min(PositiveOrZero(daily), Min(PositiveOrZero(global), PositiveOrZero(givenUtilization))))
  }

  /** Every cap still holds after lending x more. */
  ghost predicate WithinCaps(a: Amounts, caps: CapsAndCounters, group: nat, collaterals: seq<Pubkey>, x: real)
    requires a.supply > 0.0
  {
    && x <= a.available
    && (caps.netWithdrawalIntervalDurationSeconds == 0.0 || caps.netWithdrawalCurrentValue + x <= caps.netWithdrawalCap)
    && a.borrowed + x <= caps.globalDebtCap
    && (a.borrowed + x) / a.supply <= caps.utilizationCap
    && (group == 0 ==> caps.borrowedOutsideEmode + x <= caps.debtOutsideEmodeCap)
    && (group != 0 ==>
          && (exists i :: 0 <= i < |caps.debtAgainstCollateralReserveCaps|
                          && caps.debtAgainstCollateralReserveCaps[i].elevationGroup == group)
          && forall i :: 0 <= i < |caps.debtAgainstCollateralReserveCaps| ==>
               FitsCap(caps.debtAgainstCollateralReserveCaps[i], group, collaterals, x))
  }

  predicate FitsCap(c: CollateralCap, group: nat, collaterals: seq<Pubkey>, x: real)
  {
    c.elevationGroup == group && c.collateralReserve in collaterals ==> c.currentValue + x <= c.maxDebt
  }

  lemma {:induction false} RoomInGroupIs(caps: seq<CollateralCap>, group: nat, collaterals: seq<Pubkey>, x: real)
    requires x <= U64_MAX_REAL
    ensures var room := RoomInGroup(caps, group, collaterals);
            && (room.Some? <==> exists i :: 0 <= i < |caps| && caps[i].elevationGroup == group)
            && (room.Some? ==> (x <= room.value <==>
                  forall i :: 0 <= i < |caps| ==> FitsCap(caps[i], group, collaterals, x)))
            && (room.None? ==> forall i :: 0 <= i < |caps| ==> FitsCap(caps[i], group, collaterals, x))
  {
    if caps != [] {
      RoomInGroupIs(caps[1..], group, collaterals, x);
      assert forall i :: 0 <= i < |caps| - 1 ==> caps[1..][i] == caps[i + 1];
      assert forall i :: 0 < i < |caps| ==> caps[i] == caps[1..][i - 1];
    }
  }

  lemma UtilizationRoom(a: Amounts, cap: real, x: real)
    requires a.supply > 0.0
    ensures x <= Mul(a.supply, cap - a.borrowed / a.supply) <==> (a.borrowed + x) / a.supply <= cap
  {
    var u := a.borrowed / a.supply;
    assert u * a.supply == a.borrowed;
    var v := (a.borrowed + x) / a.supply;
    assert v * a.supply == a.borrowed + x;
    var room := a.supply * (cap - u);
    assert room == a.supply * cap - a.borrowed;
    assert room - x == (cap - v) * a.supply;
    if v <= cap { assert (cap - v) * a.supply >= 0.0; } else { assert (v - cap) * a.supply > 0.0; }
  }

  /**
   The answer is the largest amount that fits: a positive amount up to the u64 maximum keeps
   every cap exactly when it does not exceed the answer.
   */
  lemma AvailableIsTheLargestThatFits(
    a: Amounts, caps: CapsAndCounters, group: nat, collaterals: seq<Pubkey>, x: real)
    requires a.supply > 0.0 && 0.0 < x <= U64_MAX_REAL
    ensures AvailableForGroup(a, caps, group, collaterals) >= 0.0
    ensures x <= AvailableForGroup(a, caps, group, collaterals) <==> WithinCaps(a, caps, group, collaterals, x)
  {
    hide Mul;
    UtilizationRoom(a, caps.utilizationCap, x);
    if group != 0 { RoomInGroupIs(caps.debtAgainstCollateralReserveCaps, group, collaterals, x); }
  }

  /** Without supply nothing is available. */
  lemma NoSupplyNothingAvailable(a: Amounts, caps: CapsAndCounters, group: nat, collaterals: seq<Pubkey>)
    requires a.supply == 0.0
    ensures AvailableForGroup(a, caps, group, collaterals) == 0.0
  {
    hide Mul, RoomInGroup;
    MulUnit(caps.utilizationCap);
  }

  /** Hence a positive answer itself fits, as long as the reserve's liquidity is a u64. */
  lemma PositiveAnswerFits(a: Amounts, caps: CapsAndCounters, group: nat, collaterals: seq<Pubkey>)
    requires a.supply > 0.0 && a.available <= U64_MAX_REAL
    ensures var x := AvailableForGroup(a, caps, group, collaterals);
            x > 0.0 ==> WithinCaps(a, caps, group, collaterals, x)
  {
    var x := AvailableForGroup(a, caps, group, collaterals);
    if x > 0.0 { AvailableIsTheLargestThatFits(a, caps, group, collaterals, x); }
  }
}
