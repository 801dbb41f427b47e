# Kamino lending client: a verified model

The repository is the client SDK of a lending protocol. Its TypeScript client re-implements the
protocol's accounting (interest, exchange rates, fees, obligation totals, caps) and plans the
multi-step transactions that the lending program executes. This project models that client in
Dafny and proves what it promises. `dafny verify dfyconfig.toml` checks everything.

| file | models |
|---|---|
| `Compounding.dfy` | the closed form for compounded interest: exact powers up to four slots, a cubic from five on |
| `BorrowCurve.dfy` | the borrow-rate curve: lookup, truncation at 100%, padding |
| `Reserve.dfy` | accrual, estimated debt and supply, exchange and cumulative rates, simulated rates |
| `Fees.dfy` | inclusive and exclusive fees, flash-loan sizing |
| `CumulativeRate.dfy` | the limb arrays of cumulative borrow rates |
| `Market.dfy` | elevation groups: descriptions, eligibility, common groups |
| `Obligation.dfy`, `Limits.dfy` | totals of an obligation, simulated changes, borrow power and maximum withdrawal |
| `RepayWithCollateral.dfy` | collateral that may be withdrawn to repay a debt |
| `Caps.dfy` | liquidity available under the borrow caps |
| `Leverage.dfy` | leverage algebra |
| `Plan.dfy`, `Support.dfy`, `ActionPlans.dfy` | instructions, what they leave stale, the plan of every action |
| `Movement.dfy` | the amounts a plan moves, against those asked for |
| `Accounts.dfy` | the accounts a plan creates and uses |
| `Guard.dfy` | the instructions directly before and behind a lending step |
| `ActionBuilder.dfy` | the mutable builder `KaminoAction`, proved against those plans |
| `Ledger.dfy` | the reserves a plan names, against the slots of the obligation at that point |
| `Program.dfy` | the lending program over staleness, slots and group, and which plans it takes |
| `SwapCollateral.dfy` | the collateral swap, its flash loan and its elevation-group protocol |
| `Reals.dfy`, `Wrappers.dfy`, `ActionTypes.dfy` | multiplication laws and rounding, `Result` and `Option`, action kinds |

Amounts that the client keeps as decimals are exact reals, lamports are natural numbers, and a
public key is one of two null keys or a numbered key. What is read from the network (existing
accounts, quotes, slots) is an input. A thrown error is `Err`.

Plans are run on these rules of the lending program (`programs/klend/src`), all of them in
`Programs.Takes`:

- A lending instruction refuses a stale reserve or obligation and leaves its reserves and the
  obligation stale (`lending_market/lending_operations.rs`, from line 108). It refuses a position it
  does not find and a new one without a free slot, and a borrow without any deposit (same file,
  lines 266, 399, 471, 672, 1397, 1404 and 3136; `state/obligation.rs`, lines 260 to 350).
- An obligation refresh or group request refuses a stale reserve (same file, from line 2346), and
  anything but the reserves of the deposit slots and then of the borrow slots, in slot order
  (`handlers/handler_refresh_obligation.rs`, lines 17 to 49).
- A request also refuses a stale obligation, one without deposits, and the group the obligation is
  in (`lending_market/lending_operations.rs`, lines 742 to 749).
- A new position takes the first free slot; a full repayment or withdrawal frees its slot
  (`state/obligation.rs`, lines 176 to 288).

The first versions of the lending instructions also demand certain instructions directly around
them (`utils/refresh_ix_utils.rs`, from line 49); plans always have them (`Guards`).
`Accounts.Uses` adds, apart from these, which accounts an instruction creates or needs
(`handlers/handler_init_obligation.rs`, `handlers/handler_init_obligation_farms_for_reserve.rs`,
`handlers/handler_refresh_obligation_farms_for_reserve.rs`): creating one that exists fails, as
does using one that does not. `Plans.Replay` is the staleness part alone, `Ledgers.Exact` the naming part alone. Amounts, prices,
health and the membership of a deposit in a group are not among these rules.

## What is proved, in short

- Compounding: the client's factor lies between simple interest and the exact power, misses the
  power by at most the fourth-order tail, never gains by being applied once instead of twice,
  and grows with the slot count exactly when a stated condition on the rate holds.
- Accrual conserves value whatever the referral rate, and every share of the new debt is exact; debt and supply estimates grow; the cToken
  exchange rate never rises; the cumulative borrow rate outpaces the reserve's own debt.
- From any state of the lending program, a plan of an obligation action is taken up to its last
  lending step, and as a whole, if and only if stated conditions on slots, group and positions
  hold; its effects then are exactly those asked for, in kind, reserve and amount, and it ends in the
  group asked for. It creates every account it uses, each once. In particular a withdrawal of part of a
  deposit, and a repay-and-withdraw in one instruction, are refused with a request behind them.
- Every refresh and request of a plan names exactly what the obligation's slots hold at its point,
  side by side and in slot order, if and only if a stated condition on the positions holds.
- Without V2 instructions every lending step stands directly between the refreshes the program
  looks for.
- An accepted collateral swap is valid for its elevation group after every step, ends in the
  requested group and never requests the group it is in. From the state the client has read it is
  taken if and only if the target gets the last slot in use, the source is deposited, and a group
  is requested behind the withdrawal only when that closes a source that is not borrowed too. Its
  flash repay names its flash borrow; the swap-out covers the loan.
- The closed forms for borrow power, maximum withdrawal, collateral repayment, caps and leverage
  agree with recomputing the totals after the action; maximum withdrawal, collateral repayment and
  caps are the largest amounts within their stated bounds.

## Where the code does less than it seems

Each of these is a lemma with the exact condition, and a concrete instance.

- A group request behind a partial withdrawal is refused: nothing refreshes the withdrawn reserve
  again (`PlanIsTakenIff`, `PartialWithdrawalIsRefused`); likewise a partial collateral swap
  that changes the group (`SwapIsTakenIff`, `PartialSwapIsRefused`).
- A request for the group the obligation is in is refused, and a withdrawal can be told to make it
  (`AsksForCurrentGroupIff`, `CurrentGroupIsRefused`).
- A closed position's reserve is left out of later refreshes on both sides of the obligation, and
  a used-up deposit is still named (`PlanNamesWhatIsHeldIff`, `BorrowedSourceIsLeftOut`,
  `UsedUpDepositIsNamed`, `ClosingBothSidesIsRefused`); a new deposit is named last whatever slot it
  gets (`SwapNamesWhatIsHeldIff`, `TargetNamedOutOfOrder`, `DepositIntoHoleIsRefused`).
- The obligation's cumulative borrow rate is a plain sum of limbs: the result of `shrn` is
  discarded (`SumIsRecomposedIff`, `HighLimbIsLost`).
- With several borrows, the unpaid rest of the repaid one is dropped from the expected debt
  (`ExpectedDebtCoversIff`, `DroppedRemainder`).
- A lookup of a group by index and the list of groups agree only where there is a description at
  that index and it agrees with those of that id (`FitsIffListedForAll`, `OutOfOrderIdsDisagree`).
- From the fourth to the fifth slot an estimate falls at a per-slot rate of 700%, which no stored
  rate reaches (`MonotoneInSlotsIff`, `EstimateFallsOutsideRange`).
- Counting groups over reserves is right only if no reserve repeats a group (`CountingIsRightIff`,
  `RepeatedGroupPassesForCommon`).
- The simulated borrow of the whole borrow power lands on the limit only if the changed slot
  carries the current cumulative rate (`BorrowPowerReachesLimit`, `OldRateMissesLimit`).
- The decision to keep the elevation group during a collateral swap asks the target's
  configuration, which also lists the group's own debt reserve (`StrictThroughoutIff`,
  `OwnDebtReserveExample`).
- A curve without a point at 100% reads back with its padding (`PaddingInvisibleIff`,
  `ShortCurveShowsPadding`), and an empty point list is padded with undefined points
  (`PaddingIsDefinedIff`).

## Model

| member | source | states |
|---|---|---|
| `Compounding.CompoundedIsTruncation` | ts-client/src/classes/reserve.ts:961-989 | the client's factor is the binomial expansion of (1+b)^n cut after b^3, plus b^4 at four slots |
| `Compounding.ExactUpToFour` | ts-client/src/classes/reserve.ts:961-989 | up to four slots the factor is the exact power |
| `Compounding.TruncationError` | ts-client/src/classes/reserve.ts:961-989 | a binomial expansion cut after b^k misses the power by at most C(n,k+1) b^(k+1) (1+b)^(n-k-1) |
| `Compounding.CompoundedBounds` | ts-client/src/classes/reserve.ts:961-989 | the factor lies between 1+nb and (1+b)^n and from five slots on misses the power by at most the fourth-order tail |
| `Compounding.SplittingNeverLosesInterest` | ts-client/src/classes/reserve.ts:961-989 | accruing over m and then n slots never yields less than over m+n at once, across the change of formula |
| `Compounding.MonotoneInSlotsIff` | ts-client/src/classes/reserve.ts:961-989 | the factor never falls with the slot count if and only if b = 0 or b^3 <= 1+4b+6b^2 |
| `Compounding.SeamRange` | ts-client/src/classes/reserve.ts:961-989 | that condition holds for every per-slot rate up to 600% and fails at 700% |
| `Compounding.MonotoneInRate` | ts-client/src/classes/reserve.ts:961-989 | the factor never falls with the rate |
| `Compounding.IncrementMonotoneInRate` | ts-client/src/classes/reserve.ts:961-989 | one more slot adds at least as much at a higher rate, for per-slot rates up to 400%, the change of formula included |
| `BorrowCurve.GetBorrowRate` | ts-client/src/classes/utils.ts:105-142 | the scanning loop returns the recursive lookup, in every success and error case |
| `BorrowCurve.LookupIsPiecewiseLinear` | ts-client/src/classes/utils.ts:97-142 | on a well-formed curve the lookup is the line through the two nodes that enclose the utilization, exact at nodes |
| `BorrowCurve.LookupMonotone` | ts-client/src/classes/utils.ts:97-142 | on a well-formed curve the lookup succeeds and never falls with utilization |
| `BorrowCurve.LookupBounded` | ts-client/src/classes/utils.ts:97-142 | it stays between the first and the last rate |
| `BorrowCurve.TruncateBorrowCurve` | ts-client/src/classes/reserve.ts:1123-1133 | the loop returns the scaled points up to and including the first at 100% |
| `BorrowCurve.PointList.PadPoints` | ts-client/src/classes/curve.ts:26-29 | the list itself grows to eleven entries by repeating the last, undefined for an empty list; a longer list is refused unchanged |
| `BorrowCurve.PaddingIsDefinedIff` | ts-client/src/classes/curve.ts:26-29 | padding gives eleven points if and only if the list is not empty |
| `BorrowCurve.PaddingInvisibleIff` | ts-client/src/classes/curve.ts:26-29 | truncation undoes padding if and only if some point is at 100% or nothing was padded |
| `BorrowCurve.ShortCurveShowsPadding` | ts-client/src/classes/curve.ts:26-29 | a curve up to 50% on which it does not |
| `BorrowCurve.PaddedCurveReadsBack` | ts-client/src/classes/curve.ts:26-29 | a well-formed curve stored with padding reads back as itself, scaled, and is well-formed |
| `Reserves.AccrualConservesValue` | ts-client/src/classes/reserve.ts:901-952 | new debt splits exactly into the suppliers' (1 - take rate) of net new debt, the protocol's and the host's share; the referrers' part only moves between fee pots |
| `Reserves.SharesOfNewDebt` | ts-client/src/classes/reserve.ts:901-952 | 100 times the protocol's variable share is the take rate in percent of the net new debt, and 10000 times the referrers' part is the referral rate in basis points of that share |
| `Reserves.PotsNeverFall` | ts-client/src/classes/reserve.ts:901-952 | with a referral rate of at most 100% the referrers' part is between nothing and the protocol's variable share, and neither fee pot ever falls |
| `Reserves.EveryTokenHasAnOwner` | ts-client/src/classes/reserve.ts:382-400 | at every slot the lent and the available tokens together are the suppliers' supply and the three fee pots |
| `Reserves.OnlyTheTimeSinceCounts` | ts-client/src/classes/reserve.ts:382-400 | up to the slot of the last update debt, supply, utilization and cumulative rate are as stored; afterwards only the slots since then count |
| `Reserves.RateIsPerSlotTime` | ts-client/src/classes/reserve.ts:622-644 | the borrow rate times the slot duration is the curve's rate times half a second, at every utilization |
| `Reserves.EstimateForm` | ts-client/src/classes/reserve.ts:382-400 | estimated debt and supply as closed forms of the two growth factors |
| `Reserves.EstimatesGrow` | ts-client/src/classes/reserve.ts:382-400 | estimated debt and supply never fall with the slot |
| `Reserves.StoredRatesAreInRange` | ts-client/src/classes/reserve.ts:622-644 | rates that fit their stored integer widths meet the range the growth lemmas ask for |
| `Reserves.EstimateFallsOutsideRange` | ts-client/src/classes/reserve.ts:382-400 | a reserve at 700% per slot whose estimated debt falls from the fourth to the fifth slot |
| `Reserves.ExchangeRateNeverRises` | ts-client/src/classes/reserve.ts:247-255 | the estimated cToken exchange rate stays positive and never rises with the slot |
| `Reserves.AllCTokensRedeemTheSupply` | ts-client/src/classes/reserve.ts:247-255 | all minted cTokens divided by the rate are exactly the estimated supply; the rate is one without cTokens or supply |
| `Reserves.UtilizationNeverFalls` | ts-client/src/classes/reserve.ts:426-445 | with debt within supply, estimated utilization is at least the stored one |
| `Reserves.CumulativeRateOutpacesDebt` | ts-client/src/classes/reserve.ts:218-227 | the estimated cumulative borrow rate grows at least as much as the reserve's own debt, and exactly as much while the utilization stays |
| `Reserves.WithdrawnCollateralCoversRequest` | ts-client/src/classes/action.ts:3469-3478 | the cTokens asked for redeem for at least the requested liquidity now and at every later slot, and for less than one cToken more now |
| `Reserves.ActionsMoveTheRate` | ts-client/src/classes/reserve.ts:447-504 | a simulated deposit, mint or repayment never raises the borrow rate, a borrow, withdrawal or redemption never lowers it |
| `Reserves.SimulatedInSequence` | ts-client/src/classes/reserve.ts:447-504 | an action of one amount is simulated as the utilization it leaves, one of two amounts as its two actions in sequence, and opposite actions cancel; without supply left only a withdrawal has an answer |
| `Fees.SplitConservesFee` | ts-client/src/classes/reserve.ts:667-702 | a charged fee is at least one lamport and below the amount, its shares add up to it, and it is refused exactly when it would eat the amount |
| `Fees.SharesAreNonNegative` | ts-client/src/classes/reserve.ts:667-702 | both shares are non-negative for referral rates up to 100% |
| `Fees.FeeIsItsRate` | ts-client/src/classes/reserve.ts:667-702 | the fee is the rate of what is borrowed, which is the amount or, inclusive, the amount less the fee; at least one lamport |
| `Fees.ReferrerShareIsLargest` | ts-client/src/classes/reserve.ts:667-702 | the referrer gets the largest whole number of lamports within the referral rate of the fee, nothing without a referrer and the whole fee at 100% |
| `Fees.FeesMatch` | ts-client/src/classes/reserve.ts:667-702 | the inclusive fee on an amount is the exclusive fee on the rest, minimum included |
| `Fees.FlashLoanRoundTrip` | ts-client/src/lending_operations/swap_collateral_operations.ts:320-333 | borrowing what the inclusive fee leaves and repaying with the exclusive fee returns exactly the amount; it goes through if and only if no fee applies or the rate is below 100% and more than two lamports are repaid |
| `Fees.FlooredBorrowIsCovered` | ts-client/src/leverage/instructions.ts:74-76 | after flooring the borrow, the repayment never exceeds the amount |
| `Fees.FlooredBorrowIsLargest` | ts-client/src/leverage/instructions.ts:74-76 | a loan of one lamport more would cost more than the amount |
| `Fees.TokensAgreeWithLamports` | ts-client/src/lending_operations/swap_collateral_operations.ts:320-333 | the computation in whole tokens is the one in lamports |
| `CumulativeRate.ReserveCumulativeRate` | ts-client/src/classes/reserve.ts:209-213 | the reserve's fold is the base-2^64 recomposition of the limbs |
| `CumulativeRate.BorrowSlot.GetCumulativeBorrowRate` | ts-client/src/classes/obligation.ts:1401-1408 | a call reverses the stored array in place and returns the sum of its limbs |
| `CumulativeRate.RepeatedReadsAgree` | ts-client/src/classes/obligation.ts:1401-1408 | however often it was called before, the next call returns the same value, and two calls restore the array |
| `CumulativeRate.SumIsRecomposedIff` | ts-client/src/classes/obligation.ts:1401-1408 | that value is the reserve's recomposition if and only if all limbs above the lowest are zero |
| `CumulativeRate.HighLimbIsLost` | ts-client/src/classes/obligation.ts:1401-1408 | limbs 0 and 1 stand for 2^64 and are read as 1 |
| `Markets.FileReserve` | ts-client/src/classes/market.ts:1318-1339 | one reserve is added to exactly the groups it names and is not the debt reserve of; fails if and only if it names an unknown group |
| `Markets.GetMarketElevationGroupDescriptions` | ts-client/src/classes/market.ts:1299-1342 | each description holds exactly the reserves configured for its position, without repeats and without the debt reserve; fails if and only if a reserve names an unknown group |
| `Markets.GroupsForReservesCombination` | ts-client/src/classes/market.ts:1360-1372 | exactly the descriptions that hold all collaterals and lend the debt |
| `Markets.FitsIffListedForAll` | ts-client/src/classes/market.ts:1303-1372 | positions fit the description at a group's index exactly when the group is listed for them, for all positions, if and only if the index is stored and that description includes every one of the group's id and is included in one |
| `Markets.OrderedIdsAgree` | ts-client/src/classes/market.ts:1303-1327 | ids stored in order meet that condition at every group |
| `Limits.EligibleIffListed` | ts-client/src/classes/obligation.ts:1141-1206 | where that condition holds, a loan is eligible if and only if the group is listed for it and its adjusted debt is within the limit recomputed for the group |
| `Markets.OutOfOrderIdsDisagree` | ts-client/src/classes/market.ts:1303-1327 | with ids out of order, a listed group is not eligible |
| `Markets.CountGroups` | ts-client/src/classes/obligation.ts:390-403 | the counting loops count every non-zero group, in order of first appearance |
| `Markets.GetElevationGroupsForReserves` | ts-client/src/classes/obligation.ts:390-411 | exactly the non-zero groups counted as often as there are reserves, each once |
| `Markets.CountedGroupsAreCommon` | ts-client/src/classes/obligation.ts:390-411 | without repeats in a reserve's list, these are exactly the groups common to all reserves |
| `Markets.CountingIsRightIff` | ts-client/src/classes/obligation.ts:390-411 | counting finds the common groups of every non-empty choice from a pool of reserves if and only if no reserve of the pool repeats a group |
| `Markets.RepeatedGroupPassesForCommon` | ts-client/src/classes/obligation.ts:390-411 | a repeated group can pass for common |
| `Obligations.CalculateObligationDeposits` | ts-client/src/classes/obligation.ts:854-922 | the loop returns the recursive totals and positions, or the first failure |
| `Obligations.TotalsAfterUpdate` | ts-client/src/classes/obligation.ts:854-922 | overwriting one slot replaces its terms in every deposit total and leaves the rest alone |
| `Obligations.OneDeposit` | ts-client/src/classes/obligation.ts:854-922 | a single deposit has its value as deposit total, counts as collateral and as liquidatable unless the LTV concerned is zero, and contributes to each limit at its own LTV |
| `Obligations.LtvIsConfigured` | ts-client/src/classes/obligation.ts:1575-1597 | in a group the reserve names, the group's two percentages apply, outside the reserve's own two LTVs; fails exactly for a group that is not stored |
| `Obligations.LimitsAreInOrder` | ts-client/src/classes/obligation.ts:854-922 | with LTVs in order the borrow limit never exceeds the liquidation limit, nor collateral the liquidatable value, nor that the deposits |
| `Obligations.DepositPositionsAreTheSlots` | ts-client/src/classes/obligation.ts:895-919 | every slot in use has its position, with the amount its cTokens redeem for and its value |
| `Obligations.NoOtherDepositPositions` | ts-client/src/classes/obligation.ts:895-919 | no other reserve has a position |
| `Obligations.StoredRatesAreTheReserves` | ts-client/src/classes/obligation.ts:885-892 | without given rates the totals are those at the exchange rates the reserves hold |
| `Obligations.CalculateObligationBorrows` | ts-client/src/classes/obligation.ts:924-991 | the loop returns the recursive totals and positions, or the first failure |
| `Obligations.DebtAfterUpdate` | ts-client/src/classes/obligation.ts:924-991 | the same for borrow totals |
| `Obligations.OneBorrow` | ts-client/src/classes/obligation.ts:924-991 | a single borrow has the value of what is owed at the ratio of the rates as debt, that value at the borrow factor as adjusted debt, and counts as a position unless nothing is owed |
| `Obligations.BorrowFactorIsConfigured` | ts-client/src/classes/obligation.ts:1560-1567 | in a group the reserve names debt counts as it is, outside at the reserve's percentage |
| `Obligations.BorrowPositionsAreTheSlots` | ts-client/src/classes/obligation.ts:945-983 | every slot in use has its position, with the amount owed and its value |
| `Obligations.NoOtherBorrowPositions` | ts-client/src/classes/obligation.ts:945-983 | no other reserve has a position |
| `Obligations.StoredDebtRatesAreTheReserves` | ts-client/src/classes/obligation.ts:945-951 | without given rates the totals are those at the cumulative rates the reserves hold |
| `Obligations.SimulateDepositChange` | ts-client/src/classes/obligation.ts:413-456 | the loop credits the reserve's slot, else the first free one, clamping at zero; fails without a slot |
| `Obligations.DepositChangeIsLocal` | ts-client/src/classes/obligation.ts:413-456 | exactly one slot changes, length and distinctness stay, and the slot stays the reserve's |
| `Obligations.DepositChangeMovesTotals` | ts-client/src/classes/obligation.ts:413-456 | an unclamped change moves the recomputed deposit total by its value up to half a cToken, both limits by that move at their LTV, and the collateral and liquidatable totals by it unless their LTV is zero |
| `Obligations.DepositThenWithdrawRestores` | ts-client/src/classes/obligation.ts:413-456 | depositing and withdrawing the same amount restores all totals, fresh slots included |
| `Obligations.SimulateBorrowChange` | ts-client/src/classes/obligation.ts:458-502 | the loop changes the reserve's slot, else opens the first free one at the current rate; fails without a slot |
| `Obligations.BorrowChangeIsLocal` | ts-client/src/classes/obligation.ts:458-502 | exactly one slot changes, and the slots stay distinct |
| `Obligations.BorrowChangeMovesDebt` | ts-client/src/classes/obligation.ts:458-502 | a change of either sign moves the recomputed plain debt by the value of its effective part at the slot's rate, and the adjusted debt by that at the borrow factor |
| `Obligations.BorrowThenRepayRestores` | ts-client/src/classes/obligation.ts:458-502 | borrowing and repaying the same amount restores all totals, fresh slots included |
| `Limits.BorrowPowerReachesLimit` | ts-client/src/classes/obligation.ts:1027-1093 | borrowing a positive borrow power with its proportional fee brings the recomputed adjusted debt exactly to the limit, if and only if the changed slot carries the current rate |
| `Limits.BorrowPowerIsZeroIff` | ts-client/src/classes/obligation.ts:1027-1093 | the borrow power is zero if and only if some collateral needs a group that does not apply or the adjusted debt is at the limit, and never negative |
| `Limits.OldRateMissesLimit` | ts-client/src/classes/obligation.ts:1027-1093 | an account with an older slot whose borrow power misses the limit |
| `Limits.MaxWithdrawFitsRoom` | ts-client/src/classes/obligation.ts:1334-1387 | in every branch with debt the maximum, weighted by the LTV, fits into the room below the limit |
| `Limits.MaxWithdrawIsTheLargest` | ts-client/src/classes/obligation.ts:1334-1387 | without debt it is the whole deposit, with debt at the limit nothing; else an amount is within it if and only if it is within the deposit, the available liquidity, the withdrawal cap and 99.9% of the room below the limit |
| `Limits.MaxWithdrawKeepsLimit` | ts-client/src/classes/obligation.ts:1334-1387 | withdrawing at most the maximum keeps the recomputed limit at least the debt, up to the value of the cTokens rounded up |
| `Limits.SimulatedMaxWithdrawKeepsLimit` | ts-client/src/classes/obligation.ts:1334-1387 | through the simulated change the debt stays within half a cToken of the limit |
| `RepayWithCollateral.PlanIsBackedAndMaximal` | ts-client/src/lending_operations/repay_with_collateral_calcs.ts:79-155 | the withdrawal is at most the deposit, leaves the expected debt backed, and in the partial branch one lamport more does not; the repayment is passed on |
| `RepayWithCollateral.MoreRepaidMoreWithdrawable` | ts-client/src/lending_operations/repay_with_collateral_calcs.ts:79-155 | with one borrow, repaying more never lowers the withdrawal, across the branch switch |
| `RepayWithCollateral.ExpectedDebtCoversIff` | ts-client/src/lending_operations/repay_with_collateral_calcs.ts:99-105 | the expected debt covers what is left if and only if there is one borrow or the chosen one is repaid in full |
| `RepayWithCollateral.DroppedRemainder` | ts-client/src/lending_operations/repay_with_collateral_calcs.ts:99-105 | with two debts of 10 and 4 repaid, 10 are expected and 16 are left |
| `RepayWithCollateral.PlanKeepsDebtBacked` | ts-client/src/lending_operations/repay_with_collateral_calcs.ts:79-155 | in those cases the withdrawal leaves all remaining debt backed |
| `RepayWithCollateral.ExpectedDebtIsTight` | ts-client/src/lending_operations/repay_with_collateral_calcs.ts:99-105 | where it covers what is left, the expected debt is exactly that with several borrows and less than a lamport's value above it with one |
| `RepayWithCollateral.BackingIsTheLimit` | ts-client/src/lending_operations/repay_with_collateral_calcs.ts:108-125 | for the loan read off an account, the chosen deposit at its LTV and the others at theirs are together the account's recomputed borrow limit, or its liquidation limit for a loan at its limit |
| `RepayWithCollateral.PlanKeepsRecomputedLimit` | ts-client/src/lending_operations/repay_with_collateral_calcs.ts:79-155 | after a withdrawal from the account's slot the recomputed limit is at least the expected debt if the withdrawal is within the plan, and below it if it exceeds the plan by a lamport and not everything may go |
| `RepayWithCollateral.DebtLeftIsRecomputed` | ts-client/src/lending_operations/repay_with_collateral_calcs.ts:96-105 | once the debt's slot owes what the repayment leaves, the recomputed debt of the account is what is left |
| `RepayWithCollateral.PlanKeepsAccountBacked` | ts-client/src/lending_operations/repay_with_collateral_calcs.ts:79-155 | with one borrow, or the chosen one repaid in full, a withdrawal within the plan leaves the recomputed limit of the account at least at its recomputed debt |
| `Caps.CapsAreOfLendingGroups` | ts-client/src/classes/reserve.ts:999-1029 | the listed caps are exactly those of the collaterals of the groups that lend the reserve, each with the group's stored limit as maximum and its stored debt as current value |
| `Caps.AvailableIsTheLargestThatFits` | ts-client/src/classes/reserve.ts:1058-1120 | a positive amount keeps every cap if and only if it does not exceed the answer |
| `Caps.PositiveAnswerFits` | ts-client/src/classes/reserve.ts:1058-1120 | a positive answer itself keeps every cap |
| `Caps.NoSupplyNothingAvailable` | ts-client/src/classes/reserve.ts:1058-1120 | a reserve without supply has nothing available |
| `Leverage.DenominatorIsPositive` | ts-client/src/leverage/calcs.ts:479-540 | at leverage one or more both branches divide by a positive number |
| `Leverage.BranchForms` | ts-client/src/leverage/calcs.ts:479-540 | in both branches debt is the target ratio of collateral and the deposit makes up the difference of swap and position |
| `Leverage.DepositReachesTarget` | ts-client/src/leverage/calcs.ts:479-540 | the position has exactly the target leverage at the quoted price, and the worst-case swap output is exactly the flash borrow |
| `Leverage.BranchesCoincide` | ts-client/src/leverage/calcs.ts:479-540 | X debt tokens lead to the same position as one collateral token |
| `Leverage.WithdrawKeepsLeverage` | ts-client/src/leverage/calcs.ts:248-287 | a withdrawal lowers net value by exactly the amount and keeps the leverage |
| `Leverage.AdjustCostsTheFee` | ts-client/src/leverage/calcs.ts:340-364 | an adjustment reaches the leverage on the old net value and costs exactly fee * (L - 1) * net |
| `Plans.ReplayFromMore` | programs/klend/src/state/last_update.rs:91-100 | as to staleness, instructions taken in one state are taken wherever no more is stale, with the same effects |
| `Plans.TransactionDropsComputeBudgetIff` | ts-client/src/classes/action.ts:1157-1179 | the transaction is the plan without compute budget if and only if there are at most two lending steps or nothing in between |
| `Supports.BestGroupIsBest` | ts-client/src/classes/action.ts:2551-2555 | the group chosen for a borrow is a common one and none has a higher LTV |
| `Supports.CommonGroupsAreShared` | ts-client/src/classes/action.ts:2535-2538 | the common groups are exactly those that both reserves name, other than the default one, and that lend the debt reserve |
| `Supports.BorrowMovesToBestShared` | ts-client/src/classes/action.ts:2511-2565 | a borrow asks for a common group of highest LTV, or for none when there is none or the obligation is in one of those |
| `Supports.SupportIsReady` | ts-client/src/classes/action.ts:2356-2646 | support leaves the action's reserves, everything held and the obligation not stale, with exactly the group request called for |
| `Supports.CleanupReplaysIff` | ts-client/src/classes/action.ts:2577-2598 | as to staleness, the cleanup goes through if and only if it has no request or its request names no stale reserve, and adds exactly that request |
| `ActionPlans.BuiltPlanReplays` | ts-client/src/classes/action.ts:2356-2646 | as to staleness and from any state, every finished plan of the nine obligation actions goes through up to its last lending step with exactly the requests and lending steps expected, and as a whole if and only if the request behind it names nothing a lending step left stale: there is none, the action is a repayment or a two-step repay and withdraw, a withdrawal of everything or of a reserve not held, or a one-step repay and withdraw whose withdrawn reserve is not held or is the repaid one |
| `ActionPlans.PartialWithdrawalIsRefused` | ts-client/src/classes/action.ts:2577-2598 | a withdrawal of 5 lamports with a request behind it: the withdrawal goes through, the request is refused |
| `ActionPlans.BuiltTransaction` | ts-client/src/classes/action.ts:1157-1179 | the transaction of every built plan is the plan in the same order without its compute budget, and the program takes both alike |
| `ActionPlans.OtherTransactions` | ts-client/src/classes/action.ts:1157-1179 | the same for plans that refresh an obligation, request a group or pay out referrer fees |
| `ActionPlans.AsksForCurrentGroupIff` | ts-client/src/classes/action.ts:2565-2598 | a plan requests the group the obligation is in if and only if a withdrawal is told to or the default group is asked for with the deposit that opens an obligation |
| `ActionPlans.RefreshOrRequestReplays` | ts-client/src/classes/action.ts:311-378 | as to staleness, the plans of an obligation refresh and of a group request go through |
| `ActionPlans.ReferrerFeesReplay` | ts-client/src/classes/action.ts:1124-1155 | the payout of referrer fees finds its reserve not stale |
| `ActionPlans.PlanExistsIff` | ts-client/src/classes/action.ts:2356-2646 | an action is planned if and only if it initializes, a borrow, repayment or liquidation finds its obligation, the market has every reserve involved, and the groups to request and the reserve to skip can be determined |
| `Movements.PlanMovesWhatWasAsked` | ts-client/src/classes/action.ts:1278-2310 | summed over its lending steps a plan deposits, borrows and repays, for every reserve, exactly the amount asked for, withdraws exactly the cTokens for the amount asked for, and a liquidation accepts no less than asked for |
| `Movements.CollateralRedeems` | ts-client/src/classes/action.ts:3469-3478 | those cTokens redeem for at least the amount asked for, and for less than one cToken more |
| `Movements.EverythingIsEverything` | ts-client/src/classes/action.ts:3469-3478 | asking for everything withdraws everything |
| `Movements.CollateralIsTheReserves` | ts-client/src/classes/action.ts:3469-3478 | at the rate estimated for the slot these are the cTokens the reserve computes |
| `Accounts.PlanFindsItsAccountsIff` | ts-client/src/classes/action.ts:2422-2475 | a plan uses no account that does not exist and creates none twice (user metadata, obligation, referrer's account, farm accounts), if and only if the obligation or the metadata exists or the metadata is to be created; all farm accounts of the action exist afterwards |
| `Accounts.PlanStartsWith` | ts-client/src/classes/action.ts:3540-3545 | a plan starts with its compute budget and then the refresh of the prices, if these are asked for |
| `ActionBuilder.KaminoAction.AddRefreshReserveIxs` | ts-client/src/classes/action.ts:2712-2756 | one refresh per reserve in order; fails on a reserve the market does not have |
| `ActionBuilder.KaminoAction.GetAdditionalDepositReservesList` | ts-client/src/classes/action.ts:3486-3506 | the preloaded reserves that are missing end up in the builder's own deposit list |
| `ActionBuilder.KaminoAction.AddRefreshObligationIx` | ts-client/src/classes/action.ts:2789-2840 | appends the refresh handed the listed deposits and the listed borrows, each without the skipped reserves |
| `ActionBuilder.KaminoAction.AddRequestElevationIx` | ts-client/src/classes/action.ts:2842-2900 | appends the request handed the same two lists |
| `ActionBuilder.KaminoAction.AddRefreshFarmsForReserve` | ts-client/src/classes/action.ts:2902-2998 | farm refreshes go into the list and once more in between or into the cleanup |
| `ActionBuilder.KaminoAction.AddSupportIxsWithoutInitObligation` | ts-client/src/classes/action.ts:2356-2646 | the mutations amount to the support plan; fails exactly where it does |
| `ActionBuilder.KaminoAction.Build` | ts-client/src/classes/action.ts:380-1122 | the builder ends in the action's plan of at most two lending steps, with index-parallel labels; the program takes it, from any state, if and only if slots, group, positions and staleness are as `EndsRightly` says, and then exactly the amounts asked for have moved; fails exactly where the plan is undefined |
| `ActionBuilder.KaminoAction.BuildRefreshOrRequest` | ts-client/src/classes/action.ts:311-378 | ends in the plan with index-parallel labels; the program takes it if and only if the slots are as listed and the group asked for is not the current one |
| `ActionBuilder.KaminoAction.BuildWithdrawReferrerFees` | ts-client/src/classes/action.ts:1124-1155 | ends in the plan with index-parallel labels, which the program always takes |
| `ActionBuilder.KaminoAction.ActionToLendingIxs` | ts-client/src/classes/action.ts:3547-3574 | lending steps with the in-between list after each but the last, labels index-parallel |
| `ActionBuilder.KaminoAction.ActionToIxs` | ts-client/src/classes/action.ts:3540-3563 | the whole list in order, labels index-parallel |
| `ActionBuilder.KaminoAction.GetTransactions` | ts-client/src/classes/action.ts:1157-1179 | up to two lending steps, the same order without compute budget |
| `Ledgers.BuiltEvents` | ts-client/src/classes/action.ts:2789-2900 | the deposits and the borrows named by each refresh and request of a finished plan, in order among the lending steps |
| `Ledgers.TakenIsLastIff` | programs/klend/src/state/obligation.rs:260-288 | a new deposit comes last in slot order if and only if the first free slot is behind all used ones |
| `Ledgers.PlanNamesWhatIsHeldIff` | ts-client/src/classes/action.ts:2789-2900 | every refresh and request names exactly the occupied deposit slots and borrow slots in order, if and only if a first deposit gets the last slot in use, no closed position's reserve is held on the other side, and no deposit is closed or kept against what the cleanup assumes |
| `Ledgers.BorrowedSourceIsLeftOut` | ts-client/src/classes/action.ts:2577-2598 | closing a deposit whose reserve is also borrowed leaves that reserve out of the last refresh |
| `Ledgers.UsedUpDepositIsNamed` | ts-client/src/classes/action.ts:2577-2598 | using up such a deposit with a smaller amount keeps naming it as a deposit |
| `Guards.OneStepIsGuarded` | programs/klend/src/utils/refresh_ix_utils.rs:49-171 | without V2 instructions a lending step is directly preceded by the refreshes of its reserves, of the obligation and of its farms, and directly followed by its farm refreshes |
| `Guards.TwoStepIsGuarded` | programs/klend/src/utils/refresh_ix_utils.rs:49-171 | the same for both steps of a two-step plan |
| `Programs.TakesAllInParts` | programs/klend/src/lending_market/lending_operations.rs:728-749 | a list is taken if and only if nothing it needs is stale and slots, positions and group are as it assumes |
| `Programs.PlanIsTakenIff` | ts-client/src/classes/action.ts:380-1122 | from any state, a finished plan is taken up to its last lending step if and only if the slots hold what it lists, a request before finds a deposit and asks for another group, the lending steps find their positions, and what is named in between is right; as a whole if and only if, further, a request behind names what is held and not stale, finds a deposit left and asks for another group; effects, slots and group afterwards are the expected ones |
| `Programs.TransactionIsTakenAlike` | ts-client/src/classes/action.ts:1157-1179 | the transaction of a built plan is taken exactly as the plan is |
| `Programs.TakenPlanMovesWhatWasAsked` | ts-client/src/classes/action.ts:380-1122 | a plan that is taken has deposited, borrowed, repaid and withdrawn exactly what was asked for |
| `Programs.PlanLeadsToGroup` | ts-client/src/classes/action.ts:2492-2598 | with requests, a plan ends in the group given with a deposit, borrow or withdrawal; else a borrow ends in a common group of highest LTV if there is a common group, repaying the only borrow in full in the default group, and any other plan where it was |
| `Programs.RefreshOrRequestIsTakenIff` | ts-client/src/classes/action.ts:311-378 | an obligation refresh is taken if and only if the slots are as listed, a request if and only if it also asks for another group |
| `Programs.ReferrerFeesAreTaken` | ts-client/src/classes/action.ts:1124-1155 | the payout of referrer fees is always taken |
| `Programs.ClosingBothSidesIsRefused` | ts-client/src/classes/action.ts:2577-2598 | closing a deposit whose reserve is also borrowed, with a request behind it, is refused |
| `Programs.CurrentGroupIsRefused` | ts-client/src/classes/action.ts:2577-2598 | a withdrawal of everything that requests the current group is refused |
| `Programs.ClosingOneOfTwoIsTaken` | ts-client/src/classes/action.ts:2577-2598 | closing one of two deposits with a request behind it is taken |
| `Programs.DepositIntoHoleIsRefused` | ts-client/src/classes/action.ts:3486-3506 | a deposit and borrow whose deposit lands in a slot before another is refused before its borrow |
| `SwapCollateral.ExistingElevationGroup` | ts-client/src/classes/market.ts:160-174 | none for the default group, the description with the id, or failure when there is none |
| `SwapCollateral.CheckResultingObligationValid` | ts-client/src/lending_operations/swap_collateral_operations.ts:536-588 | accepts if and only if debts and resulting collaterals satisfy the requested group |
| `SwapCollateral.CheckIsStrictValidity` | ts-client/src/lending_operations/swap_collateral_operations.ts:536-588 | with ids in order, that is exactly validity of the expected result in the requested group |
| `SwapCollateral.GetKlendIxns` | ts-client/src/lending_operations/swap_collateral_operations.ts:266-318 | setup with the price refresh in front, flash loan, deposit and withdrawal plans with their group requests; fails exactly where a part is undefined |
| `SwapCollateral.GetSwapCollIxns` | ts-client/src/lending_operations/swap_collateral_operations.ts:146-264 | succeeds if and only if the inputs are sound, the requested group accepts the result, the LTV comparison holds and both plannings succeed; lists the instructions, which the program takes, from the state read, if and only if `SwapGoesThrough`, and which then have deposited the flash-borrowed amount, withdrawn the cTokens of the source and moved nothing else |
| `SwapCollateral.FlashRepayNamesTheBorrow` | ts-client/src/lending_operations/swap_collateral_operations.ts:611-621 | the flash repay carries the position of the only flash borrow, which precedes it with the same reserve and amount |
| `SwapCollateral.StepsAreInOrder` | ts-client/src/lending_operations/swap_collateral_operations.ts:611-621 | lending steps lie after the flash borrow, the outside swap after all of them, the repayment after both |
| `SwapCollateral.DropsGroupIff` | ts-client/src/lending_operations/swap_collateral_operations.ts:422-438 | the group is dropped before the deposit if and only if the obligation with the target added would not be valid for it |
| `SwapCollateral.SwapReplaysIff` | ts-client/src/lending_operations/swap_collateral_operations.ts:611-621 | as to staleness, the lending steps of the whole list go through if and only if no group is requested behind them, the source is closed or was not held; their effects are the optional removal of the group, the deposit, the withdrawal and the optional request |
| `SwapCollateral.SwapIsTakenIff` | ts-client/src/lending_operations/swap_collateral_operations.ts:266-318 | from the state read, the program takes the whole swap if and only if the target gets the last slot in use, the source is deposited, and a group is requested behind the withdrawal only when that closes a source that is not borrowed too; it then ends in the requested group |
| `SwapCollateral.PartialSwapIsRefused` | ts-client/src/lending_operations/swap_collateral_operations.ts:440-500 | a partial swap that leaves its group is planned and refused |
| `SwapCollateral.SwapRequestsAreNew` | ts-client/src/lending_operations/swap_collateral_operations.ts:474-500 | every request of a swap is for another group than the one the obligation is in at that point |
| `SwapCollateral.SwapOutRepaysTheLoan` | ts-client/src/lending_operations/swap_collateral_operations.ts:320-333 | the quoted swap-out covers what the flash loan takes back, fee included, and would not cover one lamport more |
| `SwapCollateral.SwapMoves` | ts-client/src/lending_operations/swap_collateral_operations.ts:440-472 | the lending steps of a swap deposit the flash-borrowed target, withdraw the cTokens of the source, and move nothing else |
| `SwapCollateral.WithdrawalCoversTheSwap` | ts-client/src/lending_operations/swap_collateral_operations.ts:440-472 | a closing swap withdraws everything; else the withdrawn cTokens redeem for at least the whole lamports swapped outside, and for less than one cToken more |
| `SwapCollateral.TakenSwapMoves` | ts-client/src/lending_operations/swap_collateral_operations.ts:266-318 | a swap that is taken has moved exactly that |
| `SwapCollateral.SwapKeepsGroups` | ts-client/src/lending_operations/swap_collateral_operations.ts:422-500 | from a valid obligation, an accepted swap is valid for its group after every step and ends in exactly the requested group |
| `SwapCollateral.StrictThroughoutIff` | ts-client/src/lending_operations/swap_collateral_operations.ts:422-438 | validity without the debt reserve as collateral is kept after every step if and only if the swap does not deposit the kept group's own debt reserve |
| `SwapCollateral.OwnDebtReserveExample` | ts-client/src/lending_operations/swap_collateral_operations.ts:422-438 | a planned swap that does so and is taken |
| `SwapCollateral.SwapNamesWhatIsHeldIff` | ts-client/src/lending_operations/swap_collateral_operations.ts:440-472 | throughout the swap refreshes and requests name exactly the occupied slots in order, if and only if a new target gets the last slot in use and the final request leaves out the source just when it is gone |
| `SwapCollateral.TargetNamedOutOfOrder` | ts-client/src/lending_operations/swap_collateral_operations.ts:440-472 | with a free slot before the source's, the target is named out of order and the swap refused |
| `SwapCollateral.SwapIsPlanned` | ts-client/src/lending_operations/swap_collateral_operations.ts:266-318 | a swap is planned once its amounts and current group are known and the market has all reserves involved |

## Left out

- Of accounts, token accounts and the reserve a referrer's account belongs to: `Accounts` follows the user metadata, the obligation, one referrer's account and the farm accounts.
- Network access, account decoding, sending and simulating transactions, the command line and the examples.
- The Rust client and, of the on-chain program, everything but the rules listed above: amounts, prices, health, the membership of a deposit in a group, and the inner refreshes of the one-instruction repay and withdraw.
- Account addresses, derived addresses, token programs and token-account wrapping: instructions carry kind, reserves and amounts; token-account steps are opaque tags, and the extra accounts of lending instructions and the referrer accounts of refreshes are not modelled.
- Decimal precision, floating-point rounding and the binary fractions of stored numbers: arithmetic is exact.
- The reward schedule: it compares decimals with `<=`, which compares strings.
- SwapCollateral.GetSwapCollIxns: the outcome of the LTV comparison is an input, since the source compares decimals with `>`, which compares strings.
- Lamport amounts of the collateral swap are floored before they reach the builders, as the flash-loan instruction does; the deposit passes the unrounded decimal string on.
- `buildDepositAndWithdrawV2Txns`: its initialization always fails, and that failure is what is modelled.
- Plans for minting and redeeming cTokens: they carry no refresh of the obligation.
- `getMaxBorrowAmount`: marked deprecated in the source.
- Configuration diffs and byte encoding, oracles, scope price feeds, farms' rewards, kToken leverage, the vault client.
- The liquidity mints of group descriptions and the lookup of groups by mints: the same filter over another key.
- `potentialElevationGroupUpdate`, which the builder stores on the obligation as a side effect of a borrow.
- The reading of caps from the reserve's configuration fields; the caps themselves are inputs of `Caps`.
- RepayWithCollateral.PlanKeepsAccountBacked: assumes a positive LTV on the collateral, by which the source's partial branch divides.
- Limits.MaxWithdrawKeepsLimit: assumes non-negative LTVs, a debt within the limit and the slot's exchange rate, which are what the source's formula starts from.
- Reserves.EstimatesGrow: assumes per-slot rates in the range that the stored integer widths guarantee; `EstimateFallsOutsideRange` is an instance outside it.
- SwapCollateral.SwapKeepsGroups: assumes group ids stored in order, as the source's lookup by index does, and that withdrawing everything empties the deposit, which the program may limit when there is debt.
- Programs.PlanIsTakenIff: whether a withdrawal uses up a deposit is an input, and a full repayment is judged as the builder judges it.
- Ledgers.PlanNamesWhatIsHeldIff: whether a withdrawal uses up a deposit is an input, and a full repayment is judged as the builder judges it; a deposit into an obligation without a free slot changes nothing there, and is refused in `Programs.Takes`.
