/** The kinds of user action the client plans or simulates. */
module ActionTypes {
  /** As an amount: everything there is. */
  const U64_MAX: nat := 18446744073709551615

  datatype ActionType =
    | Deposit | Borrow | Withdraw | Repay | Mint | Redeem | DepositCollateral | Liquidate
    | DepositAndBorrow | RepayAndWithdraw | RefreshObligation | RequestElevationGroup
    | WithdrawReferrerFees | RepayAndWithdrawV2 | DepositAndWithdraw
}
