/** What the client and the provider side of a retrieval deal share: the deal statuses
    (retrieval/deal/status.go) and an option type. */
module Deal {

  datatype Option<+X> = None | Some(value: X)

  datatype Status =
    | New
    | WaitForAcceptance
    | PaymentChannelCreating
    | PaymentChannelAddingFunds
    | PaymentChannelAddingInitialFunds
    | PaymentChannelAllocatingLane
    | Accepted
    | Failing
    | Rejected
    | FundsNeeded
    | SendFunds
    | SendFundsLastPayment
    | Ongoing
    | FundsNeededLastPayment
    | Completed
    | DealNotFound
    | Errored
    | BlocksComplete
    | Finalizing
    | Completing
    | CheckComplete
    | CheckFunds
    | InsufficientFunds
    | Cancelling
    | Cancelled
    | ClientWaitingForLastBlocks

  function Max(a: int, b: int): int {
    if a < b then b else a
  }
}
