# A verified model of the pop retrieval network

pop is a content delivery node. A client asks the network for content by gossip, picks one of the
offers it gets, and retrieves the content from a provider while paying for it, interval by interval,
with vouchers of a Filecoin payment channel. A node keeps what it stores in an index with
least-frequently-used eviction. This project models the parts where money, data and bookkeeping have
to agree over whole runs, and proves that they do, or exactly when they do.

| file | what it models | main results |
|---|---|---|
| Intervals.dfy | interval thresholds of a deal | the two searches find the least threshold above and the greatest below, and undo each other; they end exactly when a parameter is positive |
| Provider.dfy | provider state chart and revalidator | `ExposureBounded`: for any client, what a provider sends unpaid stays below two intervals; `ExposureTight`: the bound is attained |
| Client.dfy | client state chart and handlers, run by a queueing state machine | `ClientNeverOverpays`, `ClientWellDefined`, `HandlersSafeExactly` |
| Lockstep.dfy | an honest client and an honest provider joined by a network | `LockstepAlways`: both walk the same thresholds; `PauseLifted`, `ClientPaysNext` |
| LockstepRuns.dfy | runs of the two that make progress | `BothReach`, `ProviderAhead`, `SendsVoucherIff` |
| LockstepProgress.dfy | what can still happen from any reachable state | `ThresholdsWithinReach`: every later threshold, unless the deal is doomed |
| LockstepFailure.dfy | honest deals that fail of themselves | `FailsAtEveryThreshold`, `FailsIff`, `GoesOnIff`, `OneAtATimeNeverFails` |
| Lanes.dfy | voucher acceptance and lane state | `BalanceNeverExceeded`, `LanesStayOrdered`, `DeltasTelescope`, `ShortfallIsExact` |
| Submission.dfy | submitting vouchers to the chain | `SubmittedDownwardClosed`, `SubmittedForever`, `SubmittingBestClearsLane` |
| PaymentChannel.dfy | the channel object whose methods carry this out | each method against the functions of Lanes and Submission |
| Funding.dfy | the funding queue of a channel | `FundingInvariant` over any interleaving; `AnsweredIff`, `StuckForever` |
| BucketList.dfy | the list of rank buckets with back references | the representation invariant; ranks determine the list |
| LfuIndex.dfy | the content index | what each operation keeps and does; what is evicted |
| IndexRuns.dfy | whole runs of the index | `Replay`, `ReplayAndReload`: a restart gives the live list exactly if nothing evicted is missing; `OrphanIff`, `SizeIsStoredPlusDropped` |
| Interest.dfy | the ranking of content known from peers | `Replay`: the invariant and the frequencies as sums over every history; `Interesting`: what is picked |
| OfferWorker.dfy | the offer selection worker | one execution at a time, conservation, price order, nothing after the result |
| Gossip.dfy | sending offers back along the path of a query | `OfferReachesPublisher` |
| FilAmount.dfy | printing and reading token amounts | `RoundTrip`, in both directions |

`Deal.dfy` holds the deal statuses and an option type, `Arithmetic.dfy` facts about products and
quotients. Protocols are step functions over values with
a predicate for runs; the properties are proved for every state of every run. What the repository
changes in place is a class whose methods are proved against those step functions. Verify with
`dafny verify dfyconfig.toml`.

How the parts fit: `Lockstep` runs the machines of `Client` and `Provider` together, and
`ClientLaneAnswers` and `ProviderLaneCredits` justify from `Lanes` what it takes the two voucher
stores to answer. `LfuIndex` and `Interest` share the list of `BucketList`.

Assumptions about what is not part of the repository: the state machine library applies an event only
if the table has a row for the status, leaves final states alone, runs one handler at a time and
queues what a handler triggers behind what arrived meanwhile; a locked section is one step; chain
lanes only advance to stored vouchers; Go's list gives a removed element no successor; a map is
walked in any order, and a sort gives any sorted permutation.

## Where the code and its description differ

The model follows the code.

- A request for payment that overtakes the blocks it is for makes a client ask twice for the same
  voucher. The second is refused (payments/channel.go:786-788), and if the refusal is taken up while
  the client comes to send again, the deal fails, with both sides honest, enough funds and no error
  from outside: `LockstepFailure.FailsAtEveryThreshold`. `LockstepFailure.RefusedIff`,
  `LockstepFailure.DoomBeginsIff`, `LockstepFailure.FailsIff` and `LockstepFailure.GoesOnIff` are the
  exact conditions. The provider's next pause is then not lifted: `LockstepFailure.FailedPaysNoMore`.
- `Available` is described as 0 when the index is full (exchange/index.go:228). Its unsigned
  subtraction wraps around above the upper bound: `IndexRuns.OverfullIndex` reaches such an index, and
  `LfuIndex.NoSpaceWhenFullIff` is the exact condition.
- Eviction is meant to bring the store down to the lower bound (exchange/index.go:46-50). One call
  drains at most the front bucket: `IndexRuns.AboveBothBounds` is, for all bounds, a run in which that
  is not enough, and `IndexRuns.SetReachesLowerBound` the exact condition.
- `DropRef` is described as removing the content (exchange/index.go:254); the byte count keeps the
  bytes. `IndexRuns.SizeIsStoredPlusDropped` says by how much the count is ahead.
- An evicted ref stays persisted, so that dropping it panics: `IndexRuns.EvictedDropPanics`, and
  exactly which keys, `IndexRuns.OrphanIff`. A restart brings it back: `IndexRuns.ReplayAndReload`.
- `Interesting` looks at the front bucket of an index that has none: `Interest.Interesting` says when,
  and `Interest.InterestingPanics` is a case.
- A delay that fires on an offer worker without offers indexes an empty queue:
  `OfferWorker.DelayPanicsIff`.
- `SubmitAllVouchers` waits forever after a refused push: `PaymentChannel.Channel.SubmitAllVouchers`.
- A voucher is marked as submitted before its message is executed, so that one whose update failed on
  chain is never spendable again: `PaymentChannel.Channel.SubmitVoucherForLane` and
  `Submission.SubmittedForever`.
- Requests for funds that sum up to zero are kept and not answered, not only when they were cancelled
  meanwhile (payments/channel.go:193-195): `Funding.AnsweredIff` and `Funding.ZeroWaits`.
- An offer that comes in after a failure was reported is queued and never tried:
  `OfferWorker.NothingAfterResult`.
- A channel whose message could not be waited for never sends another: `Funding.StuckIff` and
  `Funding.StuckForever`.
- A client of a deal with a price and no funds skips the channel set-up and then dereferences a
  missing payment channel: `Client.UnfundedCrashes` and, exactly, `Client.HandlersSafeExactly`.
- With both interval parameters zero the interval searches do not end: `Intervals.AdvancesIff`. With
  an empty first interval a client does not pay before its last block, and only then:
  `LockstepRuns.SendsVoucherIff`.
- The provider's threshold is not always at most the client's: `LockstepRuns.ProviderAhead`, and
  exactly when, `Lockstep.LockstepAlways`.
- A replayed voucher unlocks one more interval without bringing money: `Provider.ExposureTight`.

## Model

| member | source | states |
|---|---|---|
| `Intervals.ClosedForm` | retrieval/deal/types.go:184-205 | the threshold both loops walk through is k times the interval plus k(k-1)/2 times the increase |
| `Intervals.TStrict` | retrieval/deal/types.go:184-205 | from the first threshold on, thresholds strictly rise |
| `Intervals.AdvancesIff` | retrieval/deal/types.go:184-205 | there is a threshold above every byte count, so that the loops end, if and only if the interval or the increase is positive |
| `Intervals.NextInterval` | retrieval/deal/types.go:197-205 | the loop ends and returns the least threshold above the current one |
| `Intervals.IntervalLowerBound` | retrieval/deal/types.go:184-194 | the loop ends and returns the greatest threshold below the current one, 0 at 0 |
| `Intervals.NextIsLeast` | retrieval/deal/types.go:197-205 | the specification of the upward search is the least threshold above, for every count |
| `Intervals.LowerBoundIsGreatest` | retrieval/deal/types.go:184-194 | the specification of the downward search is the greatest threshold below, for every positive count |
| `Intervals.StepsOnThresholds` | retrieval/deal/types.go:184-205 | on thresholds the searches are successor and predecessor |
| `Intervals.SearchesUndo` | retrieval/deal/types.go:184-205 | on thresholds the searches undo each other, in both orders |
| `Provider.ProviderDeal.constructor` | retrieval/deal/types.go:281-294 | the record holds the state it is made from |
| `Provider.ProviderDeal.Act` | retrieval/provider/fsm.go:57-96 | what each action leaves in the fields, with the interval moved by the loop of `NextInterval` |
| `Provider.ProviderDeal.Apply` | retrieval/provider/fsm.go:49-128 | the whole record after an event: nothing in a final status or without a row, else the action and the new status |
| `Provider.ProviderRevalidator.constructor` | retrieval/validators.go:162-167 | a new revalidator tracks nothing |
| `Provider.ProviderRevalidator.BeginTracking` | retrieval/environments.go:118-126 | a deal gets its record once, is tracked and opened; a second one with its identifier is refused and changes nothing |
| `Provider.ProviderRevalidator.TrackChannel` | retrieval/validators.go:172-179 | the channel is tracked with the deal's figures and belongs to its deal |
| `Provider.ProviderRevalidator.UntrackChannel` | retrieval/validators.go:183-187 | exactly this channel is no longer tracked |
| `Provider.ProviderRevalidator.Revalidate` | retrieval/validators.go:213-235 | result and new state for every voucher and every failure: an unknown channel, another kind of voucher and a deal that cannot be read change nothing, a lost event leaves the deal as it was |
| `Provider.ProviderRevalidator.Count` | retrieval/validators.go:189-210 | a stale channel is refreshed from the deal before bytes are added |
| `Provider.ProviderRevalidator.OnPullDataSent` | retrieval/validators.go:312-340 | continue or pause, the amount asked for and the new state of channel and deal, and what is left after a failed read or a lost event |
| `Provider.ProviderRevalidator.OnComplete` | retrieval/validators.go:354-388 | done if nothing is owed, else a pause for the last payment, and what is left after a failed read or either event lost |
| `Provider.PaymentAdvances` | retrieval/validators.go:237-298 | a payment that leaves nothing owed covers the interval before the current one and moves up one threshold, also when it brings no money |
| `Provider.OnlyPaymentsPay` | retrieval/provider/fsm.go:49-128 | no other step touches funds, interval or what is counted as paid |
| `Provider.SecuredByStep` | retrieval/provider/fsm.go:67-96 | every step keeps: the interval is a threshold T(k), the funds beyond the unseal price cover T(k-2) bytes |
| `Provider.AccountedByStep` | retrieval/validators.go:202-210 | every step keeps the revalidator's figures equal to the deal's unless they are marked stale |
| `Provider.ContinuedIsExposed` | retrieval/validators.go:312-340 | a transfer that is let on has sent less than T(k) - T(k-2) bytes beyond those counted as paid, which are really paid for |
| `Provider.ExposureBounded` | retrieval/validators.go:202-340 | over every run and any client, replays included, a priced transfer that is let on stays within that bound |
| `Provider.WireExposureBounded` | retrieval/validators.go:202-340 | the same bound on the bytes really sent and really paid for, while the deal is going on |
| `Provider.OwedNothing` | retrieval/validators.go:276-298 | having paid for threshold j, nothing is owed at thresholds up to j + 1 |
| `Provider.ExposureTight` | retrieval/validators.go:237-340 | for every priced deal there is a run, with one voucher replayed, that ends one byte short of the bound |
| `Provider.WireAccounted` | retrieval/validators.go:312-340 | before completion every byte really sent is counted once, across refreshes |
| `Client.ClientDeal.constructor` | retrieval/deal/types.go:251-272 | the record holds the state it is made from |
| `Client.ClientDeal.OnPaymentSent` | retrieval/client/fsm.go:307-343 | requested, spent and unseal amounts, bytes paid for and the interval after a sent payment |
| `Client.ClientDeal.ActOnChannel` | retrieval/client/fsm.go:59-400 | what the events about the payment channel leave in the record, field by field |
| `Client.ClientDeal.Act` | retrieval/client/fsm.go:59-400 | what every other action leaves in the record, field by field |
| `Client.ClientDeal.Apply` | retrieval/client/fsm.go:59-400 | nothing in a final status or without a row, else action, then status; allocating a lane without a channel, and only that, dereferences an unset field |
| `Client.AmountCovered` | retrieval/client/fsm.go:529-547 | for any state, the amount to send is not negative and at most the price of what was received |
| `Client.ClientNeverOverpays` | retrieval/client/fsm.go:529-579 | over every run of events in any interleaving, funds spent and every voucher stay within unseal price plus price of the bytes received |
| `Client.ClientWellDefined` | retrieval/client/fsm.go:59-428 | over every run, a waiting status has a message to wait for, a paying one a channel unless there are no funds, and completion comes only with all blocks or after the last payment request |
| `Client.HandlersSafe` | retrieval/client/fsm.go:449-647 | over every run of a deal that has funds or no price, no handler dereferences an unset field |
| `Client.UnfundedCrashes` | retrieval/client/fsm.go:449-579 | a run that does, for every deal with a price and no funds |
| `Client.HandlersSafeExactly` | retrieval/client/fsm.go:449-579 | such a run exists if and only if the deal has a price and no funds |
| `Lockstep.RecordAdvances` | retrieval/client/fsm.go:307-343 | recording the payment due at threshold i moves the client to threshold i + 1 |
| `Lockstep.ClientProcess` | retrieval/client/fsm.go:298-343 | an event leaves the client at its threshold or moves it to the next, with payments in flight accounted for |
| `Lockstep.PaysDue` | retrieval/client/fsm.go:529-579 | a voucher that raises the lane is worth exactly the amount due at the client's threshold |
| `Lockstep.ClientAct` | retrieval/client/fsm.go:502-579 | every handler keeps the client at its threshold |
| `Lockstep.CreditIsInterval` | retrieval/validators.go:237-274 | the next voucher in flight brings the provider exactly one interval's price |
| `Lockstep.DeliveryResumes` | retrieval/validators.go:237-298 | each voucher in flight leaves nothing owed, resumes the transfer and moves the provider up one threshold |
| `Lockstep.LockstepAlways` | retrieval/client/fsm.go:298-343 | in every reachable state the vouchers in flight are exactly those from the provider's threshold up to the client's, with the one sent but not recorded; the provider is ahead, by one, if and only if that one is delivered |
| `Lockstep.PauseLifted` | retrieval/validators.go:237-340 | in every reachable state, delivering a voucher to a serving provider resumes the transfer one threshold higher |
| `Lockstep.ClientPaysNext` | retrieval/client/fsm.go:550-579 | in every reachable state of a deal with funds, a client that comes to send waits for the bytes of its threshold; with them it pays exactly what is due if nothing is unrecorded, and otherwise its voucher is refused |
| `Lockstep.EmptyIntervalNeverPays` | retrieval/client/fsm.go:502-579 | with an empty first interval, no run before the last block sends a voucher |
| `Lockstep.ClientLaneAnswers` | payments/channel.go:600-643 | with enough funds a voucher is created if and only if its amount exceeds all sent in the lane |
| `Lockstep.ProviderLaneCredits` | payments/channel.go:658-716 | the value of a fresh voucher is its amount above the last one of its lane |
| `LockstepRuns.ReachesRound` | retrieval/client/fsm.go:298-579 | from any state in which both sides stand at a threshold, a run to the next: bytes, pause, request, voucher, delivery, record |
| `LockstepRuns.BothReach` | retrieval/validators.go:237-340 | for every metered deal with funds and every threshold, a run without outside errors brings both sides there with everything before it sent, received and paid for |
| `LockstepRuns.ProviderAhead` | retrieval/client/fsm.go:550-579 | for every such deal and threshold, a run in which the provider is one threshold ahead of the client |
| `LockstepRuns.SendsVoucherIff` | retrieval/client/fsm.go:502-579 | for a priced deal with funds and no unseal price, a run before the last block sends a voucher if and only if the first interval is not empty |
| `LockstepProgress.StopsIff` | retrieval/client/fsm.go:62-390 | which events can take a client out of the statuses it moves between while it pays |
| `LockstepProgress.AnswerPays` | retrieval/client/fsm.go:502-579 | the handler of such a client pays if and only if it sends with the bytes of its threshold and nothing unrecorded |
| `LockstepProgress.ServedRecords` | retrieval/client/fsm.go:298-343 | taking up a sent payment moves such a client to the next threshold and keeps it going |
| `LockstepProgress.ServedArmed` | retrieval/client/fsm.go:244-257 | a client that has the bytes of its threshold pays as soon as it comes to send, and stays ready until then |
| `LockstepProgress.GetsRecorded` | retrieval/client/fsm.go:298-343 | whatever lies before it in the queue, a sent payment gets recorded |
| `LockstepProgress.ThresholdsWithinReach` | retrieval/client/fsm.go:186-343 | from every reachable state in which both sides serve, no stopping event is under way and no refused voucher waits where it ends the deal, some continuation without outside errors brings both sides to every later threshold, with every byte sent before it is received |
| `LockstepFailure.RefusedIff` | retrieval/client/fsm.go:550-579 | in every run, a voucher is refused if and only if the client asks for it with the bytes of its threshold while a payment is unrecorded |
| `LockstepFailure.RefusalsAskedTwice` | payments/channel.go:776-789 | every refused voucher was asked for while a payment was unrecorded |
| `LockstepFailure.DoomBeginsIff` | retrieval/client/fsm.go:287-292 | a deal is lost exactly when a refused voucher is reported behind events that lead to a sending status |
| `LockstepFailure.FatedStep` | retrieval/client/fsm.go:287-292 | no step saves a lost deal: it fails, at a bounded threshold |
| `LockstepFailure.FailsIff` | retrieval/client/fsm.go:62-390 | in every run without error, refusal or cancellation from outside, the deal has failed if and only if a refused voucher was taken up in a sending status |
| `LockstepFailure.GoesOnIff` | retrieval/client/fsm.go:186-343 | in every reachable state in which both sides serve and no stopping event is under way, every later threshold is within reach if and only if no refused voucher waits behind events that lead to a sending status |
| `LockstepFailure.OneAtATimeNeverFails` | retrieval/client/fsm.go:502-579 | a client that gets one event at a time never fails of itself |
| `LockstepFailure.FailedPaysNoMore` | retrieval/client/fsm.go:502-579 | a failed deal sends no further voucher, and once those in flight are delivered the provider is not paid again |
| `LockstepFailure.FailsAtEveryThreshold` | retrieval/validators.go:326-339 | for every metered deal with funds and every threshold, a run without outside errors in which both sides are honest and the deal fails |
| `Lanes.IncrementalTotal` | payments/channel.go:826-868 | for a voucher that passes the check, the incremental total is the total of a fresh overlay once it is stored |
| `Lanes.CatchingUpChangesNothing` | payments/channel.go:872-930 | however far the chain has caught up with stored vouchers, the lane states are the same |
| `Lanes.OrderedAppend` | payments/channel.go:770-791 | an accepted voucher keeps nonces and amounts strictly rising in its lane |
| `Lanes.AcceptedIs` | payments/channel.go:718-823 | what an accepted voucher has passed: no merges, above its lane, total within the balance |
| `Lanes.AddKeeps` | payments/channel.go:658-716 | one addition keeps order and balance, adds its delta to the total, and changes nothing when it is refused |
| `Lanes.BalanceNeverExceeded` | payments/channel.go:718-868 | over every run with a balance that does not shrink, the total over all lanes is within the balance |
| `Lanes.LanesStayOrdered` | payments/channel.go:658-716 | over every run, nonces and amounts strictly rise in each lane |
| `Lanes.DeltasTelescope` | payments/channel.go:658-716 | over every run, the reported deltas add up to the growth of the total; duplicates and refusals add nothing |
| `Lanes.ShortfallIsExact` | payments/channel.go:808-823 | on a shortfall nothing is stored, and a retry succeeds if and only if the balance grew by the shortfall |
| `Lanes.MaxNonceIsMax` | payments/channel.go:645-656 | the nonce found for a lane is the highest stored, or 0 |
| `Lanes.LaneStandsAtLast` | payments/channel.go:872-930 | a lane that started empty stands at its last stored voucher |
| `Lanes.CreateVoucherExactly` | payments/channel.go:600-643 | creating a voucher succeeds, falls short or fails by amount, lane and balance alone, with the exact shortfall |
| `Submission.MarkKeepsClosed` | payments/store.go:451-472 | marking a voucher keeps the submitted ones the lowest of each lane and changes no voucher |
| `Submission.AppendKeepsClosed` | payments/channel.go:700-716 | so does storing an accepted voucher |
| `Submission.SubmittedDownwardClosed` | payments/store.go:451-472 | over every run of additions and submissions, submitted vouchers are the lowest of each lane, order and balance hold |
| `Submission.SubmittedForever` | payments/store.go:451-472 | over every run, a submitted voucher stays submitted and is never spendable again |
| `Submission.BestIff` | payments/manager.go:499-516 | a lane is in the map if and only if it has a spendable voucher |
| `Submission.BestIsTop` | payments/manager.go:499-516 | if the chain takes every unsubmitted voucher, the best of a lane has its highest nonce, and a lane is missing if and only if all is submitted |
| `Submission.SubmittingBestClearsLane` | payments/channel.go:997-1053 | submitting the best voucher leaves nothing to submit in its lane and touches no other lane |
| `Submission.SweepLane` | payments/manager.go:262-310 | in a sweep over the lanes, the best voucher of each is still unsubmitted when its turn comes, and a refused push changes nothing |
| `Submission.SweptIff` | payments/manager.go:262-310 | if the chain takes every unsubmitted voucher, exactly the lanes submitted or cleared before are cleared |
| `PaymentChannel.Channel.constructor` | payments/store.go:56-72 | a new channel has no vouchers |
| `PaymentChannel.Channel.AllocateLane` | payments/store.go:262-272 | lanes are handed out once, and no stored voucher uses the lane handed out |
| `PaymentChannel.Channel.NextNonceForLane` | payments/channel.go:645-656 | one above every nonce stored for the lane |
| `PaymentChannel.Channel.LaneStates` | payments/channel.go:872-930 | the loop computes the overlay, or fails on a voucher that merges |
| `PaymentChannel.Channel.CheckVoucherValid` | payments/channel.go:718-823 | the first failing check in order, or lanes and balance |
| `PaymentChannel.Channel.AddVoucher` | payments/channel.go:658-716 | the whole channel and the result after an addition |
| `PaymentChannel.Channel.CreateVoucher` | payments/channel.go:600-643 | the whole channel and the result after a creation |
| `PaymentChannel.Channel.InfoForVoucher` | payments/store.go:418-429 | the first place of the voucher, or none |
| `PaymentChannel.Channel.MarkVoucherSubmitted` | payments/store.go:451-472 | exactly the voucher and the lower ones of its lane are marked |
| `PaymentChannel.Channel.SubmitVoucher` | payments/channel.go:997-1053 | refused if submitted before, else marked, and appended first if unknown |
| `PaymentChannel.Channel.BestSpendableByLane` | payments/manager.go:499-516 | for any vouchers, the map holds a spendable voucher of the highest amount for each lane that has one |
| `PaymentChannel.Channel.SubmitVoucherForLane` | payments/manager.go:225-258 | the message is sent if and only if the lane has a spendable voucher and the push succeeds; then exactly the best and the lower ones of the lane are marked, which clears it if the chain takes every unsubmitted voucher; the call succeeds if and only if the message was sent, waited for and executed, and the marks stay when it does not |
| `PaymentChannel.Channel.SubmitPick` | payments/manager.go:225-258 | the same for a given choice of best vouchers |
| `PaymentChannel.Channel.SubmitAllVouchers` | payments/manager.go:262-310 | for any answers of the pool: exactly the lanes whose push succeeded are marked, and the call hangs if and only if a push was refused; if the chain takes every unsubmitted voucher, that is if and only if some lane is not cleared |
| `PaymentChannel.Channel.Sweep` | payments/manager.go:282-310 | the loop over the lanes in any order |
| `PaymentChannel.TotalRedeemedWithVoucher` | payments/channel.go:826-868 | the loop over the lanes in any order computes the incremental total |
| `PaymentChannel.NextLaneFromState` | payments/manager.go:628-648 | one above every lane the chain knows |
| `Funding.FundsChannel.constructor` | payments/channel.go:29-40 | an empty queue and no channel |
| `Funding.FundsChannel.EnqueueRequest` | payments/channel.go:167-173 | the request is queued behind the others |
| `Funding.FundsChannel.CancelRequest` | payments/channel.go:1353-1367 | only this request stops being active |
| `Funding.FundsChannel.FilterQueue` | payments/channel.go:219-240 | compacting in place keeps exactly the active requests, in order |
| `Funding.FundsChannel.MergedSum` | payments/channel.go:1436-1444 | the sum of the requests still active |
| `Funding.FundsChannel.Process` | payments/channel.go:176-216 | the whole state after a queue run: nothing sent for an empty sum, the queue kept while a message is outstanding, else all active requests answered |
| `Funding.FundsChannel.RunTask` | payments/channel.go:255-295 | create, add funds or wait, by what is stored and outstanding |
| `Funding.FundsChannel.CreateIsDone` | payments/channel.go:435-480 | the stored channel after the create message: address and amount, removed, or as it was |
| `Funding.FundsChannel.AddFundsIsDone` | payments/channel.go:543-576 | the stored channel after a message that adds funds: amount raised, dropped, or as it was |
| `Funding.FundsChannel.MessageIsDone` | payments/channel.go:429-503 | only the channel the message was sent for is touched, and the message is no longer waited for |
| `Funding.StepKeeps` | payments/channel.go:167-295 | one step of any kind keeps the invariants of requests and messages |
| `Funding.FundingInvariant` | payments/channel.go:167-576 | over any interleaving: at most one message outstanding, pending is its value, the amount is the confirmed value of the stored channel, each message is worth the requests it merged, none is merged or answered twice |
| `Funding.AnsweredIff` | payments/channel.go:176-240 | over every run, a request is answered exactly by a queue run that finds it queued and not cancelled, sums up to more than zero and finds no message outstanding |
| `Funding.ZeroWaits` | payments/channel.go:192-196 | while no request asks for money, no request is answered |
| `Funding.StuckIff` | payments/channel.go:435-576 | a channel is left with a message nobody waits for if and only if waiting for its message fails |
| `Funding.StuckForever` | payments/channel.go:255-295 | from then on no message is ever sent for it and the stored channel never changes |
| `BucketList.Ranking.constructor` | exchange/index.go:133-144 | an empty list is valid |
| `BucketList.Ranking.InsertBucket` | exchange/index.go:405-445 | a new bucket between its neighbours keeps the ranks strictly ascending |
| `BucketList.Ranking.Attach` | exchange/index.go:405-445 | a ref enters exactly one bucket and refers back to it |
| `BucketList.Ranking.Detach` | exchange/index.go:447-461 | a ref leaves, and its bucket with it if it was the last |
| `BucketList.Ranking.Reassign` | exchange/index.go:405-445 | moving a ref keeps all but that its old bucket may be empty |
| `BucketList.Ranking.Transfer` | exchange/index.go:405-445 | after a move no bucket is empty |
| `BucketList.Ranking.Place` | exchange/index.go:147-181 | a loaded ref goes to its rank wherever that is |
| `BucketList.Ranking.PlaceLast` | exchange/index.go:405-445 | a new ref joins the highest rank, or opens rank 1 |
| `BucketList.Ranking.MoveUp` | exchange/index.go:405-445 | a read ref stands exactly one rank higher |
| `BucketList.Ranking.MoveTo` | exchange/index.go:633-713 | a ref stands at the higher rank asked for |
| `BucketList.Ranking.ViewIsGroups` | exchange/index.go:393-461 | a valid list shows exactly the content at each rank, in order |
| `BucketList.GroupsUnique` | exchange/index.go:147-181 | the rank of each content determines the whole list |
| `LfuIndex.Index.constructor` | exchange/index.go:126-146 | a new index is valid and empty |
| `LfuIndex.Index.LoadRef` | exchange/index.go:147-181 | one persisted ref is loaded at its rank and counted |
| `LfuIndex.NewIndex` | exchange/index.go:126-187 | from any persisted refs, in any order, a valid index that holds exactly them and counts their bytes |
| `LfuIndex.Index.GetRef` | exchange/index.go:335-348 | reading raises exactly one rank by one, is persisted, and fails for unknown keys |
| `LfuIndex.Index.IncrementRanked` | exchange/index.go:405-445 | the ref moves up one rank and everything else keeps its rank |
| `LfuIndex.Index.IncrementNew` | exchange/index.go:405-445 | a new ref joins the highest rank without counting as read |
| `LfuIndex.Index.DropRef` | exchange/index.go:255-274 | the ref leaves map, list and persisted copy, the byte count stays; a persisted key without a ref panics |
| `LfuIndex.Index.Evict` | exchange/index.go:463-487 | refs of the front bucket go until the target is met for the first time or the bucket is empty; the result is exactly the drop of the byte count |
| `LfuIndex.Index.EvictLowest` | exchange/index.go:463-487 | no evicted ref ranks above one that stays |
| `LfuIndex.Index.MakeRoom` | exchange/index.go:321-325 | eviction runs exactly above the upper bound, and never takes the new ref |
| `LfuIndex.Index.FrontByRanks` | exchange/index.go:463-487 | the front bucket holds exactly the refs that rank lowest, and is missing if and only if nothing is indexed |
| `LfuIndex.Index.SetRef` | exchange/index.go:305-332 | map, persisted copy, byte count, rank and evicted refs after a store; a known key changes nothing |
| `LfuIndex.Index.ListRefs` | exchange/index.go:363-379 | the list fills its slice and holds each ref exactly once |
| `LfuIndex.Index.Available` | exchange/index.go:228-238 | the space in unsigned 64-bit arithmetic |
| `LfuIndex.SpaceWithinBounds` | exchange/index.go:228-238 | up to the upper bound the space is what is missing to it, or nothing above the lower bound |
| `LfuIndex.NoSpaceWhenFullIff` | exchange/index.go:228-238 | from the upper bound on, exactly when no space is reported |
| `LfuIndex.EvictionSufficesIff` | exchange/index.go:463-487 | one call meets its target if and only if the front bucket has that many bytes |
| `LfuIndex.Index.RanksPersisted` | exchange/index.go:335-348 | while nothing was evicted, live and persisted ranks are the same |
| `IndexRuns.RunOp` | exchange/index.go:255-348 | one operation panics if and only if it drops a key that is persisted and not indexed, and else keeps the index valid and the books |
| `IndexRuns.Replay` | exchange/index.go:126-348 | any run after any restart, up to the first panic: the index is valid, the books say what it holds and counts, and it is in step with its persisted copy if and only if nothing evicted is missing |
| `IndexRuns.SizeIsStoredPlusDropped` | exchange/index.go:255-332 | over every run the byte count is ahead of the indexed bytes by exactly the dropped ones |
| `IndexRuns.OrphanIff` | exchange/index.go:255-332 | over every run, a key is persisted and not indexed if and only if it was evicted since the restart and not stored again |
| `IndexRuns.RoomyHasNoOrphans` | exchange/index.go:305-332 | a run in which no store of a new key goes over the upper bound leaves none |
| `IndexRuns.ReloadEqualsLive` | exchange/index.go:147-181 | restarting in any order gives the same ranks with the same content if and only if the index is in step with its persisted copy |
| `IndexRuns.ReplayAndReload` | exchange/index.go:126-348 | after any run, a restart gives the live list if and only if every evicted key was stored again; a run that never goes over the upper bound does not panic and restarts to the live list |
| `IndexRuns.SetReachesLowerBound` | exchange/index.go:305-332 | a store over the upper bound brings the index down to the lower one if and only if the refs that rank lowest have enough bytes |
| `IndexRuns.OverfullIndex` | exchange/index.go:228-332 | for any bounds, one store leaves an index above its upper bound, and what `Available` then reports |
| `IndexRuns.ShortEviction` | exchange/index.go:305-487 | for any bounds and sizes, a run of stores and a read after which one eviction leaves the rest, above a bound exactly when the rest exceeds it |
| `IndexRuns.AboveBothBounds` | exchange/index.go:305-487 | for all bounds, a store that evicts and leaves the index above both of them |
| `IndexRuns.EvictedDropPanics` | exchange/index.go:255-274 | dropping the key evicted in that run panics |
| `Interest.InterestList.constructor` | exchange/index.go:133-144 | an empty list is valid |
| `Interest.InterestList.LoadRef` | exchange/index.go:633-713 | one ref of a peer adds its reads to its frequency and moves it to that bucket; content that is stored is skipped; nothing else enters the list |
| `Interest.InterestList.LoadInterest` | exchange/index.go:625-713 | a whole peer index, in any order, adds its reads to the frequencies of what the node does not have |
| `Interest.InterestList.DropInterest` | exchange/index.go:764-774 | exactly this ref leaves and no bucket enters; unknown refs are reported |
| `Interest.OrderIsIrrelevant` | exchange/index.go:625-713 | loading a peer's index gives the same frequencies in any order |
| `Interest.FrequencyIsSum` | exchange/index.go:633-713 | over every sequence of loads and drops, a frequency is the sum of the loads since the ref last entered |
| `Interest.Replay` | exchange/index.go:625-774 | after every sequence of loads and drops the list is valid, holds exactly the refs loaded since their last drop, and each stands in the bucket of the sum of its loads since then |
| `Interest.InterestList.Fill` | exchange/index.go:718-737 | the picks are a top-frequency set that reaches the space or holds everything, and falls short without the last pick |
| `Interest.InterestList.Swap` | exchange/index.go:738-753 | without space, a most read ref is picked if and only if some known ref is read more than one in the least popular bucket |
| `Interest.Interesting` | exchange/index.go:718-753 | with space, the most read refs that just fill it; without, a most read ref if and only if it improves on the least popular bucket; it panics if and only if nothing is indexed and something is known |
| `Interest.WithoutSpace` | exchange/index.go:738-753 | the part without space |
| `Interest.InterestingPanics` | exchange/index.go:718-753 | a new index without bounds panics on anything known |
| `Interest.PickFromBack` | exchange/index.go:722-737 | the two loops take whole buckets from the back, and part of at most one |
| `Interest.TopOfLevels` | exchange/index.go:722-737 | taking buckets from the back leaves out nothing that is read more |
| `OfferWorker.SessionWorker.constructor` | exchange/tx.go:1134-1149 | an idle worker with an empty queue |
| `OfferWorker.SessionWorker.ExecCheapest` | exchange/tx.go:1170-1175 | a cheapest queued offer is executed and the rest stays sorted |
| `OfferWorker.SessionWorker.OfferBack` | exchange/tx.go:1154-1175 | the whole state after an offer at the back, for every configuration |
| `OfferWorker.SessionWorker.OfferFront` | exchange/tx.go:1176-1183 | an idle worker executes it, else it is queued first |
| `OfferWorker.SessionWorker.DelayFired` | exchange/tx.go:1184-1192 | an idle worker starts with a cheapest offer, and panics if and only if it has none |
| `OfferWorker.SessionWorker.ExecEnded` | exchange/tx.go:1193-1204 | the next offer after a failure, else the result is reported |
| `OfferWorker.SessionWorker.Shut` | exchange/tx.go:1211-1216 | the caller gets exactly the queued offers |
| `OfferWorker.SortedIsSort` | exchange/tx.go:1229-1233 | the sort gives an ascending permutation |
| `OfferWorker.StepKeeps` | exchange/tx.go:1150-1206 | one event of any kind keeps the invariants below |
| `OfferWorker.AtMostOneExecution` | exchange/tx.go:1134-1206 | over every event sequence at most one execution is under way and at most one result is reported |
| `OfferWorker.OffersConserved` | exchange/tx.go:1134-1216 | over every event sequence each accepted offer is in exactly one of queued, executing, executed |
| `OfferWorker.CeilingRespected` | exchange/tx.go:1154-1157 | no offer above the ceiling pushed to the back is ever executed |
| `OfferWorker.CheapestFirst` | exchange/tx.go:1170-1204 | after a sorted start without new offers, all offers ever tried were tried in order of price, and none is dearer than a queued one |
| `OfferWorker.TrailIff` | exchange/tx.go:1154-1192 | when that is: from a sorted start until the next offer is taken in |
| `OfferWorker.FinishRule` | exchange/tx.go:1193-1204 | a result is reported if and only if an execution succeeds or nothing is queued |
| `OfferWorker.NothingAfterResult` | exchange/tx.go:1148-1204 | once a result is reported, nothing is executed any more and offers that come in stay queued |
| `OfferWorker.DelayPanicsIff` | exchange/tx.go:1184-1192 | over every event sequence a delay panics if and only if no offer was ever taken in |
| `Gossip.GossipTracer.constructor` | exchange/routing.go:454-459 | nothing is traced |
| `Gossip.GossipTracer.Trace` | exchange/routing.go:462-474 | both records after an event with either part or both |
| `Gossip.GossipTracer.Published` | exchange/routing.go:477-481 | whether the node published the message |
| `Gossip.GossipTracer.Sender` | exchange/routing.go:484-492 | the recorded sender, or none |
| `Gossip.GossipTracer.HandleOffer` | exchange/routing.go:359-401 | receive, forward to the sender, or drop |
| `Gossip.OnePublisher` | exchange/routing.go:462-474 | over every history a message has one publisher |
| `Gossip.LeadsOn` | exchange/routing.go:232-270 | a delivery extends the way back of the node it came from |
| `Gossip.LeadsStays` | exchange/routing.go:462-474 | later events leave a way back as it is |
| `Gossip.OfferReachesPublisher` | exchange/routing.go:359-401 | over every history, an offer from any node that was delivered the query visits no node twice and is received by the publisher, the only node that has published it |
| `FilAmount.TrimmedIs` | filecoin/types.go:519-525 | trimming keeps the whole number, drops zeros of the fraction, and the point with the last of them |
| `FilAmount.ValueOfDigits` | filecoin/types.go:519-525 | the digits printed for a number write that number |
| `FilAmount.ReadsFraction` | filecoin/types.go:569-572 | digits, a point and digits are read as their number over a power of ten |
| `FilAmount.ScalesBack` | filecoin/types.go:574-586 | a decimal with at most 18 places times 10^18 is a whole number, and which |
| `FilAmount.ReadsPrinted` | filecoin/types.go:550-587 | what reading gives for every printed amount, the two error cases included |
| `FilAmount.RoundTrip` | filecoin/types.go:515-587 | reading a printed amount gives it back if and only if it is not negative and its number has at most 50 characters |
| `FilAmount.RoundTripBelow` | filecoin/types.go:515-587 | every amount below 10^31 FIL is read back |

## Left out

- Machine integers: byte counts, nonces, sizes and frequencies are unbounded, except in `Available`; prices and payload sizes are not negative.
- Both interval parameters zero: the searches have no result then, so the operations require that one is positive (see `Intervals.AdvancesIff`).
- The chain, wallet, signatures, gas, message pool and Lotus calls: their answers are parameters of the steps, and their errors end an operation where no step says otherwise.
- Several `Revalidate` calls of one channel at the same time: a call is one step.
- Runs of a provider whose deal cannot be read or whose events are lost: the methods of the revalidator model such calls, after which the transfer ends.
- Lockstep, and with it progress and failure, after `EventAllBlocksReceived`, with an unseal price, with failing voucher writes, or with vouchers that overtake each other.
- Lanes.CreateVoucherExactly: for a channel whose chain lanes come from its stored vouchers; a chain lane that nothing stored explains may have a higher nonce than the next one created.
- Submitting a voucher that was never added, in runs: the method models it, but it is stored unchecked, so the run results are about stored vouchers.
- Settling, collecting and the collection loop, and the store's encoding of a channel.
- Raising the channel's amount to the actor's balance when a voucher is added is in `AddVoucher`, not in the funding runs.
- Store errors while a funding message is recorded, and waking up the callers that wait for a message.
- The persisted index is a map of the refs as they were last written: HAMT, datastore, flushing, garbage collection and the block store are not modelled.
- LfuIndex.Index.SetRef: requires a ref that is in no list; one that already has a bucket node would be moved from where that node is.
- `UpdateRef`, `PeekRef`, and the callbacks on storing and deleting.
- Peers' frequencies below zero, and an index that changes while a peer's index is loaded, beyond a different set of stored content for each ref.
- Confirming and executing an offer, and blocking sends between the worker and its callers.
- The gossip library: that a node is delivered a message once and from a node that had it is the definition of a history.
- Reading FIL amounts from text that is not valid UTF-8; `Short` and `SizeStr`.
- Generated codecs, libp2p hosts and streams, replication, peering, HTTP, command line, browser client and metrics.
