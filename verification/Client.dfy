/** The client side of a retrieval deal: event table, actions and state handlers of
retrieval/client/fsm.go, run by a state machine that queues events.

The machine applies one queued event at a time and does not look at the queue while a handler
runs; a handler reports back by putting one event at the end of the queue, behind whatever
arrived meanwhile.  All results are about every run of that machine: `ClientNeverOverpays`,
`ClientWellDefined`, `HandlersSafe` and `HandlersSafeExactly`.
 */
module Client {
  import opened Arithmetic
  import opened Deal
  import opened Intervals

  type Cid = nat
  type Address = nat

  datatype PaymentInfo = PaymentInfo(payCh: Address, lane: nat)

  datatype ClientState = ClientState(
    params: Params,
    totalFunds: nat,
    status: Status,
    lastPaymentRequested: bool,
    allBlocksReceived: bool,
    paymentInfo: Option<PaymentInfo>,
    totalReceived: nat,
    bytesPaidFor: nat,
    currentInterval: nat,
    paymentRequested: int,
    fundsSpent: int,
    unsealFundsPaid: int,
    waitMsg: Option<Cid>,
    voucherShortfall: int)

  datatype Event =
    | EventOpen
    | EventWriteDealProposalErrored
    | EventDealProposed
    | EventDealRejected
    | EventDealNotFound
    | EventDealAccepted
    | EventUnknownResponseReceived
    | EventPaymentChannelSkip
    | EventPaymentChannelErrored
    | EventPaymentChannelCreateInitiated(msg: Cid)
    | EventPaymentChannelAddingFunds(msg: Cid, payCh: Address)
    | EventPaymentChannelReady(payCh: Address)
    | EventAllocateLaneErrored
    | EventLaneAllocated(lane: nat)
    | EventProviderErrored
    | EventDataTransferError
    | EventLastPaymentRequested(owed: int)
    | EventPaymentRequested(owed: int)
    | EventUnsealPaymentRequested(owed: int)
    | EventAllBlocksReceived
    | EventBlocksReceived(total: nat)
    | EventSendFunds
    | EventFundsExpended(shortfall: int)
    | EventBadPaymentRequested
    | EventCreateVoucherFailed
    | EventVoucherShortfall
    | EventWriteDealPaymentErrored
    | EventPaymentNotSent
    | EventPaymentSent(amt: int)
    | EventComplete
    | EventCompleteVerified
    | EventEarlyTermination
    | EventWaitForLastBlocks
    | EventCancelComplete
    | EventProviderCancelled
    | EventCancel
    | EventRecheckFunds

  // ---------- Event table ----------

  predicate Final(s: Status) {
    s in {Errored, Completed, Cancelled, Rejected, DealNotFound}
  }

  predicate CreationState(s: Status) {
    s in {WaitForAcceptance, Accepted, PaymentChannelCreating,
          PaymentChannelAllocatingLane, PaymentChannelAddingInitialFunds}
  }

  predicate HasHandler(s: Status) {
    s in {New, Accepted, PaymentChannelCreating, PaymentChannelAddingInitialFunds,
          PaymentChannelAllocatingLane, Ongoing, FundsNeeded, FundsNeededLastPayment, SendFunds,
          SendFundsLastPayment, CheckFunds, PaymentChannelAddingFunds, Failing, Cancelling, CheckComplete}
  }

  /** A row of the table: no row, a target status whose handler runs (also when the status does
      not change), or a recorded event that runs no handler. */
  datatype Row = NoRow | To(s: Status) | JustRecord

  function Lookup(s: Status, e: Event): Row {
    match e
    case EventOpen => if s == New then To(New) else NoRow
    case EventWriteDealProposalErrored => To(Errored)
    case EventDealProposed => if s == New then To(WaitForAcceptance) else NoRow
    case EventDealRejected => if s == WaitForAcceptance then To(Rejected) else NoRow
    case EventDealNotFound => if s == WaitForAcceptance then To(DealNotFound) else NoRow
    case EventDealAccepted =>
      if s == WaitForAcceptance then To(Accepted)
      else if s == ClientWaitingForLastBlocks then To(s) else NoRow
    case EventUnknownResponseReceived => To(Failing)
    case EventPaymentChannelSkip => if s == Accepted then To(Ongoing) else NoRow
    case EventPaymentChannelErrored =>
      if s in {Accepted, PaymentChannelCreating, PaymentChannelAddingFunds} then To(Failing) else NoRow
    case EventPaymentChannelCreateInitiated(_) =>
      if s == Accepted then To(PaymentChannelCreating) else NoRow
    case EventPaymentChannelAddingFunds(_, _) =>
      if s == Accepted then To(PaymentChannelAddingInitialFunds)
      else if s == CheckFunds then To(PaymentChannelAddingFunds) else NoRow
    case EventPaymentChannelReady(_) =>
      if s in {PaymentChannelCreating, PaymentChannelAddingInitialFunds, Accepted}
      then To(PaymentChannelAllocatingLane)
      else if s in {PaymentChannelAddingFunds, CheckFunds} then To(Ongoing) else NoRow
    case EventAllocateLaneErrored => if s == PaymentChannelAllocatingLane then To(Failing) else NoRow
    case EventLaneAllocated(_) => if s == PaymentChannelAllocatingLane then To(Ongoing) else NoRow
    case EventProviderErrored => To(Errored)
    case EventDataTransferError => To(Errored)
    case EventLastPaymentRequested(_) =>
      if s in {Ongoing, FundsNeededLastPayment, FundsNeeded} then To(FundsNeededLastPayment)
      else if s == SendFunds then To(Ongoing)
      else if s == CheckComplete then To(s)
      else if s == BlocksComplete then To(SendFundsLastPayment)
      else if CreationState(s) then JustRecord else NoRow
    case EventPaymentRequested(_) =>
      if s in {Ongoing, BlocksComplete, FundsNeededLastPayment, FundsNeeded} then To(FundsNeeded)
      else if s == SendFunds then To(Ongoing)
      else if s == CheckComplete then To(s)
      else if CreationState(s) then JustRecord else NoRow
    case EventUnsealPaymentRequested(_) => if s == WaitForAcceptance then To(Accepted) else NoRow
    case EventAllBlocksReceived =>
      if s in {Ongoing, BlocksComplete} then To(BlocksComplete)
      else if CreationState(s) then JustRecord
      else if s in {SendFunds, SendFundsLastPayment} then To(Ongoing)
      else if s == FundsNeeded then To(s)
      else if s == FundsNeededLastPayment then To(SendFundsLastPayment)
      else if s in {ClientWaitingForLastBlocks, CheckComplete} then To(Completed) else NoRow
    case EventBlocksReceived(_) =>
      if s in {Ongoing, FundsNeeded, FundsNeededLastPayment, CheckComplete, ClientWaitingForLastBlocks} then To(s)
      else if s in {SendFunds, SendFundsLastPayment} then To(Ongoing)
      else if CreationState(s) then JustRecord else NoRow
    case EventSendFunds =>
      if s in {SendFunds, SendFundsLastPayment} then To(Ongoing)
      else if s == FundsNeeded then To(SendFunds)
      else if s == FundsNeededLastPayment then To(SendFundsLastPayment) else NoRow
    case EventFundsExpended(_) => if s == CheckFunds then To(InsufficientFunds) else NoRow
    case EventBadPaymentRequested => if s in {SendFunds, SendFundsLastPayment} then To(Failing) else NoRow
    case EventCreateVoucherFailed => if s in {SendFunds, SendFundsLastPayment} then To(Failing) else NoRow
    case EventVoucherShortfall => if s in {SendFunds, SendFundsLastPayment} then To(CheckFunds) else NoRow
    case EventWriteDealPaymentErrored => To(Errored)
    case EventPaymentNotSent =>
      if s == Ongoing then JustRecord
      else if s == SendFunds then To(Ongoing)
      else if s == SendFundsLastPayment then To(Finalizing) else NoRow
    case EventPaymentSent(_) =>
      if s == Ongoing then JustRecord
      else if s == BlocksComplete then To(CheckComplete)
      else if s == CheckComplete then To(s)
      else if s in {FundsNeeded, FundsNeededLastPayment, SendFunds} then To(Ongoing)
      else if s == SendFundsLastPayment then To(Finalizing) else NoRow
    case EventComplete =>
      if s in {SendFunds, SendFundsLastPayment, FundsNeeded, FundsNeededLastPayment, BlocksComplete,
               WaitForAcceptance, Accepted, Ongoing} then To(CheckComplete)
      else if s == Finalizing then To(Completed) else NoRow
    case EventCompleteVerified => if s == CheckComplete then To(Completed) else NoRow
    case EventEarlyTermination => if s == CheckComplete then To(Errored) else NoRow
    case EventWaitForLastBlocks =>
      if s == CheckComplete then To(ClientWaitingForLastBlocks)
      else if s == Completed then JustRecord else NoRow
    case EventCancelComplete =>
      if s == Failing then To(Errored) else if s == Cancelling then To(Cancelled) else NoRow
    case EventProviderCancelled => if s in {Failing, Cancelling} then JustRecord else To(Cancelling)
    case EventCancel => To(Cancelling)
    case EventRecheckFunds => if s == InsufficientFunds then To(CheckFunds) else NoRow
  }

  // ---------- Actions ----------

  /** The accounting done once a voucher for `amt` is sent. */
  function AfterPayment(ds: ClientState, amt: int): ClientState
    requires ds.params.Advances()
  {
    var ds := ds.(paymentRequested := ds.paymentRequested - (amt - ds.fundsSpent), fundsSpent := amt);
    if ds.params.unsealPrice >= amt then ds.(unsealFundsPaid := amt)
    else
      var ds := ds.(unsealFundsPaid := ds.params.unsealPrice);
      if ds.params.pricePerByte == 0 then ds
      else
        var ds := ds.(bytesPaidFor := (amt - ds.params.unsealPrice) / ds.params.pricePerByte);
        if ds.bytesPaidFor >= ds.currentInterval
        then ds.(currentInterval := Next(ds.params, ds.currentInterval))
        else ds
  }

  function WithChannel(ds: ClientState, payCh: Address): ClientState {
    if ds.paymentInfo.None? then ds.(paymentInfo := Some(PaymentInfo(payCh, 0))) else ds
  }

  function Action(ds: ClientState, e: Event): ClientState
    requires ds.params.Advances()
    requires e.EventLaneAllocated? ==> ds.paymentInfo.Some?
  {
    match e
    case EventPaymentChannelCreateInitiated(msg) => ds.(waitMsg := Some(msg))
    case EventPaymentChannelAddingFunds(msg, payCh) => WithChannel(ds.(waitMsg := Some(msg)), payCh)
    case EventPaymentChannelReady(payCh) => WithChannel(ds, payCh).(waitMsg := None)
    case EventLaneAllocated(lane) => ds.(paymentInfo := Some(ds.paymentInfo.value.(lane := lane)))
    case EventLastPaymentRequested(owed) =>
      ds.(paymentRequested := ds.paymentRequested + owed, lastPaymentRequested := true)
    case EventPaymentRequested(owed) => ds.(paymentRequested := ds.paymentRequested + owed)
    case EventUnsealPaymentRequested(owed) => ds.(paymentRequested := ds.paymentRequested + owed)
    case EventAllBlocksReceived => ds.(allBlocksReceived := true)
    case EventBlocksReceived(total) => ds.(totalReceived := total)
    case EventFundsExpended(shortfall) => ds.(voucherShortfall := shortfall)
    case EventPaymentSent(amt) => AfterPayment(ds, amt)
    case _ => ds
  }

  // ---------- Handlers ----------

  datatype VoucherResult = VoucherFailed | Shortfall | Created

  datatype ChannelResponse =
    | ChannelError
    | ChannelCreating(msg: Cid)
    | ChannelFunded(payCh: Address)
    | ChannelFunding(msg: Cid, payCh: Address)

  datatype Funds = Funds(confirmed: int, redeemed: int, pending: int, queued: int, sentinel: Option<Cid>)

  /** What the environment answers to whichever handler runs. */
  datatype Env = Env(
    proposed: bool,
    channel: ChannelResponse,
    ready: Option<Address>,
    lane: Option<nat>,
    voucher: VoucherResult,
    written: bool,
    funds: Option<Funds>,
    closed: bool)

  /** What a handler does: it may put a voucher on the wire and trigger one event, or it
      dereferences a field that was never set. */
  datatype Reaction =
    | Quiet
    | Trigger(e: Event)
    | Pay(amt: int)
    | NilDereference

  function CalcAmountToSend(ds: ClientState): int {
    if ds.unsealFundsPaid >= ds.params.unsealPrice && !ds.allBlocksReceived then
      if ds.totalReceived < ds.currentInterval then 0
      else ds.currentInterval * ds.params.pricePerByte + ds.params.unsealPrice
    else ds.totalReceived * ds.params.pricePerByte + ds.params.unsealPrice
  }

  function SetupPaymentChannelStart(ds: ClientState, env: Env): Reaction {
    if ds.totalFunds == 0 then Trigger(EventPaymentChannelSkip)
    else match env.channel
      case ChannelError => Trigger(EventPaymentChannelErrored)
      case ChannelCreating(msg) => Trigger(EventPaymentChannelCreateInitiated(msg))
      case ChannelFunded(payCh) => Trigger(EventPaymentChannelReady(payCh))
      case ChannelFunding(msg, payCh) => Trigger(EventPaymentChannelAddingFunds(msg, payCh))
  }

  function WaitPaymentChannelReady(ds: ClientState, env: Env): Reaction {
    if ds.waitMsg.None? then NilDereference
    else if env.ready.None? then Trigger(EventPaymentChannelErrored)
    else Trigger(EventPaymentChannelReady(env.ready.value))
  }

  function AllocateLane(ds: ClientState, env: Env): Reaction {
    if ds.paymentInfo.None? then NilDereference
    else if env.lane.None? then Trigger(EventAllocateLaneErrored)
    else Trigger(EventLaneAllocated(env.lane.value))
  }

  function OngoingHandler(ds: ClientState): Reaction {
    if ds.paymentRequested > 0 then
      if ds.lastPaymentRequested then Trigger(EventLastPaymentRequested(0)) else Trigger(EventPaymentRequested(0))
    else Quiet
  }

  function ProcessPaymentRequested(ds: ClientState): Reaction {
    if ds.params.unsealPrice > ds.unsealFundsPaid then Trigger(EventSendFunds)
    else if ds.bytesPaidFor >= ds.totalReceived then Quiet
    else if ds.allBlocksReceived || ds.totalReceived >= ds.currentInterval then Trigger(EventSendFunds)
    else Quiet
  }

  function SendFundsHandler(ds: ClientState, env: Env): Reaction {
    var totalPrice := CalcAmountToSend(ds);
    if totalPrice <= ds.fundsSpent then Trigger(EventPaymentNotSent)
    else if ds.paymentInfo.None? then NilDereference
    else if env.voucher == VoucherFailed then Trigger(EventCreateVoucherFailed)
    else if env.voucher == Shortfall then Trigger(EventVoucherShortfall)
    else if !env.written then Trigger(EventWriteDealPaymentErrored)
    else Pay(totalPrice)
  }

  function CheckFundsHandler(ds: ClientState, env: Env): Reaction {
    if ds.paymentInfo.None? then NilDereference
    else
      var payCh := ds.paymentInfo.value.payCh;
      if ds.waitMsg.Some? then Trigger(EventPaymentChannelAddingFunds(ds.waitMsg.value, payCh))
      else if env.funds.None? then Trigger(EventPaymentChannelErrored)
      else
        var f := env.funds.value;
        var shortfall := CalcAmountToSend(ds) - (f.confirmed - f.redeemed);
        if shortfall <= 0 then Trigger(EventPaymentChannelReady(payCh))
        else if f.pending + f.queued < shortfall || f.sentinel.None?
        then Trigger(EventFundsExpended(shortfall - (f.pending + f.queued)))
        else Trigger(EventPaymentChannelAddingFunds(f.sentinel.value, payCh))
  }

  function CheckCompleteHandler(ds: ClientState): Reaction {
    if ds.allBlocksReceived then Trigger(EventCompleteVerified)
    else if ds.params.pricePerByte == 0 then Trigger(EventWaitForLastBlocks)
    else Trigger(EventEarlyTermination)
  }

  function Handle(ds: ClientState, env: Env): Reaction {
    match ds.status
    case New => if env.proposed then Trigger(EventDealProposed) else Trigger(EventWriteDealProposalErrored)
    case Accepted => SetupPaymentChannelStart(ds, env)
    case PaymentChannelCreating => WaitPaymentChannelReady(ds, env)
    case PaymentChannelAddingInitialFunds => WaitPaymentChannelReady(ds, env)
    case PaymentChannelAddingFunds => WaitPaymentChannelReady(ds, env)
    case PaymentChannelAllocatingLane => AllocateLane(ds, env)
    case Ongoing => OngoingHandler(ds)
    case FundsNeeded => ProcessPaymentRequested(ds)
    case FundsNeededLastPayment => ProcessPaymentRequested(ds)
    case SendFunds => SendFundsHandler(ds, env)
    case SendFundsLastPayment => SendFundsHandler(ds, env)
    case CheckFunds => CheckFundsHandler(ds, env)
    case Failing => if env.closed then Trigger(EventCancelComplete) else Trigger(EventDataTransferError)
    case Cancelling => if env.closed then Trigger(EventCancelComplete) else Trigger(EventDataTransferError)
    case CheckComplete => CheckCompleteHandler(ds)
    case _ => Quiet
  }

  /** The deal record that event actions update in place. */
  class ClientDeal {
    var ds: ClientState

    constructor (ds: ClientState)
      ensures this.ds == ds
    {
      this.ds := ds;
    }

    /** The action of `EventPaymentSent`. */
    method OnPaymentSent(voucherAmt: int)
      requires ds.params.Advances()
      modifies this
      ensures ds == AfterPayment(old(ds), voucherAmt)
    {
      var sentAmt := voucherAmt - ds.fundsSpent;
      ds := ds.(paymentRequested := ds.paymentRequested - sentAmt);
      ds := ds.(fundsSpent := voucherAmt);
      if ds.params.unsealPrice >= ds.fundsSpent {
        ds := ds.(unsealFundsPaid := ds.fundsSpent);
        return;
      }
      ds := ds.(unsealFundsPaid := ds.params.unsealPrice);
      if ds.params.pricePerByte == 0 {
        return;
      }
      var paidSoFarForTransfer := ds.fundsSpent - ds.unsealFundsPaid;
      ds := ds.(bytesPaidFor := paidSoFarForTransfer / ds.params.pricePerByte);
      if ds.bytesPaidFor >= ds.currentInterval {
        var next := NextInterval(ds.params, ds.currentInterval);
        ds := ds.(currentInterval := next);
      }
    }

    /** The actions of the events about the payment channel, field by field. */
    method ActOnChannel(e: Event)
      requires ds.params.Advances() && (e.EventLaneAllocated? ==> ds.paymentInfo.Some?)
      requires e.EventPaymentChannelCreateInitiated? || e.EventPaymentChannelAddingFunds?
               || e.EventPaymentChannelReady? || e.EventLaneAllocated?
      modifies this
      ensures ds == Action(old(ds), e)
    {
      if e.EventPaymentChannelCreateInitiated? || e.EventPaymentChannelAddingFunds? {
        ds := ds.(waitMsg := Some(e.msg));
      }
      if (e.EventPaymentChannelAddingFunds? || e.EventPaymentChannelReady?) && ds.paymentInfo.None? {
        ds := ds.(paymentInfo := Some(PaymentInfo(e.payCh, 0)));
      }
      if e.EventPaymentChannelReady? {
        ds := ds.(waitMsg := None);
      }
      if e.EventLaneAllocated? {
        ds := ds.(paymentInfo := Some(ds.paymentInfo.value.(lane := e.lane)));
      }
    }

    /** The actions of the event table, field by field. */
    method Act(e: Event)
      requires ds.params.Advances() && (e.EventLaneAllocated? ==> ds.paymentInfo.Some?)
      modifies this
      ensures ds == Action(old(ds), e)
    {
      match e
      case EventPaymentChannelCreateInitiated(_) => ActOnChannel(e);
      case EventPaymentChannelAddingFunds(_, _) => ActOnChannel(e);
      case EventPaymentChannelReady(_) => ActOnChannel(e);
      case EventLaneAllocated(_) => ActOnChannel(e);
      case EventLastPaymentRequested(owed) =>
        ds := ds.(paymentRequested := ds.paymentRequested + owed, lastPaymentRequested := true);
      case EventPaymentRequested(owed) =>
        ds := ds.(paymentRequested := ds.paymentRequested + owed);
      case EventUnsealPaymentRequested(owed) =>
        ds := ds.(paymentRequested := ds.paymentRequested + owed);
      case EventAllBlocksReceived =>
        ds := ds.(allBlocksReceived := true);
      case EventBlocksReceived(total) =>
        ds := ds.(totalReceived := total);
      case EventFundsExpended(shortfall) =>
        ds := ds.(voucherShortfall := shortfall);
      case EventPaymentSent(amt) => OnPaymentSent(amt);
      case _ =>
    }

    /** Applying an event: the action runs first, then the status changes.  Allocating a lane without a
        payment channel dereferences an unset field. */
    method Apply(e: Event) returns (handler: bool, crashed: bool)
      requires ds.params.Advances()
      modifies this
      ensures crashed == (e.EventLaneAllocated? && Lookup(old(ds).status, e) != NoRow && old(ds).paymentInfo.None?)
      ensures !crashed ==> (ds, handler) == Applied(old(ds), e)
    {
      handler, crashed := false, false;
      if Final(ds.status) {
        return;
      }
      var row := Lookup(ds.status, e);
      if row == NoRow {
        return;
      }
      if e.EventLaneAllocated? && ds.paymentInfo.None? {
        return false, true;
      }
      Act(e);
      if row.To? {
        ds := ds.(status := row.s);
        handler := HasHandler(row.s);
      }
    }
  }

  /** The state after an event, and whether a handler runs next. */
  function Applied(ds: ClientState, e: Event): (ClientState, bool)
    requires ds.params.Advances()
    requires Lookup(ds.status, e) != NoRow && e.EventLaneAllocated? ==> ds.paymentInfo.Some?
  {
    if Final(ds.status) then (ds, false)
    else match Lookup(ds.status, e)
      case NoRow => (ds, false)
      case JustRecord => (Action(ds, e), false)
      case To(s) => (Action(ds, e).(status := s), HasHandler(s))
  }

  // ---------- The queueing machine ----------

  datatype Activity = Idle | Running | Triggering(e: Event) | Crashed

  /** `received` is the byte count the transport last reported, `vouchers` every voucher amount
      that went to the provider. */
  datatype Machine = Machine(
    ds: ClientState,
    queue: seq<Event>,
    activity: Activity,
    received: nat,
    vouchers: seq<int>)

  datatype Step =
    | Arrive(e: Event)
    | Process
    | Act(env: Env)
    | Report

  /** Events that reach the machine from the transport or the user. */
  predicate External(e: Event) {
    || e in {EventOpen, EventDealRejected, EventDealNotFound, EventDealAccepted, EventUnknownResponseReceived,
             EventProviderErrored, EventDataTransferError, EventAllBlocksReceived, EventComplete,
             EventProviderCancelled, EventCancel, EventRecheckFunds}
    || e.EventLastPaymentRequested? || e.EventPaymentRequested? || e.EventUnsealPaymentRequested?
    || e.EventBlocksReceived?
  }

  /** Events may arrive at any time; the transport's byte count never goes down. */
  predicate Legal(m: Machine, s: Step) {
    match s
    case Arrive(e) => External(e) && (e.EventBlocksReceived? ==> e.total >= m.received)
    case Process => m.activity == Idle && m.queue != []
    case Act(_) => m.activity == Running
    case Report => m.activity.Triggering?
  }

  function Take(m: Machine, s: Step): Machine
    requires Legal(m, s) && m.ds.params.Advances()
  {
    match s
    case Arrive(e) =>
      m.(queue := m.queue + [e], received := if e.EventBlocksReceived? then e.total else m.received)
    case Process =>
      var e := m.queue[0];
      if e.EventLaneAllocated? && Lookup(m.ds.status, e) != NoRow && m.ds.paymentInfo.None?
      then m.(activity := Crashed)
      else
        var (ds, handler) := Applied(m.ds, e);
        m.(ds := ds, queue := m.queue[1..], activity := if handler then Running else Idle)
    case Act(env) =>
      (match Handle(m.ds, env)
       case Quiet => m.(activity := Idle)
       case Trigger(e) => m.(activity := Triggering(e))
       case Pay(amt) => m.(activity := Triggering(EventPaymentSent(amt)), vouchers := m.vouchers + [amt])
       case NilDereference => m.(activity := Crashed))
    case Report => m.(queue := m.queue + [m.activity.e], activity := Idle)
  }

  /** The state `Client.Retrieve` begins with. */
  function Begin(p: Params, totalFunds: nat): Machine {
    var ds := ClientState(p, totalFunds, New, false, false, None, 0, 0, p.paymentInterval, 0, 0, 0, None, 0);
    Machine(ds, [EventOpen], Idle, 0, [])
  }

  ghost predicate Run(p: Params, totalFunds: nat, ms: seq<Machine>, steps: seq<Step>) {
    && p.Advances()
    && |ms| == |steps| + 1
    && ms[0] == Begin(p, totalFunds)
    && forall i | 0 <= i < |steps| :: Follows(ms[i], steps[i], ms[i + 1])
  }

  predicate Follows(m: Machine, s: Step, m': Machine) {
    m.ds.params.Advances() && Legal(m, s) && m' == Take(m, s)
  }

  // ---------- What every step keeps ----------

  /** The price of everything received so far. */
  function Price(ds: ClientState): nat {
    ds.params.unsealPrice + ds.totalReceived * ds.params.pricePerByte
  }

  /** Byte counts in the queue go up from the recorded one to the last reported one. */
  predicate Rising(lo: nat, queue: seq<Event>, hi: nat)
    decreases queue
  {
    if queue == [] then lo <= hi
    else if queue[0].EventBlocksReceived? then lo <= queue[0].total && Rising(queue[0].total, queue[1..], hi)
    else Rising(lo, queue[1..], hi)
  }

  /** A payment that is still to be recorded is covered by what was received. */
  predicate Covered(ds: ClientState, e: Event) {
    e.EventPaymentSent? ==> e.amt <= Price(ds)
  }

  predicate Solvent(m: Machine) {
    && m.ds.fundsSpent <= Price(m.ds)
    && Rising(m.ds.totalReceived, m.queue, m.received)
    && (forall e <- m.queue :: Covered(m.ds, e))
    && (m.activity.Triggering? ==> !m.activity.e.EventBlocksReceived? && Covered(m.ds, m.activity.e))
    && (forall v <- m.vouchers :: v <= Price(m.ds))
  }

  /** What a queued event promises about the state it will find. */
  predicate Justified(ds: ClientState, e: Event) {
    && (e.EventPaymentChannelSkip? ==> ds.totalFunds == 0)
    && (e.EventCompleteVerified? ==> ds.allBlocksReceived)
    && (e.EventPaymentSent? ==> e.amt >= 0)
    && (e.EventVoucherShortfall? ==> ds.paymentInfo.Some?)
  }

  predicate Waiting(s: Status) {
    s in {PaymentChannelCreating, PaymentChannelAddingInitialFunds, PaymentChannelAddingFunds}
  }

  predicate Paying(s: Status) {
    s in {PaymentChannelAllocatingLane, PaymentChannelAddingInitialFunds, Ongoing, FundsNeeded,
          FundsNeededLastPayment, SendFunds, SendFundsLastPayment, CheckFunds, InsufficientFunds,
          PaymentChannelAddingFunds, BlocksComplete, Finalizing}
  }

  predicate DealOk(ds: ClientState) {
    ChannelOk(ds) && ClosingOk(ds)
  }

  /** A channel message to wait for and a channel to pay with are there when they are needed. */
  predicate ChannelOk(ds: ClientState) {
    (Waiting(ds.status) ==> ds.waitMsg.Some?) && ChannelKnown(ds)
  }

  predicate ChannelKnown(ds: ClientState) {
    && (Paying(ds.status) ==> ds.paymentInfo.Some? || ds.totalFunds == 0)
    && (ds.status in {PaymentChannelAllocatingLane, CheckFunds, InsufficientFunds} ==> ds.paymentInfo.Some?)
  }

  /** A deal completes only with all blocks or after the last payment was asked for. */
  predicate ClosingOk(ds: ClientState) {
    && (ds.status in {FundsNeededLastPayment, SendFundsLastPayment, Finalizing} ==> ds.lastPaymentRequested)
    && (ds.status == Completed ==> ds.allBlocksReceived || ds.lastPaymentRequested)
  }

  /** A deal without funds but with a price: the one kind of deal that crashes its client. */
  predicate Unfunded(p: Params, totalFunds: nat) {
    totalFunds == 0 && (p.unsealPrice > 0 || p.pricePerByte > 0)
  }

  predicate WellDefined(m: Machine) {
    && DealOk(m.ds)
    && (forall e <- m.queue :: Justified(m.ds, e))
    && (m.activity.Triggering? ==> Justified(m.ds, m.activity.e))
    && (m.activity == Crashed ==> Unfunded(m.ds.params, m.ds.totalFunds))
    && 0 <= m.ds.fundsSpent
  }

  lemma {:induction false} RisingAppend(lo: nat, queue: seq<Event>, hi: nat, e: Event)
    requires Rising(lo, queue, hi)
    ensures lo <= hi
    ensures !e.EventBlocksReceived? ==> Rising(lo, queue + [e], hi)
    ensures e.EventBlocksReceived? && e.total >= hi ==> Rising(lo, queue + [e], e.total)
    decreases queue
  {
    if queue == [] {
      assert queue + [e] == [e];
      assert [e][1..] == [];
    } else {
      assert (queue + [e])[1..] == queue[1..] + [e];
      RisingAppend(if queue[0].EventBlocksReceived? then queue[0].total else lo, queue[1..], hi, e);
    }
  }

  /** No handler asks for more than the price of what was received. */
  lemma AmountCovered(ds: ClientState)
    ensures 0 <= CalcAmountToSend(ds) <= Price(ds)
  {
    if ds.currentInterval <= ds.totalReceived {
      MulMonotone(ds.currentInterval, ds.totalReceived, ds.params.pricePerByte);
    }
  }

  /** An event never lowers the price of what was received, if byte counts go up. */
  lemma PriceGrows(ds: ClientState, e: Event)
    requires ds.params.Advances()
    requires Lookup(ds.status, e) != NoRow && e.EventLaneAllocated? ==> ds.paymentInfo.Some?
    requires e.EventBlocksReceived? ==> e.total >= ds.totalReceived
    ensures Price(ds) <= Price(Applied(ds, e).0)
    ensures var ds' := Applied(ds, e).0;
            && ds'.params == ds.params
            && (ds'.totalReceived == ds.totalReceived || (e.EventBlocksReceived? && ds'.totalReceived == e.total))
            && (ds'.fundsSpent == ds.fundsSpent || (e.EventPaymentSent? && ds'.fundsSpent == e.amt))
  {
    if e.EventBlocksReceived? {
      MulMonotone(ds.totalReceived, e.total, ds.params.pricePerByte);
    }
  }

  lemma RisingHead(lo: nat, queue: seq<Event>, hi: nat)
    requires queue != [] && Rising(lo, queue, hi)
    ensures queue[0].EventBlocksReceived? ==> queue[0].total >= lo
  {
  }

  lemma RisingDrop(lo: nat, queue: seq<Event>, hi: nat)
    requires queue != [] && Rising(lo, queue, hi)
    ensures Rising(lo, queue[1..], hi)
  {
    if queue[0].EventBlocksReceived? {
      RisingWeaken(lo, queue[0].total, queue[1..], hi);
    }
  }

  lemma {:induction false} RisingWeaken(lo: nat, lo': nat, queue: seq<Event>, hi: nat)
    requires lo <= lo' && Rising(lo', queue, hi)
    ensures Rising(lo, queue, hi)
  {
    if queue != [] && !queue[0].EventBlocksReceived? {
      RisingWeaken(lo, lo', queue[1..], hi);
    }
  }

  lemma SolventProcess(m: Machine, ds: ClientState, activity: Activity)
    requires Solvent(m) && m.queue != [] && !activity.Triggering?
    requires ds.params == m.ds.params && Price(m.ds) <= Price(ds)
    requires var e := m.queue[0];
             && (ds.totalReceived == m.ds.totalReceived || (e.EventBlocksReceived? && ds.totalReceived == e.total))
             && (ds.fundsSpent == m.ds.fundsSpent || (e.EventPaymentSent? && ds.fundsSpent == e.amt))
    ensures Solvent(m.(ds := ds, queue := m.queue[1..], activity := activity))
  {
    var e := m.queue[0];
    assert Covered(m.ds, e);
    RisingDrop(m.ds.totalReceived, m.queue, m.received);
    forall q <- m.queue[1..] ensures Covered(ds, q) {
      assert q in m.queue;
      assert Covered(m.ds, q);
    }
  }

  lemma SolventStep(m: Machine, s: Step)
    requires m.ds.params.Advances() && Solvent(m) && Legal(m, s)
    ensures Solvent(Take(m, s))
  {
    match s
    case Process =>
      var e := m.queue[0];
      if !(e.EventLaneAllocated? && Lookup(m.ds.status, e) != NoRow && m.ds.paymentInfo.None?) {
        RisingHead(m.ds.totalReceived, m.queue, m.received);
        PriceGrows(m.ds, e);
        SolventProcess(m, Applied(m.ds, e).0, if Applied(m.ds, e).1 then Running else Idle);
      }
    case Arrive(e) => RisingAppend(m.ds.totalReceived, m.queue, m.received, e);
    case Act(env) => AmountCovered(m.ds);
    case Report => RisingAppend(m.ds.totalReceived, m.queue, m.received, m.activity.e);
  }

  lemma DealOkRecorded(ds: ClientState, e: Event)
    requires ds.params.Advances() && DealOk(ds) && Justified(ds, e) && Lookup(ds.status, e) == JustRecord
    requires e.EventLaneAllocated? ==> ds.paymentInfo.Some?
    ensures DealOk(Action(ds, e))
  {
  }

  lemma WaitingMoved(ds: ClientState, e: Event)
    requires ds.params.Advances() && ChannelOk(ds) && Lookup(ds.status, e).To?
    requires e.EventLaneAllocated? ==> ds.paymentInfo.Some?
    ensures Waiting(Lookup(ds.status, e).s) ==> Action(ds, e).waitMsg.Some?
  {
  }

  lemma ChannelKnownMoved(ds: ClientState, e: Event)
    requires ds.params.Advances() && ChannelKnown(ds) && Justified(ds, e) && Lookup(ds.status, e).To?
    requires e.EventLaneAllocated? ==> ds.paymentInfo.Some?
    ensures ChannelKnown(Action(ds, e).(status := Lookup(ds.status, e).s))
  {
  }

  lemma ChannelOkMoved(ds: ClientState, e: Event)
    requires ds.params.Advances() && ChannelOk(ds) && Justified(ds, e) && Lookup(ds.status, e).To?
    requires e.EventLaneAllocated? ==> ds.paymentInfo.Some?
    ensures ChannelOk(Action(ds, e).(status := Lookup(ds.status, e).s))
  {
    WaitingMoved(ds, e);
    ChannelKnownMoved(ds, e);
  }

  lemma ClosingOkMoved(ds: ClientState, e: Event)
    requires ds.params.Advances() && ClosingOk(ds) && Justified(ds, e) && Lookup(ds.status, e).To?
    requires e.EventLaneAllocated? ==> ds.paymentInfo.Some?
    ensures ClosingOk(Action(ds, e).(status := Lookup(ds.status, e).s))
  {
  }

  /** Applying a justified event keeps the deal record well defined. */
  lemma DealOkApplied(ds: ClientState, e: Event)
    requires ds.params.Advances() && DealOk(ds) && Justified(ds, e)
    requires Lookup(ds.status, e) != NoRow && e.EventLaneAllocated? ==> ds.paymentInfo.Some?
    ensures DealOk(Applied(ds, e).0)
  {
    match Lookup(ds.status, e)
    case NoRow =>
    case JustRecord => DealOkRecorded(ds, e);
    case To(_) =>
      ChannelOkMoved(ds, e);
      ClosingOkMoved(ds, e);
  }

  lemma JustifiedStays(ds: ClientState, e: Event, q: Event)
    requires ds.params.Advances() && Justified(ds, q)
    requires Lookup(ds.status, e) != NoRow && e.EventLaneAllocated? ==> ds.paymentInfo.Some?
    ensures Justified(Applied(ds, e).0, q)
    ensures Applied(ds, e).0.totalFunds == ds.totalFunds
  {
  }

  lemma WellDefinedProcess(m: Machine)
    requires m.ds.params.Advances() && WellDefined(m) && Legal(m, Process)
    ensures WellDefined(Take(m, Process)) && Take(m, Process).activity != Crashed
  {
    var e := m.queue[0];
    DealOkApplied(m.ds, e);
    PriceOfEvent(m.ds, e);
    var m' := Take(m, Process);
    forall q <- m'.queue ensures Justified(m'.ds, q) {
      assert q in m.queue;
      JustifiedStays(m.ds, e, q);
    }
    JustifiedStays(m.ds, e, e);
  }

  lemma PriceOfEvent(ds: ClientState, e: Event)
    requires ds.params.Advances() && Justified(ds, e) && 0 <= ds.fundsSpent
    requires Lookup(ds.status, e) != NoRow && e.EventLaneAllocated? ==> ds.paymentInfo.Some?
    ensures 0 <= Applied(ds, e).0.fundsSpent && Applied(ds, e).0.params == ds.params
  {
  }

  lemma WellDefinedAct(m: Machine, env: Env)
    requires m.ds.params.Advances() && WellDefined(m) && m.activity == Running
    requires HasHandler(m.ds.status)
    ensures WellDefined(Take(m, Act(env)))
  {
    AmountCovered(m.ds);
    if !Unfunded(m.ds.params, m.ds.totalFunds) && m.ds.totalFunds == 0 {
      assert Price(m.ds) == 0;
    }
  }

  predicate HandlerKnown(m: Machine) {
    m.activity == Running ==> HasHandler(m.ds.status)
  }

  lemma HandlerKnownStep(m: Machine, s: Step)
    requires m.ds.params.Advances() && HandlerKnown(m) && Legal(m, s)
    ensures HandlerKnown(Take(m, s))
  {
  }

  lemma WellDefinedStep(m: Machine, s: Step)
    requires m.ds.params.Advances() && WellDefined(m) && HandlerKnown(m) && Legal(m, s)
    ensures WellDefined(Take(m, s))
  {
    match s
    case Process => WellDefinedProcess(m);
    case Act(env) => WellDefinedAct(m, env);
    case Arrive(e) =>
    case Report =>
  }

  lemma TermsStay(m: Machine, s: Step)
    requires m.ds.params.Advances() && Legal(m, s)
    ensures Take(m, s).ds.params == m.ds.params && Take(m, s).ds.totalFunds == m.ds.totalFunds
  {
  }

  lemma {:induction false} RunKeeps(p: Params, totalFunds: nat, ms: seq<Machine>, steps: seq<Step>, i: nat)
    requires Run(p, totalFunds, ms, steps) && i < |ms|
    ensures Solvent(ms[i]) && WellDefined(ms[i]) && HandlerKnown(ms[i])
    ensures ms[i].ds.totalFunds == totalFunds && ms[i].ds.params == p
  {
    if i > 0 {
      RunKeeps(p, totalFunds, ms, steps, i - 1);
      var m, s := ms[i - 1], steps[i - 1];
      assert Follows(m, s, ms[i]);
      TermsStay(m, s);
      SolventStep(m, s);
      HandlerKnownStep(m, s);
      WellDefinedStep(m, s);
    } else {
      assert ms[0].queue[1..] == [];
    }
  }

  /** The client never overpays.  For every order in which provider events, handler runs and
      recorded payments interleave, neither the recorded spending nor any voucher on the wire
      exceeds the unseal price plus the price of the bytes received. */
  lemma ClientNeverOverpays(p: Params, totalFunds: nat, ms: seq<Machine>, steps: seq<Step>, i: nat)
    requires Run(p, totalFunds, ms, steps) && i < |ms|
    ensures ms[i].ds.fundsSpent <= p.unsealPrice + ms[i].ds.totalReceived * p.pricePerByte
    ensures forall v <- ms[i].vouchers :: v <= p.unsealPrice + ms[i].ds.totalReceived * p.pricePerByte
  {
    RunKeeps(p, totalFunds, ms, steps, i);
  }

  /** In every reachable state a pending channel message is known while one is awaited, a payment
      channel is known while the deal pays, and a completed deal had all its blocks or was asked
      for its last payment. */
  lemma ClientWellDefined(p: Params, totalFunds: nat, ms: seq<Machine>, steps: seq<Step>, i: nat)
    requires Run(p, totalFunds, ms, steps) && i < |ms|
    ensures Waiting(ms[i].ds.status) ==> ms[i].ds.waitMsg.Some?
    ensures Paying(ms[i].ds.status) && totalFunds > 0 ==> ms[i].ds.paymentInfo.Some?
    ensures ms[i].ds.status == Completed ==> ms[i].ds.allBlocksReceived || ms[i].ds.lastPaymentRequested
  {
    RunKeeps(p, totalFunds, ms, steps, i);
  }

  /** No handler dereferences an unset field, unless the deal has a price and no funds. */
  lemma HandlersSafe(p: Params, totalFunds: nat, ms: seq<Machine>, steps: seq<Step>, i: nat)
    requires Run(p, totalFunds, ms, steps) && i < |ms|
    requires !Unfunded(p, totalFunds)
    ensures ms[i].activity != Crashed
  {
    RunKeeps(p, totalFunds, ms, steps, i);
  }

  // ---------- When a handler does crash ----------

  ghost predicate Reaches(p: Params, totalFunds: nat, m: Machine) {
    exists ms, steps :: Run(p, totalFunds, ms, steps) && ms[|ms| - 1] == m
  }

  lemma ReachesBegin(p: Params, totalFunds: nat)
    requires p.Advances()
    ensures Reaches(p, totalFunds, Begin(p, totalFunds))
  {
    var ms := [Begin(p, totalFunds)];
    assert Run(p, totalFunds, ms, []) && ms[|ms| - 1] == Begin(p, totalFunds);
  }

  lemma ReachesStep(p: Params, totalFunds: nat, m: Machine, s: Step)
    requires p.Advances() && Reaches(p, totalFunds, m) && Legal(m, s)
    ensures m.ds.params == p && Reaches(p, totalFunds, Take(m, s))
  {
    var ms, steps :| Run(p, totalFunds, ms, steps) && ms[|ms| - 1] == m;
    RunKeeps(p, totalFunds, ms, steps, |ms| - 1);
    var ms', steps' := ms + [Take(m, s)], steps + [s];
    assert Follows(m, s, Take(m, s));
    forall i | 0 <= i < |steps'| ensures Follows(ms'[i], steps'[i], ms'[i + 1]) {
      if i < |steps| {
        assert Follows(ms[i], steps[i], ms[i + 1]);
      }
    }
    assert Run(p, totalFunds, ms', steps') && ms'[|ms'| - 1] == Take(m, s);
  }

  /** Handling one event that arrives while the machine is idle and that starts no handler. */
  lemma ReachesRecorded(p: Params, totalFunds: nat, m: Machine, e: Event)
    requires p.Advances() && Reaches(p, totalFunds, m) && m.activity == Idle && m.queue == []
    requires External(e) && !Final(m.ds.status) && (e.EventBlocksReceived? ==> e.total >= m.received)
    requires Lookup(m.ds.status, e) == JustRecord
    ensures m.ds.params == p
    ensures Reaches(p, totalFunds, m.(ds := Action(m.ds, e),
                                      received := if e.EventBlocksReceived? then e.total else m.received))
  {
    ReachesStep(p, totalFunds, m, Arrive(e));
    var m1 := Take(m, Arrive(e));
    assert m1.queue == [e] && m1.queue[1..] == [];
    ReachesStep(p, totalFunds, m1, Process);
  }

  /** Handling one event that starts a handler, which triggers another event. */
  lemma ReachesHandled(p: Params, totalFunds: nat, m: Machine, e: Event, s: Status, env: Env, e': Event)
    requires p.Advances() && Reaches(p, totalFunds, m) && m.activity == Idle && m.queue == [e]
    requires !e.EventLaneAllocated? && !Final(m.ds.status) && Lookup(m.ds.status, e) == To(s) && HasHandler(s)
    requires m.ds.params == p && Handle(Action(m.ds, e).(status := s), env) == Trigger(e')
    ensures Reaches(p, totalFunds, m.(ds := Action(m.ds, e).(status := s), queue := [e']))
  {
    ReachesStep(p, totalFunds, m, Process);
    var m1 := Take(m, Process);
    assert m1.queue == [];
    ReachesStep(p, totalFunds, m1, Act(env));
    var m2 := Take(m1, Act(env));
    ReachesStep(p, totalFunds, m2, Report);
    assert [] + [e'] == [e'];
  }

  const AnyEnv := Env(true, ChannelError, None, None, Created, true, None, true)

  /** A deal that has a price and no funds skips the channel set-up, so its first payment finds no
      payment channel. */
  lemma UnfundedCrashes(p: Params)
    requires p.Advances() && Unfunded(p, 0)
    ensures exists m :: Reaches(p, 0, m) && m.activity == Crashed
  {
    ReachesAccepted(p);
    var ds := Begin(p, 0).ds.(status := Accepted, totalReceived := 1, allBlocksReceived := true);
    ReachesPaymentRequest(p, Machine(ds, [EventPaymentChannelSkip], Idle, 1, []));
  }

  lemma ReachesProposed(p: Params)
    requires p.Advances()
    ensures Reaches(p, 0, Begin(p, 0).(queue := [], ds := Begin(p, 0).ds.(status := WaitForAcceptance)))
  {
    ReachesBegin(p, 0);
    var m0 := Begin(p, 0);
    ReachesHandled(p, 0, m0, EventOpen, New, AnyEnv, EventDealProposed);
    var m1 := m0.(queue := [EventDealProposed]);
    assert m0.(ds := Action(m0.ds, EventOpen).(status := New), queue := [EventDealProposed]) == m1;
    ReachesStep(p, 0, m1, Process);
    var m2 := m0.(queue := [], ds := m0.ds.(status := WaitForAcceptance));
    assert Take(m1, Process) == m2;
  }

  lemma ReachesAccepted(p: Params)
    requires p.Advances()
    ensures var ds := Begin(p, 0).ds.(status := Accepted, totalReceived := 1, allBlocksReceived := true);
            Reaches(p, 0, Machine(ds, [EventPaymentChannelSkip], Idle, 1, []))
  {
    ReachesProposed(p);
    var m0 := Begin(p, 0);
    var m2 := m0.(queue := [], ds := m0.ds.(status := WaitForAcceptance));
    ReachesRecorded(p, 0, m2, EventBlocksReceived(1));
    var m3 := m2.(ds := m2.ds.(totalReceived := 1), received := 1);
    ReachesRecorded(p, 0, m3, EventAllBlocksReceived);
    var m4 := m3.(ds := m3.ds.(allBlocksReceived := true));
    ReachesStep(p, 0, m4, Arrive(EventDealAccepted));
    var m5 := m4.(queue := [EventDealAccepted]);
    assert Take(m4, Arrive(EventDealAccepted)) == m5;
    ReachesHandled(p, 0, m5, EventDealAccepted, Accepted, AnyEnv, EventPaymentChannelSkip);
    var ds := Begin(p, 0).ds.(status := Accepted, totalReceived := 1, allBlocksReceived := true);
    assert m5.(ds := m5.ds.(status := Accepted), queue := [EventPaymentChannelSkip])
        == Machine(ds, [EventPaymentChannelSkip], Idle, 1, []);
  }

  lemma ReachesPaymentRequest(p: Params, m6: Machine)
    requires p.Advances() && Unfunded(p, 0) && Reaches(p, 0, m6) && m6.ds.params == p
    requires m6.activity == Idle && m6.queue == [EventPaymentChannelSkip] && m6.ds.status == Accepted
    requires m6.ds.totalReceived == 1 && m6.ds.allBlocksReceived && m6.ds.paymentInfo == None
    requires m6.ds.paymentRequested == m6.ds.unsealFundsPaid == m6.ds.fundsSpent == 0 && m6.ds.bytesPaidFor == 0
    requires !m6.ds.lastPaymentRequested
    ensures exists m :: Reaches(p, 0, m) && m.activity == Crashed
  {
    ReachesStep(p, 0, m6, Arrive(EventPaymentRequested(1)));
    var m7 := m6.(queue := [EventPaymentChannelSkip, EventPaymentRequested(1)]);
    assert Take(m6, Arrive(EventPaymentRequested(1))) == m7;
    ReachesStep(p, 0, m7, Process);
    var m8 := m7.(ds := m7.ds.(status := Ongoing), queue := [EventPaymentRequested(1)], activity := Running);
    assert Take(m7, Process) == m8;
    ReachesStep(p, 0, m8, Act(AnyEnv));
    var m9 := m8.(activity := Idle);
    assert Take(m8, Act(AnyEnv)) == m9;
    ReachesCrash(p, m9);
  }

  lemma ReachesCrash(p: Params, m9: Machine)
    requires p.Advances() && Unfunded(p, 0) && Reaches(p, 0, m9) && m9.ds.params == p
    requires m9.activity == Idle && m9.queue == [EventPaymentRequested(1)] && m9.ds.status == Ongoing
    requires m9.ds.totalReceived == 1 && m9.ds.allBlocksReceived && m9.ds.paymentInfo == None
    requires m9.ds.paymentRequested == m9.ds.unsealFundsPaid == m9.ds.fundsSpent == 0 && m9.ds.bytesPaidFor == 0
    requires !m9.ds.lastPaymentRequested
    ensures exists m :: Reaches(p, 0, m) && m.activity == Crashed
  {
    ReachesHandled(p, 0, m9, EventPaymentRequested(1), FundsNeeded, AnyEnv, EventSendFunds);
    var m10 := m9.(ds := m9.ds.(status := FundsNeeded, paymentRequested := 1), queue := [EventSendFunds]);
    ReachesStep(p, 0, m10, Process);
    var m11 := m10.(ds := m10.ds.(status := SendFunds), queue := [], activity := Running);
    assert Take(m10, Process) == m11;
    assert CalcAmountToSend(m11.ds) > 0;
    ReachesStep(p, 0, m11, Act(AnyEnv));
    assert Take(m11, Act(AnyEnv)).activity == Crashed;
  }

  /** Exactly the deals with a price and no funds can crash their client. */
  lemma HandlersSafeExactly(p: Params, totalFunds: nat)
    requires p.Advances()
    ensures Unfunded(p, totalFunds) <==> exists m :: Reaches(p, totalFunds, m) && m.activity == Crashed
  {
    if Unfunded(p, totalFunds) {
      UnfundedCrashes(p);
    } else {
      forall m | Reaches(p, totalFunds, m) ensures m.activity != Crashed {
        var ms, steps :| Run(p, totalFunds, ms, steps) && ms[|ms| - 1] == m;
        HandlersSafe(p, totalFunds, ms, steps, |ms| - 1);
      }
    }
  }
}
