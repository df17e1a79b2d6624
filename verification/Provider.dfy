/** The provider side of a retrieval deal: the state chart (retrieval/provider/fsm.go) and the
revalidator that meters the transfer against received payments (retrieval/validators.go).

The main results are `ExposureBounded`, over every run and every client, and `WireAccounted`.
 */
module Provider {
  import opened Arithmetic
  import opened Deal
  import opened Intervals

  type DealID = nat
  type ChannelID = nat
  type Address = nat

  datatype ProviderState = ProviderState(
    params: Params,
    channelID: ChannelID,
    status: Status,
    totalSent: nat,
    fundsReceived: nat,
    currentInterval: nat,
    payCh: Option<Address>)

  datatype Event =
    | Open
    | DealAccepted
    | BlockSent(totalSent: nat)
    | BlocksCompleted
    | PaymentRequested(totalSent: nat)
    | SaveVoucherFailed
    | PartialPaymentReceived(received: nat, ch: Address)
    | PaymentReceived(received: nat, ch: Address)
    | Complete
    | CleanupComplete
    | CancelComplete
    | DataTransferError
    | MultiStoreError
    | ClientCancelled

  predicate Final(s: Status) {
    s in {Errored, Completed, Cancelled}
  }

  /** The row of the event table for a status; `None` where the table has no row. */
  function Target(s: Status, e: Event): Option<Status> {
    match e
    case Open => if s == New then Some(New) else None
    case DealAccepted => if s == New then Some(Ongoing) else None
    case BlockSent(_) => if s == Ongoing then Some(Ongoing) else None
    case BlocksCompleted => if s == Ongoing then Some(BlocksComplete) else None
    case PaymentRequested(_) =>
      if s == Ongoing || s == FundsNeeded then Some(FundsNeeded)
      else if s == BlocksComplete then Some(FundsNeededLastPayment)
      else None
    case SaveVoucherFailed =>
      if s == FundsNeeded || s == FundsNeededLastPayment then Some(Failing) else None
    case PartialPaymentReceived(_, _) =>
      if s == FundsNeeded || s == FundsNeededLastPayment then Some(s) else None
    case PaymentReceived(_, _) =>
      if s == FundsNeeded then Some(Ongoing)
      else if s == FundsNeededLastPayment then Some(Finalizing)
      else if s == BlocksComplete || s == Ongoing || s == Finalizing then Some(s)
      else None
    case Complete => if s == BlocksComplete || s == Finalizing then Some(Completing) else None
    case CleanupComplete => if s == Completing then Some(Completed) else None
    case CancelComplete =>
      if s == Cancelling then Some(Cancelled) else if s == Failing then Some(Errored) else None
    case DataTransferError => Some(Errored)
    case MultiStoreError => Some(Errored)
    case ClientCancelled => if s == Failing || s == Cancelling then Some(s) else Some(Cancelling)
  }

  function Action(d: ProviderState, e: Event): ProviderState
    requires d.params.Advances()
  {
    match e
    case BlockSent(n) => d.(totalSent := n)
    case PaymentRequested(n) => d.(totalSent := n)
    case PartialPaymentReceived(r, ch) =>
      d.(fundsReceived := d.fundsReceived + r, payCh := Some(ch))
    case PaymentReceived(r, ch) =>
      d.(fundsReceived := d.fundsReceived + r,
         currentInterval := Next(d.params, d.currentInterval),
         payCh := Some(ch))
    case _ => d
  }

  /** Sending an event: without a row for the status, or in a final status, nothing happens. */
  function Send(d: ProviderState, e: Event): ProviderState
    requires d.params.Advances()
  {
    if Final(d.status) then d
    else match Target(d.status, e)
      case None => d
      case Some(s) => Action(d, e).(status := s)
  }

  /** The deal record that event actions update in place. */
  class ProviderDeal {
    const params: Params
    const channelID: ChannelID
    var status: Status
    var totalSent: nat
    var fundsReceived: nat
    var currentInterval: nat
    var payCh: Option<Address>

    ghost function View(): ProviderState
      reads this
    {
      ProviderState(params, channelID, status, totalSent, fundsReceived, currentInterval, payCh)
    }

    constructor (d: ProviderState)
      ensures View() == d
    {
      params, channelID, status, totalSent := d.params, d.channelID, d.status, d.totalSent;
      fundsReceived, currentInterval, payCh := d.fundsReceived, d.currentInterval, d.payCh;
    }

    /** The actions of the event table, field by field. */
    method Act(e: Event)
      requires params.Advances()
      modifies this`totalSent, this`fundsReceived, this`currentInterval, this`payCh
      ensures View() == Action(old(View()), e)
    {
      match e
      case BlockSent(n) =>
        totalSent := n;
      case PaymentRequested(n) =>
        totalSent := n;
      case PartialPaymentReceived(received, ch) =>
        fundsReceived := fundsReceived + received;
        payCh := Some(ch);
      case PaymentReceived(received, ch) =>
        fundsReceived := fundsReceived + received;
        currentInterval := NextInterval(params, currentInterval);
        payCh := Some(ch);
      case _ =>
    }

    /** Sending an event: the action runs first, then the status changes. */
    method Apply(e: Event)
      requires params.Advances()
      modifies this
      ensures View() == Send(old(View()), e)
    {
      if Final(status) {
        return;
      }
      var row := Target(status, e);
      if row.None? {
        return;
      }
      Act(e);
      status := row.value;
    }
  }

  // ---------- Revalidator ----------

  datatype ChannelData = ChannelData(
    dealID: DealID,
    totalSent: nat,
    totalPaidFor: nat,
    interval: nat,
    pricePerByte: nat,
    reload: bool)

  function WriteDealState(d: ProviderState, c: ChannelData): ChannelData {
    c.(totalSent := d.totalSent,
       totalPaidFor := if d.params.pricePerByte == 0 then c.totalPaidFor
                       else Max(d.fundsReceived - d.params.unsealPrice, 0) / d.params.pricePerByte,
       interval := d.currentInterval,
       pricePerByte := d.params.pricePerByte)
  }

  function LoadDealState(d: ProviderState, c: ChannelData): ChannelData {
    if c.reload then WriteDealState(d, c).(reload := false) else c
  }

  function PaymentOwed(d: ProviderState, totalPaid: nat): int
    requires d.params.Advances()
  {
    if totalPaid < d.params.unsealPrice then d.params.unsealPrice - totalPaid
    else LowerBound(d.params, d.currentInterval) * d.params.pricePerByte - (totalPaid - d.params.unsealPrice)
  }

  datatype Outcome =
    | Untracked
    | WrongVoucher
    | SaveFailed
    | LookupFailed
    | SendFailed
    | Continue
    | Pause(status: Status, owed: int)
    | Resume(last: bool)
    | Done

  /** `processPayment`.  `saved` is what the payment manager answers when the voucher is added:
      the value it brings (0 for a voucher it already had), or an error. */
  function Processed(d: ProviderState, ch: Address, saved: Option<nat>): (ProviderState, Outcome)
    requires d.params.Advances()
  {
    match saved
    case None => (Send(d, SaveVoucherFailed), SaveFailed)
    case Some(received) =>
      var owed := PaymentOwed(d, d.fundsReceived + received);
      if owed > 0 then
        (Send(d, PartialPaymentReceived(received, ch)), Pause(d.status, owed))
      else
        (Send(d, PaymentReceived(received, ch)), Resume(d.status == FundsNeededLastPayment))
  }

  /** `Revalidate` on a tracked channel. */
  function Revalidated(d: ProviderState, c: ChannelData, ch: Address, saved: Option<nat>)
      : (ProviderState, ChannelData, Outcome)
    requires d.params.Advances()
  {
    var (d', out) := Processed(d, ch, saved);
    (d', if out.Resume? then c.(reload := true) else c, out)
  }

  /** `OnPullDataSent` on a tracked channel. */
  function DataSent(d: ProviderState, c: ChannelData, bytes: nat): (ProviderState, ChannelData, Outcome)
    requires d.params.Advances()
  {
    var c := LoadDealState(d, c);
    var c := c.(totalSent := c.totalSent + bytes);
    if c.pricePerByte == 0 || c.totalSent < c.interval then
      (Send(d, BlockSent(c.totalSent)), c, Continue)
    else
      (Send(d, PaymentRequested(c.totalSent)), c,
       Pause(FundsNeeded, (c.totalSent - c.totalPaidFor) * c.pricePerByte))
  }

  /** `OnComplete` on a tracked channel. */
  function Completion(d: ProviderState, c: ChannelData): (ProviderState, ChannelData, Outcome)
    requires d.params.Advances()
  {
    var c := LoadDealState(d, c);
    var d := Send(d, BlocksCompleted);
    var owed := (c.totalSent - c.totalPaidFor) * c.pricePerByte;
    if owed == 0 then (d, c, Done)
    else (Send(d, PaymentRequested(c.totalSent)), c, Pause(FundsNeededLastPayment, owed))
  }

  /** Whether the deal can be read, and whether the first and the second event get through to it. */
  datatype Io = Io(loads: bool, sends: bool, sendsAgain: bool)

  datatype Voucher = Payment(ch: Address) | OtherVoucher

  /** Every tracked channel belongs to a deal that names it. */
  ghost predicate Belongs(tracked: map<ChannelID, ChannelData>, deals: map<DealID, ProviderState>) {
    forall ch <- tracked ::
      && tracked[ch].dealID in deals
      && deals[tracked[ch].dealID].channelID == ch
      && deals[tracked[ch].dealID].params.Advances()
  }

  lemma SendKeeps(d: ProviderState, e: Event)
    requires d.params.Advances()
    ensures Send(d, e).channelID == d.channelID && Send(d, e).params == d.params
  {
  }

  lemma BelongsStill(tracked: map<ChannelID, ChannelData>, deals: map<DealID, ProviderState>,
                     ch: ChannelID, c: ChannelData, d: ProviderState)
    requires Belongs(tracked, deals) && ch in tracked && c.dealID == tracked[ch].dealID
    requires d.channelID == deals[c.dealID].channelID && d.params == deals[c.dealID].params
    ensures Belongs(tracked[ch := c], deals[c.dealID := d])
  {
  }

  /** The revalidator with the state machines it talks to. */
  class ProviderRevalidator {
    var trackedChannels: map<ChannelID, ChannelData>
    var deals: map<DealID, ProviderState>

    ghost predicate Valid()
      reads this
    {
      Belongs(trackedChannels, deals)
    }

    constructor ()
      ensures Valid() && trackedChannels == map[] && deals == map[]
    {
      trackedChannels, deals := map[], map[];
    }

    /** Called with the record of a deal. */
    method TrackChannel(id: DealID)
      requires Valid() && id in deals && deals[id].params.Advances()
      modifies this`trackedChannels
      ensures Valid() && trackedChannels == old(trackedChannels)[deals[id].channelID := Tracked(id, deals[id])]
    {
      var d := deals[id];
      trackedChannels := trackedChannels[d.channelID := ChannelData(id, 0, 0, 0, 0, false)];
      trackedChannels := trackedChannels[d.channelID := WriteDealState(d, trackedChannels[d.channelID])];
    }

    /** A deal gets its record once and is tracked; a second one with its identifier is refused. */
    method BeginTracking(id: DealID, d: ProviderState) returns (ok: bool)
      requires Valid() && d.params.Advances()
      modifies this
      ensures Valid() && ok == (id !in old(deals)) && (!ok ==> unchanged(this))
      ensures ok ==> deals == old(deals)[id := Send(d, Open)]
      ensures ok ==> trackedChannels == old(trackedChannels)[d.channelID := Tracked(id, d)]
    {
      if id in deals {
        return false;
      }
      deals := deals[id := d];
      TrackChannel(id);
      SendKeeps(d, Open);
      deals := deals[id := Send(d, Open)];
      return true;
    }

    method UntrackChannel(d: ProviderState)
      requires Valid()
      modifies this`trackedChannels
      ensures Valid() && trackedChannels == old(trackedChannels) - {d.channelID}
    {
      trackedChannels := trackedChannels - {d.channelID};
    }

    /** `Revalidate`.  A deal that cannot be read, a voucher of another kind and an unknown channel
        change nothing; an event that does not get through leaves the deal as it was. */
    method Revalidate(ch: ChannelID, voucher: Voucher, saved: Option<nat>, io: Io) returns (out: Outcome)
      requires Valid()
      modifies this
      ensures Valid()
      ensures ch !in old(trackedChannels) ==> out == Untracked
      ensures ch in old(trackedChannels) && voucher.OtherVoucher? ==> out == WrongVoucher
      ensures ch in old(trackedChannels) && voucher.Payment? && !io.loads ==> out == LookupFailed
      ensures out in {Untracked, WrongVoucher, LookupFailed} ==> unchanged(this)
      ensures ch in old(trackedChannels) && voucher.Payment? && io.loads ==>
                var c := old(trackedChannels)[ch];
                var (d', c', out') := Revalidated(old(deals)[c.dealID], c, voucher.ch, saved);
                && deals == (if io.sends then old(deals)[c.dealID := d'] else old(deals))
                && trackedChannels == old(trackedChannels)[ch := c']
                && out == out'
    {
      if ch !in trackedChannels {
        return Untracked;
      }
      if voucher.OtherVoucher? {
        return WrongVoucher;
      }
      if !io.loads {
        return LookupFailed;
      }
      var c := trackedChannels[ch];
      out := ProcessPayment(c.dealID, voucher.ch, saved, io);
      if out.Resume? {
        trackedChannels := trackedChannels[ch := c.(reload := true)];
      }
    }

    /** What `processPayment` does with a deal it has read. */
    method ProcessPayment(id: DealID, ch: Address, saved: Option<nat>, io: Io) returns (out: Outcome)
      requires id in deals && deals[id].params.Advances()
      modifies this`deals
      ensures var (d', out') := Processed(old(deals)[id], ch, saved);
              deals == (if io.sends then old(deals)[id := d'] else old(deals)) && out == out'
    {
      var d := deals[id];
      var e: Event;
      if saved.None? {
        e, out := SaveVoucherFailed, SaveFailed;
      } else {
        var received := saved.value;
        var owed := PaymentOwed(d, d.fundsReceived + received);
        if owed > 0 {
          e, out := PartialPaymentReceived(received, ch), Pause(d.status, owed);
        } else {
          e, out := PaymentReceived(received, ch), Resume(d.status == FundsNeededLastPayment);
        }
      }
      if io.sends {
        deals := deals[id := Send(d, e)];
      }
    }

    /** Loads the deal's state if it is stale and counts the bytes. */
    method Count(ch: ChannelID, bytes: nat) returns (c: ChannelData)
      requires ch in trackedChannels && trackedChannels[ch].dealID in deals
      modifies this`trackedChannels
      ensures trackedChannels == old(trackedChannels)[ch := c]
      ensures var was := LoadDealState(deals[old(trackedChannels)[ch].dealID], old(trackedChannels)[ch]);
              c == was.(totalSent := was.totalSent + bytes)
    {
      c := LoadDealState(deals[trackedChannels[ch].dealID], trackedChannels[ch]);
      trackedChannels := trackedChannels[ch := c];
      c := c.(totalSent := c.totalSent + bytes);
      trackedChannels := trackedChannels[ch := c];
    }

    /** `OnPullDataSent`.  A stale channel whose deal cannot be read changes nothing; an event that does
        not get through leaves the deal as it was and ends the transfer. */
    method OnPullDataSent(ch: ChannelID, bytes: nat, io: Io) returns (out: Outcome)
      requires Valid()
      modifies this
      ensures Valid()
      ensures ch !in old(trackedChannels) ==> out == Untracked && unchanged(this)
      ensures ch in old(trackedChannels) ==>
                var c := old(trackedChannels)[ch];
                var (d', c', out') := DataSent(old(deals)[c.dealID], c, bytes);
                if c.reload && !io.loads then out == LookupFailed && unchanged(this)
                else
                  && deals == (if io.sends then old(deals)[c.dealID := d'] else old(deals))
                  && trackedChannels == old(trackedChannels)[ch := c']
                  && out == if io.sends then out' else SendFailed
    {
      if ch !in trackedChannels {
        return Untracked;
      }
      if trackedChannels[ch].reload && !io.loads {
        return LookupFailed;
      }
      var id := trackedChannels[ch].dealID;
      var d := deals[id];
      var c := Count(ch, bytes);
      var continues := c.pricePerByte == 0 || c.totalSent < c.interval;
      var e := if continues then BlockSent(c.totalSent) else PaymentRequested(c.totalSent);
      SendKeeps(d, e);
      BelongsStill(old(trackedChannels), deals, ch, c, Send(d, e));
      BelongsStill(old(trackedChannels), deals, ch, c, d);
      assert deals[id := d] == deals;
      if !io.sends {
        return SendFailed;
      }
      deals := deals[id := Send(d, e)];
      if continues {
        return Continue;
      }
      return Pause(FundsNeeded, (c.totalSent - c.totalPaidFor) * c.pricePerByte);
    }

    /** `OnComplete`, with the same failures. */
    method OnComplete(ch: ChannelID, io: Io) returns (out: Outcome)
      requires Valid()
      modifies this
      ensures Valid()
      ensures ch !in old(trackedChannels) ==> out == Untracked && unchanged(this)
      ensures ch in old(trackedChannels) ==>
                var c := old(trackedChannels)[ch];
                var d := old(deals)[c.dealID];
                var (d', c', out') := Completion(d, c);
                if c.reload && !io.loads then out == LookupFailed && unchanged(this)
                else
                  && trackedChannels == old(trackedChannels)[ch := c']
                  && (if !io.sends then deals == old(deals) && out == SendFailed
                      else if out'.Pause? && !io.sendsAgain
                      then deals == old(deals)[c.dealID := Send(d, BlocksCompleted)] && out == SendFailed
                      else deals == old(deals)[c.dealID := d'] && out == out')
    {
      if ch !in trackedChannels {
        return Untracked;
      }
      if trackedChannels[ch].reload && !io.loads {
        return LookupFailed;
      }
      var id := trackedChannels[ch].dealID;
      var c := Count(ch, 0);
      SendKeeps(deals[id], BlocksCompleted);
      SendKeeps(Send(deals[id], BlocksCompleted), PaymentRequested(c.totalSent));
      if !io.sends {
        return SendFailed;
      }
      deals := deals[id := Send(deals[id], BlocksCompleted)];
      var owed := (c.totalSent - c.totalPaidFor) * c.pricePerByte;
      if owed == 0 {
        return Done;
      }
      if !io.sendsAgain {
        return SendFailed;
      }
      deals := deals[id := Send(deals[id], PaymentRequested(c.totalSent))];
      return Pause(FundsNeededLastPayment, owed);
    }
  }

  // ---------- Runs of one deal ----------

  /** One deal with its channel bookkeeping; `wire` is what the transport has really sent since
      the deal was proposed. */
  datatype Transfer = Transfer(deal: ProviderState, data: ChannelData, wire: nat)

  /** What can happen to a deal.  `Machine` covers every event that does not come from the
      revalidator: acceptance, completion, cancellation, errors and clean-up. */
  datatype Step =
    | Machine(e: Event)
    | Bytes(n: nat)
    | AllSent
    | Pay(ch: Address, saved: Option<nat>)

  function Tracked(id: DealID, d: ProviderState): ChannelData {
    WriteDealState(d, ChannelData(id, 0, 0, 0, 0, false))
  }

  /** The state `ValidatePull` begins to track. */
  function Begin(id: DealID, p: Params, channelID: ChannelID): Transfer {
    var d := ProviderState(p, channelID, New, 0, 0, p.paymentInterval, None);
    Transfer(d, Tracked(id, d), 0)
  }

  /** Nothing is sent on the wire before the deal is accepted. */
  predicate Legal(t: Transfer, s: Step) {
    match s
    case Machine(e) => !(e.BlockSent? || e.PaymentRequested? || e.BlocksCompleted?
                         || e.SaveVoucherFailed? || e.PartialPaymentReceived? || e.PaymentReceived?)
    case Bytes(_) => t.deal.status != New
    case _ => true
  }

  function Take(t: Transfer, s: Step): (Transfer, Outcome)
    requires t.deal.params.Advances()
  {
    match s
    case Machine(e) => (t.(deal := Send(t.deal, e)), Continue)
    case Bytes(n) =>
      var (d, c, out) := DataSent(t.deal, t.data, n);
      (Transfer(d, c, t.wire + n), out)
    case AllSent =>
      var (d, c, out) := Completion(t.deal, t.data);
      (Transfer(d, c, t.wire), out)
    case Pay(ch, saved) =>
      var (d, c, out) := Revalidated(t.deal, t.data, ch, saved);
      (Transfer(d, c, t.wire), out)
  }

  ghost predicate Run(p: Params, ts: seq<Transfer>, steps: seq<Step>)
  {
    && p.Advances()
    && |ts| == |steps| + 1
    && (exists id, ch :: ts[0] == Begin(id, p, ch))
    && (forall i | 0 <= i < |ts| :: ts[i].deal.params == p)
    && forall i | 0 <= i < |steps| :: Legal(ts[i], steps[i]) && ts[i + 1] == Take(ts[i], steps[i]).0
  }

  /** Two thresholds back: what the bytes up to threshold `k` are secured by. */
  function Back2(k: nat): nat {
    if k >= 2 then k - 2 else 0
  }

  ghost predicate DealAt(d: ProviderState, k: nat) {
    && k >= 1
    && d.currentInterval == T(d.params, k)
    && (k >= 2 ==> d.fundsReceived >= d.params.unsealPrice + T(d.params, k - 2) * d.params.pricePerByte)
  }

  ghost predicate DataAt(t: Transfer, k: nat) {
    && k >= 1
    && t.data.interval == T(t.deal.params, k)
    && (t.data.pricePerByte > 0 ==>
          && t.data.totalPaidFor >= T(t.deal.params, Back2(k))
          && t.data.totalPaidFor * t.data.pricePerByte
             <= Max(t.deal.fundsReceived - t.deal.params.unsealPrice, 0))
  }

  /** What every step keeps about money. */
  ghost predicate Secured(t: Transfer) {
    && t.deal.params.Advances()
    && t.data.pricePerByte == t.deal.params.pricePerByte
    && (exists k: nat :: DealAt(t.deal, k))
    && (exists k: nat :: DataAt(t, k))
    && (!t.data.reload ==> t.data.interval == t.deal.currentInterval)
  }

  /** What every step keeps about bytes. */
  ghost predicate Accounted(t: Transfer) {
    && t.data.pricePerByte == t.deal.params.pricePerByte
    && (!t.data.reload ==> t.data.interval == t.deal.currentInterval)
    && (t.deal.status in {New, Ongoing, FundsNeeded} ==>
          && t.wire == t.deal.totalSent
          && (!t.data.reload ==> t.wire == t.data.totalSent))
    && (t.deal.status == FundsNeeded ==>
          t.deal.params.pricePerByte > 0 && t.deal.totalSent >= t.deal.currentInterval)
  }

  lemma FloorCovers(m: nat, price: nat, bytes: nat)
    requires price > 0 && m >= bytes * price
    ensures bytes <= m / price
    ensures m / price * price <= m
  {
    var q := m / price;
    if q < bytes {
      MulMonotone(q + 1, bytes, price);
      assert false;
    }
  }

  lemma LoadedIsSecured(t: Transfer)
    requires Secured(t)
    ensures Secured(t.(data := LoadDealState(t.deal, t.data)))
    ensures !LoadDealState(t.deal, t.data).reload
  {
    if t.data.reload {
      var p := t.deal.params;
      var k: nat :| DealAt(t.deal, k);
      if p.pricePerByte > 0 {
        FloorCovers(Max(t.deal.fundsReceived - p.unsealPrice, 0), p.pricePerByte, T(p, Back2(k)));
      }
      assert DataAt(t.(data := LoadDealState(t.deal, t.data)), k);
    }
  }

  /** A payment that leaves nothing owed covers the interval before the current one; the interval
      moves up by one threshold, whether or not the voucher brought new money. */
  lemma PaymentAdvances(d: ProviderState, k: nat, received: nat, ch: Address)
    requires d.params.Advances() && DealAt(d, k)
    requires PaymentOwed(d, d.fundsReceived + received) <= 0
    ensures DealAt(Action(d, PaymentReceived(received, ch)), k + 1)
  {
    StepsOnThresholds(d.params, k);
  }

  lemma SecuredByPayment(t: Transfer, ch: Address, saved: Option<nat>)
    requires Secured(t)
    ensures Secured(Take(t, Pay(ch, saved)).0)
  {
    var t' := Take(t, Pay(ch, saved)).0;
    var k: nat :| DealAt(t.deal, k);
    var m: nat :| DataAt(t, m);
    assert DataAt(t', m);
    if saved.Some? && PaymentOwed(t.deal, t.deal.fundsReceived + saved.value) <= 0 {
      PaymentAdvances(t.deal, k, saved.value, ch);
      if t'.deal == t.deal {
        assert DealAt(t'.deal, k);
      } else {
        assert DealAt(t'.deal, k + 1);
      }
    } else {
      assert DealAt(t'.deal, k);
    }
  }

  /** The channel's figures a step works with. */
  function Refreshed(t: Transfer, s: Step): ChannelData {
    if s.Machine? then t.data else LoadDealState(t.deal, t.data)
  }

  /** Only payments touch the money and the interval. */
  lemma OnlyPaymentsPay(t: Transfer, s: Step)
    requires t.deal.params.Advances() && Legal(t, s) && !s.Pay?
    ensures var t', c := Take(t, s).0, Refreshed(t, s);
            && t'.deal.params == t.deal.params && t'.deal.fundsReceived == t.deal.fundsReceived
            && t'.deal.currentInterval == t.deal.currentInterval
            && t'.data == c.(totalSent := t'.data.totalSent)
  {
  }

  lemma SecuredByTransfer(t: Transfer, s: Step)
    requires Secured(t) && Legal(t, s) && !s.Pay?
    ensures Secured(Take(t, s).0)
  {
    var t' := Take(t, s).0;
    OnlyPaymentsPay(t, s);
    LoadedIsSecured(t);
    var k: nat :| DealAt(t.deal, k);
    assert DealAt(t'.deal, k);
    var m: nat :| DataAt(t.(data := Refreshed(t, s)), m);
    assert DataAt(t', m);
  }

  lemma SecuredByStep(t: Transfer, s: Step)
    requires Secured(t) && Legal(t, s)
    ensures Secured(Take(t, s).0)
  {
    if s.Pay? {
      SecuredByPayment(t, s.ch, s.saved);
    } else {
      SecuredByTransfer(t, s);
    }
  }

  lemma AccountedByPay(t: Transfer, ch: Address, saved: Option<nat>)
    requires t.deal.params.Advances() && Accounted(t) && Legal(t, Pay(ch, saved))
    ensures Accounted(Take(t, Pay(ch, saved)).0)
  {
  }

  lemma AccountedByTransfer(t: Transfer, s: Step)
    requires t.deal.params.Advances() && Accounted(t) && Legal(t, s) && !s.Pay?
    ensures Accounted(Take(t, s).0)
  {
  }

  lemma AccountedByStep(t: Transfer, s: Step)
    requires t.deal.params.Advances() && Accounted(t) && Legal(t, s)
    ensures Accounted(Take(t, s).0)
  {
    if s.Pay? {
      AccountedByPay(t, s.ch, s.saved);
    } else {
      AccountedByTransfer(t, s);
    }
  }

  lemma {:induction false} RunKeeps(p: Params, ts: seq<Transfer>, steps: seq<Step>, i: nat)
    requires Run(p, ts, steps) && i < |ts|
    ensures Secured(ts[i]) && Accounted(ts[i])
  {
    if i == 0 {
      assert T(p, 1) == p.paymentInterval;
      assert DealAt(ts[0].deal, 1) && DataAt(ts[0], 1);
    } else {
      RunKeeps(p, ts, steps, i - 1);
      SecuredByStep(ts[i - 1], steps[i - 1]);
      AccountedByStep(ts[i - 1], steps[i - 1]);
    }
  }

  ghost predicate Exposed(t: Transfer, k: nat) {
    var p := t.deal.params;
    && k >= 1
    && t.data.interval == t.deal.currentInterval == T(p, k)
    && t.data.totalPaidFor * p.pricePerByte <= Max(t.deal.fundsReceived - p.unsealPrice, 0)
    && t.data.totalSent - t.data.totalPaidFor < T(p, k) - T(p, Back2(k))
  }

  ghost predicate ExposureOf(t: Transfer) {
    exists k: nat :: Exposed(t, k)
  }

  lemma ContinuedIsExposed(t: Transfer, n: nat)
    requires Secured(t) && t.deal.params.pricePerByte > 0
    requires DataSent(t.deal, t.data, n).2 == Continue
    ensures ExposureOf(Take(t, Bytes(n)).0)
  {
    LoadedIsSecured(t);
    var u := t.(data := LoadDealState(t.deal, t.data));
    var k: nat :| DataAt(u, k);
    assert Exposed(Take(t, Bytes(n)).0, k);
  }

  /** Bounded exposure.  Whatever the client does (it may replay vouchers, underpay or stay
      silent), whenever the provider lets a priced transfer go on, the bytes it has sent exceed
      the bytes it counts as paid by less than the two intervals below its current threshold. */
  lemma ExposureBounded(p: Params, ts: seq<Transfer>, steps: seq<Step>, i: nat)
    requires Run(p, ts, steps) && i < |steps| && p.pricePerByte > 0
    requires steps[i].Bytes? && Take(ts[i], steps[i]).1 == Continue
    ensures ExposureOf(ts[i + 1])
  {
    RunKeeps(p, ts, steps, i);
    ContinuedIsExposed(ts[i], steps[i].n);
  }

  /** The interval is threshold `k`, the funds pay for `paid` bytes, and the bytes really sent exceed
      those by less than the two intervals below. */
  ghost predicate ExposedOnWire(t: Transfer, k: nat, paid: nat) {
    var p := t.deal.params;
    && k >= 1 && t.deal.currentInterval == T(p, k)
    && paid * p.pricePerByte <= Max(t.deal.fundsReceived - p.unsealPrice, 0)
    && t.wire - paid < T(p, k) - T(p, Back2(k))
  }

  ghost predicate WireExposureOf(t: Transfer) {
    exists k: nat, paid: nat :: ExposedOnWire(t, k, paid)
  }

  /** The same on the wire: while the deal is going on, what was really sent beyond what is really paid
      for is within the bound. */
  lemma WireExposureBounded(p: Params, ts: seq<Transfer>, steps: seq<Step>, i: nat)
    requires Run(p, ts, steps) && i < |steps| && p.pricePerByte > 0
    requires steps[i].Bytes? && Take(ts[i], steps[i]).1 == Continue && ts[i].deal.status in {Ongoing, FundsNeeded}
    ensures WireExposureOf(ts[i + 1])
  {
    ExposureBounded(p, ts, steps, i);
    WireAccounted(p, ts, steps, i);
    var k: nat :| Exposed(ts[i + 1], k);
    assert ExposedOnWire(ts[i + 1], k, ts[i + 1].data.totalPaidFor);
  }

  /** A client that pays the first threshold once and then sends the same voucher again. */
  function ReplaySteps(p: Params): seq<Step>
    requires T(p, 1) < T(p, 3)
  {
    [Machine(DealAccepted), Bytes(T(p, 1)), Pay(0, Some(p.unsealPrice + T(p, 1) * p.pricePerByte)),
     Pay(0, Some(0)), Bytes(T(p, 3) - 1 - T(p, 1))]
  }

  function ReplayStates(p: Params): seq<Transfer>
    requires T(p, 1) < T(p, 3)
  {
    var a, price := T(p, 1), p.pricePerByte;
    var d := ProviderState(p, 0, Ongoing, 0, 0, a, None);
    var due := d.(status := FundsNeeded, totalSent := a);
    var paid := ProviderState(p, 0, Ongoing, a, p.unsealPrice + a * price, T(p, 2), Some(0));
    var replayed := paid.(currentInterval := T(p, 3));
    var data := ChannelData(0, a, 0, a, price, false);
    [Begin(0, p, 0), Transfer(d, data.(totalSent := 0), 0), Transfer(due, data, a),
     Transfer(paid, data.(reload := true), a), Transfer(replayed, data.(reload := true), a),
     Transfer(replayed.(totalSent := T(p, 3) - 1), ChannelData(0, T(p, 3) - 1, a, T(p, 3), price, false), T(p, 3) - 1)]
  }

  lemma PaymentApplied(d: ProviderState, r: nat, ch: Address)
    requires d.params.Advances() && d.status in {Ongoing, FundsNeeded}
    ensures Send(d, PaymentReceived(r, ch))
         == d.(status := Ongoing, fundsReceived := d.fundsReceived + r,
               currentInterval := Next(d.params, d.currentInterval), payCh := Some(ch))
  {
  }

  /** What a payment that leaves nothing owed does while the transfer is going on. */
  lemma PaymentResumes(t: Transfer, ch: Address, r: nat)
    requires t.deal.params.Advances() && t.deal.status in {Ongoing, FundsNeeded}
    requires PaymentOwed(t.deal, t.deal.fundsReceived + r) <= 0
    ensures Take(t, Pay(ch, Some(r)))
         == (t.(deal := t.deal.(status := Ongoing, fundsReceived := t.deal.fundsReceived + r,
                                currentInterval := Next(t.deal.params, t.deal.currentInterval), payCh := Some(ch)),
                data := t.data.(reload := true)),
             Resume(false))
  {
    PaymentApplied(t.deal, r, ch);
  }

  lemma OwedNothing(d: ProviderState, k: nat, j: nat)
    requires d.params.Advances() && d.currentInterval == T(d.params, k) && 1 <= k <= j + 1
    ensures PaymentOwed(d, d.params.unsealPrice + T(d.params, j) * d.params.pricePerByte) <= 0
    ensures Next(d.params, T(d.params, k)) == T(d.params, k + 1)
  {
    var p := d.params;
    StepsOnThresholds(p, k);
    TMonotone(p, k - 1, j);
    MulMonotone(T(p, k - 1), T(p, j), p.pricePerByte);
  }

  lemma ReplayPays(p: Params, i: nat)
    requires p.Advances() && T(p, 1) < T(p, 3) && i in {2, 3}
    ensures Take(ReplayStates(p)[i], ReplaySteps(p)[i]).0 == ReplayStates(p)[i + 1]
  {
    var ts := ReplayStates(p);
    OwedNothing(ts[i].deal, i - 1, 1);
    PaymentResumes(ts[i], 0, ReplaySteps(p)[i].saved.value);
  }

  lemma ReplaySends(p: Params, i: nat)
    requires p.Advances() && p.pricePerByte > 0 && T(p, 1) < T(p, 3) && i in {0, 1, 4}
    ensures Take(ReplayStates(p)[i], ReplaySteps(p)[i]).0 == ReplayStates(p)[i + 1]
    ensures i == 4 ==> Take(ReplayStates(p)[i], ReplaySteps(p)[i]).1 == Continue
  {
    if i == 0 {
      assert T(p, 1) == T(p, 0) + p.paymentInterval;
      assert Max(0 - p.unsealPrice, 0) / p.pricePerByte == 0;
    } else if i == 4 {
      ExactDivision(T(p, 1), p.pricePerByte);
    }
  }

  lemma ReplayIsRun(p: Params, i: nat)
    requires p.Advances() && p.pricePerByte > 0 && T(p, 1) < T(p, 3) && i < 5
    ensures ReplayStates(p)[i].deal.params == p
    ensures Take(ReplayStates(p)[i], ReplaySteps(p)[i]).0 == ReplayStates(p)[i + 1]
    ensures i == 4 ==> Take(ReplayStates(p)[i], ReplaySteps(p)[i]).1 == Continue
  {
    if i in {2, 3} {
      ReplayPays(p, i);
    } else {
      ReplaySends(p, i);
    }
  }

  /** The bound is tight for every priced deal: after one honest payment, a replay of the same
      voucher unlocks one more interval, and the provider ends one byte short of the bound. */
  lemma ExposureTight(p: Params)
    requires p.Advances() && p.pricePerByte > 0
    ensures T(p, 1) < T(p, 3)
    ensures Run(p, ReplayStates(p), ReplaySteps(p))
    ensures Take(ReplayStates(p)[4], ReplaySteps(p)[4]).1 == Continue
    ensures var t := ReplayStates(p)[5];
            t.data.interval == T(p, 3) && t.data.totalSent - t.data.totalPaidFor == T(p, 3) - T(p, 1) - 1
  {
    TStrict(p, 1, 3);
    forall i | 0 <= i < 5
      ensures Take(ReplayStates(p)[i], ReplaySteps(p)[i]).0 == ReplayStates(p)[i + 1]
    {
      ReplayIsRun(p, i);
    }
    ReplayIsRun(p, 4);
    assert ReplayStates(p)[0] == Begin(0, p, 0);
  }

  /** Before completion the bookkeeping is the wire: every byte really sent is counted, across
      reloads of the deal state. */
  lemma WireAccounted(p: Params, ts: seq<Transfer>, steps: seq<Step>, i: nat)
    requires Run(p, ts, steps) && i < |steps|
    requires steps[i].Bytes? && ts[i].deal.status in {Ongoing, FundsNeeded}
    ensures ts[i + 1].wire == ts[i + 1].data.totalSent == ts[i + 1].deal.totalSent
  {
    RunKeeps(p, ts, steps, i);
    RunKeeps(p, ts, steps, i + 1);
  }
}
