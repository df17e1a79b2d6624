/** From which states an honest deal goes on.

A refused voucher in the client's queue dooms the deal if the events before it lead to a sending
status (`Doomed`).  `ThresholdsWithinReach` starts from any reachable state that is not doomed, in
which both sides serve and no stopping event is under way, with or without an unrecorded payment:
some continuation brings both sides to every later threshold, and it ends in such a state again.
`LockstepFailure` proves the converse.
 */
module LockstepProgress {
  import opened Deal
  import opened Intervals
  import opened Lockstep
  import opened LockstepRuns
  import C = Client
  import P = Provider

  // ---------- Continuations ----------

  /** Steps without error, refusal or cancellation from outside. */
  ghost predicate Path(ns: seq<Net>, steps: seq<Step>) {
    && |ns| == |steps| + 1 && (forall s <- steps :: Untroubled(s))
    && forall i | 0 <= i < |steps| :: Follows(ns[i], steps[i], ns[i + 1])
  }

  ghost predicate Continues(n0: Net, n: Net) {
    exists ns, steps :: Path(ns, steps) && ns[0] == n0 && ns[|ns| - 1] == n
  }

  lemma ContinuesHere(n: Net)
    ensures Continues(n, n)
  {
    var ns: seq<Net>, steps: seq<Step> := [n], [];
    assert Path(ns, steps) && ns[0] == n && ns[|ns| - 1] == n;
  }

  lemma ContinuesStep(n0: Net, n: Net, s: Step)
    requires Continues(n0, n) && n.c.ds.params.Advances() && n.t.deal.params.Advances() && Legal(n, s) && Untroubled(s)
    ensures Continues(n0, Take(n, s))
  {
    var ns, steps :| Path(ns, steps) && ns[0] == n0 && ns[|ns| - 1] == n;
    var ns', steps' := ns + [Take(n, s)], steps + [s];
    assert Follows(n, s, Take(n, s));
    forall i | 0 <= i < |steps'| ensures Follows(ns'[i], steps'[i], ns'[i + 1]) {
      if i < |steps| {
        assert Follows(ns[i], steps[i], ns[i + 1]);
      }
    }
    assert Path(ns', steps') && ns'[0] == n0 && ns'[|ns'| - 1] == Take(n, s);
  }

  /** From `n0` some continuation leads to `n` with `c` for its client. */
  ghost predicate Gets(n0: Net, n: Net, c: C.Machine) {
    n.t.deal.params.Advances() && c.ds.params.Advances() && Continues(n0, n.(c := c))
  }

  lemma GetsStep(n0: Net, n: Net, c: C.Machine, s: C.Step)
    requires Gets(n0, n, c) && C.Legal(c, s)
    requires Untroubled(ClientStep(s)) && (s.Act? ==> HonestEnv(c, s.env))
    ensures Gets(n0, n, C.Take(c, s))
  {
    ContinuesStep(n0, n.(c := c), ClientStep(s));
    C.TermsStay(c, s);
    assert n.(c := c).(c := C.Take(c, s)) == n.(c := C.Take(c, s));
  }

  // ---------- Handling the next event ----------

  /** A refused voucher is reported behind a block event, which takes the client out of `SendFunds`. */
  function Reported(c: C.Machine, e: C.Event): seq<C.Event> {
    if e == C.EventCreateVoucherFailed then [C.EventBlocksReceived(c.received), e] else [e]
  }

  /** The client once its running handler has answered. */
  function Answer(c: C.Machine): C.Machine {
    match C.Handle(c.ds, Honest(c))
    case Quiet => c.(activity := C.Idle)
    case Trigger(e) => c.(activity := C.Idle, queue := c.queue + Reported(c, e))
    case Pay(amt) => c.(activity := C.Idle, queue := c.queue + [C.EventPaymentSent(amt)], vouchers := c.vouchers + [amt])
    case NilDereference => c.(activity := C.Crashed)
  }

  /** The client once it has reported `e`. */
  function Reporting(c: C.Machine, e: C.Event): C.Machine {
    c.(activity := C.Idle, queue := c.queue + Reported(c, e))
  }

  lemma GetsReport(n0: Net, n: Net, c: C.Machine)
    requires Gets(n0, n, c) && c.activity.Triggering?
    ensures Gets(n0, n, Reporting(c, c.activity.e))
  {
    var e := c.activity.e;
    if e == C.EventCreateVoucherFailed {
      var b := C.EventBlocksReceived(c.received);
      GetsStep(n0, n, c, C.Arrive(b));
      var c1 := C.Take(c, C.Arrive(b));
      GetsStep(n0, n, c1, C.Report);
      assert c.queue + [b] + [e] == c.queue + [b, e];
      assert C.Take(c1, C.Report) == Reporting(c, e);
    } else {
      GetsStep(n0, n, c, C.Report);
    }
  }

  lemma GetsAnswer(n0: Net, n: Net, c: C.Machine)
    requires Gets(n0, n, c) && c.activity == C.Running
    ensures Answer(c).activity != C.Crashed ==> Gets(n0, n, Answer(c))
  {
    var s := C.Act(Honest(c));
    GetsStep(n0, n, c, s);
    var c1 := C.Take(c, s);
    if c1.activity.Triggering? {
      GetsReport(n0, n, c1);
      assert Reporting(c1, c1.activity.e) == Answer(c);
    }
  }

  /** The client once it has handled the event at the head of its queue. */
  function Served(c: C.Machine): C.Machine
    requires C.Legal(c, C.Process) && c.ds.params.Advances()
  {
    var c1 := C.Take(c, C.Process);
    if c1.activity == C.Running then Answer(c1) else c1
  }

  lemma GetsServed(n0: Net, n: Net, c: C.Machine)
    requires Gets(n0, n, c) && C.Legal(c, C.Process)
    ensures Served(c).activity != C.Crashed ==> Gets(n0, n, Served(c))
  {
    GetsStep(n0, n, c, C.Process);
    var c1 := C.Take(c, C.Process);
    if c1.activity == C.Running {
      GetsAnswer(n0, n, c1);
    }
  }

  // ---------- Where a queue leads ----------

  /** The deal after one event; allocating a lane without a channel crashes the client. */
  function Applies(ds: C.ClientState, e: C.Event): (ds': C.ClientState)
    requires ds.params.Advances()
    ensures ds'.params == ds.params
  {
    if e.EventLaneAllocated? && C.Lookup(ds.status, e) != C.NoRow && ds.paymentInfo.None? then ds
    else C.Applied(ds, e).0
  }

  /** The deal after the events of a queue: handlers do not change it, they only add events behind. */
  function After(ds: C.ClientState, queue: seq<C.Event>): (ds': C.ClientState)
    requires ds.params.Advances()
    ensures ds'.params == ds.params
    decreases queue
  {
    if queue == [] then ds else After(Applies(ds, queue[0]), queue[1..])
  }

  predicate SendStatus(s: Status) {
    s in {SendFunds, SendFundsLastPayment}
  }

  /** A refused voucher waits at place `m`, and the events before it lead to a sending status. */
  predicate DoomedBy(ds: C.ClientState, queue: seq<C.Event>, m: nat)
    requires ds.params.Advances()
  {
    m < |queue| && queue[m] == C.EventCreateVoucherFailed && SendStatus(After(ds, queue[..m]).status)
  }

  ghost predicate Doomed(c: C.Machine) {
    c.ds.params.Advances() && exists m: nat :: DoomedBy(c.ds, c.queue, m)
  }

  lemma {:induction false} AfterAppend(ds: C.ClientState, queue: seq<C.Event>, e: C.Event)
    requires ds.params.Advances()
    ensures After(ds, queue + [e]) == Applies(After(ds, queue), e)
    decreases queue
  {
    if queue == [] {
      assert [] + [e] == [e];
      assert [e][1..] == [];
    } else {
      assert (queue + [e])[1..] == queue[1..] + [e];
      AfterAppend(Applies(ds, queue[0]), queue[1..], e);
    }
  }

  /** Taking up the first event moves every refusal one place forward. */
  lemma DoomMoves(ds: C.ClientState, queue: seq<C.Event>, m: nat)
    requires ds.params.Advances() && queue != []
    ensures DoomedBy(ds, queue, m + 1) <==> DoomedBy(Applies(ds, queue[0]), queue[1..], m)
  {
    if m + 1 < |queue| {
      assert queue[..m + 1][1..] == queue[1..][..m];
    }
  }

  /** An event at the end of the queue leaves the earlier places alone. */
  lemma DoomBehind(ds: C.ClientState, queue: seq<C.Event>, more: seq<C.Event>, m: nat)
    requires ds.params.Advances() && m < |queue|
    ensures DoomedBy(ds, queue + more, m) <==> DoomedBy(ds, queue, m)
  {
    assert (queue + more)[..m] == queue[..m];
  }

  // ---------- A client that goes on ----------

  /** Statuses between which a paying client moves before its last payment. */
  predicate Active(s: Status) {
    s in {Ongoing, FundsNeeded, SendFunds}
  }

  /** Events that take an active client out of the active statuses, apart from a voucher failure. */
  predicate Stops(e: C.Event) {
    || e in {C.EventWriteDealProposalErrored, C.EventUnknownResponseReceived, C.EventProviderErrored,
             C.EventDataTransferError, C.EventAllBlocksReceived, C.EventBadPaymentRequested, C.EventVoucherShortfall,
             C.EventWriteDealPaymentErrored, C.EventComplete, C.EventProviderCancelled, C.EventCancel}
    || e.EventLastPaymentRequested?
  }

  /** The client at threshold `i`, with nothing before it that stops it. */
  ghost predicate Lively(p: Params, c: C.Machine, i: nat) {
    && ClientAt(p, c, i)
    && Active(c.ds.status) && c.ds.paymentInfo.Some? && !c.ds.lastPaymentRequested
    && (forall e <- c.queue :: !Stops(e)) && !Doomed(c)
  }

  ghost predicate Live(p: Params, c: C.Machine, i: nat) {
    Lively(p, c, i) && c.activity == C.Idle
  }

  predicate StaysActive(row: C.Row) {
    row.To? ==> Active(row.s)
  }

  /** The rows of other events in active statuses. */
  lemma SteadyRow(s: Status, e: C.Event)
    requires Active(s) && !Stops(e) && (e == C.EventCreateVoucherFailed ==> s != SendFunds)
    ensures StaysActive(C.Lookup(s, e))
    ensures e.EventBlocksReceived? ==> C.Lookup(s, e).To? && C.Lookup(s, e).s != SendFunds
    ensures C.Lookup(s, e) != C.NoRow ==> !SetsUp(e)
  {
  }

  /** Where a stopping event ends activity. */
  lemma StopsAt(e: C.Event) returns (s: Status)
    requires Stops(e) || e == C.EventCreateVoucherFailed
    ensures Active(s) && !StaysActive(C.Lookup(s, e))
  {
    s := if e in {C.EventBadPaymentRequested, C.EventVoucherShortfall, C.EventCreateVoucherFailed}
         then SendFunds else Ongoing;
  }

  /** Exactly the stopping events and a voucher failure can end activity. */
  lemma StopsIff(e: C.Event)
    ensures Stops(e) || e == C.EventCreateVoucherFailed <==> exists s :: Active(s) && !StaysActive(C.Lookup(s, e))
  {
    if Stops(e) || e == C.EventCreateVoucherFailed {
      var s := StopsAt(e);
    } else {
      forall s | Active(s) ensures StaysActive(C.Lookup(s, e)) {
        SteadyRow(s, e);
      }
    }
  }

  /** Events that set up the channel or ask for the last payment. */
  predicate SetsUp(e: C.Event) {
    || e.EventPaymentChannelCreateInitiated? || e.EventPaymentChannelAddingFunds? || e.EventPaymentChannelReady?
    || e.EventLaneAllocated? || e.EventLastPaymentRequested?
  }

  lemma ActionKeepsTerms(ds: C.ClientState, e: C.Event)
    requires ds.params.Advances() && !SetsUp(e)
    ensures var ds' := C.Action(ds, e);
            && ds'.paymentInfo == ds.paymentInfo && ds'.lastPaymentRequested == ds.lastPaymentRequested
            && ds'.totalReceived == if e.EventBlocksReceived? then e.total else ds.totalReceived
  {
  }

  /** What an event does to an active deal. */
  predicate KeepsActive(ds: C.ClientState, e: C.Event, ds': C.ClientState) {
    && Active(ds'.status) && ds'.paymentInfo == ds.paymentInfo
    && ds'.lastPaymentRequested == ds.lastPaymentRequested
    && ds'.totalReceived == (if e.EventBlocksReceived? then e.total else ds.totalReceived)
    && (e.EventBlocksReceived? ==> ds'.status != SendFunds)
  }

  lemma AppliedActive(ds: C.ClientState, e: C.Event)
    requires ds.params.Advances() && Active(ds.status) && StaysActive(C.Lookup(ds.status, e))
    requires e.EventBlocksReceived? ==> C.Lookup(ds.status, e).To? && C.Lookup(ds.status, e).s != SendFunds
    requires C.Lookup(ds.status, e) != C.NoRow ==> !SetsUp(e)
    ensures KeepsActive(ds, e, C.Applied(ds, e).0)
  {
    if C.Lookup(ds.status, e) != C.NoRow {
      ActionKeepsTerms(ds, e);
      ActionKeepsStatus(ds, e);
    }
  }

  lemma SteadyApplied(ds: C.ClientState, e: C.Event)
    requires ds.params.Advances() && Active(ds.status) && !Stops(e)
    requires e == C.EventCreateVoucherFailed ==> ds.status != SendFunds
    ensures C.Lookup(ds.status, e) != C.NoRow ==> !SetsUp(e)
    ensures KeepsActive(ds, e, C.Applied(ds, e).0)
  {
    SteadyRow(ds.status, e);
    AppliedActive(ds, e);
  }

  /** What an active client's handler answers. */
  lemma ActiveAnswers(p: Params, c: C.Machine, i: nat)
    requires ClientAt(p, c, i) && c.activity == C.Running && Active(c.ds.status)
    requires c.ds.paymentInfo.Some? && !c.ds.lastPaymentRequested
    ensures var r := C.Handle(c.ds, Honest(c));
            match c.ds.status
            case Ongoing => r == C.Quiet || r == C.Trigger(C.EventPaymentRequested(0))
            case FundsNeeded =>
              r == if c.ds.totalReceived >= T(p, i) then C.Trigger(C.EventSendFunds) else C.Quiet
            case _ => r == SendReaction(c)
  {
    if c.ds.status == SendFunds {
      SendRule(p, c, i, Honest(c));
    } else {
      ThresholdsRise(p, i);
    }
  }

  // ---------- What handling an event keeps ----------

  /** Reporting an event keeps the client at its threshold. */
  lemma ReportingAt(p: Params, c: C.Machine, i: nat)
    requires ClientAt(p, c, i) && c.activity.Triggering?
    ensures ClientAt(p, Reporting(c, c.activity.e), i)
  {
    var e := c.activity.e;
    if e == C.EventCreateVoucherFailed {
      var b := C.EventBlocksReceived(c.received);
      PaymentsAppend(c.queue, b);
      PaymentsAppend(c.queue + [b], e);
      assert c.queue + [b] + [e] == c.queue + [b, e];
    } else {
      PaymentsAppend(c.queue, e);
    }
  }

  /** A queue without stopping events that does not doom the client leaves it active. */
  lemma {:induction false} AfterActive(ds: C.ClientState, queue: seq<C.Event>)
    requires ds.params.Advances() && Active(ds.status) && (forall e <- queue :: !Stops(e))
    requires forall m: nat :: !DoomedBy(ds, queue, m)
    ensures Active(After(ds, queue).status)
    decreases queue
  {
    if queue != [] {
      var e := queue[0];
      assert !DoomedBy(ds, queue, 0) && queue[..0] == [];
      SteadyApplied(ds, e);
      forall m: nat ensures !DoomedBy(Applies(ds, e), queue[1..], m) {
        DoomMoves(ds, queue, m);
      }
      AfterActive(Applies(ds, e), queue[1..]);
    }
  }

  /** A refusal reported behind a block event does not doom the client. */
  lemma GuardedReport(ds: C.ClientState, queue: seq<C.Event>, b: C.Event, m: nat)
    requires ds.params.Advances() && Active(ds.status) && (forall e <- queue :: !Stops(e)) && b.EventBlocksReceived?
    requires forall m: nat :: !DoomedBy(ds, queue, m)
    ensures !DoomedBy(ds, queue + [b, C.EventCreateVoucherFailed], m)
  {
    var e := C.EventCreateVoucherFailed;
    if m < |queue| {
      DoomBehind(ds, queue, [b, e], m);
    } else if m == |queue| + 1 {
      assert (queue + [b, e])[..m] == queue + [b];
      AfterAppend(ds, queue, b);
      AfterActive(ds, queue);
      SteadyApplied(After(ds, queue), b);
    }
  }

  lemma OtherReport(ds: C.ClientState, queue: seq<C.Event>, e: C.Event, m: nat)
    requires ds.params.Advances() && e != C.EventCreateVoucherFailed && !DoomedBy(ds, queue, m)
    ensures !DoomedBy(ds, queue + [e], m)
  {
    if m < |queue| {
      DoomBehind(ds, queue, [e], m);
    }
  }

  /** An event at the end of the queue, behind a block event if it is a refusal. */
  lemma ReportingLive(p: Params, c: C.Machine, i: nat)
    requires Lively(p, c, i) && c.activity.Triggering? && !Stops(c.activity.e)
    ensures Live(p, Reporting(c, c.activity.e), i)
  {
    var e := c.activity.e;
    var c' := Reporting(c, e);
    ReportingAt(p, c, i);
    forall m: nat ensures !DoomedBy(c'.ds, c'.queue, m) {
      assert !DoomedBy(c.ds, c.queue, m);
      if e == C.EventCreateVoucherFailed {
        GuardedReport(c.ds, c.queue, C.EventBlocksReceived(c.received), m);
      } else {
        OtherReport(c.ds, c.queue, e, m);
      }
    }
  }

  /** The handler of an active client triggers no event that stops it. */
  lemma ActGoesOn(p: Params, c: C.Machine, i: nat)
    requires Lively(p, c, i) && c.activity == C.Running
    ensures var c1 := C.Take(c, C.Act(Honest(c)));
            && c1.activity != C.Running && c1.activity != C.Crashed && c1.ds == c.ds && c1.queue == c.queue
            && (c1.activity.Triggering? ==> !Stops(c1.activity.e))
  {
    ActiveAnswers(p, c, i);
  }

  lemma ActLively(p: Params, c: C.Machine, i: nat)
    requires Lively(p, c, i) && c.activity == C.Running
    ensures Lively(p, C.Take(c, C.Act(Honest(c))), i)
  {
    ActGoesOn(p, c, i);
    ClientAct(p, c, i, Honest(c));
  }

  /** When the handler pays. */
  lemma AnswerPays(p: Params, c: C.Machine, i: nat)
    requires Lively(p, c, i) && c.activity == C.Running
    ensures c.queue <= Answer(c).queue && Answer(c).ds == c.ds && Answer(c).received == c.received
    ensures if c.ds.status == SendFunds && c.ds.totalReceived >= T(p, i) && |c.vouchers| == i - 1
            then |Answer(c).vouchers| == i && Answer(c).queue == c.queue + [C.EventPaymentSent(Due(p, i))]
            else Answer(c).vouchers == c.vouchers
  {
    ActiveAnswers(p, c, i);
  }

  /** The handler of an active client keeps it alive. */
  lemma AnswerLive(p: Params, c: C.Machine, i: nat)
    requires Lively(p, c, i) && c.activity == C.Running
    ensures Live(p, Answer(c), i)
  {
    ActGoesOn(p, c, i);
    ActLively(p, c, i);
    var c1 := C.Take(c, C.Act(Honest(c)));
    if c1.activity.Triggering? {
      ReportingLive(p, c1, i);
      assert Reporting(c1, c1.activity.e) == Answer(c);
    } else {
      assert Answer(c) == c1;
    }
  }

  /** Taking an event from the queue. */
  lemma ProcessLive(p: Params, c: C.Machine, i: nat)
    requires Live(p, c, i) && c.queue != [] && !c.queue[0].EventPaymentSent?
    ensures var c1 := C.Take(c, C.Process);
            && Lively(p, c1, i) && (c1.activity == C.Idle || c1.activity == C.Running)
            && c1.queue == c.queue[1..] && c1.vouchers == c.vouchers && c1.received == c.received
            && (c1.ds, c1.activity == C.Running) == C.Applied(c.ds, c.queue[0])
  {
    var e := c.queue[0];
    assert !DoomedBy(c.ds, c.queue, 0) && c.queue[..0] == [];
    SteadyApplied(c.ds, e);
    ClientStays(p, c, i);
    NotDoomedBehind(c);
  }

  lemma NotDoomedBehind(c: C.Machine)
    requires C.Legal(c, C.Process) && c.ds.params.Advances() && !Doomed(c)
    requires C.Take(c, C.Process).activity != C.Crashed
    ensures C.Take(c, C.Process).ds.params == c.ds.params && !Doomed(C.Take(c, C.Process))
  {
    var c1 := C.Take(c, C.Process);
    C.TermsStay(c, C.Process);
    forall m: nat ensures !DoomedBy(c1.ds, c1.queue, m) {
      assert !DoomedBy(c.ds, c.queue, m + 1);
      DoomMoves(c.ds, c.queue, m);
    }
  }

  /** Handling an event that is not a sent payment. */
  lemma ServedLive(p: Params, c: C.Machine, i: nat)
    requires Live(p, c, i) && c.queue != [] && !c.queue[0].EventPaymentSent?
    ensures Live(p, Served(c), i)
    ensures c.queue[1..] <= Served(c).queue && Served(c).received == c.received
    ensures var (ds, handler) := C.Applied(c.ds, c.queue[0]);
            && Served(c).ds == ds
            && (if handler && ds.status == SendFunds && ds.totalReceived >= T(p, i) && |c.vouchers| == i - 1
                then |Served(c).vouchers| == i
                else Served(c).vouchers == c.vouchers)
  {
    ProcessLive(p, c, i);
    var c1 := C.Take(c, C.Process);
    if c1.activity == C.Running {
      AnswerPays(p, c1, i);
      AnswerLive(p, c1, i);
    }
  }

  lemma OngoingSettles(p: Params, c: C.Machine, i: nat)
    requires Lively(p, c, i) && c.ds.status == Ongoing && (c.activity == C.Idle || c.activity == C.Running)
    ensures var c' := if c.activity == C.Running then Answer(c) else c;
            Live(p, c', i) && c'.vouchers == c.vouchers && c'.received == c.received
  {
    if c.activity == C.Running {
      AnswerPays(p, c, i);
      AnswerLive(p, c, i);
    }
  }

  /** Recording a payment takes the client to the next threshold. */
  lemma ServedRecords(p: Params, c: C.Machine, i: nat)
    requires Live(p, c, i) && c.queue != [] && c.queue[0].EventPaymentSent?
    ensures Live(p, Served(c), i + 1) && Served(c).vouchers == c.vouchers && Served(c).received == c.received
  {
    RecordLively(p, c, i);
    OngoingSettles(p, C.Take(c, C.Process), i + 1);
  }

  lemma PaymentMoves(s: Status, amt: int)
    requires Active(s)
    ensures C.Lookup(s, C.EventPaymentSent(amt)) == if s == Ongoing then C.JustRecord else C.To(Ongoing)
  {
  }

  lemma RecordLively(p: Params, c: C.Machine, i: nat)
    requires Live(p, c, i) && c.queue != [] && c.queue[0].EventPaymentSent?
    ensures var c1 := C.Take(c, C.Process);
            && Lively(p, c1, i + 1) && c1.ds.status == Ongoing && (c1.activity == C.Idle || c1.activity == C.Running)
            && c1.vouchers == c.vouchers && c1.received == c.received
  {
    var e := c.queue[0];
    PaymentMoves(c.ds.status, e.amt);
    ActionKeepsStatus(c.ds, e);
    SteadyApplied(c.ds, e);
    ClientRecords(p, c, i);
    NotDoomedBehind(c);
  }

  // ---------- From a sent payment to a recorded one ----------

  lemma {:induction false} PaymentAt(queue: seq<C.Event>) returns (m: nat)
    requires Payments(queue) > 0
    ensures m < |queue| && queue[m].EventPaymentSent?
    ensures forall k | 0 <= k < m :: !queue[k].EventPaymentSent?
  {
    if queue[0].EventPaymentSent? {
      m := 0;
    } else {
      m := PaymentAt(queue[1..]);
      m := m + 1;
    }
  }

  /** Whatever lies before it in the queue, the sent payment is recorded. */
  lemma {:induction false} GetsRecorded(n0: Net, n: Net, p: Params, c: C.Machine, i: nat, m: nat) returns (c': C.Machine)
    requires Gets(n0, n, c) && Live(p, c, i) && |c.vouchers| == i
    requires m < |c.queue| && c.queue[m].EventPaymentSent? && forall k | 0 <= k < m :: !c.queue[k].EventPaymentSent?
    ensures Gets(n0, n, c') && Live(p, c', i + 1) && c'.vouchers == c.vouchers
    ensures c'.received == c.received
    decreases m
  {
    GetsServed(n0, n, c);
    c' := Served(c);
    if m == 0 {
      ServedRecords(p, c, i);
    } else {
      ServedLive(p, c, i);
      assert forall k | 0 <= k < m :: c'.queue[k] == c.queue[1..][k];
      c' := GetsRecorded(n0, n, p, c', i, m - 1);
    }
  }

  // ---------- From the bytes of the threshold to a payment ----------

  /** Block events from place `m` on report at least `t` bytes. */
  predicate FilledFrom(queue: seq<C.Event>, m: nat, t: nat) {
    forall k | m <= k < |queue| :: queue[k].EventBlocksReceived? ==> queue[k].total >= t
  }

  lemma AnswerFilled(c: C.Machine, m: nat, t: nat)
    requires FilledFrom(c.queue, m, t) && c.received >= t
    ensures FilledFrom(Answer(c).queue, m, t)
  {
  }

  lemma ServedFilled(p: Params, c: C.Machine, i: nat, m: nat, t: nat)
    requires Live(p, c, i) && c.queue != [] && !c.queue[0].EventPaymentSent?
    requires FilledFrom(c.queue, m + 1, t) && c.received >= t
    ensures FilledFrom(Served(c).queue, m, t)
  {
    ProcessLive(p, c, i);
    var c1 := C.Take(c, C.Process);
    assert FilledFrom(c1.queue, m, t) by {
      forall k | m <= k < |c1.queue| ensures c1.queue[k].EventBlocksReceived? ==> c1.queue[k].total >= t {
        assert c1.queue[k] == c.queue[k + 1];
      }
    }
    if c1.activity == C.Running {
      AnswerFilled(c1, m, t);
    }
  }

  /** The client has the bytes of its threshold and will pay as soon as it comes to send. */
  ghost predicate Armed(p: Params, c: C.Machine, i: nat) {
    && Live(p, c, i) && |c.vouchers| == i - 1 && c.ds.status != SendFunds
    && c.ds.totalReceived >= T(p, i) && c.received >= T(p, i) && FilledFrom(c.queue, 0, T(p, i))
  }

  /** The rows of an armed client. */
  lemma ArmedRow(s: Status, e: C.Event)
    requires s in {Ongoing, FundsNeeded} && !Stops(e) && !e.EventPaymentSent?
    ensures var row := C.Lookup(s, e);
            if s == FundsNeeded && e == C.EventSendFunds then row == C.To(SendFunds)
            else if e.EventPaymentRequested? then row == C.To(FundsNeeded)
            else row.To? ==> row.s == s
  {
  }

  /** An armed client pays when it takes up `EventSendFunds` in `FundsNeeded`, and stays armed otherwise. */
  lemma ServedArmed(p: Params, c: C.Machine, i: nat)
    requires Armed(p, c, i) && c.queue != []
    ensures c.queue[1..] <= Served(c).queue && Served(c).received == c.received
    ensures if c.ds.status == FundsNeeded && c.queue[0] == C.EventSendFunds
            then Live(p, Served(c), i) && |Served(c).vouchers| == i
            else Armed(p, Served(c), i)
    ensures c.queue[0] != C.EventSendFunds && (c.ds.status == FundsNeeded || c.queue[0].EventPaymentRequested?) ==>
              Served(c).ds.status == FundsNeeded
  {
    var e := c.queue[0];
    NoPayments(c.queue, e);
    ArmedRow(c.ds.status, e);
    ActionKeepsStatus(c.ds, e);
    SteadyApplied(c.ds, e);
    ServedLive(p, c, i);
    ServedFilled(p, c, i, 0, T(p, i));
  }

  /** An armed client with `EventSendFunds` in its queue pays. */
  lemma {:induction false} GetsPaidBySend(n0: Net, n: Net, p: Params, c: C.Machine, i: nat, m: nat) returns (c': C.Machine)
    requires Gets(n0, n, c) && Armed(p, c, i) && c.ds.status == FundsNeeded
    requires m < |c.queue| && c.queue[m] == C.EventSendFunds
    ensures Gets(n0, n, c') && Live(p, c', i) && |c'.vouchers| == i
    ensures c'.received == c.received
    decreases m
  {
    GetsServed(n0, n, c);
    ServedArmed(p, c, i);
    c' := Served(c);
    if c.queue[0] != C.EventSendFunds {
      assert c'.queue[m - 1] == c.queue[1..][m - 1] == c.queue[m];
      c' := GetsPaidBySend(n0, n, p, c', i, m - 1);
    }
  }

  /** The request of an armed client is answered with `EventSendFunds`. */
  lemma ServedRequest(p: Params, c: C.Machine, i: nat)
    requires Armed(p, c, i) && c.queue != [] && c.queue[0].EventPaymentRequested?
    ensures Armed(p, Served(c), i) && Served(c).ds.status == FundsNeeded
    ensures Served(c).queue == c.queue[1..] + [C.EventSendFunds] && Served(c).received == c.received
  {
    ServedArmed(p, c, i);
    ProcessLive(p, c, i);
    ArmedRow(c.ds.status, c.queue[0]);
    ActiveAnswers(p, C.Take(c, C.Process), i);
  }

  /** An armed client with a request in its queue pays. */
  lemma {:induction false} GetsPaidByRequest(n0: Net, n: Net, p: Params, c: C.Machine, i: nat, m: nat) returns (c': C.Machine)
    requires Gets(n0, n, c) && Armed(p, c, i) && m < |c.queue| && c.queue[m].EventPaymentRequested?
    ensures Gets(n0, n, c') && Live(p, c', i) && |c'.vouchers| == i
    ensures c'.received == c.received
    decreases m
  {
    GetsServed(n0, n, c);
    ServedArmed(p, c, i);
    c' := Served(c);
    if m == 0 {
      ServedRequest(p, c, i);
      c' := GetsPaidBySend(n0, n, p, c', i, |c'.queue| - 1);
    } else if |c'.vouchers| != i {
      assert c'.queue[m - 1] == c.queue[1..][m - 1];
      c' := GetsPaidByRequest(n0, n, p, c', i, m - 1);
    }
  }

  /** Once the bytes of its threshold are recorded, the client is armed. */
  lemma ServedBlocks(p: Params, c: C.Machine, i: nat)
    requires Live(p, c, i) && |c.vouchers| == i - 1 && c.queue != [] && c.queue[0].EventBlocksReceived?
    requires FilledFrom(c.queue, 0, T(p, i)) && c.received >= T(p, i)
    ensures Armed(p, Served(c), i) && Served(c).received == c.received
  {
    SteadyApplied(c.ds, c.queue[0]);
    ServedLive(p, c, i);
    ServedFilled(p, c, i, 0, T(p, i));
  }

  lemma {:induction false} GetsArmed(n0: Net, n: Net, p: Params, c: C.Machine, i: nat, m: nat) returns (c': C.Machine)
    requires Gets(n0, n, c) && Live(p, c, i) && |c.vouchers| == i - 1
    requires m < |c.queue| && c.queue[m].EventBlocksReceived?
    requires FilledFrom(c.queue, m, T(p, i)) && c.received >= T(p, i)
    ensures Gets(n0, n, c') && (Armed(p, c', i) || (Live(p, c', i) && |c'.vouchers| == i))
    ensures c'.received == c.received
    decreases m
  {
    NoPayments(c.queue, c.queue[0]);
    GetsServed(n0, n, c);
    c' := Served(c);
    if m == 0 {
      ServedBlocks(p, c, i);
    } else {
      ServedLive(p, c, i);
      if |c'.vouchers| != i {
        ServedFilled(p, c, i, m - 1, T(p, i));
        assert c'.queue[m - 1] == c.queue[1..][m - 1];
        c' := GetsArmed(n0, n, p, c', i, m - 1);
      }
    }
  }

  lemma ArriveLive(p: Params, c: C.Machine, i: nat, e: C.Event)
    requires Live(p, c, i) && (e.EventBlocksReceived? || e.EventPaymentRequested?)
    requires e.EventBlocksReceived? ==> e.total >= c.received
    ensures Live(p, C.Take(c, C.Arrive(e)), i)
  {
    var c' := C.Take(c, C.Arrive(e));
    PaymentsAppend(c.queue, e);
    forall m: nat ensures !DoomedBy(c'.ds, c'.queue, m) {
      assert !DoomedBy(c.ds, c.queue, m);
      OtherReport(c.ds, c.queue, e, m);
    }
  }

  /** With the bytes of its threshold and a request for payment, a live client pays. */
  lemma GetsPaid(n0: Net, n: Net, p: Params, c: C.Machine, i: nat) returns (c': C.Machine)
    requires Gets(n0, n, c) && Live(p, c, i) && |c.vouchers| == i - 1
    ensures Gets(n0, n, c') && Live(p, c', i) && |c'.vouchers| == i && c'.received == Max(c.received, T(p, i))
  {
    var b := C.EventBlocksReceived(Max(c.received, T(p, i)));
    GetsStep(n0, n, c, C.Arrive(b));
    ArriveLive(p, c, i, b);
    c' := GetsArmed(n0, n, p, C.Take(c, C.Arrive(b)), i, |c.queue|);
    if |c'.vouchers| != i {
      var e := C.EventPaymentRequested(1);
      GetsStep(n0, n, c', C.Arrive(e));
      ArriveLive(p, c', i, e);
      c' := GetsPaidByRequest(n0, n, p, C.Take(c', C.Arrive(e)), i, |c'.queue|);
    }
  }

  /** A live client reaches its next threshold. */
  lemma GetsNext(n0: Net, n: Net, p: Params, c: C.Machine, i: nat) returns (c': C.Machine)
    requires Gets(n0, n, c) && Live(p, c, i)
    ensures Gets(n0, n, c') && Live(p, c', i + 1) && |c'.vouchers| == i && c'.received <= Max(c.received, T(p, i))
  {
    c' := c;
    if |c.vouchers| != i {
      c' := GetsPaid(n0, n, p, c, i);
    }
    var m := PaymentAt(c'.queue);
    c' := GetsRecorded(n0, n, p, c', i, m);
  }

  /** Whatever it is doing, the client comes to rest. */
  lemma GetsSettled(n0: Net, n: Net, p: Params, c: C.Machine, i: nat) returns (c': C.Machine)
    requires Gets(n0, n, c) && Lively(p, c, i) && c.activity != C.Crashed
    requires c.activity.Triggering? ==> !Stops(c.activity.e)
    ensures Gets(n0, n, c') && Live(p, c', i) && c'.received == c.received
  {
    match c.activity
    case Idle => c' := c;
    case Running =>
      GetsAnswer(n0, n, c);
      AnswerLive(p, c, i);
      c' := Answer(c);
    case Triggering(e) =>
      GetsReport(n0, n, c);
      ReportingLive(p, c, i);
      c' := Reporting(c, e);
  }

  // ---------- The provider follows ----------

  /** Sending bytes keeps the provider serving. */
  lemma BytesServe(p: Params, n: Net, x: nat)
    requires Metered(p) && n.t.deal.params == p && n.c.ds.params == p && Serving(n.t.deal.status)
    ensures var n' := Take(n, ProviderStep(P.Bytes(x)));
            && Serving(n'.t.deal.status) && n'.t.wire == n.t.wire + x && n'.c == n.c && n'.delivered == n.delivered
  {
  }

  lemma DeliveryServes(p: Params, n: Net)
    requires Metered(p) && n.t.deal.params == p && n.c.ds.params == p && Legal(n, Deliver) && Credit(n).Some?
    requires Serving(n.t.deal.status)
    ensures Serving(Take(n, Deliver).t.deal.status) && Take(n, Deliver).t.wire == n.t.wire
  {
  }

  /** Everything in flight is delivered. */
  lemma {:induction false} ContinuesDelivered(n0: Net, p: Params, n: Net, i: nat) returns (n': Net)
    requires Continues(n0, n) && JoinedAt(p, n, i) && Serving(n.t.deal.status)
    ensures Continues(n0, n') && JoinedAt(p, n', i) && Serving(n'.t.deal.status)
    ensures n'.c == n.c && n'.delivered == |n.c.vouchers| && n'.t.wire == n.t.wire
    decreases |n.c.vouchers| - n.delivered
  {
    n' := n;
    if n.delivered < |n.c.vouchers| {
      CreditIsInterval(p, n, i);
      DeliveryServes(p, n);
      DeliverKeeps(p, n, i);
      ContinuesStep(n0, n, Deliver);
      n' := ContinuesDelivered(n0, p, Take(n, Deliver), i);
    }
  }

  // ---------- Progress ----------

  /** Both sides serve and no stopping event is under way. */
  predicate Going(n: Net) {
    && Active(n.c.ds.status) && !n.c.ds.lastPaymentRequested
    && (forall e <- n.c.queue :: !Stops(e)) && (n.c.activity.Triggering? ==> !Stops(n.c.activity.e))
    && Serving(n.t.deal.status)
  }

  /** The provider sends until `total` bytes are on the wire. */
  lemma ContinuesSent(n0: Net, p: Params, n: Net, i: nat, total: nat) returns (n': Net)
    requires Continues(n0, n) && JoinedAt(p, n, i) && Serving(n.t.deal.status)
    ensures Continues(n0, n') && JoinedAt(p, n', i) && Serving(n'.t.deal.status)
    ensures n'.c == n.c && n'.t.wire == Max(n.t.wire, total)
  {
    n' := n;
    if n.t.wire < total {
      var ps := P.Bytes(total - n.t.wire);
      BytesServe(p, n, total - n.t.wire);
      ProviderStepKeeps(p, n, ps);
      ContinuesStep(n0, n, ProviderStep(ps));
      n' := Take(n, ProviderStep(ps));
    }
  }

  /** The client's part of the way to the next threshold. */
  lemma GetsThrough(n0: Net, p: Params, n: Net, i: nat) returns (c: C.Machine)
    requires Continues(n0, n) && JoinedAt(p, n, i) && Going(n) && !Doomed(n.c)
    requires n.c.ds.paymentInfo.Some? && n.c.activity != C.Crashed
    ensures Gets(n0, n, c) && Live(p, c, i + 1) && |c.vouchers| == i && c.received <= Max(n.c.received, T(p, i))
  {
    assert n.(c := n.c) == n;
    c := GetsSettled(n0, n, p, n.c, i);
    c := GetsNext(n0, n, p, c, i);
  }

  lemma LiveGoes(p: Params, n: Net, c: C.Machine, i: nat)
    requires ProviderAt(p, n) && Serving(n.t.deal.status) && Live(p, c, i) && n.delivered <= |c.vouchers|
    ensures JoinedAt(p, n.(c := c), i) && Going(n.(c := c)) && !Doomed(c)
  {
  }

  /** From threshold `i` to the next. */
  lemma ContinuesNext(n0: Net, p: Params, n: Net, i: nat) returns (n': Net)
    requires Continues(n0, n) && JoinedAt(p, n, i) && Going(n) && !Doomed(n.c)
    requires n.c.ds.paymentInfo.Some? && n.c.activity != C.Crashed
    ensures Continues(n0, n') && JoinedAt(p, n', i + 1) && Going(n') && !Doomed(n'.c)
    ensures n'.c.ds.paymentInfo.Some? && n'.c.activity != C.Crashed
    ensures n'.delivered == |n'.c.vouchers| == i
    ensures n.c.received <= n.t.wire ==> n'.c.received <= n'.t.wire
  {
    var n1 := ContinuesSent(n0, p, n, i, T(p, i));
    var c := GetsThrough(n0, p, n1, i);
    LiveGoes(p, n1, c, i + 1);
    n' := ContinuesDelivered(n0, p, n1.(c := c), i + 1);
  }

  lemma {:induction false} ContinuesTo(n0: Net, p: Params, n: Net, i: nat, j: nat) returns (n': Net)
    requires Continues(n0, n) && JoinedAt(p, n, i) && Going(n) && !Doomed(n.c) && i < j
    requires n.c.ds.paymentInfo.Some? && n.c.activity != C.Crashed
    ensures Continues(n0, n') && JoinedAt(p, n', j) && Going(n') && !Doomed(n'.c) && n'.delivered == |n'.c.vouchers| == j - 1
    ensures n.c.received <= n.t.wire ==> n'.c.received <= n'.t.wire
    decreases j - i
  {
    n' := ContinuesNext(n0, p, n, i);
    if i + 1 < j {
      n' := ContinuesTo(n0, p, n', i + 1, j);
    }
  }

  lemma SameThreshold(p: Params, i: nat, j: nat)
    requires Metered(p) && i >= 1 && j >= 1 && T(p, i) == T(p, j)
    ensures i == j
  {
    if i < j {
      TStrict(p, i, j);
    } else if j < i {
      TStrict(p, j, i);
    }
  }

  /** Both sides at threshold `j`, with everything before it sent, recorded and delivered. */
  predicate BothAt(p: Params, n: Net, j: nat) {
    && j >= 1
    && n.c.ds.currentInterval == T(p, j) && n.c.ds.fundsSpent == Due(p, j - 1) && Pending(n.c) == 0
    && n.t.deal.currentInterval == T(p, j) && n.t.deal.fundsReceived == Due(p, j - 1)
    && n.delivered == |n.c.vouchers| == j - 1
  }

  /** From every reachable state of a deal with funds in which both sides serve and nothing that ends
      the deal is under way, some continuation brings both sides to every later threshold.  It ends in
      a state of the same kind, and every byte the client receives on the way was sent. */
  lemma ThresholdsWithinReach(p: Params, funds: nat, ns: seq<Net>, steps: seq<Step>, k: nat, i: nat, j: nat)
    requires Run(p, funds, ns, steps) && k < |ns| && funds > 0
    requires Going(ns[k]) && !Doomed(ns[k].c) && 1 <= i < j && ns[k].c.ds.currentInterval == T(p, i)
    ensures exists n ::
              && Continues(ns[k], n) && BothAt(p, n, j) && Going(n) && !Doomed(n.c)
              && (ns[k].c.received <= ns[k].t.wire ==> n.c.received <= n.t.wire)
  {
    RunKeeps(p, funds, ns, steps, k);
    var i': nat :| JoinedAt(p, ns[k], i');
    SameThreshold(p, i, i');
    FundedHasChannel(p, funds, ns, steps, k);
    FundedIsSafe(p, funds, ns, steps, k);
    ContinuesHere(ns[k]);
    var n := ContinuesTo(ns[k], p, ns[k], i, j);
    assert BothAt(p, n, j);
  }

  lemma FundedIsSafe(p: Params, funds: nat, ns: seq<Net>, steps: seq<Step>, k: nat)
    requires Run(p, funds, ns, steps) && k < |ns| && funds > 0
    ensures ns[k].c.activity != C.Crashed
  {
    var ms, cs := ClientPart(p, funds, ns, steps, k);
    C.HandlersSafe(p, funds, ms, cs, |ms| - 1);
  }
}
