/** Runs of an honest client and an honest provider that make progress.

`BothReach` shows for every metered deal with funds and every threshold a run without outside errors
that brings both sides there, with every byte received really sent; `ProviderAhead` shows the one way in which the
provider is ahead of the client; `SendsVoucherIff` is the exact condition for a client to pay
before its last block.
 */
module LockstepRuns {
  import opened Arithmetic
  import opened Deal
  import opened Intervals
  import opened Lockstep
  import C = Client
  import P = Provider

  /** Some run without error, refusal or cancellation from outside leads to `n`. */
  ghost predicate Reaches(p: Params, funds: nat, n: Net) {
    exists ns, steps :: UntroubledRun(p, funds, ns, steps) && ns[|ns| - 1] == n
  }

  lemma ReachesBegin(p: Params, funds: nat)
    requires Metered(p)
    ensures Reaches(p, funds, Net(C.Begin(p, funds), P.Begin(0, p, 0), 0))
  {
    var ns := [Net(C.Begin(p, funds), P.Begin(0, p, 0), 0)];
    assert ns[0].t == P.Begin(0, p, 0);
    assert UntroubledRun(p, funds, ns, []) && ns[|ns| - 1] == ns[0];
  }

  lemma ReachesStep(p: Params, funds: nat, n: Net, s: Step)
    requires Reaches(p, funds, n) && Legal(n, s) && Untroubled(s)
    ensures n.c.ds.params == p && n.t.deal.params == p && p.Advances() && Reaches(p, funds, Take(n, s))
  {
    var ns, steps :| UntroubledRun(p, funds, ns, steps) && ns[|ns| - 1] == n;
    RunKeeps(p, funds, ns, steps, |ns| - 1);
    var ns', steps' := ns + [Take(n, s)], steps + [s];
    assert Follows(n, s, Take(n, s));
    forall i | 0 <= i < |steps'| ensures Follows(ns'[i], steps'[i], ns'[i + 1]) {
      if i < |steps| {
        assert Follows(ns[i], steps[i], ns[i + 1]);
      }
    }
    assert UntroubledRun(p, funds, ns', steps') && ns'[|ns'| - 1] == Take(n, s);
  }

  // ---------- Handling one event ----------

  /** What the surroundings of an honest client answer. */
  function Honest(c: C.Machine): C.Env {
    C.Env(true, C.ChannelFunded(0), Some(0), Some(0),
          if C.CalcAmountToSend(c.ds) > Top(c.vouchers) then C.Created else C.VoucherFailed, true, None, true)
  }

  /** An idle client that has one event to handle. */
  predicate Facing(p: Params, n: Net, e: C.Event) {
    && n.c.activity == C.Idle && n.c.queue == [e] && n.c.ds.params == p && p.Advances()
    && (e.EventLaneAllocated? ==> n.c.ds.paymentInfo.Some?)
  }

  function WithClient(n: Net, ds: C.ClientState, queue: seq<C.Event>): Net {
    n.(c := n.c.(ds := ds, queue := queue))
  }

  lemma Arrives(p: Params, funds: nat, n: Net, e: C.Event)
    requires Reaches(p, funds, n) && n.c.activity == C.Idle && n.c.queue == []
    requires Expected(e) && (e.EventBlocksReceived? ==> e.total >= n.c.received)
    ensures Reaches(p, funds, n.(c := n.c.(queue := [e],
                                           received := if e.EventBlocksReceived? then e.total else n.c.received)))
  {
    ReachesStep(p, funds, n, ClientStep(C.Arrive(e)));
    assert [] + [e] == [e];
  }

  /** The event runs no handler. */
  lemma Rests(p: Params, funds: nat, n: Net, e: C.Event, ds: C.ClientState)
    requires Reaches(p, funds, n) && Facing(p, n, e) && C.Applied(n.c.ds, e) == (ds, false)
    ensures Reaches(p, funds, WithClient(n, ds, []))
  {
    ReachesStep(p, funds, n, ClientStep(C.Process));
    assert n.c.queue[1..] == [];
  }

  /** The event runs a handler that does nothing. */
  lemma Quiets(p: Params, funds: nat, n: Net, e: C.Event, ds: C.ClientState)
    requires Reaches(p, funds, n) && Facing(p, n, e) && C.Applied(n.c.ds, e) == (ds, true)
    requires C.Handle(ds, Honest(n.c.(ds := ds))) == C.Quiet
    ensures Reaches(p, funds, WithClient(n, ds, []))
  {
    ReachesStep(p, funds, n, ClientStep(C.Process));
    assert n.c.queue[1..] == [];
    var n1 := n.(c := n.c.(ds := ds, queue := [], activity := C.Running));
    assert Take(n, ClientStep(C.Process)) == n1;
    ReachesStep(p, funds, n1, ClientStep(C.Act(Honest(n1.c))));
  }

  /** The event runs a handler that triggers another event. */
  lemma Triggers(p: Params, funds: nat, n: Net, e: C.Event, ds: C.ClientState, e': C.Event)
    requires Reaches(p, funds, n) && Facing(p, n, e) && C.Applied(n.c.ds, e) == (ds, true)
    requires C.Handle(ds, Honest(n.c.(ds := ds))) == C.Trigger(e')
    ensures Reaches(p, funds, WithClient(n, ds, [e']))
  {
    ReachesStep(p, funds, n, ClientStep(C.Process));
    assert n.c.queue[1..] == [];
    var n1 := n.(c := n.c.(ds := ds, queue := [], activity := C.Running));
    assert Take(n, ClientStep(C.Process)) == n1;
    ReachesStep(p, funds, n1, ClientStep(C.Act(Honest(n1.c))));
    var n2 := n1.(c := n1.c.(activity := C.Triggering(e')));
    assert Take(n1, ClientStep(C.Act(Honest(n1.c)))) == n2;
    ReachesStep(p, funds, n2, ClientStep(C.Report));
    assert [] + [e'] == [e'];
  }

  // ---------- Opening the deal ----------

  /** Both sides stand at threshold `i` with everything up to the one before paid for. */
  predicate Stage(p: Params, n: Net, i: nat) {
    var ds, d, x := n.c.ds, n.t.deal, n.t.data;
    && i >= 1 && n.c.activity == C.Idle && n.c.queue == []
    && ds.params == p && ds.status == Ongoing && ds.paymentInfo.Some?
    && !ds.allBlocksReceived && !ds.lastPaymentRequested
    && ds.currentInterval == T(p, i) && ds.fundsSpent == Due(p, i - 1) && ds.bytesPaidFor == T(p, i - 1)
    && ds.unsealFundsPaid == 0 && ds.paymentRequested == 0
    && |n.c.vouchers| == i - 1 && Top(n.c.vouchers) == Due(p, i - 1)
    && n.delivered == i - 1
    && d.params == p && d.status == Ongoing && d.currentInterval == T(p, i) && d.fundsReceived == Due(p, i - 1)
    && n.c.received == ds.totalReceived == n.t.wire == d.totalSent == T(p, i - 1)
    && x.pricePerByte == p.pricePerByte
    && (!x.reload ==> x.totalSent == T(p, i - 1) && x.interval == T(p, i))
  }

  function Opened(p: Params, funds: nat): C.ClientState {
    C.Begin(p, funds).ds
  }

  lemma ReachesAccepted(p: Params, funds: nat)
    requires Metered(p)
    ensures Reaches(p, funds, Net(C.Begin(p, funds).(ds := Opened(p, funds).(status := WaitForAcceptance),
                                                     queue := [C.EventDealAccepted]), P.Begin(0, p, 0), 0))
  {
    ReachesBegin(p, funds);
    var n0 := Net(C.Begin(p, funds), P.Begin(0, p, 0), 0);
    var ds := Opened(p, funds);
    Triggers(p, funds, n0, C.EventOpen, ds, C.EventDealProposed);
    var n1 := WithClient(n0, ds, [C.EventDealProposed]);
    var waiting := ds.(status := WaitForAcceptance);
    Rests(p, funds, n1, C.EventDealProposed, waiting);
    var n2 := WithClient(n1, waiting, []);
    Arrives(p, funds, n2, C.EventDealAccepted);
    assert n2.(c := n2.c.(queue := [C.EventDealAccepted]))
        == Net(C.Begin(p, funds).(ds := waiting, queue := [C.EventDealAccepted]), P.Begin(0, p, 0), 0);
  }

  lemma ReachesLane(p: Params, funds: nat, n3: Net)
    requires Metered(p) && funds > 0 && Reaches(p, funds, n3)
    requires n3.c.activity == C.Idle && n3.c.queue == [C.EventDealAccepted]
    requires n3.c.ds == Opened(p, funds).(status := WaitForAcceptance)
    ensures Reaches(p, funds, WithClient(n3, Opened(p, funds).(status := Ongoing,
                                                               paymentInfo := Some(C.PaymentInfo(0, 0))), []))
  {
    var ds := Opened(p, funds);
    var accepted := ds.(status := Accepted);
    Triggers(p, funds, n3, C.EventDealAccepted, accepted, C.EventPaymentChannelReady(0));
    var n4 := WithClient(n3, accepted, [C.EventPaymentChannelReady(0)]);
    var ready := ds.(status := PaymentChannelAllocatingLane, paymentInfo := Some(C.PaymentInfo(0, 0)));
    Triggers(p, funds, n4, C.EventPaymentChannelReady(0), ready, C.EventLaneAllocated(0));
    var n5 := WithClient(n4, ready, [C.EventLaneAllocated(0)]);
    var ongoing := ds.(status := Ongoing, paymentInfo := Some(C.PaymentInfo(0, 0)));
    Quiets(p, funds, n5, C.EventLaneAllocated(0), ongoing);
    assert WithClient(n5, ongoing, []) == WithClient(n3, ongoing, []);
  }

  lemma ReachesFirst(p: Params, funds: nat) returns (n: Net)
    requires Metered(p) && funds > 0
    ensures Reaches(p, funds, n) && Stage(p, n, 1)
  {
    ReachesAccepted(p, funds);
    var n3 := Net(C.Begin(p, funds).(ds := Opened(p, funds).(status := WaitForAcceptance),
                                     queue := [C.EventDealAccepted]), P.Begin(0, p, 0), 0);
    ReachesLane(p, funds, n3);
    var n6 := WithClient(n3, Opened(p, funds).(status := Ongoing, paymentInfo := Some(C.PaymentInfo(0, 0))), []);
    ReachesStep(p, funds, n6, ProviderStep(P.Machine(P.DealAccepted)));
    n := Take(n6, ProviderStep(P.Machine(P.DealAccepted)));
    assert T(p, 0) == 0 && T(p, 1) == p.paymentInterval;
  }

  // ---------- From one threshold to the next ----------

  lemma ThresholdsRise(p: Params, i: nat)
    requires Metered(p) && i >= 1
    ensures T(p, i - 1) < T(p, i) && Due(p, i - 1) < Due(p, i)
    ensures Due(p, i) - Due(p, i - 1) == (T(p, i) - T(p, i - 1)) * p.pricePerByte
  {
    if i == 1 {
      assert T(p, 1) == T(p, 0) + p.paymentInterval;
    } else {
      TStrict(p, i - 1, i);
    }
    DueStrict(p, i - 1, i);
  }

  /** The provider has sent the bytes of its interval and waits for a payment. */
  predicate Paused(p: Params, n: Net, i: nat) {
    var d := n.t.deal;
    && i >= 1 && d.params == p && d.status == FundsNeeded && n.delivered == i - 1
    && d.currentInterval == T(p, i) && d.fundsReceived == Due(p, i - 1)
    && n.t.wire == d.totalSent == T(p, i) && n.t.data.pricePerByte == p.pricePerByte
  }

  lemma ReachesPause(p: Params, funds: nat, n: Net, i: nat) returns (n': Net)
    requires Metered(p) && Reaches(p, funds, n) && Stage(p, n, i)
    ensures Reaches(p, funds, n') && n'.c == n.c && Paused(p, n', i)
  {
    ThresholdsRise(p, i);
    var s := ProviderStep(P.Bytes(T(p, i) - T(p, i - 1)));
    ReachesStep(p, funds, n, s);
    n' := Take(n, s);
  }

  /** The client's record at threshold `i`, with the bytes `received` and the amount `asked` for. */
  predicate At(p: Params, c: C.Machine, i: nat, received: nat, asked: int) {
    var ds := c.ds;
    && i >= 1 && ds.params == p && ds.paymentInfo.Some?
    && !ds.allBlocksReceived && !ds.lastPaymentRequested
    && ds.currentInterval == T(p, i) && ds.fundsSpent == Due(p, i - 1) && ds.bytesPaidFor == T(p, i - 1)
    && ds.unsealFundsPaid == 0 && ds.paymentRequested == asked
    && |c.vouchers| == i - 1 && Top(c.vouchers) == Due(p, i - 1)
    && c.received == ds.totalReceived == received
  }

  lemma ReachesBlocks(p: Params, funds: nat, n: Net, i: nat) returns (n': Net)
    requires Metered(p) && i >= 1 && Reaches(p, funds, n) && At(p, n.c, i, T(p, i - 1), 0)
    requires n.c.activity == C.Idle && n.c.queue == [] && n.c.ds.status == Ongoing
    ensures Reaches(p, funds, n') && n'.t == n.t && n'.delivered == n.delivered
    ensures At(p, n'.c, i, T(p, i), 0)
    ensures n'.c.activity == C.Idle && n'.c.queue == [] && n'.c.ds.status == Ongoing
  {
    ThresholdsRise(p, i);
    var e := C.EventBlocksReceived(T(p, i));
    Arrives(p, funds, n, e);
    var n1 := n.(c := n.c.(queue := [e], received := T(p, i)));
    var ds := n1.c.ds.(totalReceived := T(p, i));
    Quiets(p, funds, n1, e, ds);
    n' := WithClient(n1, ds, []);
  }

  lemma ReachesRequest(p: Params, funds: nat, n: Net, i: nat) returns (n': Net)
    requires Metered(p) && Reaches(p, funds, n) && At(p, n.c, i, T(p, i), 0)
    requires n.c.activity == C.Idle && n.c.queue == [] && n.c.ds.status == Ongoing
    ensures Reaches(p, funds, n') && n'.t == n.t && n'.delivered == n.delivered
    ensures At(p, n'.c, i, T(p, i), Due(p, i) - Due(p, i - 1))
    ensures n'.c.activity == C.Idle && n'.c.queue == [C.EventSendFunds] && n'.c.ds.status == FundsNeeded
  {
    ThresholdsRise(p, i);
    var owed := Due(p, i) - Due(p, i - 1);
    var e := C.EventPaymentRequested(owed);
    Arrives(p, funds, n, e);
    var n1 := n.(c := n.c.(queue := [e]));
    var ds := n1.c.ds.(status := FundsNeeded, paymentRequested := owed);
    Triggers(p, funds, n1, e, ds, C.EventSendFunds);
    n' := WithClient(n1, ds, [C.EventSendFunds]);
  }

  /** The client has put the voucher for its threshold on the wire and not recorded it. */
  predicate Sent(p: Params, c: C.Machine, i: nat) {
    var ds := c.ds;
    && i >= 1 && ds.params == p && ds.paymentInfo.Some? && ds.status == SendFunds
    && !ds.allBlocksReceived && !ds.lastPaymentRequested
    && ds.currentInterval == T(p, i) && ds.fundsSpent == Due(p, i - 1)
    && ds.unsealFundsPaid == 0 && ds.paymentRequested == Due(p, i) - Due(p, i - 1)
    && |c.vouchers| == i && Top(c.vouchers) == Due(p, i)
    && c.received == ds.totalReceived == T(p, i)
    && c.activity == C.Triggering(C.EventPaymentSent(Due(p, i))) && c.queue == []
  }

  /** The client's handler is about to send. */
  lemma ReachesSending(p: Params, funds: nat, n: Net) returns (n': Net)
    requires Metered(p) && Reaches(p, funds, n) && n.c.ds.params == p
    requires n.c.activity == C.Idle && n.c.queue == [C.EventSendFunds] && n.c.ds.status == FundsNeeded
    ensures Reaches(p, funds, n')
    ensures n' == n.(c := n.c.(ds := n.c.ds.(status := SendFunds), queue := [], activity := C.Running))
  {
    ReachesStep(p, funds, n, ClientStep(C.Process));
    assert n.c.queue[1..] == [];
    n' := Take(n, ClientStep(C.Process));
  }

  lemma ReachesSent(p: Params, funds: nat, n: Net, i: nat) returns (n': Net)
    requires Metered(p) && i >= 1 && Reaches(p, funds, n) && At(p, n.c, i, T(p, i), Due(p, i) - Due(p, i - 1))
    requires n.c.activity == C.Idle && n.c.queue == [C.EventSendFunds] && n.c.ds.status == FundsNeeded
    ensures Reaches(p, funds, n') && n'.t == n.t && n'.delivered == n.delivered && Sent(p, n'.c, i)
  {
    var n1 := ReachesSending(p, funds, n);
    ThresholdsRise(p, i);
    assert C.CalcAmountToSend(n1.c.ds) == Due(p, i);
    ReachesStep(p, funds, n1, ClientStep(C.Act(Honest(n1.c))));
    n' := n1.(c := n1.c.(activity := C.Triggering(C.EventPaymentSent(Due(p, i))), vouchers := n1.c.vouchers + [Due(p, i)]));
    assert Take(n1, ClientStep(C.Act(Honest(n1.c)))) == n';
  }

  /** The provider's transfer once the payment for threshold `i` was delivered. */
  function Resumed(p: Params, t: P.Transfer, i: nat): P.Transfer {
    t.(deal := t.deal.(status := Ongoing, fundsReceived := Due(p, i), currentInterval := T(p, i + 1), payCh := Some(0)),
       data := t.data.(reload := true))
  }

  lemma PaymentLifts(p: Params, t: P.Transfer, i: nat)
    requires Metered(p) && i >= 1 && t.deal.params == p && t.deal.status == FundsNeeded
    requires t.deal.currentInterval == T(p, i) && t.deal.fundsReceived == Due(p, i - 1)
    ensures Due(p, i - 1) < Due(p, i)
    ensures P.Take(t, P.Pay(0, Some(Due(p, i) - Due(p, i - 1)))).0 == Resumed(p, t, i)
  {
    ThresholdsRise(p, i);
    P.OwedNothing(t.deal, i, i);
    P.PaymentResumes(t, 0, Due(p, i) - Due(p, i - 1));
  }

  /** The voucher is delivered: the provider is one threshold ahead. */
  lemma ReachesAhead(p: Params, funds: nat, n: Net, i: nat) returns (n': Net)
    requires Metered(p) && Reaches(p, funds, n) && Sent(p, n.c, i) && Paused(p, n, i)
    ensures Reaches(p, funds, n') && n' == n.(t := Resumed(p, n.t, i), delivered := i)
  {
    NextCredit(p, funds, n, i);
    PaymentLifts(p, n.t, i);
    ReachesStep(p, funds, n, Deliver);
    n' := Take(n, Deliver);
  }

  lemma NextCredit(p: Params, funds: nat, n: Net, i: nat)
    requires Metered(p) && Reaches(p, funds, n) && Sent(p, n.c, i) && Paused(p, n, i)
    ensures Credit(n) == Some(Due(p, i) - Due(p, i - 1))
  {
    var ns, steps :| UntroubledRun(p, funds, ns, steps) && ns[|ns| - 1] == n;
    RunKeeps(p, funds, ns, steps, |ns| - 1);
    var k: nat :| JoinedAt(p, n, k);
    CreditIsInterval(p, n, k);
  }

  lemma PaymentRecorded(p: Params, ds: C.ClientState, i: nat)
    requires Metered(p) && i >= 1 && ds.params == p && ds.currentInterval == T(p, i)
    requires ds.fundsSpent == Due(p, i - 1) && ds.paymentRequested == Due(p, i) - Due(p, i - 1)
    ensures C.AfterPayment(ds, Due(p, i))
         == ds.(paymentRequested := 0, fundsSpent := Due(p, i), unsealFundsPaid := 0,
                bytesPaidFor := T(p, i), currentInterval := T(p, i + 1))
  {
    RecordAdvances(p, ds, i);
    ExactDivision(T(p, i), p.pricePerByte);
    ThresholdsRise(p, i);
  }

  /** The client reports the payment it has sent. */
  lemma ReachesReported(p: Params, funds: nat, n: Net, e: C.Event) returns (n': Net)
    requires Reaches(p, funds, n) && n.c.activity == C.Triggering(e) && n.c.queue == []
    ensures Reaches(p, funds, n') && n' == n.(c := n.c.(queue := [e], activity := C.Idle))
  {
    ReachesStep(p, funds, n, ClientStep(C.Report));
    assert [] + [e] == [e];
    n' := Take(n, ClientStep(C.Report));
  }

  lemma ReachesNext(p: Params, funds: nat, n: Net, i: nat) returns (n': Net)
    requires Metered(p) && Reaches(p, funds, n) && Sent(p, n.c, i)
    ensures Reaches(p, funds, n') && n'.t == n.t && n'.delivered == n.delivered
    ensures At(p, n'.c, i + 1, T(p, i), 0)
    ensures n'.c.activity == C.Idle && n'.c.queue == [] && n'.c.ds.status == Ongoing
  {
    var e := C.EventPaymentSent(Due(p, i));
    var n1 := ReachesReported(p, funds, n, e);
    PaymentRecorded(p, n1.c.ds, i);
    var ds := C.AfterPayment(n1.c.ds, Due(p, i)).(status := Ongoing);
    Quiets(p, funds, n1, e, ds);
    n' := WithClient(n1, ds, []);
  }

  /** One round: from threshold `i` to the next, by way of a state in which the provider is ahead. */
  lemma ReachesRound(p: Params, funds: nat, n: Net, i: nat) returns (ahead: Net, n': Net)
    requires Metered(p) && Reaches(p, funds, n) && Stage(p, n, i)
    ensures Reaches(p, funds, ahead) && Sent(p, ahead.c, i) && ahead.delivered == i
    ensures ahead.t.deal.status == Ongoing && ahead.t.deal.currentInterval == T(p, i + 1)
    ensures Reaches(p, funds, n') && Stage(p, n', i + 1)
  {
    var n1 := ReachesPause(p, funds, n, i);
    var n2 := ReachesBlocks(p, funds, n1, i);
    var n3 := ReachesRequest(p, funds, n2, i);
    var n4 := ReachesSent(p, funds, n3, i);
    ahead := ReachesAhead(p, funds, n4, i);
    n' := ReachesNext(p, funds, ahead, i);
  }

  lemma {:induction false} ReachesStage(p: Params, funds: nat, i: nat) returns (n: Net)
    requires Metered(p) && funds > 0 && i >= 1
    ensures Reaches(p, funds, n) && Stage(p, n, i)
  {
    if i == 1 {
      n := ReachesFirst(p, funds);
    } else {
      var before := ReachesStage(p, funds, i - 1);
      var ahead;
      ahead, n := ReachesRound(p, funds, before, i - 1);
    }
  }

  /** For every deal with a price per byte, no unseal price, a first interval and funds, and for every
      threshold, some run brings both sides there, with everything before it paid for and every
      byte received really sent. */
  lemma BothReach(p: Params, funds: nat, i: nat)
    requires Metered(p) && funds > 0 && i >= 1
    ensures exists n ::
              && Reaches(p, funds, n)
              && n.c.ds.status == Ongoing && n.c.ds.currentInterval == T(p, i) && n.c.ds.fundsSpent == Due(p, i - 1)
              && n.t.deal.status == Ongoing && n.t.deal.currentInterval == T(p, i) && n.t.deal.fundsReceived == Due(p, i - 1)
              && n.c.ds.totalReceived == n.t.wire == T(p, i - 1)
  {
    var n := ReachesStage(p, funds, i);
  }

  /** The provider can be ahead of the client: when a voucher was delivered before the client has
      recorded it. */
  lemma ProviderAhead(p: Params, funds: nat, i: nat)
    requires Metered(p) && funds > 0 && i >= 1
    ensures exists n ::
              && Reaches(p, funds, n)
              && n.c.ds.currentInterval == T(p, i) && n.t.deal.currentInterval == T(p, i + 1)
              && n.delivered == |n.c.vouchers| && Pending(n.c) == 1
  {
    var before := ReachesStage(p, funds, i);
    var ahead, n := ReachesRound(p, funds, before, i);
    assert Pending(ahead.c) == 1;
  }

  // ---------- When a client pays ----------

  /** A priced deal with funds and no unseal price: before the last block arrives, its client can send
      a voucher if and only if the first interval is not empty. */
  lemma SendsVoucherIff(p: Params, funds: nat)
    requires p.Advances() && p.pricePerByte > 0 && p.unsealPrice == 0 && funds > 0
    ensures p.paymentInterval > 0 <==>
              exists ms: seq<C.Machine>, cs :: Unfinished(p, funds, ms, cs) && ms[|ms| - 1].vouchers != []
  {
    if p.paymentInterval > 0 {
      var n := ReachesStage(p, funds, 2);
      var ns, steps :| UntroubledRun(p, funds, ns, steps) && ns[|ns| - 1] == n;
      var ms, cs := ClientPart(p, funds, ns, steps, |ns| - 1);
      assert ms[|ms| - 1].vouchers != [];
    } else {
      forall ms: seq<C.Machine>, cs | Unfinished(p, funds, ms, cs) ensures ms[|ms| - 1].vouchers == [] {
        EmptyIntervalNeverPays(p, funds, ms, cs, |ms| - 1);
      }
    }
  }
}
