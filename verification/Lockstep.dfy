/** An honest client and an honest provider joined by a network that delivers vouchers in order.

The client is the queueing machine of `Client`, with every interleaving of arriving events,
handler runs and late `EventPaymentSent` records; the provider is the deal of `Provider`.  The
deal has a price per byte and no unseal price, its lane is fresh, the channel holds enough funds
and the client has not yet been told that all blocks arrived.  `InLockstep` holds in every
reachable state: the two sides walk the same thresholds without ever exchanging them.  Runs that
make progress are in `LockstepRuns`, the states from which a deal goes on in `LockstepProgress`, and
the deals that fail of themselves in `LockstepFailure`.
 */
module Lockstep {
  import opened Arithmetic
  import opened Deal
  import opened Intervals
  import C = Client
  import P = Provider
  import L = Lanes

  /** `delivered` counts the vouchers of `c.vouchers` that reached the provider. */
  datatype Net = Net(c: C.Machine, t: P.Transfer, delivered: nat)

  datatype Step =
    | ClientStep(cs: C.Step)
    | ProviderStep(ps: P.Step)
    | Deliver

  /** The highest voucher amount of a fresh lane. */
  function Top(vouchers: seq<int>): int {
    if vouchers == [] then 0 else vouchers[|vouchers| - 1]
  }

  /** With enough funds, a voucher is refused exactly when it does not raise the lane's amount. */
  predicate HonestEnv(c: C.Machine, env: C.Env) {
    && env.written
    && env.voucher == (if C.CalcAmountToSend(c.ds) > Top(c.vouchers) then C.Created else C.VoucherFailed)
  }

  predicate Legal(n: Net, s: Step) {
    match s
    case ClientStep(cs) =>
      && C.Legal(n.c, cs)
      && (cs.Arrive? ==> cs.e != C.EventAllBlocksReceived)
      && (cs.Act? ==> HonestEnv(n.c, cs.env))
    case ProviderStep(ps) => P.Legal(n.t, ps) && !ps.Pay?
    case Deliver => n.delivered < |n.c.vouchers| && n.t.deal.status != New
  }

  /** The payment manager credits what a voucher adds to the lane. */
  function Credit(n: Net): Option<nat>
    requires n.delivered < |n.c.vouchers|
  {
    var gain := n.c.vouchers[n.delivered] - Top(n.c.vouchers[..n.delivered]);
    if gain < 0 then None else Some(gain)
  }

  function Take(n: Net, s: Step): Net
    requires Legal(n, s) && n.c.ds.params.Advances() && n.t.deal.params.Advances()
  {
    match s
    case ClientStep(cs) => n.(c := C.Take(n.c, cs))
    case ProviderStep(ps) => n.(t := P.Take(n.t, ps).0)
    case Deliver => n.(t := P.Take(n.t, P.Pay(0, Credit(n))).0, delivered := n.delivered + 1)
  }

  predicate Metered(p: Params) {
    p.paymentInterval > 0 && p.pricePerByte > 0 && p.unsealPrice == 0
  }

  predicate Follows(n: Net, s: Step, n': Net) {
    n.c.ds.params.Advances() && n.t.deal.params.Advances() && Legal(n, s) && n' == Take(n, s)
  }

  ghost predicate Run(p: Params, totalFunds: nat, ns: seq<Net>, steps: seq<Step>) {
    && Metered(p)
    && |ns| == |steps| + 1
    && ns[0].c == C.Begin(p, totalFunds) && ns[0].delivered == 0
    && (exists id, ch :: ns[0].t == P.Begin(id, p, ch))
    && forall i | 0 <= i < |steps| :: Follows(ns[i], steps[i], ns[i + 1])
  }

  /** Events that reach a client whose deal meets no error, refusal or cancellation and is not over. */
  predicate Expected(e: C.Event) {
    || e in {C.EventOpen, C.EventDealAccepted}
    || e.EventLastPaymentRequested? || e.EventPaymentRequested? || e.EventUnsealPaymentRequested?
    || e.EventBlocksReceived?
  }

  /** A step without error, refusal or cancellation from outside. */
  predicate Untroubled(s: Step) {
    match s
    case ClientStep(Arrive(e)) => Expected(e)
    case ClientStep(Act(env)) => env.proposed && !env.channel.ChannelError? && env.ready.Some? && env.lane.Some?
    case ProviderStep(Machine(e)) => e.Open? || e.DealAccepted?
    case _ => true
  }

  ghost predicate UntroubledRun(p: Params, totalFunds: nat, ns: seq<Net>, steps: seq<Step>) {
    Run(p, totalFunds, ns, steps) && forall s <- steps :: Untroubled(s)
  }

  /** The amount due at threshold `k`. */
  function Due(p: Params, k: nat): nat {
    T(p, k) * p.pricePerByte
  }

  lemma DueStrict(p: Params, j: nat, k: nat)
    requires Metered(p) && j < k
    ensures Due(p, j) < Due(p, k)
  {
    if j == 0 {
      TMonotone(p, 1, k);
      assert T(p, 1) == T(p, 0) + p.paymentInterval;
    } else {
      TStrict(p, j, k);
    }
    MulStrict(T(p, j), T(p, k), p.pricePerByte);
  }

  // ---------- The client's half ----------

  /** Statuses in which the deal no longer pays, and which it never leaves for a paying one. */
  predicate Retired(s: Status) {
    C.Final(s) || s in {Finalizing, Failing, Cancelling, ClientWaitingForLastBlocks}
  }

  /** Statuses in which a sent payment is recorded. */
  predicate Recording(s: Status) {
    s in {Ongoing, BlocksComplete, CheckComplete, FundsNeeded, FundsNeededLastPayment, SendFunds, SendFundsLastPayment}
  }

  function Payments(queue: seq<C.Event>): nat {
    if queue == [] then 0
    else (if queue[0].EventPaymentSent? then 1 else 0) + Payments(queue[1..])
  }

  /** Payments sent and not yet recorded. */
  function Pending(c: C.Machine): nat {
    Payments(c.queue) + if c.activity.Triggering? && c.activity.e.EventPaymentSent? then 1 else 0
  }

  predicate EventOk(p: Params, i: nat, e: C.Event) {
    && (e.EventPaymentSent? ==> e.amt == Due(p, i))
    && !e.EventVoucherShortfall?
    && !e.EventAllBlocksReceived?
  }

  /** The client stands at threshold `i`. */
  ghost predicate ClientAt(p: Params, c: C.Machine, i: nat) {
    var ds := c.ds;
    && Metered(p) && ds.params == p && i >= 1
    && ds.currentInterval == T(p, i)
    && ds.fundsSpent == Due(p, i - 1)
    && ds.bytesPaidFor == T(p, i - 1)
    && ds.unsealFundsPaid == 0
    && !ds.allBlocksReceived
    && i - 1 <= |c.vouchers| <= i
    && (forall k | 0 <= k < |c.vouchers| :: c.vouchers[k] == Due(p, k + 1))
    && Pending(c) <= |c.vouchers| - (i - 1)
    && (forall e <- c.queue :: EventOk(p, i, e))
    && (c.activity.Triggering? ==> EventOk(p, i, c.activity.e))
    && (c.vouchers != [] ==> Recording(ds.status) || Retired(ds.status))
    && (!Retired(ds.status) ==> Pending(c) == |c.vouchers| - (i - 1))
  }

  lemma {:induction false} PaymentsAppend(queue: seq<C.Event>, e: C.Event)
    ensures Payments(queue + [e]) == Payments(queue) + if e.EventPaymentSent? then 1 else 0
  {
    if queue == [] {
      assert [] + [e] == [e];
      assert [e][1..] == [];
    } else {
      assert (queue + [e])[1..] == queue[1..] + [e];
      PaymentsAppend(queue[1..], e);
    }
  }

  lemma {:induction false} NoPayments(queue: seq<C.Event>, e: C.Event)
    requires Payments(queue) == 0 && e in queue
    ensures !e.EventPaymentSent?
  {
    if queue[0] != e {
      NoPayments(queue[1..], e);
    }
  }

  /** Recording the payment for threshold `i` moves the client to threshold `i + 1`. */
  lemma RecordAdvances(p: Params, ds: C.ClientState, i: nat)
    requires Metered(p) && ds.params == p && i >= 1 && ds.currentInterval == T(p, i)
    ensures var ds' := C.AfterPayment(ds, Due(p, i));
            && ds'.currentInterval == T(p, i + 1)
            && ds'.fundsSpent == Due(p, i) && ds'.bytesPaidFor == T(p, i) && ds'.unsealFundsPaid == 0
            && ds'.params == p && ds'.allBlocksReceived == ds.allBlocksReceived && ds'.status == ds.status
  {
    DueStrict(p, 0, i);
    assert T(p, 0) == 0;
    ExactDivision(T(p, i), p.pricePerByte);
    StepsOnThresholds(p, i);
  }

  /** Events other than a sent payment leave the accounting alone. */
  lemma AccountingStays(ds: C.ClientState, e: C.Event)
    requires ds.params.Advances() && !e.EventPaymentSent? && !e.EventAllBlocksReceived?
    requires C.Lookup(ds.status, e) != C.NoRow && e.EventLaneAllocated? ==> ds.paymentInfo.Some?
    ensures var ds' := C.Applied(ds, e).0;
            && ds'.currentInterval == ds.currentInterval && ds'.fundsSpent == ds.fundsSpent
            && ds'.unsealFundsPaid == ds.unsealFundsPaid && ds'.bytesPaidFor == ds.bytesPaidFor && ds'.params == ds.params
            && ds'.allBlocksReceived == ds.allBlocksReceived
  {
  }

  /** Where the table leads from retired and recording statuses. */
  lemma TableRetires(s: Status, e: C.Event)
    requires C.Lookup(s, e).To? && !C.Final(s)
    ensures Retired(s) ==> Retired(C.Lookup(s, e).s)
    ensures Recording(s) && !e.EventVoucherShortfall? ==> Recording(C.Lookup(s, e).s) || Retired(C.Lookup(s, e).s)
  {
  }

  lemma ActionKeepsStatus(ds: C.ClientState, e: C.Event)
    requires ds.params.Advances() && (e.EventLaneAllocated? ==> ds.paymentInfo.Some?)
    ensures C.Action(ds, e).status == ds.status
  {
  }

  lemma RetiredStays(ds: C.ClientState, e: C.Event)
    requires ds.params.Advances()
    requires C.Lookup(ds.status, e) != C.NoRow && e.EventLaneAllocated? ==> ds.paymentInfo.Some?
    ensures Retired(ds.status) ==> Retired(C.Applied(ds, e).0.status)
    ensures Recording(ds.status) && !e.EventVoucherShortfall? ==>
              Recording(C.Applied(ds, e).0.status) || Retired(C.Applied(ds, e).0.status)
  {
    if !C.Final(ds.status) && C.Lookup(ds.status, e) != C.NoRow {
      if C.Lookup(ds.status, e).To? {
        TableRetires(ds.status, e);
      } else {
        ActionKeepsStatus(ds, e);
      }
    }
  }

  /** A payment that is recorded moves the client on. */
  lemma ClientRecords(p: Params, c: C.Machine, i: nat)
    requires ClientAt(p, c, i) && C.Legal(c, C.Process) && c.queue[0].EventPaymentSent?
    requires !C.Final(c.ds.status) && C.Lookup(c.ds.status, c.queue[0]) != C.NoRow
    ensures ClientAt(p, C.Take(c, C.Process), i + 1)
  {
    var e := c.queue[0];
    var c' := C.Take(c, C.Process);
    assert EventOk(p, i, e);
    RetiredStays(c.ds, e);
    RecordAdvances(p, c.ds, i);
    forall q <- c'.queue ensures EventOk(p, i + 1, q) {
      assert q in c.queue && EventOk(p, i, q);
      NoPayments(c.queue[1..], q);
    }
  }

  /** Any other event leaves it where it stands. */
  lemma ClientStays(p: Params, c: C.Machine, i: nat)
    requires ClientAt(p, c, i) && C.Legal(c, C.Process)
    requires !c.queue[0].EventPaymentSent? || C.Final(c.ds.status) || C.Lookup(c.ds.status, c.queue[0]) == C.NoRow
    ensures ClientAt(p, C.Take(c, C.Process), i)
  {
    var e := c.queue[0];
    var c' := C.Take(c, C.Process);
    assert EventOk(p, i, e);
    if c'.activity != C.Crashed {
      RetiredStays(c.ds, e);
      if !e.EventPaymentSent? {
        AccountingStays(c.ds, e);
      }
      forall q <- c'.queue ensures EventOk(p, i, q) {
        assert q in c.queue;
      }
    }
  }

  lemma ClientProcess(p: Params, c: C.Machine, i: nat)
    requires ClientAt(p, c, i) && C.Legal(c, C.Process)
    ensures ClientAt(p, C.Take(c, C.Process), i) || ClientAt(p, C.Take(c, C.Process), i + 1)
  {
    var e := c.queue[0];
    if e.EventPaymentSent? && !C.Final(c.ds.status) && C.Lookup(c.ds.status, e) != C.NoRow {
      ClientRecords(p, c, i);
    } else {
      ClientStays(p, c, i);
    }
  }

  /** What a handler of an honest client does. */
  lemma HonestReaction(c: C.Machine, env: C.Env)
    requires HonestEnv(c, env)
    ensures match C.Handle(c.ds, env)
            case Trigger(e) => !e.EventPaymentSent? && !e.EventVoucherShortfall? && !e.EventAllBlocksReceived?
            case Pay(amt) =>
              && c.ds.status in {SendFunds, SendFundsLastPayment}
              && amt == C.CalcAmountToSend(c.ds) && amt > c.ds.fundsSpent && amt > Top(c.vouchers)
            case _ => true
  {
  }

  /** A paying handler sends exactly the amount due at the client's threshold. */
  lemma PaysDue(p: Params, c: C.Machine, i: nat)
    requires ClientAt(p, c, i) && C.CalcAmountToSend(c.ds) > Top(c.vouchers)
    ensures C.CalcAmountToSend(c.ds) == Due(p, i) && |c.vouchers| == i - 1
  {
    assert C.CalcAmountToSend(c.ds) == 0 || C.CalcAmountToSend(c.ds) == Due(p, i);
    assert c.vouchers != [] ==> Top(c.vouchers) == Due(p, |c.vouchers|);
  }

  lemma ClientAct(p: Params, c: C.Machine, i: nat, env: C.Env)
    requires ClientAt(p, c, i) && c.activity == C.Running && HonestEnv(c, env)
    ensures ClientAt(p, C.Take(c, C.Act(env)), i)
  {
    HonestReaction(c, env);
    if C.Handle(c.ds, env).Pay? {
      PaysDue(p, c, i);
    }
  }

  lemma ClientStepKeeps(p: Params, n: Net, s: Step, i: nat)
    requires ClientAt(p, n.c, i) && s.ClientStep? && Legal(n, s)
    ensures var c' := C.Take(n.c, s.cs); ClientAt(p, c', i) || ClientAt(p, c', i + 1)
  {
    match s.cs
    case Process => ClientProcess(p, n.c, i);
    case Act(env) => ClientAct(p, n.c, i, env);
    case Arrive(e) => PaymentsAppend(n.c.queue, e);
    case Report => PaymentsAppend(n.c.queue, n.c.activity.e);
  }

  // ---------- The provider's half ----------

  /** Statuses in which the provider takes payments. */
  predicate Serving(s: Status) {
    s in {Ongoing, FundsNeeded, BlocksComplete, FundsNeededLastPayment, Finalizing}
  }

  /** While it serves, the provider stands one threshold past what was delivered. */
  ghost predicate ProviderAt(p: Params, n: Net) {
    && n.t.deal.params == p
    && n.delivered <= |n.c.vouchers|
    && (n.t.deal.status == New ==> n.delivered == 0)
    && (Serving(n.t.deal.status) || n.t.deal.status == New ==>
          && n.t.deal.currentInterval == T(p, n.delivered + 1)
          && n.t.deal.fundsReceived == Due(p, n.delivered))
  }

  ghost predicate JoinedAt(p: Params, n: Net, i: nat) {
    ClientAt(p, n.c, i) && ProviderAt(p, n)
  }

  lemma ProviderStepKeeps(p: Params, n: Net, ps: P.Step)
    requires Metered(p) && n.c.ds.params == p && ProviderAt(p, n) && Legal(n, ProviderStep(ps))
    ensures ProviderAt(p, Take(n, ProviderStep(ps)))
  {
  }

  /** What the next voucher in flight is worth to the provider. */
  lemma CreditIsInterval(p: Params, n: Net, i: nat)
    requires JoinedAt(p, n, i) && n.delivered < |n.c.vouchers|
    ensures n.c.vouchers[n.delivered] == Due(p, n.delivered + 1)
    ensures Credit(n) == Some(Due(p, n.delivered + 1) - Due(p, n.delivered))
  {
    DueStrict(p, n.delivered, n.delivered + 1);
    if n.delivered > 0 {
      assert Top(n.c.vouchers[..n.delivered]) == n.c.vouchers[n.delivered - 1];
    } else {
      assert T(p, 0) == 0;
    }
  }

  /** Every voucher in flight lifts the pause: on delivery nothing is owed, the transfer resumes
      and the provider moves up by exactly one threshold. */
  lemma DeliveryResumes(p: Params, n: Net, i: nat)
    requires JoinedAt(p, n, i) && Legal(n, Deliver) && Serving(n.t.deal.status)
    ensures var j := n.delivered + 1;
            && n.t.deal.currentInterval == T(p, j)
            && P.PaymentOwed(n.t.deal, n.c.vouchers[n.delivered]) <= 0
            && P.Take(n.t, P.Pay(0, Credit(n))).1.Resume?
            && Take(n, Deliver).t.deal.currentInterval == T(p, j + 1)
            && Take(n, Deliver).t.deal.fundsReceived == Due(p, j)
            && (n.t.deal.status == FundsNeeded ==> Take(n, Deliver).t.deal.status == Ongoing)
  {
    var j := n.delivered + 1;
    CreditIsInterval(p, n, i);
    P.OwedNothing(n.t.deal, j, j);
  }

  /** A delivery keeps the deal's parameters, and a provider that does not serve does not start to. */
  lemma DeliveredDeal(p: Params, n: Net)
    requires Metered(p) && n.t.deal.params == p && n.c.ds.params == p && Legal(n, Deliver) && Credit(n).Some?
    ensures var deal := Take(n, Deliver).t.deal;
            deal.params == p && deal.status != New && (!Serving(n.t.deal.status) ==> !Serving(deal.status))
  {
  }

  lemma DeliveryMoves(p: Params, n: Net, i: nat)
    requires JoinedAt(p, n, i) && Legal(n, Deliver) && Serving(n.t.deal.status)
    ensures Credit(n).Some?
    ensures Take(n, Deliver).t.deal.currentInterval == T(p, n.delivered + 2)
    ensures Take(n, Deliver).t.deal.fundsReceived == Due(p, n.delivered + 1)
  {
    CreditIsInterval(p, n, i);
    DeliveryResumes(p, n, i);
  }

  lemma ProviderMoved(p: Params, n: Net, t: P.Transfer)
    requires ProviderAt(p, n) && n.delivered < |n.c.vouchers| && t.deal.params == p && t.deal.status != New
    requires t.deal.currentInterval == T(p, n.delivered + 2) && t.deal.fundsReceived == Due(p, n.delivered + 1)
    ensures ProviderAt(p, n.(t := t, delivered := n.delivered + 1))
  {
  }

  lemma ServingDelivery(p: Params, n: Net, i: nat)
    requires JoinedAt(p, n, i) && Legal(n, Deliver) && Serving(n.t.deal.status)
    ensures ProviderAt(p, Take(n, Deliver))
  {
    DeliveryMoves(p, n, i);
    DeliveredDeal(p, n);
    var t := Take(n, Deliver).t;
    assert Take(n, Deliver) == n.(t := t, delivered := n.delivered + 1);
    ProviderMoved(p, n, t);
  }

  lemma IdleDelivery(p: Params, n: Net, i: nat)
    requires JoinedAt(p, n, i) && Legal(n, Deliver) && !Serving(n.t.deal.status)
    ensures ProviderAt(p, Take(n, Deliver))
  {
    CreditIsInterval(p, n, i);
    DeliveredDeal(p, n);
  }

  lemma DeliverKeeps(p: Params, n: Net, i: nat)
    requires JoinedAt(p, n, i) && Legal(n, Deliver)
    ensures JoinedAt(p, Take(n, Deliver), i)
  {
    if Serving(n.t.deal.status) {
      ServingDelivery(p, n, i);
    } else {
      IdleDelivery(p, n, i);
    }
  }

  ghost predicate Joined(p: Params, n: Net) {
    exists i: nat :: JoinedAt(p, n, i)
  }

  lemma StepKeeps(p: Params, n: Net, s: Step)
    requires Joined(p, n) && Legal(n, s)
    ensures Joined(p, Take(n, s))
  {
    var i: nat :| JoinedAt(p, n, i);
    match s
    case ClientStep(cs) =>
      ClientStepKeeps(p, n, s, i);
      VouchersGrow(n.c, cs);
      var n' := Take(n, s);
      if ClientAt(p, n'.c, i) {
        assert JoinedAt(p, n', i);
      } else {
        assert JoinedAt(p, n', i + 1);
      }
    case ProviderStep(ps) =>
      ProviderStepKeeps(p, n, ps);
      assert JoinedAt(p, Take(n, s), i);
    case Deliver => DeliverKeeps(p, n, i);
  }

  lemma VouchersGrow(c: C.Machine, cs: C.Step)
    requires c.ds.params.Advances() && C.Legal(c, cs)
    ensures |c.vouchers| <= |C.Take(c, cs).vouchers|
  {
  }

  lemma {:induction false} RunKeeps(p: Params, totalFunds: nat, ns: seq<Net>, steps: seq<Step>, k: nat)
    requires Run(p, totalFunds, ns, steps) && k < |ns|
    ensures Joined(p, ns[k])
  {
    if k == 0 {
      assert T(p, 1) == T(p, 0) + p.paymentInterval;
      assert ns[0].c.queue[1..] == [];
      assert JoinedAt(p, ns[0], 1);
    } else {
      RunKeeps(p, totalFunds, ns, steps, k - 1);
      assert Follows(ns[k - 1], steps[k - 1], ns[k]);
      StepKeeps(p, ns[k - 1], steps[k - 1]);
    }
  }

  /** Amounts due at thresholds `lo` up to but not including `hi`. */
  function Dues(p: Params, lo: nat, hi: nat): seq<int>
    requires lo <= hi
  {
    seq(hi - lo, k requires 0 <= k < hi - lo => Due(p, lo + k))
  }

  /** The client at threshold `i`, the provider at threshold `j`, and `u` payments that were sent and
      not recorded by the client. */
  ghost predicate InLockstep(p: Params, n: Net, i: nat, j: nat, u: nat)
    requires n.delivered <= |n.c.vouchers|
  {
    && 1 <= i && 1 <= j <= i + u && u <= 1
    && n.c.ds.currentInterval == T(p, i)
    && (Serving(n.t.deal.status) ==> n.t.deal.currentInterval == T(p, j) && n.t.deal.fundsReceived == Due(p, j - 1))
    && n.c.vouchers[n.delivered..] == Dues(p, j, i + u)
    && (!Retired(n.c.ds.status) ==> u == Pending(n.c))
    && (j > i <==> u == 1 && n.delivered == |n.c.vouchers|)
  }

  /** Lockstep, in every reachable state: the vouchers in flight are exactly those for the thresholds
      from the provider's up to the client's, with the one that is sent but not yet recorded; so the
      provider is ahead, by one, exactly when that one is already delivered. */
  lemma LockstepAlways(p: Params, totalFunds: nat, ns: seq<Net>, steps: seq<Step>, k: nat)
    requires Run(p, totalFunds, ns, steps) && k < |ns|
    ensures ns[k].delivered <= |ns[k].c.vouchers|
    ensures exists i: nat, j: nat, u: nat :: InLockstep(p, ns[k], i, j, u)
  {
    RunKeeps(p, totalFunds, ns, steps, k);
    var n := ns[k];
    var i: nat :| JoinedAt(p, n, i);
    var j, u := n.delivered + 1, |n.c.vouchers| - (i - 1);
    assert n.c.vouchers[n.delivered..] == Dues(p, j, i + u);
    assert InLockstep(p, n, i, j, u);
  }

  /** A voucher lifts the pause: whenever one is in flight and the provider serves, delivering it
      resumes the transfer one threshold higher. */
  lemma PauseLifted(p: Params, totalFunds: nat, ns: seq<Net>, steps: seq<Step>, k: nat)
    requires Run(p, totalFunds, ns, steps) && k < |ns|
    requires Serving(ns[k].t.deal.status) && ns[k].delivered < |ns[k].c.vouchers|
    ensures ns[k].t.deal.params == p
    ensures exists j: nat ::
              && ns[k].t.deal.currentInterval == T(p, j)
              && P.Take(ns[k].t, P.Pay(0, Credit(ns[k]))).1.Resume?
              && P.Take(ns[k].t, P.Pay(0, Credit(ns[k]))).0.deal.currentInterval == T(p, j + 1)
  {
    RunKeeps(p, totalFunds, ns, steps, k);
    var i: nat :| JoinedAt(p, ns[k], i);
    DeliveryResumes(p, ns[k], i);
    assert ns[k].t.deal.currentInterval == T(p, ns[k].delivered + 1);
  }

  // ---------- The client's half of progress ----------

  /** A run of the client that is never told that all blocks arrived. */
  ghost predicate Unfinished(p: Params, totalFunds: nat, ms: seq<C.Machine>, cs: seq<C.Step>) {
    C.Run(p, totalFunds, ms, cs) && forall i | 0 <= i < |cs| :: cs[i] != C.Arrive(C.EventAllBlocksReceived)
  }

  /** The client's part of a run of both sides. */
  lemma {:induction false} ClientPart(p: Params, totalFunds: nat, ns: seq<Net>, steps: seq<Step>, k: nat)
    returns (ms: seq<C.Machine>, cs: seq<C.Step>)
    requires Run(p, totalFunds, ns, steps) && k < |ns|
    ensures Unfinished(p, totalFunds, ms, cs) && ms[|ms| - 1] == ns[k].c
  {
    if k == 0 {
      ms, cs := [ns[0].c], [];
    } else {
      ms, cs := ClientPart(p, totalFunds, ns, steps, k - 1);
      assert Follows(ns[k - 1], steps[k - 1], ns[k]);
      if steps[k - 1].ClientStep? {
        ms, cs := Extended(p, totalFunds, ms, cs, steps[k - 1].cs);
      }
    }
  }

  lemma Extended(p: Params, totalFunds: nat, ms: seq<C.Machine>, cs: seq<C.Step>, s: C.Step)
    returns (ms': seq<C.Machine>, cs': seq<C.Step>)
    requires Unfinished(p, totalFunds, ms, cs) && s != C.Arrive(C.EventAllBlocksReceived)
    requires var m := ms[|ms| - 1]; m.ds.params.Advances() && C.Legal(m, s)
    ensures Unfinished(p, totalFunds, ms', cs') && ms'[|ms'| - 1] == C.Take(ms[|ms| - 1], s)
  {
    ms', cs' := ms + [C.Take(ms[|ms| - 1], s)], cs + [s];
    forall i | 0 <= i < |cs'| ensures C.Follows(ms'[i], cs'[i], ms'[i + 1]) {
      if i < |cs| {
        assert C.Follows(ms[i], cs[i], ms[i + 1]);
      }
    }
  }

  lemma {:induction false} FundedHasChannel(p: Params, totalFunds: nat, ns: seq<Net>, steps: seq<Step>, k: nat)
    requires Run(p, totalFunds, ns, steps) && k < |ns| && totalFunds > 0 && C.Paying(ns[k].c.ds.status)
    ensures ns[k].c.ds.paymentInfo.Some?
  {
    var ms, cs := ClientPart(p, totalFunds, ns, steps, k);
    C.ClientWellDefined(p, totalFunds, ms, cs, |ms| - 1);
  }

  /** What the sending handler does. */
  function SendReaction(c: C.Machine): C.Reaction {
    if c.ds.totalReceived < c.ds.currentInterval then C.Trigger(C.EventPaymentNotSent)
    else if Pending(c) == 0 then C.Pay(c.ds.currentInterval * c.ds.params.pricePerByte)
    else C.Trigger(C.EventCreateVoucherFailed)
  }

  lemma SendRule(p: Params, c: C.Machine, i: nat, env: C.Env)
    requires ClientAt(p, c, i) && c.ds.status in {SendFunds, SendFundsLastPayment}
    requires c.activity == C.Running && c.ds.paymentInfo.Some? && HonestEnv(c, env)
    ensures C.Handle(c.ds, env) == SendReaction(c)
  {
    DueStrict(p, i - 1, i);
    assert C.CalcAmountToSend(c.ds) == if c.ds.totalReceived < c.ds.currentInterval then 0 else Due(p, i);
    assert c.vouchers != [] ==> Top(c.vouchers) == Due(p, |c.vouchers|);
    assert Due(p, 0) == 0;
  }

  /** The other half of progress, in every reachable state of a deal with funds: a client that comes to
      send waits for the bytes of its threshold; with them it pays exactly the amount due if no payment
      is unrecorded, and asks for a voucher that is refused if one is. */
  lemma ClientPaysNext(p: Params, totalFunds: nat, ns: seq<Net>, steps: seq<Step>, k: nat, env: C.Env)
    requires Run(p, totalFunds, ns, steps) && k < |ns| && totalFunds > 0
    requires ns[k].c.activity == C.Running && ns[k].c.ds.status in {SendFunds, SendFundsLastPayment}
    requires HonestEnv(ns[k].c, env)
    ensures C.Handle(ns[k].c.ds, env) == SendReaction(ns[k].c)
  {
    RunKeeps(p, totalFunds, ns, steps, k);
    FundedHasChannel(p, totalFunds, ns, steps, k);
    var i: nat :| JoinedAt(p, ns[k], i);
    SendRule(p, ns[k].c, i, env);
  }

  // ---------- Why the first interval must not be empty ----------

  /** With an empty first interval the amount due stays zero, so nothing is ever sent. */
  predicate Stalled(c: C.Machine) {
    && c.vouchers == [] && Pending(c) == 0
    && c.ds.currentInterval == 0 && c.ds.fundsSpent == 0 && c.ds.unsealFundsPaid == 0
    && c.ds.params.unsealPrice == 0 && c.ds.params.Advances()
    && !c.ds.allBlocksReceived && C.EventAllBlocksReceived !in c.queue
    && (c.activity.Triggering? ==> c.activity.e != C.EventAllBlocksReceived)
  }

  lemma StalledStep(c: C.Machine, cs: C.Step)
    requires Stalled(c) && C.Legal(c, cs)
    requires cs.Arrive? ==> cs.e != C.EventAllBlocksReceived
    ensures Stalled(C.Take(c, cs))
  {
    match cs
    case Arrive(e) => PaymentsAppend(c.queue, e);
    case Report => PaymentsAppend(c.queue, c.activity.e);
    case Act(env) =>
    case Process =>
      var e := c.queue[0];
      if C.Take(c, cs).activity != C.Crashed {
        AccountingStays(c.ds, e);
      }
  }

  /** Until all blocks are received, a client whose first interval is empty never sends a voucher,
      whatever it is asked: lockstep needs `paymentInterval > 0`. */
  lemma {:induction false} EmptyIntervalNeverPays(
    p: Params, totalFunds: nat, ms: seq<C.Machine>, steps: seq<C.Step>, k: nat)
    requires C.Run(p, totalFunds, ms, steps) && k < |ms|
    requires p.paymentInterval == 0 && p.unsealPrice == 0
    requires forall i | 0 <= i < |steps| :: steps[i] != C.Arrive(C.EventAllBlocksReceived)
    ensures ms[k].vouchers == [] && Stalled(ms[k])
  {
    if k > 0 {
      EmptyIntervalNeverPays(p, totalFunds, ms, steps, k - 1);
      assert C.Follows(ms[k - 1], steps[k - 1], ms[k]);
      StalledStep(ms[k - 1], steps[k - 1]);
    } else {
      assert ms[0].queue[1..] == [];
    }
  }

  // ---------- The lanes behind the network ----------

  /** The client's voucher store answers as `HonestEnv` says: with enough funds, a positive amount
      is turned into a voucher exactly when it exceeds everything sent in the lane. */
  lemma ClientLaneAnswers(ci: L.ChannelInfo, chain: L.Chain, lane: nat, amount: int, signature: int)
    requires L.Ordered(map[], ci.vouchers) && L.Advanced(map[], ci.vouchers, chain.lanes)
    requires L.Total(L.Overlay(map[], ci.vouchers)) <= chain.balance
    requires chain.reachable && signature in chain.verified && amount > 0
    requires var lanes := L.Overlay(map[], ci.vouchers);
             L.Total(lanes) + amount - L.Redeemed(lanes, lane) <= chain.balance
    ensures var (ci', r) := L.Create(ci, chain, lane, amount, Some(signature));
            var sent := L.Amounts(ci.vouchers, lane);
            && (r.Created? <==> amount > Top(sent))
            && !r.Short?
            && L.Amounts(ci'.vouchers, lane) == if r.Created? then sent + [amount] else sent
  {
    L.CreateVoucherExactly(ci, chain, lane, amount, signature);
    L.LaneStandsAtLast(ci.vouchers, lane);
    var (ci', r) := L.Create(ci, chain, lane, amount, Some(signature));
    if r.Created? {
      assert ci'.vouchers[..|ci'.vouchers| - 1] == ci.vouchers;
    }
  }

  /** The provider's voucher store credits as `Credit` says: a voucher with a fresh nonce brings its
      amount above the last one of its lane. */
  lemma ProviderLaneCredits(ci: L.ChannelInfo, chain: L.Chain, v: L.Voucher)
    requires L.Ordered(map[], ci.vouchers) && L.Advanced(map[], ci.vouchers, chain.lanes)
    requires chain.reachable && v.signature in chain.verified && v.channelAddr == ci.addr && v.merges == 0
    requires v.nonce > L.MaxNonce(ci.vouchers, v.lane) && v.amount > Top(L.Amounts(ci.vouchers, v.lane)) && v.amount > 0
    requires L.TotalWith(L.Overlay(map[], ci.vouchers), v) <= chain.balance
    ensures L.Add(ci, chain, v, 0).1 == L.Added(v.amount - Top(L.Amounts(ci.vouchers, v.lane)))
  {
    L.CatchingUpChangesNothing(map[], ci.vouchers, chain.lanes);
    L.LaneStandsAtLast(ci.vouchers, v.lane);
    L.MaxNonceIsMax(ci.vouchers, v.lane);
  }
}
