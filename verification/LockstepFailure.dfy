/** When an honest deal fails although nothing outside goes wrong.

A payment request that arrives while one is being answered can make the client ask twice for the
same voucher.  The second one is refused, and the refusal ends the deal if it is taken up in a
sending status.  `FailsAtEveryThreshold` shows such a run for every metered deal with funds.
`RefusedIff` says exactly when a voucher is refused, `DoomBeginsIff` when that loses the deal,
`FailsIff` when a run has failed and `GoesOnIff` when every later threshold is still within reach.
A client that gets one event at a time is safe: `OneAtATimeNeverFails`.
 */
module LockstepFailure {
  import opened Deal
  import opened Intervals
  import opened Lockstep
  import opened LockstepProgress
  import opened LockstepRuns
  import C = Client
  import P = Provider

  // ---------- Statuses and events of a run without outside trouble ----------

  /** The deal stopped without completing. */
  predicate Failed(s: Status) {
    s in {Failing, Errored, Cancelling, Cancelled, Rejected, DealNotFound}
  }

  predicate CalmStatus(s: Status) {
    s in {New, WaitForAcceptance, Accepted, PaymentChannelCreating, PaymentChannelAddingInitialFunds,
          PaymentChannelAllocatingLane, Ongoing, FundsNeeded, FundsNeededLastPayment, SendFunds,
          SendFundsLastPayment, Finalizing}
  }

  predicate CalmEvent(e: C.Event) {
    || Expected(e)
    || e in {C.EventDealProposed, C.EventPaymentChannelSkip, C.EventSendFunds, C.EventCreateVoucherFailed,
             C.EventPaymentNotSent}
    || e.EventPaymentChannelCreateInitiated? || e.EventPaymentChannelAddingFunds? || e.EventPaymentChannelReady?
    || e.EventLaneAllocated? || e.EventPaymentSent?
  }

  predicate Calm(c: C.Machine) {
    && CalmStatus(c.ds.status)
    && (forall e <- c.queue :: CalmEvent(e))
    && (c.activity.Triggering? ==> CalmEvent(c.activity.e))
  }

  /** A refused voucher is about to be taken up in a sending status. */
  predicate Dooms(c: C.Machine, s: C.Step) {
    && s == C.Process && C.Legal(c, s)
    && c.queue[0] == C.EventCreateVoucherFailed && SendStatus(c.ds.status)
  }

  lemma CalmRow(s: Status, e: C.Event)
    requires CalmStatus(s) && CalmEvent(e) && C.Lookup(s, e).To?
    ensures if e == C.EventCreateVoucherFailed then SendStatus(s) && C.Lookup(s, e).s == Failing
            else CalmStatus(C.Lookup(s, e).s)
  {
  }

  lemma CalmProcess(c: C.Machine)
    requires Calm(c) && C.Legal(c, C.Process) && c.ds.params.Advances()
    ensures var c' := C.Take(c, C.Process);
            if Dooms(c, C.Process) then c'.ds.status == Failing else Calm(c')
  {
    var e := c.queue[0];
    var c' := C.Take(c, C.Process);
    if C.Lookup(c.ds.status, e).To? {
      CalmRow(c.ds.status, e);
    } else if c'.activity != C.Crashed && C.Lookup(c.ds.status, e).JustRecord? {
      ActionKeepsStatus(c.ds, e);
    }
    assert forall q <- c'.queue :: q in c.queue;
  }

  lemma CalmAct(c: C.Machine, env: C.Env)
    requires Calm(c) && c.activity == C.Running && HonestEnv(c, env) && Untroubled(ClientStep(C.Act(env)))
    requires c.ds.params.Advances()
    ensures Calm(C.Take(c, C.Act(env)))
  {
  }

  /** A calm client fails exactly by taking up a refused voucher in a sending status. */
  lemma StepFails(n: Net, s: Step)
    requires Calm(n.c) && n.c.ds.params.Advances() && n.t.deal.params.Advances() && Legal(n, s) && Untroubled(s)
    ensures var c' := Take(n, s).c;
            if s.ClientStep? && Dooms(n.c, s.cs) then c'.ds.status == Failing else Calm(c')
  {
    if s.ClientStep? {
      match s.cs
      case Process => CalmProcess(n.c);
      case Act(env) => CalmAct(n.c, env);
      case Arrive(e) =>
      case Report =>
    }
  }

  lemma FailedRow(s: Status, e: C.Event)
    requires Failed(s) && !C.Final(s) && C.Lookup(s, e).To?
    ensures Failed(C.Lookup(s, e).s)
  {
  }

  /** A failed deal stays failed, whatever happens. */
  lemma FailedStays(n: Net, s: Step)
    requires Failed(n.c.ds.status) && n.c.ds.params.Advances() && n.t.deal.params.Advances() && Legal(n, s)
    ensures Failed(Take(n, s).c.ds.status)
  {
    if s == ClientStep(C.Process) {
      var e := n.c.queue[0];
      if !C.Final(n.c.ds.status) && C.Lookup(n.c.ds.status, e).To? {
        FailedRow(n.c.ds.status, e);
      } else if C.Lookup(n.c.ds.status, e).JustRecord? && Take(n, s).c.activity != C.Crashed {
        ActionKeepsStatus(n.c.ds, e);
      }
    }
  }

  predicate Dooming(n: Net, s: Step) {
    s.ClientStep? && Dooms(n.c, s.cs)
  }

  /** At step `i` the run takes up a refused voucher in a sending status. */
  predicate DoomedAt(ns: seq<Net>, steps: seq<Step>, i: nat)
    requires i < |steps| && |ns| == |steps| + 1
  {
    Dooming(ns[i], steps[i])
  }

  ghost predicate DoomedBefore(ns: seq<Net>, steps: seq<Step>, k: nat)
    requires k <= |steps| && |ns| == |steps| + 1
  {
    exists i :: 0 <= i < k && DoomedAt(ns, steps, i)
  }

  lemma DoomedBeforeNext(ns: seq<Net>, steps: seq<Step>, k: nat)
    requires k < |steps| && |ns| == |steps| + 1
    ensures DoomedBefore(ns, steps, k + 1) <==> DoomedBefore(ns, steps, k) || DoomedAt(ns, steps, k)
  {
    if DoomedAt(ns, steps, k) {
      assert 0 <= k < k + 1 && DoomedAt(ns, steps, k);
    }
    if DoomedBefore(ns, steps, k) {
      var i :| 0 <= i < k && DoomedAt(ns, steps, i);
      assert 0 <= i < k + 1 && DoomedAt(ns, steps, i);
    }
  }

  lemma CalmFollows(n: Net, s: Step, n': Net)
    requires Follows(n, s, n') && Untroubled(s)
    ensures Failed(n.c.ds.status) ==> Failed(n'.c.ds.status)
    ensures Calm(n.c) ==> if Dooming(n, s) then Failed(n'.c.ds.status) else Calm(n'.c)
  {
    if Failed(n.c.ds.status) {
      FailedStays(n, s);
    }
    if Calm(n.c) {
      StepFails(n, s);
    }
  }

  lemma CalmBegins(p: Params, funds: nat)
    ensures Calm(C.Begin(p, funds))
  {
  }

  lemma UntroubledAt(p: Params, funds: nat, ns: seq<Net>, steps: seq<Step>, k: nat)
    requires UntroubledRun(p, funds, ns, steps) && k < |steps|
    ensures Follows(ns[k], steps[k], ns[k + 1]) && Untroubled(steps[k])
  {
    assert steps[k] in steps;
  }

  /** Failed since a refused voucher was taken up, and calm before. */
  ghost predicate CalmUpTo(ns: seq<Net>, steps: seq<Step>, k: nat)
    requires k <= |steps| && |ns| == |steps| + 1
  {
    if DoomedBefore(ns, steps, k) then Failed(ns[k].c.ds.status) else Calm(ns[k].c)
  }

  lemma CalmNext(ns: seq<Net>, steps: seq<Step>, k: nat)
    requires k < |steps| && |ns| == |steps| + 1 && CalmUpTo(ns, steps, k)
    requires Follows(ns[k], steps[k], ns[k + 1]) && Untroubled(steps[k])
    ensures CalmUpTo(ns, steps, k + 1)
  {
    DoomedBeforeNext(ns, steps, k);
    CalmFollows(ns[k], steps[k], ns[k + 1]);
  }

  lemma {:induction false} CalmUntilDoomed(p: Params, funds: nat, ns: seq<Net>, steps: seq<Step>, k: nat)
    requires UntroubledRun(p, funds, ns, steps) && k < |ns|
    ensures CalmUpTo(ns, steps, k)
  {
    if k == 0 {
      CalmBegins(p, funds);
    } else {
      CalmUntilDoomed(p, funds, ns, steps, k - 1);
      UntroubledAt(p, funds, ns, steps, k - 1);
      CalmNext(ns, steps, k - 1);
    }
  }

  /** Without error, refusal or cancellation from outside, a deal has failed if and only if its client
      has taken up a refused voucher in a sending status. */
  lemma FailsIff(p: Params, funds: nat, ns: seq<Net>, steps: seq<Step>, k: nat)
    requires UntroubledRun(p, funds, ns, steps) && k < |ns|
    ensures Failed(ns[k].c.ds.status) <==> DoomedBefore(ns, steps, k)
  {
    CalmUntilDoomed(p, funds, ns, steps, k);
  }

  // ---------- When a voucher is refused ----------

  /** The client is about to ask for a voucher while the last payment is unrecorded. */
  predicate AsksTwice(c: C.Machine) {
    && c.activity == C.Running && SendStatus(c.ds.status)
    && Pending(c) != 0 && c.ds.totalReceived >= c.ds.currentInterval
  }

  predicate Refusing(c: C.Machine) {
    c.activity == C.Triggering(C.EventCreateVoucherFailed)
  }

  /** Only the sending handlers report a refused voucher. */
  lemma RefusedBySender(ds: C.ClientState, env: C.Env)
    requires C.Handle(ds, env) == C.Trigger(C.EventCreateVoucherFailed)
    ensures SendStatus(ds.status)
  {
  }

  /** In every run of a deal with funds, a step makes the client report a refused voucher if and only
      if its sending handler runs with the bytes of its threshold while a payment is unrecorded. */
  lemma RefusedIff(p: Params, funds: nat, ns: seq<Net>, steps: seq<Step>, k: nat)
    requires Run(p, funds, ns, steps) && k < |steps| && funds > 0
    ensures !Refusing(ns[k].c) && Refusing(ns[k + 1].c) <==>
              AsksTwice(ns[k].c) && steps[k].ClientStep? && steps[k].cs.Act?
  {
    var c := ns[k].c;
    assert Follows(ns[k], steps[k], ns[k + 1]);
    if c.activity == C.Running && steps[k].ClientStep? && steps[k].cs.Act? {
      if SendStatus(c.ds.status) {
        ClientPaysNext(p, funds, ns, steps, k, steps[k].cs.env);
      } else if Refusing(ns[k + 1].c) {
        RefusedBySender(c.ds, steps[k].cs.env);
      }
    }
  }

  /** A refused voucher is on its way to the client's table. */
  predicate Refused(c: C.Machine) {
    Refusing(c) || C.EventCreateVoucherFailed in c.queue
  }

  lemma RefusedStep(n: Net, s: Step)
    requires n.c.ds.params.Advances() && n.t.deal.params.Advances() && Legal(n, s) && !Refused(n.c)
    requires !Refusing(Take(n, s).c)
    ensures !Refused(Take(n, s).c)
  {
    if s == ClientStep(C.Process) {
      assert forall q <- n.c.queue[1..] :: q in n.c.queue;
    }
  }

  predicate AsksTwiceAt(ns: seq<Net>, steps: seq<Step>, i: nat)
    requires i < |steps| && |ns| == |steps| + 1
  {
    AsksTwice(ns[i].c) && steps[i].ClientStep? && steps[i].cs.Act?
  }

  /** Every refused voucher was asked for while a payment was unrecorded. */
  lemma {:induction false} RefusalsAskedTwice(p: Params, funds: nat, ns: seq<Net>, steps: seq<Step>, k: nat)
    requires Run(p, funds, ns, steps) && k < |ns| && funds > 0 && Refused(ns[k].c)
    ensures exists i :: 0 <= i < k && AsksTwiceAt(ns, steps, i)
  {
    if k > 0 {
      if Refused(ns[k - 1].c) {
        RefusalsAskedTwice(p, funds, ns, steps, k - 1);
        var i :| 0 <= i < k - 1 && AsksTwiceAt(ns, steps, i);
        assert 0 <= i < k && AsksTwiceAt(ns, steps, i);
      } else {
        assert Follows(ns[k - 1], steps[k - 1], ns[k]);
        if !Refusing(ns[k].c) {
          RefusedStep(ns[k - 1], steps[k - 1]);
        }
        RefusedIff(p, funds, ns, steps, k - 1);
        assert 0 <= k - 1 < k && AsksTwiceAt(ns, steps, k - 1);
      }
    }
  }

  // ---------- When a deal is lost ----------

  /** A deal is lost at the moment a refused voucher is reported behind events that lead to a sending
      status, and at no other. */
  lemma DoomBeginsIff(n: Net, s: Step)
    requires n.c.ds.params.Advances() && n.t.deal.params.Advances() && Legal(n, s) && !Doomed(n.c)
    ensures Doomed(Take(n, s).c) <==>
              s == ClientStep(C.Report) && Refusing(n.c) && SendStatus(After(n.c.ds, n.c.queue).status)
  {
    var c, c' := n.c, Take(n, s).c;
    if s.ClientStep? && s.cs.Arrive? {
      NotDoomedAfter(c, s.cs.e);
    } else if s == ClientStep(C.Report) {
      if Refusing(c) {
        RefusalDooms(c);
      } else {
        NotDoomedAfter(c, c.activity.e);
      }
    } else if s == ClientStep(C.Process) && c'.activity != C.Crashed {
      NotDoomedBehind(c);
    }
  }

  lemma NotDoomedAfter(c: C.Machine, e: C.Event)
    requires c.ds.params.Advances() && !Doomed(c) && e != C.EventCreateVoucherFailed
    ensures forall m: nat :: !DoomedBy(c.ds, c.queue + [e], m)
  {
    forall m: nat ensures !DoomedBy(c.ds, c.queue + [e], m) {
      assert !DoomedBy(c.ds, c.queue, m);
      OtherReport(c.ds, c.queue, e, m);
    }
  }

  lemma RefusalDooms(c: C.Machine)
    requires c.ds.params.Advances() && !Doomed(c) && Refusing(c)
    ensures Doomed(C.Take(c, C.Report)) <==> SendStatus(After(c.ds, c.queue).status)
  {
    var queue := c.queue + [C.EventCreateVoucherFailed];
    assert queue[..|c.queue|] == c.queue;
    if SendStatus(After(c.ds, c.queue).status) {
      assert DoomedBy(c.ds, queue, |c.queue|);
    } else {
      forall m: nat ensures !DoomedBy(c.ds, queue, m) {
        assert !DoomedBy(c.ds, c.queue, m);
        if m < |c.queue| {
          DoomBehind(c.ds, c.queue, [C.EventCreateVoucherFailed], m);
        }
      }
    }
  }

  /** The client has failed or is doomed, and never gets past threshold `b`. */
  ghost predicate Fated(p: Params, c: C.Machine, b: nat) {
    exists i: nat :: FatedAt(p, c, i, b)
  }

  ghost predicate FatedAt(p: Params, c: C.Machine, i: nat, b: nat) {
    ClientAt(p, c, i) && i <= b && (Failed(c.ds.status) || exists m: nat :: DoomedBy(c.ds, c.queue, m) && i + m <= b)
  }

  lemma FailedRecordsNothing(p: Params, c: C.Machine, i: nat)
    requires ClientAt(p, c, i) && C.Legal(c, C.Process) && Failed(c.ds.status)
    ensures ClientAt(p, C.Take(c, C.Process), i)
  {
    ClientStays(p, c, i);
  }

  /** The events before the refusal bring it one place forward, and the client at most one threshold. */
  lemma DoomComesNearer(p: Params, c: C.Machine, i: nat, m: nat, b: nat)
    requires ClientAt(p, c, i) && C.Legal(c, C.Process) && C.Take(c, C.Process).activity != C.Crashed
    requires m > 0 && DoomedBy(c.ds, c.queue, m) && i + m <= b
    ensures Fated(p, C.Take(c, C.Process), b)
  {
    var c' := C.Take(c, C.Process);
    DoomMoves(c.ds, c.queue, m - 1);
    ClientProcess(p, c, i);
    assert DoomedBy(c'.ds, c'.queue, m - 1);
    if ClientAt(p, c', i) {
      assert FatedAt(p, c', i, b);
    } else {
      assert FatedAt(p, c', i + 1, b);
    }
  }

  lemma DoomedProcess(p: Params, c: C.Machine, i: nat, m: nat, b: nat)
    requires ClientAt(p, c, i) && C.Legal(c, C.Process) && DoomedBy(c.ds, c.queue, m) && i + m <= b
    ensures Fated(p, C.Take(c, C.Process), b)
  {
    var c' := C.Take(c, C.Process);
    if c'.activity == C.Crashed {
      ClientStays(p, c, i);
      assert DoomedBy(c'.ds, c'.queue, m);
      assert FatedAt(p, c', i, b);
    } else if m == 0 {
      assert c.queue[..0] == [];
      ClientStays(p, c, i);
      assert FatedAt(p, c', i, b);
    } else {
      DoomComesNearer(p, c, i, m, b);
    }
  }

  lemma DoomedStays(p: Params, c: C.Machine, c': C.Machine, more: seq<C.Event>, i: nat, m: nat, b: nat)
    requires ClientAt(p, c', i) && c.ds.params.Advances() && DoomedBy(c.ds, c.queue, m) && i + m <= b
    requires c'.ds == c.ds && c'.queue == c.queue + more
    ensures FatedAt(p, c', i, b)
  {
    DoomBehind(c.ds, c.queue, more, m);
    assert DoomedBy(c'.ds, c'.queue, m);
  }

  lemma DoomedStep(p: Params, n: Net, s: Step, i: nat, m: nat, b: nat)
    requires ClientAt(p, n.c, i) && n.t.deal.params.Advances() && Legal(n, s) && s.ClientStep? && s.cs != C.Process
    requires DoomedBy(n.c.ds, n.c.queue, m) && i + m <= b
    ensures FatedAt(p, Take(n, s).c, i, b)
  {
    var c, c' := n.c, Take(n, s).c;
    match s.cs
    case Act(env) =>
      ClientAct(p, c, i, env);
      DoomedStays(p, c, c', [], i, m, b);
    case Arrive(e) =>
      PaymentsAppend(c.queue, e);
      DoomedStays(p, c, c', [e], i, m, b);
    case Report =>
      PaymentsAppend(c.queue, c.activity.e);
      DoomedStays(p, c, c', [c.activity.e], i, m, b);
  }

  lemma FailedStep(p: Params, n: Net, s: Step, i: nat)
    requires ClientAt(p, n.c, i) && n.t.deal.params.Advances() && Legal(n, s) && s.ClientStep?
    requires Failed(n.c.ds.status)
    ensures ClientAt(p, Take(n, s).c, i) && Failed(Take(n, s).c.ds.status)
  {
    FailedStays(n, s);
    match s.cs
    case Process => FailedRecordsNothing(p, n.c, i);
    case Act(env) => ClientAct(p, n.c, i, env);
    case Arrive(e) => PaymentsAppend(n.c.queue, e);
    case Report => PaymentsAppend(n.c.queue, n.c.activity.e);
  }

  /** No step saves a lost deal. */
  lemma FatedStep(p: Params, n: Net, s: Step, b: nat)
    requires Fated(p, n.c, b) && n.c.ds.params.Advances() && n.t.deal.params.Advances() && Legal(n, s)
    ensures Fated(p, Take(n, s).c, b)
  {
    if s.ClientStep? {
      var i: nat :| FatedAt(p, n.c, i, b);
      if Failed(n.c.ds.status) {
        FailedStep(p, n, s, i);
        assert FatedAt(p, Take(n, s).c, i, b);
      } else {
        var m: nat :| DoomedBy(n.c.ds, n.c.queue, m) && i + m <= b;
        if s.cs == C.Process {
          DoomedProcess(p, n.c, i, m, b);
        } else {
          DoomedStep(p, n, s, i, m, b);
        }
      }
    }
  }

  lemma FatedFollows(p: Params, n: Net, s: Step, n': Net, b: nat)
    requires Follows(n, s, n') && Fated(p, n.c, b)
    ensures Fated(p, n'.c, b)
  {
    FatedStep(p, n, s, b);
  }

  lemma {:induction false} FatedPath(p: Params, ns: seq<Net>, steps: seq<Step>, b: nat, k: nat)
    requires Path(ns, steps) && k < |ns| && Fated(p, ns[0].c, b)
    ensures Fated(p, ns[k].c, b)
  {
    if k > 0 {
      FatedPath(p, ns, steps, b, k - 1);
      FatedFollows(p, ns[k - 1], steps[k - 1], ns[k], b);
    }
  }

  /** Some continuation brings both sides to threshold `j`. */
  ghost predicate Within(p: Params, n: Net, j: nat) {
    exists n' :: Continues(n, n') && BothAt(p, n', j)
  }

  lemma FatedBelow(p: Params, n: Net, b: nat)
    requires Fated(p, n.c, b)
    ensures !BothAt(p, n, b + 1)
  {
    var i: nat :| FatedAt(p, n.c, i, b);
    if BothAt(p, n, b + 1) {
      SameThreshold(p, i, b + 1);
    }
  }

  lemma DoomedFallsShort(p: Params, n: Net, i: nat, m: nat)
    requires ClientAt(p, n.c, i) && DoomedBy(n.c.ds, n.c.queue, m)
    ensures !Within(p, n, i + m + 1)
  {
    assert FatedAt(p, n.c, i, i + m);
    forall n' | Continues(n, n') ensures !BothAt(p, n', i + m + 1) {
      var ns, steps :| Path(ns, steps) && ns[0] == n && ns[|ns| - 1] == n';
      FatedPath(p, ns, steps, i + m, |ns| - 1);
      FatedBelow(p, n', i + m);
    }
  }

  /** Whether an honest deal goes on, exactly.  In every reachable state of a deal with funds in which
      both sides serve and no stopping event is under way, every later threshold is within reach if
      and only if no refused voucher waits behind events that lead to a sending status. */
  lemma GoesOnIff(p: Params, funds: nat, ns: seq<Net>, steps: seq<Step>, k: nat, i: nat)
    requires Run(p, funds, ns, steps) && k < |ns| && funds > 0
    requires Going(ns[k]) && 1 <= i && ns[k].c.ds.currentInterval == T(p, i)
    ensures !Doomed(ns[k].c) <==> forall j | i < j :: Within(p, ns[k], j)
  {
    if Doomed(ns[k].c) {
      RunKeeps(p, funds, ns, steps, k);
      var i': nat :| JoinedAt(p, ns[k], i');
      SameThreshold(p, i, i');
      var m: nat :| DoomedBy(ns[k].c.ds, ns[k].c.queue, m);
      DoomedFallsShort(p, ns[k], i, m);
      assert !Within(p, ns[k], i + m + 1);
    } else {
      forall j | i < j ensures Within(p, ns[k], j) {
        ThresholdsWithinReach(p, funds, ns, steps, k, i, j);
      }
    }
  }

  // ---------- One event at a time ----------

  /** Events arrive only at a client at rest. */
  ghost predicate OneAtATime(ns: seq<Net>, steps: seq<Step>)
    requires |ns| == |steps| + 1
  {
    forall i | 0 <= i < |steps| ::
      steps[i].ClientStep? && steps[i].cs.Arrive? ==> ns[i].c.activity == C.Idle && ns[i].c.queue == []
  }

  predicate AtMostOne(c: C.Machine) {
    c.activity == C.Crashed || |c.queue| + (if c.activity == C.Idle then 0 else 1) <= 1
  }

  lemma {:induction false} OneAtMost(p: Params, funds: nat, ns: seq<Net>, steps: seq<Step>, k: nat)
    requires Run(p, funds, ns, steps) && OneAtATime(ns, steps) && k < |ns|
    ensures AtMostOne(ns[k].c)
  {
    if k > 0 {
      OneAtMost(p, funds, ns, steps, k - 1);
      assert Follows(ns[k - 1], steps[k - 1], ns[k]);
    }
  }

  /** A deal whose client gets one event at a time never fails of itself. */
  lemma OneAtATimeNeverFails(p: Params, funds: nat, ns: seq<Net>, steps: seq<Step>, k: nat)
    requires UntroubledRun(p, funds, ns, steps) && OneAtATime(ns, steps) && k < |ns| && funds > 0
    ensures !Failed(ns[k].c.ds.status)
  {
    FailsIff(p, funds, ns, steps, k);
    if i :| 0 <= i < k && DoomedAt(ns, steps, i) {
      RefusalsAskedTwice(p, funds, ns, steps, i);
      var j :| 0 <= j < i && AsksTwiceAt(ns, steps, j);
      OneAtMost(p, funds, ns, steps, j);
      assert false;
    }
  }

  // ---------- A run that fails ----------

  /** Nothing is left to pay the provider with. */
  predicate Spent(n: Net) {
    Failed(n.c.ds.status) && n.delivered == |n.c.vouchers|
  }

  lemma FailedFollows(n: Net, s: Step, n': Net)
    requires Follows(n, s, n') && Failed(n.c.ds.status)
    ensures Failed(n'.c.ds.status) && n'.c.vouchers == n.c.vouchers
    ensures n.delivered == |n.c.vouchers| ==>
              && n'.delivered == n.delivered && n'.t.deal.fundsReceived == n.t.deal.fundsReceived
              && n'.t.deal.currentInterval == n.t.deal.currentInterval
  {
    FailedStays(n, s);
    if s.ProviderStep? {
      P.OnlyPaymentsPay(n.t, s.ps);
    }
  }

  /** A failed deal sends no further voucher, and once those in flight are delivered the provider is
      never paid again: its next pause is not lifted. */
  lemma {:induction false} FailedPaysNoMore(p: Params, funds: nat, ns: seq<Net>, steps: seq<Step>, k: nat, l: nat)
    requires Run(p, funds, ns, steps) && k <= l < |ns| && Failed(ns[k].c.ds.status)
    ensures Failed(ns[l].c.ds.status) && ns[l].c.vouchers == ns[k].c.vouchers
    ensures Spent(ns[k]) ==>
              && Spent(ns[l]) && ns[l].t.deal.fundsReceived == ns[k].t.deal.fundsReceived
              && ns[l].t.deal.currentInterval == ns[k].t.deal.currentInterval
  {
    if k < l {
      FailedPaysNoMore(p, funds, ns, steps, k, l - 1);
      FailedFollows(ns[l - 1], steps[l - 1], ns[l]);
    }
  }

  /** An idle client with `e` at the head of its queue. */
  predicate Heads(p: Params, n: Net, e: C.Event, rest: seq<C.Event>) {
    && n.c.activity == C.Idle && n.c.queue == [e] + rest && n.c.ds.params == p && p.Advances()
    && !e.EventLaneAllocated?
  }

  lemma Queued(p: Params, funds: nat, n: Net, e: C.Event)
    requires Reaches(p, funds, n) && Expected(e) && (e.EventBlocksReceived? ==> e.total >= n.c.received)
    ensures Reaches(p, funds, n.(c := n.c.(queue := n.c.queue + [e],
                                           received := if e.EventBlocksReceived? then e.total else n.c.received)))
  {
    ReachesStep(p, funds, n, ClientStep(C.Arrive(e)));
  }

  /** The client's handler runs after the head of the queue is taken up. */
  lemma HandlerRuns(p: Params, funds: nat, n: Net, e: C.Event, rest: seq<C.Event>, ds: C.ClientState)
    requires Reaches(p, funds, n) && Heads(p, n, e, rest) && C.Applied(n.c.ds, e) == (ds, true)
    ensures Reaches(p, funds, n.(c := n.c.(ds := ds, queue := rest, activity := C.Running)))
  {
    ReachesStep(p, funds, n, ClientStep(C.Process));
    assert n.c.queue[1..] == rest;
  }

  lemma QuietsBefore(p: Params, funds: nat, n: Net, e: C.Event, rest: seq<C.Event>, ds: C.ClientState)
    requires Reaches(p, funds, n) && Heads(p, n, e, rest) && C.Applied(n.c.ds, e) == (ds, true)
    requires C.Handle(ds, Honest(n.c.(ds := ds))) == C.Quiet
    ensures Reaches(p, funds, WithClient(n, ds, rest))
  {
    HandlerRuns(p, funds, n, e, rest, ds);
    var n1 := n.(c := n.c.(ds := ds, queue := rest, activity := C.Running));
    ReachesStep(p, funds, n1, ClientStep(C.Act(Honest(n1.c))));
    assert Take(n1, ClientStep(C.Act(Honest(n1.c)))) == WithClient(n, ds, rest);
  }

  lemma TriggersBefore(p: Params, funds: nat, n: Net, e: C.Event, rest: seq<C.Event>, ds: C.ClientState, e': C.Event)
    requires Reaches(p, funds, n) && Heads(p, n, e, rest) && C.Applied(n.c.ds, e) == (ds, true)
    requires C.Handle(ds, Honest(n.c.(ds := ds))) == C.Trigger(e')
    ensures Reaches(p, funds, WithClient(n, ds, rest + [e']))
  {
    HandlerRuns(p, funds, n, e, rest, ds);
    var n1 := n.(c := n.c.(ds := ds, queue := rest, activity := C.Running));
    ReachesStep(p, funds, n1, ClientStep(C.Act(Honest(n1.c))));
    var n2 := n1.(c := n1.c.(activity := C.Triggering(e')));
    assert Take(n1, ClientStep(C.Act(Honest(n1.c)))) == n2;
    ReachesStep(p, funds, n2, ClientStep(C.Report));
    assert Take(n2, ClientStep(C.Report)) == WithClient(n, ds, rest + [e']);
  }

  lemma PaysBefore(p: Params, funds: nat, n: Net, e: C.Event, rest: seq<C.Event>, ds: C.ClientState, amt: int)
    requires Reaches(p, funds, n) && Heads(p, n, e, rest) && C.Applied(n.c.ds, e) == (ds, true)
    requires C.Handle(ds, Honest(n.c.(ds := ds))) == C.Pay(amt)
    ensures Reaches(p, funds, n.(c := n.c.(ds := ds, queue := rest + [C.EventPaymentSent(amt)],
                                           vouchers := n.c.vouchers + [amt])))
  {
    HandlerRuns(p, funds, n, e, rest, ds);
    var n1 := n.(c := n.c.(ds := ds, queue := rest, activity := C.Running));
    ReachesStep(p, funds, n1, ClientStep(C.Act(Honest(n1.c))));
    var n2 := n1.(c := n1.c.(activity := C.Triggering(C.EventPaymentSent(amt)), vouchers := n1.c.vouchers + [amt]));
    assert Take(n1, ClientStep(C.Act(Honest(n1.c)))) == n2;
    ReachesStep(p, funds, n2, ClientStep(C.Report));
  }

  /** The amount due between threshold `i` and the one before. */
  function Owed(p: Params, i: nat): int
    requires i >= 1
  {
    Due(p, i) - Due(p, i - 1)
  }

  predicate Resting(c: C.Machine, status: Status, queue: seq<C.Event>) {
    c.activity == C.Idle && c.ds.status == status && c.queue == queue
  }

  /** The request for threshold `i` arrives before its bytes do. */
  lemma EarlyRequest(p: Params, funds: nat, n: Net, i: nat) returns (n': Net)
    requires Metered(p) && i >= 1 && Reaches(p, funds, n) && At(p, n.c, i, T(p, i - 1), 0) && Resting(n.c, Ongoing, [])
    ensures Reaches(p, funds, n') && n'.t == n.t && n'.delivered == n.delivered
    ensures At(p, n'.c, i, T(p, i - 1), Owed(p, i)) && Resting(n'.c, FundsNeeded, [])
  {
    ThresholdsRise(p, i);
    var e := C.EventPaymentRequested(Owed(p, i));
    Queued(p, funds, n, e);
    assert [] + [e] == [e] + [];
    var n1 := n.(c := n.c.(queue := [] + [e]));
    var ds := n1.c.ds.(status := FundsNeeded, paymentRequested := Owed(p, i));
    QuietsBefore(p, funds, n1, e, [], ds);
    n' := WithClient(n1, ds, []);
  }

  /** Two block events find the client waiting; the first makes it send. */
  lemma FirstSend(p: Params, funds: nat, n: Net, i: nat) returns (n': Net)
    requires Metered(p) && i >= 1 && Reaches(p, funds, n) && At(p, n.c, i, T(p, i - 1), Owed(p, i))
    requires Resting(n.c, FundsNeeded, [])
    ensures Reaches(p, funds, n') && n'.t == n.t && n'.delivered == n.delivered
    ensures At(p, n'.c, i, T(p, i), Owed(p, i))
    ensures Resting(n'.c, FundsNeeded, [C.EventBlocksReceived(T(p, i)), C.EventSendFunds])
  {
    ThresholdsRise(p, i);
    var b := C.EventBlocksReceived(T(p, i));
    Queued(p, funds, n, b);
    var n1 := n.(c := n.c.(queue := n.c.queue + [b], received := T(p, i)));
    Queued(p, funds, n1, b);
    var n2 := n1.(c := n1.c.(queue := n1.c.queue + [b]));
    assert n2.c.queue == [b] + [b];
    var ds := n2.c.ds.(totalReceived := T(p, i));
    TriggersBefore(p, funds, n2, b, [b], ds, C.EventSendFunds);
    assert [b] + [C.EventSendFunds] == [b, C.EventSendFunds];
    n' := WithClient(n2, ds, [b] + [C.EventSendFunds]);
  }

  /** The second makes it send again, behind further blocks and a second request. */
  lemma SecondSend(p: Params, funds: nat, n: Net, i: nat) returns (n': Net)
    requires Metered(p) && i >= 1 && Reaches(p, funds, n) && At(p, n.c, i, T(p, i), Owed(p, i))
    requires Resting(n.c, FundsNeeded, [C.EventBlocksReceived(T(p, i)), C.EventSendFunds])
    ensures Reaches(p, funds, n') && n'.t == n.t && n'.delivered == n.delivered
    ensures At(p, n'.c, i, T(p, i), Owed(p, i))
    ensures Resting(n'.c, FundsNeeded, [C.EventSendFunds, C.EventBlocksReceived(T(p, i)),
                                        C.EventPaymentRequested(Owed(p, i)), C.EventSendFunds])
  {
    ThresholdsRise(p, i);
    var b, r, f := C.EventBlocksReceived(T(p, i)), C.EventPaymentRequested(Owed(p, i)), C.EventSendFunds;
    Queued(p, funds, n, b);
    var n1 := n.(c := n.c.(queue := n.c.queue + [b]));
    Queued(p, funds, n1, r);
    var n2 := n1.(c := n1.c.(queue := n1.c.queue + [r]));
    assert n2.c.queue == [b] + [f, b, r];
    TriggersBefore(p, funds, n2, b, [f, b, r], n2.c.ds, f);
    assert [f, b, r] + [f] == [f, b, r, f];
    n' := WithClient(n2, n2.c.ds, [f, b, r] + [f]);
  }

  /** The client's record at threshold `i` once the voucher for it is sent and not recorded. */
  predicate Unrecorded(p: Params, c: C.Machine, i: nat, asked: int) {
    var ds := c.ds;
    && i >= 1 && ds.params == p && ds.paymentInfo.Some?
    && !ds.allBlocksReceived && !ds.lastPaymentRequested
    && ds.currentInterval == T(p, i) && ds.fundsSpent == Due(p, i - 1) && ds.bytesPaidFor == T(p, i - 1)
    && ds.unsealFundsPaid == 0 && ds.paymentRequested == asked
    && |c.vouchers| == i && Top(c.vouchers) == Due(p, i)
    && c.received == ds.totalReceived == T(p, i)
  }

  /** The first pays. */
  lemma FirstPays(p: Params, funds: nat, n: Net, i: nat) returns (n': Net)
    requires Metered(p) && i >= 1 && Reaches(p, funds, n) && At(p, n.c, i, T(p, i), Owed(p, i))
    requires Resting(n.c, FundsNeeded, [C.EventSendFunds, C.EventBlocksReceived(T(p, i)),
                                        C.EventPaymentRequested(Owed(p, i)), C.EventSendFunds])
    ensures Reaches(p, funds, n') && n'.t == n.t && n'.delivered == n.delivered
    ensures Unrecorded(p, n'.c, i, Owed(p, i))
    ensures Resting(n'.c, SendFunds, [C.EventBlocksReceived(T(p, i)), C.EventPaymentRequested(Owed(p, i)),
                                      C.EventSendFunds, C.EventPaymentSent(Due(p, i))])
  {
    ThresholdsRise(p, i);
    var b, r, f := C.EventBlocksReceived(T(p, i)), C.EventPaymentRequested(Owed(p, i)), C.EventSendFunds;
    assert n.c.queue == [f] + [b, r, f];
    var ds := n.c.ds.(status := SendFunds);
    assert C.CalcAmountToSend(ds) == Due(p, i);
    PaysBefore(p, funds, n, f, [b, r, f], ds, Due(p, i));
    assert [b, r, f] + [C.EventPaymentSent(Due(p, i))] == [b, r, f, C.EventPaymentSent(Due(p, i))];
    n' := n.(c := n.c.(ds := ds, queue := [b, r, f] + [C.EventPaymentSent(Due(p, i))],
                       vouchers := n.c.vouchers + [Due(p, i)]));
  }

  /** Blocks and the second request take the client back to where it sends. */
  lemma BackToSending(p: Params, funds: nat, n: Net, i: nat) returns (n': Net)
    requires Metered(p) && i >= 1 && Reaches(p, funds, n) && Unrecorded(p, n.c, i, Owed(p, i))
    requires Resting(n.c, SendFunds, [C.EventBlocksReceived(T(p, i)), C.EventPaymentRequested(Owed(p, i)),
                                      C.EventSendFunds, C.EventPaymentSent(Due(p, i))])
    ensures Reaches(p, funds, n') && n'.t == n.t && n'.delivered == n.delivered
    ensures Unrecorded(p, n'.c, i, 2 * Owed(p, i))
    ensures Resting(n'.c, FundsNeeded, [C.EventSendFunds, C.EventPaymentSent(Due(p, i)),
                                        C.EventPaymentRequested(0), C.EventSendFunds])
  {
    ThresholdsRise(p, i);
    var b, r, f := C.EventBlocksReceived(T(p, i)), C.EventPaymentRequested(Owed(p, i)), C.EventSendFunds;
    var s, z := C.EventPaymentSent(Due(p, i)), C.EventPaymentRequested(0);
    assert n.c.queue == [b] + [r, f, s];
    var ds := n.c.ds.(status := Ongoing);
    TriggersBefore(p, funds, n, b, [r, f, s], ds, z);
    var n1 := WithClient(n, ds, [r, f, s] + [z]);
    assert n1.c.queue == [r] + [f, s, z];
    var ds1 := ds.(status := FundsNeeded, paymentRequested := 2 * Owed(p, i));
    TriggersBefore(p, funds, n1, r, [f, s, z], ds1, f);
    assert [f, s, z] + [f] == [f, s, z, f];
    n' := WithClient(n1, ds1, [f, s, z] + [f]);
  }

  /** The second asks for the voucher already sent and is refused. */
  lemma SecondRefused(p: Params, funds: nat, n: Net, i: nat) returns (n': Net)
    requires Metered(p) && i >= 1 && Reaches(p, funds, n) && Unrecorded(p, n.c, i, 2 * Owed(p, i))
    requires Resting(n.c, FundsNeeded, [C.EventSendFunds, C.EventPaymentSent(Due(p, i)),
                                        C.EventPaymentRequested(0), C.EventSendFunds])
    ensures Reaches(p, funds, n') && n'.t == n.t && n'.delivered == n.delivered
    ensures Unrecorded(p, n'.c, i, 2 * Owed(p, i))
    ensures Resting(n'.c, SendFunds, [C.EventPaymentSent(Due(p, i)), C.EventPaymentRequested(0), C.EventSendFunds,
                                      C.EventCreateVoucherFailed])
  {
    ThresholdsRise(p, i);
    var s, z, f := C.EventPaymentSent(Due(p, i)), C.EventPaymentRequested(0), C.EventSendFunds;
    assert n.c.queue == [f] + [s, z, f];
    var ds := n.c.ds.(status := SendFunds);
    assert C.CalcAmountToSend(ds) == Due(p, i);
    TriggersBefore(p, funds, n, f, [s, z, f], ds, C.EventCreateVoucherFailed);
    assert [s, z, f] + [C.EventCreateVoucherFailed] == [s, z, f, C.EventCreateVoucherFailed];
    n' := WithClient(n, ds, [s, z, f] + [C.EventCreateVoucherFailed]);
  }

  lemma DoublyAskedRecorded(p: Params, ds: C.ClientState, i: nat)
    requires Metered(p) && i >= 1 && ds.params == p && ds.currentInterval == T(p, i)
    requires ds.fundsSpent == Due(p, i - 1) && ds.paymentRequested == 2 * Owed(p, i)
    ensures C.AfterPayment(ds, Due(p, i))
         == ds.(paymentRequested := Owed(p, i), fundsSpent := Due(p, i), unsealFundsPaid := 0,
                bytesPaidFor := T(p, i), currentInterval := T(p, i + 1))
  {
    RecordAdvances(p, ds, i);
    ThresholdsRise(p, i);
  }

  /** The payment is recorded, and the client, asked for more, goes on behind the refusal. */
  lemma PaymentTakenUp(p: Params, funds: nat, n: Net, i: nat) returns (n': Net)
    requires Metered(p) && i >= 1 && Reaches(p, funds, n) && Unrecorded(p, n.c, i, 2 * Owed(p, i))
    requires Resting(n.c, SendFunds, [C.EventPaymentSent(Due(p, i)), C.EventPaymentRequested(0), C.EventSendFunds,
                                      C.EventCreateVoucherFailed])
    ensures Reaches(p, funds, n') && n'.t == n.t && n'.delivered == n.delivered
    ensures At(p, n'.c, i + 1, T(p, i), Owed(p, i))
    ensures Resting(n'.c, Ongoing, [C.EventPaymentRequested(0), C.EventSendFunds, C.EventCreateVoucherFailed,
                                    C.EventPaymentRequested(0)])
  {
    ThresholdsRise(p, i);
    var s, z, f, v := C.EventPaymentSent(Due(p, i)), C.EventPaymentRequested(0), C.EventSendFunds,
                      C.EventCreateVoucherFailed;
    assert n.c.queue == [s] + [z, f, v];
    DoublyAskedRecorded(p, n.c.ds, i);
    var ds := C.AfterPayment(n.c.ds, Due(p, i)).(status := Ongoing);
    TriggersBefore(p, funds, n, s, [z, f, v], ds, z);
    assert [z, f, v] + [z] == [z, f, v, z];
    n' := WithClient(n, ds, [z, f, v] + [z]);
  }

  /** It comes to send with too few bytes for its new threshold. */
  lemma NothingToSend(p: Params, funds: nat, n: Net, i: nat) returns (n': Net)
    requires Metered(p) && i >= 1 && Reaches(p, funds, n) && At(p, n.c, i + 1, T(p, i), Owed(p, i))
    requires Resting(n.c, Ongoing, [C.EventPaymentRequested(0), C.EventSendFunds, C.EventCreateVoucherFailed,
                                    C.EventPaymentRequested(0)])
    ensures Reaches(p, funds, n') && n'.t == n.t && n'.delivered == n.delivered
    ensures At(p, n'.c, i + 1, T(p, i), Owed(p, i))
    ensures Resting(n'.c, FundsNeeded, [C.EventSendFunds, C.EventCreateVoucherFailed, C.EventPaymentRequested(0)])
  {
    var z, f, v := C.EventPaymentRequested(0), C.EventSendFunds, C.EventCreateVoucherFailed;
    assert n.c.queue == [z] + [f, v, z];
    var ds := n.c.ds.(status := FundsNeeded);
    QuietsBefore(p, funds, n, z, [f, v, z], ds);
    n' := WithClient(n, ds, [f, v, z]);
  }

  lemma SendsNothing(p: Params, funds: nat, n: Net, i: nat) returns (n': Net)
    requires Metered(p) && i >= 1 && Reaches(p, funds, n) && At(p, n.c, i + 1, T(p, i), Owed(p, i))
    requires Resting(n.c, FundsNeeded, [C.EventSendFunds, C.EventCreateVoucherFailed, C.EventPaymentRequested(0)])
    ensures Reaches(p, funds, n') && n'.t == n.t && n'.delivered == n.delivered
    ensures At(p, n'.c, i + 1, T(p, i), Owed(p, i))
    ensures Resting(n'.c, SendFunds, [C.EventCreateVoucherFailed, C.EventPaymentRequested(0), C.EventPaymentNotSent])
  {
    ThresholdsRise(p, i + 1);
    var z, f, v, x := C.EventPaymentRequested(0), C.EventSendFunds, C.EventCreateVoucherFailed, C.EventPaymentNotSent;
    assert n.c.queue == [f] + [v, z];
    var ds := n.c.ds.(status := SendFunds);
    assert C.CalcAmountToSend(ds) == 0;
    TriggersBefore(p, funds, n, f, [v, z], ds, x);
    assert [v, z] + [x] == [v, z, x];
    n' := WithClient(n, ds, [v, z] + [x]);
  }

  /** There it takes up the refusal. */
  lemma RefusalTakenUp(p: Params, funds: nat, n: Net, i: nat) returns (n': Net)
    requires Metered(p) && i >= 1 && Reaches(p, funds, n) && At(p, n.c, i + 1, T(p, i), Owed(p, i))
    requires Resting(n.c, SendFunds, [C.EventCreateVoucherFailed, C.EventPaymentRequested(0), C.EventPaymentNotSent])
    ensures Reaches(p, funds, n') && n'.t == n.t && n'.delivered == n.delivered
    ensures At(p, n'.c, i + 1, T(p, i), Owed(p, i)) && n'.c.ds.status == Failing
  {
    var z, v, x := C.EventPaymentRequested(0), C.EventCreateVoucherFailed, C.EventPaymentNotSent;
    assert n.c.queue == [v] + [z, x];
    var ds := n.c.ds.(status := Failing);
    HandlerRuns(p, funds, n, v, [z, x], ds);
    n' := n.(c := n.c.(ds := ds, queue := [z, x], activity := C.Running));
  }

  /** Up to the first payment. */
  lemma ReachesFirstPaid(p: Params, funds: nat, n: Net, i: nat) returns (n': Net)
    requires Metered(p) && i >= 1 && Reaches(p, funds, n) && At(p, n.c, i, T(p, i - 1), 0) && Resting(n.c, Ongoing, [])
    ensures Reaches(p, funds, n') && n'.t == n.t && n'.delivered == n.delivered
    ensures Unrecorded(p, n'.c, i, Owed(p, i))
    ensures Resting(n'.c, SendFunds, [C.EventBlocksReceived(T(p, i)), C.EventPaymentRequested(Owed(p, i)),
                                      C.EventSendFunds, C.EventPaymentSent(Due(p, i))])
  {
    n' := EarlyRequest(p, funds, n, i);
    n' := FirstSend(p, funds, n', i);
    n' := SecondSend(p, funds, n', i);
    n' := FirstPays(p, funds, n', i);
  }

  /** From there to the failure. */
  lemma ReachesFailing(p: Params, funds: nat, n: Net, i: nat) returns (n': Net)
    requires Metered(p) && i >= 1 && Reaches(p, funds, n) && Unrecorded(p, n.c, i, Owed(p, i))
    requires Resting(n.c, SendFunds, [C.EventBlocksReceived(T(p, i)), C.EventPaymentRequested(Owed(p, i)),
                                      C.EventSendFunds, C.EventPaymentSent(Due(p, i))])
    ensures Reaches(p, funds, n') && n'.t == n.t && n'.delivered == n.delivered
    ensures At(p, n'.c, i + 1, T(p, i), Owed(p, i)) && n'.c.ds.status == Failing
  {
    n' := BackToSending(p, funds, n, i);
    n' := SecondRefused(p, funds, n', i);
    n' := PaymentTakenUp(p, funds, n', i);
    n' := NothingToSend(p, funds, n', i);
    n' := SendsNothing(p, funds, n', i);
    n' := RefusalTakenUp(p, funds, n', i);
  }

  /** Every deal with a price per byte, no unseal price, a first interval and funds can fail at every
      threshold, without any error, refusal or cancellation from outside: a request overtakes the
      blocks it is for, and the client asks twice for the same voucher.  The provider has sent the
      bytes of that threshold and waits for a payment. */
  lemma FailsAtEveryThreshold(p: Params, funds: nat, i: nat)
    requires Metered(p) && funds > 0 && i >= 1
    ensures exists n ::
              && Reaches(p, funds, n)
              && n.c.ds.status == Failing && n.c.ds.currentInterval == T(p, i + 1) && |n.c.vouchers| == i
              && n.t.deal.status == FundsNeeded && n.t.wire == n.c.received == T(p, i)
  {
    var n0 := ReachesStage(p, funds, i);
    var n1 := ReachesPause(p, funds, n0, i);
    var n2 := ReachesFirstPaid(p, funds, n1, i);
    var n3 := ReachesFailing(p, funds, n2, i);
  }
}
