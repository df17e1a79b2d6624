/** The funding queue of a payment channel (payments/channel.go).

Requests for funds are queued, merged into one on-chain message at a time and answered together.
Cancellations do not take the channel's lock, so they may land anywhere, also between the steps
of `processQueue`.  `FundingInvariant` is what holds in every reachable state of any interleaving.
 */
module Funding {
  import opened Deal

  type Cid = nat
  type Address = nat

  datatype Kind = CreateMsg | AddFundsMsg

  /** The stored channel; `channelID` is the identifier it got when it was created. */
  datatype Info = Info(
    channelID: nat,
    channel: Option<Address>,
    amount: nat,
    pending: nat,
    createMsg: Option<Cid>,
    addFundsMsg: Option<Cid>)

  /** A message that went to the chain, the requests merged into it and whether it was confirmed. */
  datatype Msg = Msg(cid: Cid, kind: Kind, channelID: nat, value: nat, reqs: seq<nat>, confirmed: bool)

  /** Requests are numbered in order of arrival; `amts[r]` is what request `r` asks for.  `waiting`
      maps each message somebody waits for to its position in `log`. */
  datatype State = State(
    amts: seq<nat>,
    active: set<nat>,
    queue: seq<nat>,
    info: Option<Info>,
    waiting: map<Cid, nat>,
    log: seq<Msg>,
    answered: seq<nat>,
    nextChannel: nat)

  datatype Result = Succeeded(addr: Address) | ExitFailed | WaitErrored

  datatype Step =
    | Enqueue(amt: nat)
    | Cancel(r: nat)
      // `late` are the requests cancelled before the merge sums up, `later` those cancelled before
      // the answers go out; `push` is the answer of the message pool
    | ProcessQueue(late: set<nat>, later: set<nat>, stored: bool, push: Option<Cid>)
    | MessageDone(cid: Cid, result: Result)

  /** The requests of a queue that are active, in order. */
  function Keep(queue: seq<nat>, active: set<nat>): (kept: seq<nat>)
    ensures forall r :: r in kept <==> r in queue && r in active
  {
    if queue == [] then []
    else
      var rest := Keep(queue[..|queue| - 1], active);
      var r := queue[|queue| - 1];
      assert queue == queue[..|queue| - 1] + [r];
      if r in active then rest + [r] else rest
  }

  function Amount(amts: seq<nat>, r: nat): nat {
    if r < |amts| then amts[r] else 0
  }

  function Sum(amts: seq<nat>, reqs: seq<nat>): nat {
    if reqs == [] then 0 else Sum(amts, reqs[..|reqs| - 1]) + Amount(amts, reqs[|reqs| - 1])
  }

  /** Whether a message is outstanding on the stored channel. */
  predicate Busy(info: Info) {
    info.createMsg.Some? || info.addFundsMsg.Some?
  }

  /** `create`: the message is sent, then the channel is stored. */
  function SendCreate(s: State, reqs: seq<nat>, amt: nat, cid: Cid): State {
    s.(info := Some(Info(s.nextChannel, None, 0, amt, Some(cid), None)),
       nextChannel := s.nextChannel + 1,
       waiting := s.waiting[cid := |s.log|],
       log := s.log + [Msg(cid, CreateMsg, s.nextChannel, amt, reqs, false)])
  }

  /** `addFunds`. */
  function SendAddFunds(s: State, reqs: seq<nat>, amt: nat, cid: Cid): State
    requires s.info.Some?
  {
    s.(info := Some(s.info.value.(pending := amt, addFundsMsg := Some(cid))),
       waiting := s.waiting[cid := |s.log|],
       log := s.log + [Msg(cid, AddFundsMsg, s.info.value.channelID, amt, reqs, false)])
  }

  /** `processTask`: the state, and whether the task is finished (with a result or an error) rather
      than waiting for the chain. */
  function ProcessTask(s: State, reqs: seq<nat>, amt: nat, stored: bool, push: Option<Cid>): (State, bool) {
    if !stored then (s, true)
    else if s.info.None? then
      (if push.Some? then SendCreate(s, reqs, amt, push.value) else s, true)
    else if Busy(s.info.value) then (s, false)
    else (if push.Some? then SendAddFunds(s, reqs, amt, push.value) else s, true)
  }

  /** `processQueue`. */
  function Processed(s: State, late: set<nat>, later: set<nat>, stored: bool, push: Option<Cid>): State
  {
    var queue := Keep(s.queue, s.active);
    if queue == [] then s.(queue := [])
    else
      var s := s.(queue := queue, active := s.active - late);
      var reqs := Keep(queue, s.active);
      var amt := Sum(s.amts, reqs);
      if amt == 0 then s
      else
        var (s', finished) := ProcessTask(s, reqs, amt, stored, push);
        if !finished then s'
        else
          var active := s'.active - later;
          s'.(queue := [], active := active, answered := s'.answered + Keep(queue, active))
  }

  /** `waitPaychCreateMsg` and `waitAddFundsMsg` on the stored channel. */
  function Confirmed(info: Info, kind: Kind, result: Result): Option<Info> {
    match (kind, result)
    case (_, WaitErrored) => Some(info)
    case (CreateMsg, ExitFailed) => None
    case (CreateMsg, Succeeded(addr)) =>
      Some(info.(channel := Some(addr), amount := info.pending, pending := 0, createMsg := None))
    case (AddFundsMsg, ExitFailed) => Some(info.(pending := 0, addFundsMsg := None))
    case (AddFundsMsg, Succeeded(_)) =>
      Some(info.(amount := info.amount + info.pending, pending := 0, addFundsMsg := None))
  }

  function Done(s: State, cid: Cid, result: Result): State
    requires cid in s.waiting && s.waiting[cid] < |s.log|
  {
    var i := s.waiting[cid];
    var msg := s.log[i];
    // the store is updated only if it still has the channel the message was sent for
    var info := if s.info.Some? && s.info.value.channelID == msg.channelID
                then Confirmed(s.info.value, msg.kind, result) else s.info;
    s.(info := info, waiting := s.waiting - {cid},
       log := if result.Succeeded? then s.log[i := msg.(confirmed := true)] else s.log)
  }

  // ---------- The channel object ----------

  class FundsChannel {
    var amts: seq<nat>
    var active: set<nat>
    var queue: seq<nat>
    var info: Option<Info>
    var waiting: map<Cid, nat>
    var log: seq<Msg>
    var answered: seq<nat>
    var nextChannel: nat

    ghost function View(): State
      reads this
    {
      State(amts, active, queue, info, waiting, log, answered, nextChannel)
    }

    constructor ()
      ensures View() == Initial()
    {
      amts, active, queue, info := [], {}, [], None;
      waiting, log, answered, nextChannel := map[], [], [], 0;
    }

    method EnqueueRequest(amt: nat) returns (r: nat)
      modifies this
      ensures View() == Take(old(View()), Enqueue(amt)) && r == |old(amts)|
    {
      r := |amts|;
      amts := amts + [amt];
      active := active + {r};
      queue := queue + [r];
    }

    method CancelRequest(r: nat)
      modifies this`active
      ensures View() == Take(old(View()), Cancel(r))
    {
      active := active - {r};
    }

    /** `filterQueue`: cancelled requests are squeezed out in place, then the queue is cut off. */
    method FilterQueue()
      modifies this`queue
      ensures queue == Keep(old(queue), active)
    {
      if |queue| == 0 {
        return;
      }
      ghost var was := queue;
      var i := 0;
      for k := 0 to |queue|
        invariant |queue| == |was| && i <= k
        invariant queue[..i] == Keep(was[..k], active)
        invariant forall j | k <= j < |was| :: queue[j] == was[j]
      {
        assert was[..k + 1][..k] == was[..k];
        var r := queue[k];
        if r in active {
          queue := queue[i := r];
          i := i + 1;
        }
      }
      assert was[..|was|] == was;
      queue := queue[..i];
    }

    /** `mergedFundsReq.sum`. */
    method MergedSum(reqs: seq<nat>) returns (sum: nat)
      ensures sum == Sum(amts, Keep(reqs, active))
    {
      sum := 0;
      for k := 0 to |reqs|
        invariant sum == Sum(amts, Keep(reqs[..k], active))
      {
        assert reqs[..k + 1][..k] == reqs[..k];
        if reqs[k] in active {
          assert (Keep(reqs[..k], active) + [reqs[k]])[..|Keep(reqs[..k], active)|] == Keep(reqs[..k], active);
          sum := sum + Amount(amts, reqs[k]);
        }
      }
      assert reqs[..|reqs|] == reqs;
    }

    method Process(late: set<nat>, later: set<nat>, stored: bool, push: Option<Cid>)
      modifies this
      ensures View() == Processed(old(View()), late, later, stored, push)
    {
      ghost var was := View();
      FilterQueue();
      if |queue| == 0 {
        return;
      }
      active := active - late;
      ghost var s := was.(queue := Keep(was.queue, was.active), active := was.active - late);
      assert View() == s;
      var amt := MergedSum(queue);
      if amt == 0 {
        return;
      }
      var finished := RunTask(amt, stored, push);
      if !finished {
        return;
      }
      active := active - later;
      answered := answered + Keep(queue, active);
      queue := [];
    }

    /** `processTask`: with `false` a message is still outstanding. */
    method RunTask(amt: nat, stored: bool, push: Option<Cid>) returns (finished: bool)
      modifies this
      ensures (View(), finished) == ProcessTask(old(View()), Keep(queue, active), amt, stored, push)
      ensures queue == old(queue) && active == old(active) && answered == old(answered)
    {
      if !stored {
        return true;
      }
      var reqs := Keep(queue, active);
      if info.None? {
        if push.Some? {
          info := Some(Info(nextChannel, None, 0, amt, push, None));
          waiting := waiting[push.value := |log|];
          log := log + [Msg(push.value, CreateMsg, nextChannel, amt, reqs, false)];
          nextChannel := nextChannel + 1;
        }
        return true;
      }
      if info.value.createMsg.Some? {
        return false;
      }
      if info.value.addFundsMsg.Some? {
        return false;
      }
      if push.Some? {
        waiting := waiting[push.value := |log|];
        log := log + [Msg(push.value, AddFundsMsg, info.value.channelID, amt, reqs, false)];
        info := Some(info.value.(pending := amt, addFundsMsg := push));
      }
      return true;
    }

    /** `waitPaychCreateMsg` on the stored channel. */
    method CreateIsDone(result: Result)
      requires info.Some?
      modifies this`info
      ensures info == Confirmed(old(info.value), CreateMsg, result)
    {
      if result.WaitErrored? {
        return;
      }
      if result.ExitFailed? {
        info := None;
        return;
      }
      var ci := info.value;
      ci := ci.(channel := Some(result.addr));
      ci := ci.(amount := ci.pending);
      ci := ci.(pending := 0, createMsg := None);
      info := Some(ci);
    }

    /** `waitAddFundsMsg` on the stored channel. */
    method AddFundsIsDone(result: Result)
      requires info.Some?
      modifies this`info
      ensures info == Confirmed(old(info.value), AddFundsMsg, result)
    {
      if result.WaitErrored? {
        return;
      }
      var ci := info.value;
      if result.Succeeded? {
        ci := ci.(amount := ci.amount + ci.pending);
      }
      ci := ci.(pending := 0, addFundsMsg := None);
      info := Some(ci);
    }

    method MessageIsDone(cid: Cid, result: Result)
      requires cid in waiting && waiting[cid] < |log|
      modifies this
      ensures View() == Done(old(View()), cid, result)
    {
      var i := waiting[cid];
      var msg := log[i];
      if info.Some? && info.value.channelID == msg.channelID {
        if msg.kind == CreateMsg {
          CreateIsDone(result);
        } else {
          AddFundsIsDone(result);
        }
      }
      if result.Succeeded? {
        log := log[i := msg.(confirmed := true)];
      }
      waiting := waiting - {cid};
    }
  }

  // ---------- Runs ----------

  function Initial(): State {
    State([], {}, [], None, map[], [], [], 0)
  }

  /** Message identifiers are never reused, and a result comes once, for an awaited message. */
  ghost predicate Legal(s: State, step: Step) {
    match step
    case ProcessQueue(_, _, _, push) => push.Some? ==> forall i | 0 <= i < |s.log| :: s.log[i].cid != push.value
    case MessageDone(cid, _) => cid in s.waiting && s.waiting[cid] < |s.log|
    case _ => true
  }

  function Take(s: State, step: Step): State
    requires step.MessageDone? ==> step.cid in s.waiting && s.waiting[step.cid] < |s.log|
  {
    match step
    case Enqueue(amt) =>
      s.(amts := s.amts + [amt], active := s.active + {|s.amts|}, queue := s.queue + [|s.amts|])
    case Cancel(r) => s.(active := s.active - {r})
    case ProcessQueue(late, later, stored, push) => Processed(s, late, later, stored, push)
    case MessageDone(cid, result) => Done(s, cid, result)
  }

  /** The confirmed value on a channel. */
  function ConfirmedValue(log: seq<Msg>, channelID: nat): nat {
    if log == [] then 0
    else
      var m := log[|log| - 1];
      ConfirmedValue(log[..|log| - 1], channelID) + if m.confirmed && m.channelID == channelID then m.value else 0
  }

  ghost predicate Distinct(s: seq<nat>) {
    forall i, j | 0 <= i < j < |s| :: s[i] != s[j]
  }

  predicate MergedIn(m: Msg, r: nat) {
    r in m.reqs
  }

  ghost predicate Unmerged(log: seq<Msg>, r: nat) {
    forall i | 0 <= i < |log| :: !MergedIn(log[i], r)
  }

  /** Requests: each is queued at most once, merged into at most one message and answered at most
      once; a queued one is neither merged nor answered; a message is worth what it merges. */
  ghost predicate RequestsOk(s: State) {
    && (forall r <- s.queue :: r < |s.amts| && r !in s.answered && Unmerged(s.log, r))
    && Distinct(s.queue)
    && Distinct(s.answered)
    && (forall r <- s.answered :: r < |s.amts|)
    && (forall i | 0 <= i < |s.log| :: MsgOk(s.amts, s.log[i]))
    && (forall i, j, r: nat | 0 <= i < j < |s.log| && MergedIn(s.log[i], r) :: !MergedIn(s.log[j], r))
  }

  ghost predicate MsgOk(amts: seq<nat>, m: Msg) {
    && (forall r <- m.reqs :: r < |amts|)
    && Distinct(m.reqs)
    && m.value == Sum(amts, m.reqs)
  }

  /** The one message a stored channel may have outstanding. */
  function Outstanding(info: Info): Option<Cid> {
    if info.createMsg.Some? then info.createMsg else info.addFundsMsg
  }

  ghost predicate InfoOk(s: State, info: Info) {
    && !(info.createMsg.Some? && info.addFundsMsg.Some?)
    && (info.createMsg.Some? <==> info.channel.None?)
    && info.channelID < s.nextChannel
    && info.amount == ConfirmedValue(s.log, info.channelID)
    && (info.createMsg.Some? ==> info.amount == 0)
    && (Outstanding(info).None? ==> info.pending == 0)
    && (Outstanding(info).Some? ==>
          exists i :: 0 <= i < |s.log| && Carries(s.log[i], info))
  }

  /** The message a stored channel waits for, and what it will bring. */
  predicate Carries(m: Msg, info: Info) {
    && Outstanding(info) == Some(m.cid)
    && m.value == info.pending
    && m.channelID == info.channelID
    && m.kind == (if info.createMsg.Some? then CreateMsg else AddFundsMsg)
    && !m.confirmed
  }

  /** Messages: at most one is awaited, and it is the one the stored channel names. */
  ghost predicate MessagesOk(s: State) {
    && (s.info.Some? ==> InfoOk(s, s.info.value))
    && (forall c <- s.waiting ::
          && s.info.Some? && Outstanding(s.info.value) == Some(c)
          && s.waiting[c] < |s.log| && s.log[s.waiting[c]].cid == c && Carries(s.log[s.waiting[c]], s.info.value))
    && (forall i, j | 0 <= i < j < |s.log| :: s.log[i].cid != s.log[j].cid)
    && (forall i | 0 <= i < |s.log| :: s.log[i].channelID < s.nextChannel)
  }

  // ---------- Lists ----------

  lemma {:induction false} KeepDistinct(queue: seq<nat>, active: set<nat>)
    requires Distinct(queue)
    ensures Distinct(Keep(queue, active))
  {
    if queue != [] {
      var init := queue[..|queue| - 1];
      KeepDistinct(init, active);
      assert queue[|queue| - 1] !in init;
    }
  }

  lemma DistinctAppend(a: seq<nat>, b: seq<nat>)
    requires Distinct(a) && Distinct(b) && forall x <- b :: x !in a
    ensures Distinct(a + b)
  {
    forall i, j | 0 <= i < j < |a + b| ensures (a + b)[i] != (a + b)[j] {
      if i < |a| <= j {
        assert b[j - |a|] in b;
      }
    }
  }

  lemma {:induction false} SumStable(amts: seq<nat>, amt: nat, reqs: seq<nat>)
    requires forall r <- reqs :: r < |amts|
    ensures Sum(amts + [amt], reqs) == Sum(amts, reqs)
  {
    if reqs != [] {
      var init := reqs[..|reqs| - 1];
      forall r | r in init ensures r < |amts| {
        assert r in reqs;
      }
      SumStable(amts, amt, init);
      assert reqs[|reqs| - 1] in reqs;
    }
  }

  lemma {:induction false} ConfirmedAppend(log: seq<Msg>, m: Msg, channelID: nat)
    requires !m.confirmed
    ensures ConfirmedValue(log + [m], channelID) == ConfirmedValue(log, channelID)
  {
    assert (log + [m])[..|log|] == log;
  }

  lemma {:induction false} ConfirmedNone(log: seq<Msg>, channelID: nat)
    requires forall i | 0 <= i < |log| :: log[i].channelID < channelID
    ensures ConfirmedValue(log, channelID) == 0
  {
    if log != [] {
      ConfirmedNone(log[..|log| - 1], channelID);
    }
  }

  lemma {:induction false} ConfirmedUpdate(log: seq<Msg>, i: nat, channelID: nat)
    requires i < |log| && !log[i].confirmed
    ensures ConfirmedValue(log[i := log[i].(confirmed := true)], channelID)
         == ConfirmedValue(log, channelID) + if log[i].channelID == channelID then log[i].value else 0
    decreases |log|
  {
    var last := |log| - 1;
    var log' := log[i := log[i].(confirmed := true)];
    if i == last {
      assert log'[..last] == log[..last];
    } else {
      assert log'[..last] == log[..last][i := log[i].(confirmed := true)];
      ConfirmedUpdate(log[..last], i, channelID);
    }
  }

  // ---------- What every step keeps ----------

  lemma RequestsEnqueue(s: State, amt: nat)
    requires RequestsOk(s)
    ensures RequestsOk(Take(s, Enqueue(amt)))
  {
    forall i | 0 <= i < |s.log| ensures MsgOk(s.amts + [amt], s.log[i]) {
      assert MsgOk(s.amts, s.log[i]);
      SumStable(s.amts, amt, s.log[i].reqs);
    }
    var r := |s.amts|;
    assert Unmerged(s.log, r) by {
      forall i | 0 <= i < |s.log| ensures !MergedIn(s.log[i], r) {
        assert MsgOk(s.amts, s.log[i]);
      }
    }
  }

  lemma RequestsDone(s: State, cid: Cid, result: Result)
    requires RequestsOk(s) && cid in s.waiting && s.waiting[cid] < |s.log|
    ensures RequestsOk(Done(s, cid, result))
  {
    var s' := Done(s, cid, result);
    assert forall i | 0 <= i < |s.log| :: s'.log[i].reqs == s.log[i].reqs && s'.log[i].value == s.log[i].value;
    forall i | 0 <= i < |s'.log| ensures MsgOk(s.amts, s'.log[i]) {
      assert MsgOk(s.amts, s.log[i]);
    }
    forall r | r in s'.queue ensures Unmerged(s'.log, r) {
      assert Unmerged(s.log, r);
      forall i | 0 <= i < |s'.log| ensures !MergedIn(s'.log[i], r) {
        assert !MergedIn(s.log[i], r);
      }
    }
    forall i, j, r: nat | 0 <= i < j < |s'.log| && MergedIn(s'.log[i], r) ensures !MergedIn(s'.log[j], r) {
      assert MergedIn(s.log[i], r);
      assert !MergedIn(s.log[j], r);
    }
  }

  /** A new message merges requests that no earlier one has. */
  lemma RequestsAppend(s: State, m: Msg)
    requires RequestsOk(s) && (forall r <- m.reqs :: r in s.queue) && MsgOk(s.amts, m)
    ensures forall i, j, r: nat | 0 <= i < j < |s.log| + 1 && MergedIn((s.log + [m])[i], r) :: !MergedIn((s.log + [m])[j], r)
  {
    var log := s.log + [m];
    forall i, j, r: nat | 0 <= i < j < |log| && MergedIn(log[i], r) ensures !MergedIn(log[j], r) {
      if j == |s.log| {
        if r in m.reqs {
          assert false;
        }
      } else {
        assert MergedIn(s.log[i], r);
      }
    }
  }

  lemma RequestsProcess(s: State, late: set<nat>, later: set<nat>, stored: bool, push: Option<Cid>)
    requires RequestsOk(s)
    ensures RequestsOk(Processed(s, late, later, stored, push))
  {
    var queue := Keep(s.queue, s.active);
    KeepDistinct(s.queue, s.active);
    if queue != [] {
      var s1 := s.(queue := queue, active := s.active - late);
      var reqs := Keep(queue, s1.active);
      KeepDistinct(queue, s1.active);
      var amt := Sum(s1.amts, reqs);
      var (s2, finished) := ProcessTask(s1, reqs, amt, stored, push);
      assert s2.amts == s.amts && s2.answered == s.answered && s2.queue == queue;
      if s2.log != s.log {
        var m := s2.log[|s.log|];
        assert s2.log == s.log + [m] && m.reqs == reqs && m.value == amt;
        assert MsgOk(s.amts, m);
        RequestsAppend(s1, m);
        assert forall i | 0 <= i < |s2.log| :: MsgOk(s2.amts, s2.log[i]);
      }
      KeepDistinct(queue, s2.active - later);
      DistinctAppend(s.answered, Keep(queue, s2.active - later));
    }
  }

  lemma MessagesSendCreate(s: State, reqs: seq<nat>, amt: nat, cid: Cid)
    requires MessagesOk(s) && s.info.None? && (forall i | 0 <= i < |s.log| :: s.log[i].cid != cid)
    ensures MessagesOk(SendCreate(s, reqs, amt, cid))
  {
    var s' := SendCreate(s, reqs, amt, cid);
    assert s.waiting == map[];
    ConfirmedNone(s.log, s.nextChannel);
    ConfirmedAppend(s.log, s'.log[|s.log|], s.nextChannel);
    assert Carries(s'.log[|s.log|], s'.info.value);
  }

  lemma MessagesSendAddFunds(s: State, reqs: seq<nat>, amt: nat, cid: Cid)
    requires MessagesOk(s) && s.info.Some? && !Busy(s.info.value)
    requires forall i | 0 <= i < |s.log| :: s.log[i].cid != cid
    ensures MessagesOk(SendAddFunds(s, reqs, amt, cid))
  {
    var s' := SendAddFunds(s, reqs, amt, cid);
    assert s.waiting == map[];
    ConfirmedAppend(s.log, s'.log[|s.log|], s.info.value.channelID);
    assert Carries(s'.log[|s.log|], s'.info.value);
  }

  lemma MessagesTask(s: State, reqs: seq<nat>, amt: nat, stored: bool, push: Option<Cid>)
    requires MessagesOk(s)
    requires push.Some? ==> forall i | 0 <= i < |s.log| :: s.log[i].cid != push.value
    ensures MessagesOk(ProcessTask(s, reqs, amt, stored, push).0)
  {
    if push.Some? {
      if s.info.None? {
        MessagesSendCreate(s, reqs, amt, push.value);
      } else if !Busy(s.info.value) {
        MessagesSendAddFunds(s, reqs, amt, push.value);
      }
    }
  }

  /** Messages do not depend on the queue. */
  predicate SameMessages(s: State, s': State) {
    s'.info == s.info && s'.waiting == s.waiting && s'.log == s.log && s'.nextChannel == s.nextChannel
  }

  lemma MessagesStay(s: State, s': State)
    requires MessagesOk(s) && SameMessages(s, s')
    ensures MessagesOk(s')
  {
    if s.info.Some? {
      assert InfoOk(s, s.info.value) && InfoOk(s', s.info.value);
    }
  }

  lemma MessagesProcess(s: State, late: set<nat>, later: set<nat>, stored: bool, push: Option<Cid>)
    requires MessagesOk(s) && Legal(s, ProcessQueue(late, later, stored, push))
    ensures MessagesOk(Processed(s, late, later, stored, push))
  {
    var s' := Processed(s, late, later, stored, push);
    var queue := Keep(s.queue, s.active);
    var s1 := s.(queue := queue, active := s.active - late);
    var reqs := Keep(queue, s1.active);
    var amt := Sum(s1.amts, reqs);
    MessagesStay(s, s1);
    if queue == [] || amt == 0 {
      MessagesStay(s, s');
    } else {
      MessagesTask(s1, reqs, amt, stored, push);
      MessagesStay(ProcessTask(s1, reqs, amt, stored, push).0, s');
    }
  }

  lemma MessagesDone(s: State, cid: Cid, result: Result)
    requires MessagesOk(s) && cid in s.waiting
    ensures s.waiting[cid] < |s.log| && MessagesOk(Done(s, cid, result))
  {
    var s' := Done(s, cid, result);
    var i := s.waiting[cid];
    assert s'.waiting == map[];
    if result.Succeeded? {
      ConfirmedUpdate(s.log, i, s.info.value.channelID);
    } else if s'.info.Some? && Outstanding(s'.info.value).Some? {
      assert Carries(s'.log[i], s'.info.value);
    }
  }

  ghost predicate Ok(s: State) {
    RequestsOk(s) && MessagesOk(s)
  }

  lemma StepKeeps(s: State, step: Step)
    requires Ok(s) && Legal(s, step)
    ensures Ok(Take(s, step))
  {
    match step
    case Enqueue(amt) => RequestsEnqueue(s, amt);
    case Cancel(r) =>
    case ProcessQueue(late, later, stored, push) =>
      RequestsProcess(s, late, later, stored, push);
      MessagesProcess(s, late, later, stored, push);
    case MessageDone(cid, result) =>
      RequestsDone(s, cid, result);
      MessagesDone(s, cid, result);
  }

  ghost predicate Follows(s: State, step: Step, s': State) {
    Legal(s, step) && s' == Take(s, step)
  }

  ghost predicate Run(ss: seq<State>, steps: seq<Step>) {
    && |ss| == |steps| + 1
    && ss[0] == Initial()
    && forall i | 0 <= i < |steps| :: Follows(ss[i], steps[i], ss[i + 1])
  }

  lemma {:induction false} RunKeeps(ss: seq<State>, steps: seq<Step>, i: nat)
    requires Run(ss, steps) && i < |ss|
    ensures Ok(ss[i])
  {
    if i > 0 {
      RunKeeps(ss, steps, i - 1);
      assert Follows(ss[i - 1], steps[i - 1], ss[i]);
      StepKeeps(ss[i - 1], steps[i - 1]);
    }
  }

  lemma AtMostOneWaiting(s: State)
    requires MessagesOk(s)
    ensures |s.waiting| <= 1
  {
    if s.waiting != map[] {
      var c :| c in s.waiting;
      assert s.waiting.Keys == {c};
    }
  }

  /** Over any interleaving of requests, cancellations, queue runs and message results: at most one
      message is outstanding; while one is, the pending amount is its value, and otherwise zero; the
      amount is the confirmed value of the stored channel; every message is worth the requests it
      merged; no request is merged twice or answered twice; and a channel without an outstanding
      message has an address. */
  lemma FundingInvariant(ss: seq<State>, steps: seq<Step>, i: nat)
    requires Run(ss, steps) && i < |ss|
    ensures |ss[i].waiting| <= 1
    ensures RequestsOk(ss[i])
    ensures ss[i].info.Some? ==>
              var info := ss[i].info.value;
              && !(info.createMsg.Some? && info.addFundsMsg.Some?)
              && info.amount == ConfirmedValue(ss[i].log, info.channelID)
              && (!Busy(info) ==> info.pending == 0 && info.channel.Some?)
              && (Busy(info) ==> exists k :: 0 <= k < |ss[i].log| && Carries(ss[i].log[k], info))
  {
    RunKeeps(ss, steps, i);
    AtMostOneWaiting(ss[i]);
  }

  // ---------- Losing sight of a message ----------

  /** The stored channel has a message outstanding that nobody waits for. */
  predicate Stuck(s: State) {
    s.info.Some? && Busy(s.info.value) && s.waiting == map[]
  }

  lemma StuckStays(s: State, step: Step)
    requires Stuck(s) && Legal(s, step)
    ensures Stuck(Take(s, step)) && Take(s, step).info == s.info && Take(s, step).log == s.log
  {
  }

  lemma StuckFollows(s: State, step: Step, s': State)
    requires Stuck(s) && Follows(s, step, s')
    ensures Stuck(s') && s'.info == s.info && s'.log == s.log
  {
    StuckStays(s, step);
  }

  /** A channel gets stuck exactly when waiting for its message fails. */
  lemma StuckIff(ss: seq<State>, steps: seq<Step>, i: nat)
    requires Run(ss, steps) && i < |steps| && !Stuck(ss[i])
    ensures Stuck(ss[i + 1]) <==> steps[i].MessageDone? && steps[i].result.WaitErrored?
  {
    RunKeeps(ss, steps, i);
    assert Follows(ss[i], steps[i], ss[i + 1]);
  }

  /** From then on no message is ever sent for it, and the stored channel never changes again. */
  lemma {:induction false} StuckForever(ss: seq<State>, steps: seq<Step>, i: nat, j: nat)
    requires Run(ss, steps) && i <= j < |ss| && Stuck(ss[i])
    ensures Stuck(ss[j]) && ss[j].info == ss[i].info && ss[j].log == ss[i].log
  {
    if j > i {
      StuckForever(ss, steps, i, j - 1);
      StuckFollows(ss[j - 1], steps[j - 1], ss[j]);
    }
  }

  // ---------- When a request is answered ----------

  /** Some request that is queued and not cancelled asks for money. */
  ghost predicate AsksForMoney(s: State, cancelled: set<nat>) {
    exists r :: r in s.queue && r in s.active - cancelled && Amount(s.amts, r) > 0
  }

  /** The queue is run when no message is outstanding, or when the store cannot be read. */
  predicate TaskFinishes(s: State, stored: bool) {
    !stored || s.info.None? || !Busy(s.info.value)
  }

  lemma {:induction false} SumZeroIff(amts: seq<nat>, reqs: seq<nat>)
    ensures Sum(amts, reqs) == 0 <==> forall r <- reqs :: Amount(amts, r) == 0
  {
    if reqs != [] {
      var last := reqs[|reqs| - 1];
      SumZeroIff(amts, reqs[..|reqs| - 1]);
      assert reqs == reqs[..|reqs| - 1] + [last];
    }
  }

  /** The requests a queue run sums up. */
  lemma MergedAsks(s: State, late: set<nat>)
    ensures var reqs := Keep(Keep(s.queue, s.active), s.active - late);
            Sum(s.amts, reqs) == 0 <==> !AsksForMoney(s, late)
  {
    SumZeroIff(s.amts, Keep(Keep(s.queue, s.active), s.active - late));
  }

  /** What a queue run answers. */
  lemma AnswersOfRun(s: State, late: set<nat>, later: set<nat>, stored: bool, push: Option<Cid>)
    ensures var s' := Processed(s, late, later, stored, push);
            s'.answered == if AsksForMoney(s, late) && TaskFinishes(s, stored)
                           then s.answered + Keep(Keep(s.queue, s.active), s.active - late - later) else s.answered
  {
    MergedAsks(s, late);
  }

  /** A request is answered exactly by a queue run that finds it queued and not cancelled, sums up to
      more than zero and finds no message outstanding. */
  lemma AnsweredIff(ss: seq<State>, steps: seq<Step>, i: nat, r: nat)
    requires Run(ss, steps) && i < |steps| && r !in ss[i].answered
    ensures r in ss[i + 1].answered <==>
              match steps[i]
              case ProcessQueue(late, later, stored, _) =>
                && r in ss[i].queue && r in ss[i].active - late - later
                && AsksForMoney(ss[i], late) && TaskFinishes(ss[i], stored)
              case _ => false
  {
    assert Follows(ss[i], steps[i], ss[i + 1]);
    match steps[i]
    case ProcessQueue(late, later, stored, push) => AnswersOfRun(ss[i], late, later, stored, push);
    case _ =>
  }

  lemma ZeroFollows(s: State, step: Step, s': State)
    requires Ok(s) && Follows(s, step, s') && !AsksForMoney(s, {}) && (step.Enqueue? ==> step.amt == 0)
    ensures !AsksForMoney(s', {}) && s'.answered == s.answered
    ensures step.ProcessQueue? ==> s'.log == s.log
  {
    if step.ProcessQueue? {
      MergedAsks(s, step.late);
    }
  }

  /** Requests for nothing wait: while no request asks for money, queue runs answer none of them. */
  lemma {:induction false} ZeroWaits(ss: seq<State>, steps: seq<Step>, i: nat, j: nat)
    requires Run(ss, steps) && i <= j < |ss| && !AsksForMoney(ss[i], {})
    requires forall k | i <= k < j :: steps[k].Enqueue? ==> steps[k].amt == 0
    ensures !AsksForMoney(ss[j], {}) && ss[j].answered == ss[i].answered
  {
    if i < j {
      ZeroWaits(ss, steps, i, j - 1);
      RunKeeps(ss, steps, j - 1);
      ZeroFollows(ss[j - 1], steps[j - 1], ss[j]);
    }
  }
}
