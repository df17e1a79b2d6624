/** Submitting vouchers to the chain (payments/store.go, payments/manager.go).

Submitting a voucher marks it and every lower voucher of its lane.  `SubmittedDownwardClosed` is
about every run of additions and submissions; `BestIsTop` and `SubmittingBestClearsLane` say that
picking the best spendable voucher of a lane redeems the whole lane.
 */
module Submission {
  import opened Lanes

  function IndexOf(vs: seq<VoucherInfo>, v: Voucher): (i: nat)
    requires Has(vs, v)
    ensures i < |vs| && vs[i].voucher == v
    ensures forall j | 0 <= j < i :: vs[j].voucher != v
  {
    if vs[0].voucher == v then 0
    else
      assert Has(vs[1..], v) by {
        var i :| 0 <= i < |vs| && vs[i].voucher == v;
        assert vs[1..][i - 1].voucher == v;
      }
      var i := IndexOf(vs[1..], v);
      assert forall j | 0 < j < i + 1 :: vs[j].voucher == vs[1..][j - 1].voucher;
      1 + i
  }

  /** `markVoucherSubmitted`, which marks the first stored copy of the voucher. */
  function Mark(vs: seq<VoucherInfo>, v: Voucher): seq<VoucherInfo>
    requires Has(vs, v)
  {
    seq(|vs|, i requires 0 <= i < |vs| =>
      if i == IndexOf(vs, v) || (vs[i].voucher.lane == v.lane && vs[i].voucher.nonce < v.nonce)
      then vs[i].(submitted := true) else vs[i])
  }

  /** `submitVoucher`; `pushed` says whether the message pool takes the update message.  A voucher
      the channel did not have is appended as it is. */
  function Submit(vs: seq<VoucherInfo>, v: Voucher, pushed: bool): (seq<VoucherInfo>, bool) {
    if Has(vs, v) && vs[IndexOf(vs, v)].submitted then (vs, false)
    else if !pushed then (vs, false)
    else
      var vs' := if Has(vs, v) then vs else vs + [VoucherInfo(v, false)];
      assert !Has(vs, v) ==> vs'[|vs|].voucher == v;
      (Mark(vs', v), true)
  }

  predicate IsSubmitted(vs: seq<VoucherInfo>, v: Voucher) {
    Has(vs, v) && vs[IndexOf(vs, v)].submitted
  }

  lemma MarkSubmits(vs: seq<VoucherInfo>, v: Voucher)
    requires Has(vs, v)
    ensures IsSubmitted(Mark(vs, v), v)
  {
    var vs' := Mark(vs, v);
    assert vs'[IndexOf(vs, v)].voucher == v;
    assert IndexOf(vs', v) == IndexOf(vs, v);
  }

  /** No submitted voucher has an unsubmitted one below it in its lane. */
  ghost predicate DownwardClosed(vs: seq<VoucherInfo>) {
    forall i, j | 0 <= i < |vs| && 0 <= j < |vs| && vs[j].submitted
                  && vs[i].voucher.lane == vs[j].voucher.lane && vs[i].voucher.nonce < vs[j].voucher.nonce ::
      vs[i].submitted
  }

  ghost predicate SameVouchers(a: seq<VoucherInfo>, b: seq<VoucherInfo>) {
    |a| == |b| && forall i | 0 <= i < |a| :: a[i].voucher == b[i].voucher
  }

  lemma {:induction false} OverlayIgnoresFlags(lanes: LaneMap, a: seq<VoucherInfo>, b: seq<VoucherInfo>)
    requires SameVouchers(a, b)
    ensures Overlay(lanes, a) == Overlay(lanes, b)
  {
    if a != [] {
      OverlayIgnoresFlags(lanes, a[..|a| - 1], b[..|b| - 1]);
    }
  }

  lemma MarkKeepsClosed(vs: seq<VoucherInfo>, v: Voucher)
    requires DownwardClosed(vs) && Has(vs, v)
    ensures DownwardClosed(Mark(vs, v)) && SameVouchers(vs, Mark(vs, v))
  {
  }

  lemma AppendKeepsClosed(base: LaneMap, vs: seq<VoucherInfo>, v: Voucher)
    requires DownwardClosed(vs) && Ordered(base, vs + [VoucherInfo(v, false)])
    ensures DownwardClosed(vs + [VoucherInfo(v, false)])
  {
    var vs' := vs + [VoucherInfo(v, false)];
    forall i, j | 0 <= i < |vs'| && 0 <= j < |vs'| && vs'[j].submitted
                  && vs'[i].voucher.lane == vs'[j].voucher.lane && vs'[i].voucher.nonce < vs'[j].voucher.nonce
      ensures vs'[i].submitted
    {
      assert i < |vs|;
    }
  }

  // ---------- Runs of additions and submissions ----------

  datatype Op = AddOp(s: Lanes.Step) | SubmitOp(v: Voucher, pushed: bool)

  /** Only stored vouchers are submitted. */
  ghost predicate Legal(base: LaneMap, b: Book, op: Op) {
    match op
    case AddOp(s) => Lanes.Legal(base, b, s)
    case SubmitOp(v, _) => Has(b.ci.vouchers, v)
  }

  ghost function Take(b: Book, op: Op): Book {
    match op
    case AddOp(s) => Lanes.Take(b, s)
    case SubmitOp(v, pushed) => b.(ci := b.ci.(vouchers := Submit(b.ci.vouchers, v, pushed).0))
  }

  ghost predicate Follows(base: LaneMap, b: Book, op: Op, b': Book) {
    Legal(base, b, op) && b' == Take(b, op)
  }

  ghost predicate Run(base: LaneMap, bs: seq<Book>, ops: seq<Op>) {
    && |bs| == |ops| + 1
    && bs[0].ci.vouchers == [] && Total(base) <= bs[0].balance
    && forall i | 0 <= i < |ops| :: Follows(base, bs[i], ops[i], bs[i + 1])
  }

  ghost predicate Settled(base: LaneMap, b: Book) {
    Sound(base, b) && DownwardClosed(b.ci.vouchers)
  }

  lemma AddOpKeeps(base: LaneMap, b: Book, s: Lanes.Step)
    requires Settled(base, b) && Lanes.Legal(base, b, s)
    ensures Settled(base, Lanes.Take(b, s))
  {
    AddKeeps(base, b, s);
    if Outcome(b, s).Added? {
      AcceptedIs(b.ci, s.chain, s.v, s.minDelta);
      AppendKeepsClosed(base, b.ci.vouchers, s.v);
    }
  }

  lemma SubmitOpKeeps(base: LaneMap, b: Book, v: Voucher, pushed: bool)
    requires Settled(base, b) && Has(b.ci.vouchers, v)
    ensures Settled(base, Take(b, SubmitOp(v, pushed)))
  {
    MarkKeepsClosed(b.ci.vouchers, v);
    OverlayIgnoresFlags(base, b.ci.vouchers, Mark(b.ci.vouchers, v));
  }

  lemma OpKeeps(base: LaneMap, b: Book, op: Op)
    requires Settled(base, b) && Legal(base, b, op)
    ensures Settled(base, Take(b, op))
  {
    match op
    case AddOp(s) => AddOpKeeps(base, b, s);
    case SubmitOp(v, pushed) => SubmitOpKeeps(base, b, v, pushed);
  }

  /** Across additions and submissions in any order, the submitted vouchers of a lane are its
      lowest ones, the lanes stay ordered and the balance covers them. */
  lemma {:induction false} SubmittedDownwardClosed(base: LaneMap, bs: seq<Book>, ops: seq<Op>, i: nat)
    requires Run(base, bs, ops) && i < |bs|
    ensures DownwardClosed(bs[i].ci.vouchers) && Sound(base, bs[i])
  {
    if i > 0 {
      SubmittedDownwardClosed(base, bs, ops, i - 1);
      assert Follows(base, bs[i - 1], ops[i - 1], bs[i]);
      OpKeeps(base, bs[i - 1], ops[i - 1]);
    }
  }

  /** `b` is `a` with vouchers marked or added. */
  ghost predicate Continued(a: seq<VoucherInfo>, b: seq<VoucherInfo>) {
    && |a| <= |b|
    && forall i | 0 <= i < |a| :: b[i].voucher == a[i].voucher && (a[i].submitted ==> b[i].submitted)
  }

  lemma OpContinues(base: LaneMap, b: Book, op: Op)
    requires Legal(base, b, op)
    ensures Continued(b.ci.vouchers, Take(b, op).ci.vouchers)
  {
  }

  lemma SubmittedContinues(a: seq<VoucherInfo>, b: seq<VoucherInfo>, v: Voucher)
    requires Continued(a, b) && IsSubmitted(a, v)
    ensures IsSubmitted(b, v)
  {
    var i := IndexOf(a, v);
    assert b[i].voucher == v;
    assert IndexOf(b, v) == i;
  }

  /** A submitted voucher stays submitted over every run, so it is never spendable again.  It was
      marked when its message was pushed, whether or not the chain went on to accept the update. */
  lemma {:induction false} SubmittedForever(base: LaneMap, bs: seq<Book>, ops: seq<Op>, i: nat, j: nat, v: Voucher)
    requires Run(base, bs, ops) && i <= j < |bs| && IsSubmitted(bs[i].ci.vouchers, v)
    ensures IsSubmitted(bs[j].ci.vouchers, v)
    ensures forall calls :: !Spendable(bs[j].ci.vouchers, v, calls)
  {
    if i < j {
      SubmittedForever(base, bs, ops, i, j - 1, v);
      assert Follows(base, bs[j - 1], ops[j - 1], bs[j]);
      OpContinues(base, bs[j - 1], ops[j - 1]);
      SubmittedContinues(bs[j - 1].ci.vouchers, bs[j].ci.vouchers, v);
    }
  }

  // ---------- The best spendable voucher ----------

  /** `checkVoucherSpendable`, by the first stored copy of the voucher; `calls` are the vouchers the
      chain would accept. */
  predicate Spendable(vs: seq<VoucherInfo>, v: Voucher, calls: set<Voucher>) {
    Has(vs, v) && !vs[IndexOf(vs, v)].submitted && v in calls
  }

  ghost predicate Covers(best: map<nat, Voucher>, v: Voucher) {
    v.lane in best && v.amount <= best[v.lane].amount
  }

  /** For each lane with a spendable voucher among the first `n`, one of the highest amount. */
  ghost predicate IsBestOf(vs: seq<VoucherInfo>, n: nat, calls: set<Voucher>, best: map<nat, Voucher>)
    requires n <= |vs|
  {
    && (forall l <- best :: best[l].lane == l && Spendable(vs, best[l], calls))
    && (forall i | 0 <= i < n && Spendable(vs, vs[i].voucher, calls) :: Covers(best, vs[i].voucher))
  }

  /** What `bestSpendableByLane` returns. */
  ghost predicate IsBest(vs: seq<VoucherInfo>, calls: set<Voucher>, best: map<nat, Voucher>) {
    IsBestOf(vs, |vs|, calls, best)
  }

  lemma BestExtends(vs: seq<VoucherInfo>, n: nat, calls: set<Voucher>, best: map<nat, Voucher>, best': map<nat, Voucher>)
    requires n < |vs| && IsBestOf(vs, n, calls, best)
    requires var v := vs[n].voucher;
             best' == if Spendable(vs, v, calls) && (v.lane !in best || v.amount > best[v.lane].amount)
                      then best[v.lane := v] else best
    ensures IsBestOf(vs, n + 1, calls, best')
  {
    forall i | 0 <= i < n + 1 && Spendable(vs, vs[i].voucher, calls) ensures Covers(best', vs[i].voucher) {
      if i < n {
        assert Covers(best, vs[i].voucher);
      }
    }
  }

  /** The lane has a voucher that is spendable. */
  ghost predicate LaneSpendable(vs: seq<VoucherInfo>, calls: set<Voucher>, lane: nat) {
    exists i :: 0 <= i < |vs| && vs[i].voucher.lane == lane && Spendable(vs, vs[i].voucher, calls)
  }

  lemma BestIff(vs: seq<VoucherInfo>, calls: set<Voucher>, best: map<nat, Voucher>, lane: nat)
    requires IsBest(vs, calls, best)
    ensures lane in best <==> LaneSpendable(vs, calls, lane)
  {
    if lane in best {
      assert vs[IndexOf(vs, best[lane])].voucher == best[lane];
    }
  }

  /** Every unsubmitted voucher of an ordered channel is one the chain would take. */
  ghost predicate Redeemable(base: LaneMap, vs: seq<VoucherInfo>, calls: set<Voucher>) {
    && Ordered(base, vs) && DownwardClosed(vs)
    && forall i | 0 <= i < |vs| && !vs[i].submitted :: vs[i].voucher in calls
  }

  ghost predicate LaneCleared(vs: seq<VoucherInfo>, lane: nat) {
    forall i | 0 <= i < |vs| && vs[i].voucher.lane == lane :: vs[i].submitted
  }

  lemma Unique(base: LaneMap, vs: seq<VoucherInfo>, v: Voucher, i: nat)
    requires Ordered(base, vs) && i < |vs| && vs[i].voucher == v
    ensures Has(vs, v) && IndexOf(vs, v) == i
  {
    assert Has(vs, v);
    var j := IndexOf(vs, v);
    if j < i {
      assert false;
    }
  }

  /** When the chain would take every unsubmitted voucher, the best of a lane is its highest one,
      and a lane is missing exactly when nothing in it is left to submit. */
  lemma BestIsTop(base: LaneMap, vs: seq<VoucherInfo>, calls: set<Voucher>, best: map<nat, Voucher>, lane: nat)
    requires Redeemable(base, vs, calls) && IsBest(vs, calls, best)
    ensures lane in best <==> !LaneCleared(vs, lane)
    ensures lane in best ==>
              forall i | 0 <= i < |vs| && vs[i].voucher.lane == lane && i != IndexOf(vs, best[lane]) ::
                vs[i].voucher.nonce < best[lane].nonce
  {
    if lane in best {
      BestAboveLane(base, vs, calls, best, lane);
    } else if !LaneCleared(vs, lane) {
      var i :| 0 <= i < |vs| && vs[i].voucher.lane == lane && !vs[i].submitted;
      Unique(base, vs, vs[i].voucher, i);
      assert Spendable(vs, vs[i].voucher, calls);
      assert false;
    }
  }

  lemma BestAboveLane(base: LaneMap, vs: seq<VoucherInfo>, calls: set<Voucher>, best: map<nat, Voucher>, lane: nat)
    requires Redeemable(base, vs, calls) && IsBest(vs, calls, best) && lane in best
    ensures !LaneCleared(vs, lane)
    ensures forall i | 0 <= i < |vs| && vs[i].voucher.lane == lane && i != IndexOf(vs, best[lane]) ::
              vs[i].voucher.nonce < best[lane].nonce
  {
    var b := IndexOf(vs, best[lane]);
    assert vs[b].voucher.lane == lane && !vs[b].submitted;
    forall i | 0 <= i < |vs| && vs[i].voucher.lane == lane && i != b ensures vs[i].voucher.nonce < best[lane].nonce {
      if i > b {
        assert vs[b].voucher.nonce < vs[i].voucher.nonce && vs[b].voucher.amount < vs[i].voucher.amount;
        assert !vs[i].submitted;
        Unique(base, vs, vs[i].voucher, i);
        assert false;
      }
    }
  }

  /** Marking the one highest voucher of a lane clears the lane. */
  lemma MarkClears(vs: seq<VoucherInfo>, v: Voucher)
    requires Has(vs, v)
    requires forall i | 0 <= i < |vs| && vs[i].voucher.lane == v.lane && i != IndexOf(vs, v) :: vs[i].voucher.nonce < v.nonce
    ensures LaneCleared(Mark(vs, v), v.lane)
  {
  }

  /** Submitting the best voucher of a lane leaves nothing to submit in it and touches no other lane. */
  lemma SubmittingBestClearsLane(base: LaneMap, vs: seq<VoucherInfo>, calls: set<Voucher>,
                                 best: map<nat, Voucher>, lane: nat)
    requires Redeemable(base, vs, calls) && IsBest(vs, calls, best) && lane in best
    ensures Submit(vs, best[lane], true) == (Mark(vs, best[lane]), true)
    ensures var vs' := Mark(vs, best[lane]);
            && LaneCleared(vs', lane)
            && (forall i | 0 <= i < |vs| && vs[i].voucher.lane != lane :: vs'[i] == vs[i])
  {
    BestIsTop(base, vs, calls, best, lane);
    MarkClears(vs, best[lane]);
  }

  // ---------- Submitting every lane ----------

  /** What submitting the best vouchers of `lanes` leaves: in each, the best and the lower ones marked. */
  function Swept(vs: seq<VoucherInfo>, best: map<nat, Voucher>, lanes: set<nat>): seq<VoucherInfo>
    requires forall l <- best :: Has(vs, best[l])
  {
    seq(|vs|, i requires 0 <= i < |vs| =>
      var l := vs[i].voucher.lane;
      if l in lanes && l in best && (i == IndexOf(vs, best[l]) || vs[i].voucher.nonce < best[l].nonce)
      then vs[i].(submitted := true) else vs[i])
  }

  lemma {:induction false} IndexOfSame(a: seq<VoucherInfo>, b: seq<VoucherInfo>, v: Voucher)
    requires SameVouchers(a, b) && Has(a, v)
    ensures Has(b, v) && IndexOf(b, v) == IndexOf(a, v)
  {
    var i := IndexOf(a, v);
    assert b[i].voucher == v;
    assert forall j | 0 <= j < i :: b[j].voucher != v;
    var j := IndexOf(b, v);
    assert a[j].voucher == v;
  }

  /** Each best voucher is of its lane, stored and not submitted. */
  predicate Fresh(vs: seq<VoucherInfo>, best: map<nat, Voucher>) {
    forall l <- best :: best[l].lane == l && Has(vs, best[l]) && !vs[IndexOf(vs, best[l])].submitted
  }

  /** The best voucher of a lane that was not submitted is still as it was. */
  lemma StillFresh(vs: seq<VoucherInfo>, best: map<nat, Voucher>, lanes: set<nat>, l: nat)
    requires Fresh(vs, best) && l in best && l !in lanes
    ensures var now := Swept(vs, best, lanes);
            && Has(now, best[l]) && IndexOf(now, best[l]) == IndexOf(vs, best[l])
            && !now[IndexOf(vs, best[l])].submitted
  {
    IndexOfSame(vs, Swept(vs, best, lanes), best[l]);
  }

  /** Marking it goes on with the sweep. */
  lemma MarkSweeps(vs: seq<VoucherInfo>, best: map<nat, Voucher>, lanes: set<nat>, l: nat)
    requires Fresh(vs, best) && l in best && l !in lanes
    ensures Has(Swept(vs, best, lanes), best[l])
    ensures Mark(Swept(vs, best, lanes), best[l]) == Swept(vs, best, lanes + {l})
  {
    StillFresh(vs, best, lanes, l);
    var now, next := Swept(vs, best, lanes), Swept(vs, best, lanes + {l});
    forall i | 0 <= i < |vs| ensures Mark(now, best[l])[i] == next[i] {
      assert now[i].voucher == vs[i].voucher;
    }
  }

  /** The lanes that are done and whose message the pool took. */
  function Taken(best: map<nat, Voucher>, rest: set<nat>, pushes: set<nat>): set<nat> {
    (best.Keys - rest) * pushes
  }

  /** Submitting one more lane of a sweep. */
  lemma SweepLane(vs: seq<VoucherInfo>, best: map<nat, Voucher>, rest: set<nat>, pushes: set<nat>, l: nat)
    requires Fresh(vs, best) && l in rest && l in best
    ensures Submit(Swept(vs, best, Taken(best, rest, pushes)), best[l], l in pushes)
         == (Swept(vs, best, Taken(best, rest - {l}, pushes)), l in pushes)
  {
    var lanes := Taken(best, rest, pushes);
    StillFresh(vs, best, lanes, l);
    MarkSweeps(vs, best, lanes, l);
    assert Taken(best, rest - {l}, pushes) == if l in pushes then lanes + {l} else lanes;
  }

  lemma SweptWithin(vs: seq<VoucherInfo>, best: map<nat, Voucher>, lanes: set<nat>)
    requires forall l <- best :: Has(vs, best[l])
    ensures Swept(vs, best, best.Keys * lanes) == Swept(vs, best, lanes)
  {
  }

  lemma SweptNothing(vs: seq<VoucherInfo>, best: map<nat, Voucher>)
    requires forall l <- best :: Has(vs, best[l])
    ensures Swept(vs, best, {}) == vs
  {
  }

  /** When the chain would take every unsubmitted voucher, exactly the lanes that were submitted or were
      cleared before are cleared. */
  lemma SweptIff(base: LaneMap, vs: seq<VoucherInfo>, calls: set<Voucher>, best: map<nat, Voucher>, lanes: set<nat>, l: nat)
    requires Redeemable(base, vs, calls) && IsBest(vs, calls, best)
    ensures LaneCleared(Swept(vs, best, lanes), l) <==> LaneCleared(vs, l) || l in lanes
  {
    BestIsTop(base, vs, calls, best, l);
    var now := Swept(vs, best, lanes);
    if !LaneCleared(vs, l) && l !in lanes {
      var i :| 0 <= i < |vs| && vs[i].voucher.lane == l && !vs[i].submitted;
      assert now[i] == vs[i];
    }
  }
}
