/** Vouchers and lanes of a payment channel (payments/channel.go).

A lane's state is what the chain knows, overlaid with the vouchers stored locally.  A voucher is
accepted against an incremental total; `IncrementalTotal` says it is the total computed from
scratch once the voucher is stored.  `BalanceNeverExceeded`, `DeltasTelescope` and
`LanesStayOrdered` are about every run of additions while the chain catches up with the stored
vouchers in any way; `ShortfallIsExact` and `CreateVoucherExactly` say when an addition succeeds.
 */
module Lanes {
  import opened Deal

  type Address = nat

  /** `merges` is the number of lanes the voucher merges. */
  datatype Voucher = Voucher(channelAddr: Address, lane: nat, nonce: nat, amount: int, merges: nat, signature: int)

  datatype VoucherInfo = VoucherInfo(voucher: Voucher, submitted: bool)

  datatype LaneState = LaneState(redeemed: int, nonce: nat)

  type LaneMap = map<nat, LaneState>

  /** What the chain and the wallet answer: whether they can be reached, the actor's balance and
      lanes, and which signatures verify. */
  datatype Chain = Chain(reachable: bool, balance: int, lanes: LaneMap, verified: set<int>)

  datatype ChannelInfo = ChannelInfo(addr: Address, vouchers: seq<VoucherInfo>, nextLane: nat, amount: int)

  function StateOf(v: Voucher): LaneState {
    LaneState(v.amount, v.nonce)
  }

  function OverlayOne(lanes: LaneMap, v: Voucher): LaneMap {
    if v.lane in lanes && v.nonce < lanes[v.lane].nonce then lanes else lanes[v.lane := StateOf(v)]
  }

  /** `laneState`: stored vouchers applied over the chain's lanes, in order. */
  function Overlay(lanes: LaneMap, vs: seq<VoucherInfo>): LaneMap {
    if vs == [] then lanes
    else OverlayOne(Overlay(lanes, vs[..|vs| - 1]), vs[|vs| - 1].voucher)
  }

  /** The amount redeemed over all lanes. */
  ghost function Total(lanes: LaneMap): int {
    if lanes == map[] then 0
    else var l :| l in lanes; lanes[l].redeemed + Total(lanes - {l})
  }

  lemma {:induction false} TotalRemove(lanes: LaneMap, l: nat)
    requires l in lanes
    ensures Total(lanes) == lanes[l].redeemed + Total(lanes - {l})
    decreases |lanes|
  {
    var k :| k in lanes && Total(lanes) == lanes[k].redeemed + Total(lanes - {k});
    if k != l {
      TotalRemove(lanes - {k}, l);
      TotalRemove(lanes - {l}, k);
      assert lanes - {k} - {l} == lanes - {l} - {k};
    }
  }

  lemma TotalUpdate(lanes: LaneMap, l: nat, s: LaneState)
    ensures Total(lanes[l := s]) == Total(lanes) + s.redeemed - if l in lanes then lanes[l].redeemed else 0
  {
    TotalRemove(lanes[l := s], l);
    assert lanes[l := s] - {l} == lanes - {l};
    if l in lanes {
      TotalRemove(lanes, l);
    } else {
      assert lanes - {l} == lanes;
    }
  }

  // ---------- Acceptance ----------

  datatype Refusal =
    | WrongAddress
    | ChainUnreachable
    | BadSignature
    | NonceTooLow
    | AmountTooLow
    | MergesUnsupported
    | NotEnoughFunds(shortfall: int)
    | DeltaTooLow(delta: int)

  datatype CheckResult = Valid(lanes: LaneMap, balance: int) | Invalid(why: Refusal)

  datatype AddResult = Added(delta: int) | Duplicate | Refused(why: Refusal)

  predicate Has(vs: seq<VoucherInfo>, v: Voucher) {
    exists i :: 0 <= i < |vs| && vs[i].voucher == v
  }

  predicate NoMerges(vs: seq<VoucherInfo>) {
    forall i | 0 <= i < |vs| :: vs[i].voucher.merges == 0
  }

  function Redeemed(lanes: LaneMap, lane: nat): int {
    if lane in lanes then lanes[lane].redeemed else 0
  }

  /** `totalRedeemedWithVoucher`: the running total plus what the voucher adds to its lane. */
  ghost function TotalWith(lanes: LaneMap, v: Voucher): int {
    Total(lanes) +
    if v.lane !in lanes then v.amount
    else if v.nonce > lanes[v.lane].nonce then v.amount - lanes[v.lane].redeemed
    else 0
  }

  /** `checkVoucherValidUnlocked`. */
  ghost function Check(ci: ChannelInfo, chain: Chain, v: Voucher): CheckResult {
    var lanes := Overlay(chain.lanes, ci.vouchers);
    if v.channelAddr != ci.addr then Invalid(WrongAddress)
    else if !chain.reachable then Invalid(ChainUnreachable)
    else if v.signature !in chain.verified then Invalid(BadSignature)
    else if !NoMerges(ci.vouchers) then Invalid(MergesUnsupported)
    else if v.lane in lanes && v.nonce <= lanes[v.lane].nonce then Invalid(NonceTooLow)
    else if v.lane in lanes && v.amount <= lanes[v.lane].redeemed then Invalid(AmountTooLow)
    else if v.merges != 0 then Invalid(MergesUnsupported)
    else if chain.balance < TotalWith(lanes, v) then Invalid(NotEnoughFunds(TotalWith(lanes, v) - chain.balance))
    else Valid(lanes, chain.balance)
  }

  /** `addVoucherUnlocked`. */
  ghost function Add(ci: ChannelInfo, chain: Chain, v: Voucher, minDelta: int): (ChannelInfo, AddResult) {
    if Has(ci.vouchers, v) then (ci, Duplicate)
    else match Check(ci, chain, v)
      case Invalid(why) => (ci, Refused(why))
      case Valid(lanes, balance) =>
        var delta := v.amount - Redeemed(lanes, v.lane);
        if minDelta > delta then (ci, Refused(DeltaTooLow(delta)))
        else (Stored(ci, v, balance), Added(delta))
  }

  function Stored(ci: ChannelInfo, v: Voucher, balance: int): ChannelInfo {
    ci.(vouchers := ci.vouchers + [VoucherInfo(v, false)],
        nextLane := Max(ci.nextLane, v.lane + 1),
        amount := Max(ci.amount, balance))
  }

  lemma OverlayAppend(lanes: LaneMap, vs: seq<VoucherInfo>, v: VoucherInfo)
    ensures Overlay(lanes, vs + [v]) == OverlayOne(Overlay(lanes, vs), v.voucher)
  {
    assert (vs + [v])[..|vs|] == vs;
  }

  /** For a voucher that passes the check, the incremental total is the total over all lanes that
      a fresh overlay gives once the voucher is stored. */
  lemma IncrementalTotal(ci: ChannelInfo, chain: Chain, v: Voucher)
    requires Check(ci, chain, v).Valid?
    ensures TotalWith(Overlay(chain.lanes, ci.vouchers), v)
         == Total(Overlay(chain.lanes, Stored(ci, v, chain.balance).vouchers))
  {
    var lanes := Overlay(chain.lanes, ci.vouchers);
    OverlayAppend(chain.lanes, ci.vouchers, VoucherInfo(v, false));
    TotalUpdate(lanes, v.lane, StateOf(v));
  }

  // ---------- The chain catching up ----------

  /** Nonces and amounts rise strictly in every lane, above what the chain knew at the start. */
  ghost predicate Ordered(base: LaneMap, vs: seq<VoucherInfo>) {
    && NoMerges(vs)
    && (forall i, j | 0 <= i < j < |vs| && vs[i].voucher.lane == vs[j].voucher.lane ::
          vs[i].voucher.nonce < vs[j].voucher.nonce && vs[i].voucher.amount < vs[j].voucher.amount)
    && (forall i | 0 <= i < |vs| && vs[i].voucher.lane in base ::
          vs[i].voucher.nonce > base[vs[i].voucher.lane].nonce && vs[i].voucher.amount > base[vs[i].voucher.lane].redeemed)
  }

  /** The chain's lanes are the initial ones, some of them advanced to a stored voucher. */
  ghost predicate Advanced(base: LaneMap, vs: seq<VoucherInfo>, lanes: LaneMap) {
    && (forall l <- base :: l in lanes)
    && forall l <- lanes :: (l in base && lanes[l] == base[l]) || OnChain(vs, l, lanes[l])
  }

  ghost predicate OnChain(vs: seq<VoucherInfo>, l: nat, s: LaneState) {
    exists i :: 0 <= i < |vs| && vs[i].voucher.lane == l && StateOf(vs[i].voucher) == s
  }

  function Lookup(lanes: LaneMap, l: nat): Option<LaneState> {
    if l in lanes then Some(lanes[l]) else None
  }

  lemma {:induction false} OverlayBounded(lanes: LaneMap, vs: seq<VoucherInfo>, l: nat, n: nat)
    requires l in lanes ==> lanes[l].nonce <= n
    requires forall i | 0 <= i < |vs| && vs[i].voucher.lane == l :: vs[i].voucher.nonce <= n
    ensures l in Overlay(lanes, vs) ==> Overlay(lanes, vs)[l].nonce <= n
  {
    if vs != [] {
      OverlayBounded(lanes, vs[..|vs| - 1], l, n);
    }
  }

  /** Starting a lane at its base state or at one of its own vouchers gives the same overlay. */
  lemma {:induction false} OverlayLane(base: LaneMap, vs: seq<VoucherInfo>, lanes: LaneMap, l: nat, i: nat)
    requires Ordered(base, vs) && i < |vs| && vs[i].voucher.lane == l
    requires l in lanes && lanes[l] == StateOf(vs[i].voucher)
    ensures Lookup(Overlay(lanes, vs), l) == Lookup(Overlay(base, vs), l)
    decreases |vs|
  {
    var last := |vs| - 1;
    if i == last {
      OverlayBounded(lanes, vs[..last], l, vs[last].voucher.nonce);
      OverlayBounded(base, vs[..last], l, vs[last].voucher.nonce);
    } else {
      OverlayLane(base, vs[..last], lanes, l, i);
    }
  }

  lemma {:induction false} OverlaySameLane(a: LaneMap, b: LaneMap, vs: seq<VoucherInfo>, l: nat)
    requires Lookup(a, l) == Lookup(b, l)
    ensures Lookup(Overlay(a, vs), l) == Lookup(Overlay(b, vs), l)
  {
    if vs != [] {
      OverlaySameLane(a, b, vs[..|vs| - 1], l);
    }
  }

  lemma {:induction false} OverlayMissing(lanes: LaneMap, vs: seq<VoucherInfo>, l: nat)
    requires l !in lanes && l in Overlay(lanes, vs)
    ensures exists i :: 0 <= i < |vs| && vs[i].voucher.lane == l
  {
    var last := |vs| - 1;
    if vs[last].voucher.lane != l {
      OverlayMissing(lanes, vs[..last], l);
      var i :| 0 <= i < last && vs[..last][i].voucher.lane == l;
      assert vs[i].voucher.lane == l;
    }
  }

  /** However far the chain has caught up with the stored vouchers, the overlay is the same. */
  lemma CatchingUpChangesNothing(base: LaneMap, vs: seq<VoucherInfo>, lanes: LaneMap)
    requires Ordered(base, vs) && Advanced(base, vs, lanes)
    ensures Overlay(lanes, vs) == Overlay(base, vs)
  {
    var a, b := Overlay(lanes, vs), Overlay(base, vs);
    forall l: nat ensures Lookup(a, l) == Lookup(b, l) {
      if l in lanes && !(l in base && lanes[l] == base[l]) {
        var i :| 0 <= i < |vs| && vs[i].voucher.lane == l && StateOf(vs[i].voucher) == lanes[l];
        OverlayLane(base, vs, lanes, l, i);
      } else {
        OverlaySameLane(lanes, base, vs, l);
      }
    }
    assert forall l: nat :: l in a <==> Lookup(a, l).Some?;
    assert forall l: nat :: l in b <==> Lookup(b, l).Some?;
    assert forall l: nat | l in a :: a[l] == Lookup(a, l).value;
  }

  /** Every stored voucher is at or below the state of its lane, and so is the base state. */
  lemma {:induction false} OverlayTops(base: LaneMap, vs: seq<VoucherInfo>, i: nat)
    requires Ordered(base, vs) && i < |vs|
    ensures var l := vs[i].voucher.lane;
            && l in Overlay(base, vs)
            && vs[i].voucher.nonce <= Overlay(base, vs)[l].nonce
            && vs[i].voucher.amount <= Overlay(base, vs)[l].redeemed
            && (vs[i].voucher.nonce == Overlay(base, vs)[l].nonce ==> vs[i].voucher.amount == Overlay(base, vs)[l].redeemed)
    decreases |vs|
  {
    var last := |vs| - 1;
    var l := vs[i].voucher.lane;
    if i == last {
      OverlayBounded(base, vs[..last], l, vs[i].voucher.nonce);
    } else {
      OverlayTops(base, vs[..last], i);
      if vs[last].voucher.lane == l {
        OverlayBounded(base, vs[..last], l, vs[last].voucher.nonce);
      }
    }
  }

  lemma {:induction false} OverlayAboveBase(base: LaneMap, vs: seq<VoucherInfo>, l: nat)
    requires Ordered(base, vs) && l in base
    ensures l in Overlay(base, vs)
    ensures base[l].nonce <= Overlay(base, vs)[l].nonce && base[l].redeemed <= Overlay(base, vs)[l].redeemed
  {
    if vs != [] {
      OverlayAboveBase(base, vs[..|vs| - 1], l);
    }
  }

  lemma OrderedAppend(base: LaneMap, vs: seq<VoucherInfo>, v: Voucher)
    requires Ordered(base, vs) && v.merges == 0
    requires var lanes := Overlay(base, vs);
             v.lane in lanes ==> v.nonce > lanes[v.lane].nonce && v.amount > lanes[v.lane].redeemed
    ensures Ordered(base, vs + [VoucherInfo(v, false)])
  {
    var vs' := vs + [VoucherInfo(v, false)];
    forall i, j | 0 <= i < j < |vs'| && vs'[i].voucher.lane == vs'[j].voucher.lane
      ensures vs'[i].voucher.nonce < vs'[j].voucher.nonce && vs'[i].voucher.amount < vs'[j].voucher.amount
    {
      OverlayTops(base, vs, i);
    }
    if v.lane in base {
      OverlayAboveBase(base, vs, v.lane);
    }
  }

  // ---------- Runs ----------

  datatype Step = Step(v: Voucher, minDelta: int, chain: Chain)

  /** The channel with the chain as it was seen last. */
  datatype Book = Book(ci: ChannelInfo, balance: int)

  /** The balance does not shrink and the chain's lanes only come from stored vouchers. */
  ghost predicate Legal(base: LaneMap, b: Book, s: Step) {
    s.chain.balance >= b.balance && Advanced(base, b.ci.vouchers, s.chain.lanes)
  }

  ghost function Take(b: Book, s: Step): Book {
    Book(Add(b.ci, s.chain, s.v, s.minDelta).0, s.chain.balance)
  }

  ghost predicate Follows(base: LaneMap, b: Book, s: Step, b': Book) {
    Legal(base, b, s) && b' == Take(b, s)
  }

  ghost predicate Run(base: LaneMap, bs: seq<Book>, steps: seq<Step>) {
    && |bs| == |steps| + 1
    && bs[0].ci.vouchers == [] && Total(base) <= bs[0].balance
    && forall i | 0 <= i < |steps| :: Follows(base, bs[i], steps[i], bs[i + 1])
  }

  ghost function TotalOf(base: LaneMap, b: Book): int {
    Total(Overlay(base, b.ci.vouchers))
  }

  ghost predicate Sound(base: LaneMap, b: Book) {
    Ordered(base, b.ci.vouchers) && TotalOf(base, b) <= b.balance
  }

  function DeltaOf(r: AddResult): int {
    if r.Added? then r.delta else 0
  }

  ghost function Outcome(b: Book, s: Step): AddResult {
    Add(b.ci, s.chain, s.v, s.minDelta).1
  }

  /** What an accepted voucher has passed. */
  lemma AcceptedIs(ci: ChannelInfo, chain: Chain, v: Voucher, minDelta: int)
    requires Add(ci, chain, v, minDelta).1.Added?
    ensures var (ci', r) := Add(ci, chain, v, minDelta);
            var lanes := Overlay(chain.lanes, ci.vouchers);
            && ci'.vouchers == ci.vouchers + [VoucherInfo(v, false)] && v.merges == 0
            && (v.lane in lanes ==> v.nonce > lanes[v.lane].nonce && v.amount > lanes[v.lane].redeemed)
            && TotalWith(lanes, v) == Total(lanes) + r.delta <= chain.balance
  {
  }

  /** Storing a voucher that tops its lane raises the total by what it adds to the lane. */
  lemma {:induction false} StoringTops(base: LaneMap, vs: seq<VoucherInfo>, v: Voucher)
    requires Ordered(base, vs) && v.merges == 0
    requires var lanes := Overlay(base, vs);
             v.lane in lanes ==> v.nonce > lanes[v.lane].nonce && v.amount > lanes[v.lane].redeemed
    ensures Ordered(base, vs + [VoucherInfo(v, false)])
    ensures Total(Overlay(base, vs + [VoucherInfo(v, false)])) == TotalWith(Overlay(base, vs), v)
  {
    OrderedAppend(base, vs, v);
    OverlayAppend(base, vs, VoucherInfo(v, false));
    TotalUpdate(Overlay(base, vs), v.lane, StateOf(v));
  }

  lemma {:induction false} AddKeeps(base: LaneMap, b: Book, s: Step)
    requires Sound(base, b) && Legal(base, b, s)
    ensures Sound(base, Take(b, s))
    ensures TotalOf(base, Take(b, s)) == TotalOf(base, b) + DeltaOf(Outcome(b, s))
    ensures !Outcome(b, s).Added? ==> Take(b, s).ci == b.ci
  {
    if Outcome(b, s).Added? {
      CatchingUpChangesNothing(base, b.ci.vouchers, s.chain.lanes);
      AcceptedIs(b.ci, s.chain, s.v, s.minDelta);
      StoringTops(base, b.ci.vouchers, s.v);
    }
  }

  lemma {:induction false} RunKeeps(base: LaneMap, bs: seq<Book>, steps: seq<Step>, i: nat)
    requires Run(base, bs, steps) && i < |bs|
    ensures Sound(base, bs[i])
  {
    if i > 0 {
      RunKeeps(base, bs, steps, i - 1);
      assert Follows(base, bs[i - 1], steps[i - 1], bs[i]);
      AddKeeps(base, bs[i - 1], steps[i - 1]);
    }
  }

  /** The amount redeemable over all lanes never exceeds the actor's balance, computed over any
      state the chain may have reached. */
  lemma BalanceNeverExceeded(base: LaneMap, bs: seq<Book>, steps: seq<Step>, i: nat, lanes: LaneMap)
    requires Run(base, bs, steps) && i < |bs|
    requires Advanced(base, bs[i].ci.vouchers, lanes)
    ensures Total(Overlay(lanes, bs[i].ci.vouchers)) <= bs[i].balance
  {
    RunKeeps(base, bs, steps, i);
    CatchingUpChangesNothing(base, bs[i].ci.vouchers, lanes);
  }

  lemma LanesStayOrdered(base: LaneMap, bs: seq<Book>, steps: seq<Step>, k: nat)
    requires Run(base, bs, steps) && k < |bs|
    ensures var vs := bs[k].ci.vouchers;
            forall i, j | 0 <= i < j < |vs| && vs[i].voucher.lane == vs[j].voucher.lane ::
              vs[i].voucher.nonce < vs[j].voucher.nonce && vs[i].voucher.amount < vs[j].voucher.amount
  {
    RunKeeps(base, bs, steps, k);
  }

  lemma RunAdds(base: LaneMap, bs: seq<Book>, steps: seq<Step>, i: nat)
    requires Run(base, bs, steps) && i < |steps|
    ensures TotalOf(base, bs[i + 1]) == TotalOf(base, bs[i]) + DeltaOf(Outcome(bs[i], steps[i]))
  {
    RunKeeps(base, bs, steps, i);
    assert Follows(base, bs[i], steps[i], bs[i + 1]);
    AddKeeps(base, bs[i], steps[i]);
  }

  /** The sum of the first `n` numbers. */
  function SumOf(ds: seq<int>, n: nat): int
    requires n <= |ds|
  {
    if n == 0 then 0 else SumOf(ds, n - 1) + ds[n - 1]
  }

  lemma {:induction false} Telescopes(ds: seq<int>, ts: seq<int>, n: nat)
    requires |ts| == |ds| + 1 && n <= |ds| && forall i | 0 <= i < |ds| :: ts[i + 1] == ts[i] + ds[i]
    ensures SumOf(ds, n) == ts[n] - ts[0]
  {
    if n > 0 {
      Telescopes(ds, ts, n - 1);
    }
  }

  /** What the additions of a run report. */
  ghost function Deltas(bs: seq<Book>, steps: seq<Step>): (ds: seq<int>)
    requires |bs| == |steps| + 1
    ensures |ds| == |steps| && forall i | 0 <= i < |ds| :: ds[i] == DeltaOf(Outcome(bs[i], steps[i]))
  {
    seq(|steps|, i requires 0 <= i < |steps| => DeltaOf(Outcome(bs[i], steps[i])))
  }

  /** The totals over all lanes in the states of a run. */
  ghost function Totals(base: LaneMap, bs: seq<Book>): (ts: seq<int>)
    ensures |ts| == |bs| && forall i | 0 <= i < |ts| :: ts[i] == TotalOf(base, bs[i])
  {
    seq(|bs|, i requires 0 <= i < |bs| => TotalOf(base, bs[i]))
  }

  /** What the additions of a run report adds up to the growth of the total over all lanes. */
  lemma DeltasTelescope(base: LaneMap, bs: seq<Book>, steps: seq<Step>, n: nat)
    requires Run(base, bs, steps) && n <= |steps|
    ensures SumOf(Deltas(bs, steps), n) == TotalOf(base, bs[n]) - TotalOf(base, bs[0])
  {
    var ds, ts := Deltas(bs, steps), Totals(base, bs);
    forall i | 0 <= i < |ds| ensures ts[i + 1] == ts[i] + ds[i] {
      RunAdds(base, bs, steps, i);
    }
    Telescopes(ds, ts, n);
  }

  /** A reported shortfall is exactly what is missing: nothing is stored, and the same voucher is
      accepted once the balance has grown if and only if it has grown by the shortfall. */
  lemma ShortfallIsExact(ci: ChannelInfo, chain: Chain, v: Voucher, minDelta: int, raise: int)
    requires Add(ci, chain, v, minDelta).1.Refused? && Add(ci, chain, v, minDelta).1.why.NotEnoughFunds?
    requires minDelta <= v.amount - Redeemed(Overlay(chain.lanes, ci.vouchers), v.lane)
    ensures Add(ci, chain, v, minDelta).0 == ci
    ensures var shortfall := Add(ci, chain, v, minDelta).1.why.shortfall;
            var retry := Add(ci, chain.(balance := chain.balance + raise), v, minDelta).1;
            && shortfall > 0
            && (retry.Added? <==> raise >= shortfall)
            && (raise < shortfall ==> retry == Refused(NotEnoughFunds(shortfall - raise)))
  {
  }

  // ---------- Creating vouchers ----------

  /** `nextNonceForLane`. */
  function MaxNonce(vs: seq<VoucherInfo>, lane: nat): nat {
    if vs == [] then 0
    else
      var rest := MaxNonce(vs[..|vs| - 1], lane);
      var v := vs[|vs| - 1].voucher;
      if v.lane == lane && v.nonce > rest then v.nonce else rest
  }

  lemma {:induction false} MaxNonceIsMax(vs: seq<VoucherInfo>, lane: nat)
    ensures forall i | 0 <= i < |vs| && vs[i].voucher.lane == lane :: vs[i].voucher.nonce <= MaxNonce(vs, lane)
    ensures MaxNonce(vs, lane) == 0
            || exists i :: 0 <= i < |vs| && vs[i].voucher.lane == lane && vs[i].voucher.nonce == MaxNonce(vs, lane)
  {
    if vs != [] {
      MaxNonceIsMax(vs[..|vs| - 1], lane);
    }
  }

  datatype CreateResult = Created(v: Voucher) | Short(shortfall: int) | CreateFailed

  function Draft(ci: ChannelInfo, lane: nat, amount: int, signature: int): Voucher {
    Voucher(ci.addr, lane, MaxNonce(ci.vouchers, lane) + 1, amount, 0, signature)
  }

  /** `createVoucher`; `signature` is the wallet's answer. */
  ghost function Create(ci: ChannelInfo, chain: Chain, lane: nat, amount: int, signature: Option<int>)
      : (ChannelInfo, CreateResult)
  {
    if signature.None? then (ci, CreateFailed)
    else
      var v := Draft(ci, lane, amount, signature.value);
      var (ci', r) := Add(ci, chain, v, 0);
      (ci', if r.Refused? then if r.why.NotEnoughFunds? then Short(r.why.shortfall) else CreateFailed else Created(v))
  }

  /** The amounts stored in a lane, in order. */
  function Amounts(vs: seq<VoucherInfo>, lane: nat): seq<int> {
    if vs == [] then []
    else
      var rest := Amounts(vs[..|vs| - 1], lane);
      if vs[|vs| - 1].voucher.lane == lane then rest + [vs[|vs| - 1].voucher.amount] else rest
  }

  /** A lane that started empty stands at its last stored voucher. */
  lemma {:induction false} LaneStandsAtLast(vs: seq<VoucherInfo>, lane: nat)
    requires Ordered(map[], vs)
    ensures var lanes := Overlay(map[], vs); var amounts := Amounts(vs, lane);
            && (lane in lanes <==> amounts != [])
            && (lane in lanes ==> lanes[lane] == LaneState(amounts[|amounts| - 1], MaxNonce(vs, lane)))
  {
    if vs != [] {
      var last := |vs| - 1;
      LaneStandsAtLast(vs[..last], lane);
      if vs[last].voucher.lane == lane {
        OverlayBounded(map[], vs[..last], lane, vs[last].voucher.nonce);
        MaxNonceIsMax(vs[..last], lane);
      }
    }
  }

  /** On a channel whose chain lanes all come from its own vouchers, creating a voucher depends on
      the amount alone: it must raise the lane, and its cost must fit the balance. */
  lemma CreateVoucherExactly(ci: ChannelInfo, chain: Chain, lane: nat, amount: int, signature: int)
    requires Ordered(map[], ci.vouchers) && Advanced(map[], ci.vouchers, chain.lanes)
    requires Total(Overlay(map[], ci.vouchers)) <= chain.balance
    requires chain.reachable && signature in chain.verified
    ensures var lanes := Overlay(map[], ci.vouchers);
            var (ci', r) := Create(ci, chain, lane, amount, Some(signature));
            var raises := if lane in lanes then amount > lanes[lane].redeemed else amount >= 0;
            var cost := Total(lanes) + amount - Redeemed(lanes, lane);
            && (r.Created? <==> raises && cost <= chain.balance)
            && (r.Short? <==> raises && cost > chain.balance)
            && (r.Short? ==> r.shortfall == cost - chain.balance)
            && (if r.Created? then r.v == Draft(ci, lane, amount, signature) && ci' == Stored(ci, r.v, chain.balance)
                else ci' == ci)
  {
    CatchingUpChangesNothing(map[], ci.vouchers, chain.lanes);
    LaneStandsAtLast(ci.vouchers, lane);
    MaxNonceIsMax(ci.vouchers, lane);
  }
}
