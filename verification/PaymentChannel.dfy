/** The stored record of one payment channel and the operations that update it in place
    (payments/channel.go, payments/store.go, payments/manager.go), proved against the functions of
    `Lanes` and `Submission`. */
module PaymentChannel {
  import opened Deal
  import opened Lanes
  import opened Submission

  class Channel {
    const addr: Address
    var vouchers: seq<VoucherInfo>
    var nextLane: nat
    var amount: int

    ghost function Info(): ChannelInfo
      reads this
    {
      ChannelInfo(addr, vouchers, nextLane, amount)
    }

    /** No stored voucher uses a lane that is still to be handed out. */
    ghost predicate LanesHandedOut()
      reads this
    {
      forall i | 0 <= i < |vouchers| :: vouchers[i].voucher.lane < nextLane
    }

    constructor (addr: Address, nextLane: nat)
      ensures Info() == ChannelInfo(addr, [], nextLane, 0) && LanesHandedOut()
    {
      this.addr := addr;
      vouchers := [];
      this.nextLane := nextLane;
      amount := 0;
    }

    /** A lane is handed out once, and no voucher has used it. */
    method AllocateLane() returns (lane: nat)
      requires LanesHandedOut()
      modifies this`nextLane
      ensures lane == old(nextLane) && nextLane == lane + 1 && LanesHandedOut()
      ensures Amounts(vouchers, lane) == []
    {
      lane := nextLane;
      nextLane := nextLane + 1;
      UnusedLane(vouchers, lane);
    }

    method NextNonceForLane(lane: nat) returns (nonce: nat)
      ensures nonce == MaxNonce(vouchers, lane) + 1
      ensures forall i | 0 <= i < |vouchers| && vouchers[i].voucher.lane == lane :: vouchers[i].voucher.nonce < nonce
    {
      var maxNonce := 0;
      for i := 0 to |vouchers|
        invariant maxNonce == MaxNonce(vouchers[..i], lane)
      {
        assert vouchers[..i + 1][..i] == vouchers[..i];
        var v := vouchers[i].voucher;
        if v.lane == lane && v.nonce > maxNonce {
          maxNonce := v.nonce;
        }
      }
      assert vouchers[..|vouchers|] == vouchers;
      MaxNonceIsMax(vouchers, lane);
      nonce := maxNonce + 1;
    }

    /** `laneState`: `None` when a stored voucher merges lanes. */
    method LaneStates(chain: LaneMap) returns (lanes: Option<LaneMap>)
      ensures lanes == if NoMerges(vouchers) then Some(Overlay(chain, vouchers)) else None
    {
      var laneStates := chain;
      for i := 0 to |vouchers|
        invariant NoMerges(vouchers[..i])
        invariant laneStates == Overlay(chain, vouchers[..i])
      {
        var v := vouchers[i].voucher;
        if v.merges != 0 {
          return None;
        }
        OverlayAppend(chain, vouchers[..i], vouchers[i]);
        assert vouchers[..i + 1] == vouchers[..i] + [vouchers[i]];
        if !(v.lane in laneStates && v.nonce < laneStates[v.lane].nonce) {
          laneStates := laneStates[v.lane := LaneState(v.amount, v.nonce)];
        }
      }
      assert vouchers[..|vouchers|] == vouchers;
      return Some(laneStates);
    }

    /** `checkVoucherValidUnlocked`. */
    method CheckVoucherValid(chain: Chain, sv: Voucher) returns (r: CheckResult)
      ensures r == Check(Info(), chain, sv)
    {
      if sv.channelAddr != addr {
        return Invalid(WrongAddress);
      }
      if !chain.reachable {
        return Invalid(ChainUnreachable);
      }
      if sv.signature !in chain.verified {
        return Invalid(BadSignature);
      }
      var laneStates := LaneStates(chain.lanes);
      if laneStates.None? {
        return Invalid(MergesUnsupported);
      }
      var lanes := laneStates.value;
      if sv.lane in lanes {
        if sv.nonce <= lanes[sv.lane].nonce {
          return Invalid(NonceTooLow);
        }
        if sv.amount <= lanes[sv.lane].redeemed {
          return Invalid(AmountTooLow);
        }
      }
      if sv.merges != 0 {
        return Invalid(MergesUnsupported);
      }
      var totalRedeemed := TotalRedeemedWithVoucher(lanes, sv);
      if chain.balance < totalRedeemed {
        return Invalid(NotEnoughFunds(totalRedeemed - chain.balance));
      }
      return Valid(lanes, chain.balance);
    }

    /** `addVoucherUnlocked`. */
    method AddVoucher(chain: Chain, sv: Voucher, minDelta: int) returns (r: AddResult)
      requires LanesHandedOut()
      modifies this
      ensures (Info(), r) == Add(old(Info()), chain, sv, minDelta)
      ensures LanesHandedOut()
    {
      for i := 0 to |vouchers|
        invariant forall j | 0 <= j < i :: vouchers[j].voucher != sv
      {
        if vouchers[i].voucher == sv {
          return Duplicate;
        }
      }
      var check := CheckVoucherValid(chain, sv);
      if check.Invalid? {
        return Refused(check.why);
      }
      var redeemed := 0;
      if sv.lane in check.lanes {
        redeemed := check.lanes[sv.lane].redeemed;
      }
      var delta := sv.amount - redeemed;
      if minDelta > delta {
        return Refused(DeltaTooLow(delta));
      }
      vouchers := vouchers + [VoucherInfo(sv, false)];
      if nextLane <= sv.lane {
        nextLane := sv.lane + 1;
      }
      if amount < check.balance {
        amount := check.balance;
      }
      return Added(delta);
    }

    /** `createVoucher`. */
    method CreateVoucher(chain: Chain, lane: nat, amt: int, signature: Option<int>) returns (r: CreateResult)
      requires LanesHandedOut()
      modifies this
      ensures (Info(), r) == Create(old(Info()), chain, lane, amt, signature)
      ensures LanesHandedOut()
    {
      var nonce := NextNonceForLane(lane);
      if signature.None? {
        return CreateFailed;
      }
      var sv := Voucher(addr, lane, nonce, amt, 0, signature.value);
      var added := AddVoucher(chain, sv, 0);
      if added.Refused? {
        if added.why.NotEnoughFunds? {
          return Short(added.why.shortfall);
        }
        return CreateFailed;
      }
      return Created(sv);
    }

    /** `infoForVoucher`. */
    method InfoForVoucher(sv: Voucher) returns (i: Option<nat>)
      ensures i == if Has(vouchers, sv) then Some(IndexOf(vouchers, sv)) else None
    {
      for k := 0 to |vouchers|
        invariant forall j | 0 <= j < k :: vouchers[j].voucher != sv
      {
        if vouchers[k].voucher == sv {
          return Some(k);
        }
      }
      return None;
    }

    /** `markVoucherSubmitted`; `false` when the channel does not have the voucher. */
    method MarkVoucherSubmitted(sv: Voucher) returns (ok: bool)
      modifies this`vouchers
      ensures ok == Has(old(vouchers), sv)
      ensures vouchers == if ok then Mark(old(vouchers), sv) else old(vouchers)
    {
      var vi := InfoForVoucher(sv);
      if vi.None? {
        return false;
      }
      vouchers := vouchers[vi.value := vouchers[vi.value].(submitted := true)];
      ghost var was := old(vouchers);
      for i := 0 to |vouchers|
        invariant |vouchers| == |was|
        invariant forall k | 0 <= k < i :: vouchers[k] == Mark(was, sv)[k]
        invariant forall k | i <= k < |was| ::
                    vouchers[k] == if k == vi.value then was[k].(submitted := true) else was[k]
      {
        if vouchers[i].voucher.lane == sv.lane && vouchers[i].voucher.nonce < sv.nonce {
          vouchers := vouchers[i := vouchers[i].(submitted := true)];
        }
      }
      return true;
    }

    /** `submitVoucher`. */
    method SubmitVoucher(sv: Voucher, pushed: bool) returns (ok: bool)
      modifies this`vouchers
      ensures (vouchers, ok) == Submit(old(vouchers), sv, pushed)
    {
      var vi := InfoForVoucher(sv);
      if vi.Some? && vouchers[vi.value].submitted {
        return false;
      }
      if !pushed {
        return false;
      }
      if vi.None? {
        vouchers := vouchers + [VoucherInfo(sv, false)];
        assert vouchers[|vouchers| - 1].voucher == sv;
      }
      ok := MarkVoucherSubmitted(sv);
    }

    /** `bestSpendableByLane`. */
    method BestSpendableByLane(calls: set<Voucher>) returns (best: map<nat, Voucher>)
      ensures IsBest(vouchers, calls, best)
    {
      best := map[];
      for i := 0 to |vouchers|
        invariant IsBestOf(vouchers, i, calls, best)
      {
        var v := vouchers[i].voucher;
        ghost var before := best;
        var k := InfoForVoucher(v);
        if !vouchers[k.value].submitted && v in calls && (v.lane !in best || v.amount > best[v.lane].amount) {
          best := best[v.lane := v];
        }
        BestExtends(vouchers, i, calls, before, best);
      }
    }

    /** `SubmitVoucherForLane`; `receipt` is the exit code of the update message, or none if waiting for
        it fails.  Once the message is sent the vouchers stay marked, also when the call then reports an
        error.  When the chain would take every unsubmitted voucher, a sent message clears the lane. */
    method SubmitVoucherForLane(ghost base: LaneMap, calls: set<Voucher>, lane: nat, pushed: bool, receipt: Option<int>)
      returns (ok: bool, ghost sent: bool, ghost best: map<nat, Voucher>)
      modifies this`vouchers
      ensures IsBest(old(vouchers), calls, best)
      ensures sent == (pushed && LaneSpendable(old(vouchers), calls, lane)) && ok == (sent && receipt == Some(0))
      ensures vouchers == Swept(old(vouchers), best, if sent then {lane} else {})
      ensures sent ==> lane in best && IsSubmitted(vouchers, best[lane])
      ensures Redeemable(base, old(vouchers), calls) ==>
                sent == (pushed && !LaneCleared(old(vouchers), lane)) && (sent ==> LaneCleared(vouchers, lane))
    {
      var picks := BestSpendableByLane(calls);
      best := picks;
      ok, sent := SubmitPick(calls, picks, lane, pushed, receipt);
      if Redeemable(base, old(vouchers), calls) {
        BestIsTop(base, old(vouchers), calls, best, lane);
        SweptIff(base, old(vouchers), calls, best, {lane}, lane);
      }
    }

    method SubmitPick(ghost calls: set<Voucher>, best: map<nat, Voucher>, lane: nat, pushed: bool, receipt: Option<int>)
      returns (ok: bool, ghost sent: bool)
      requires IsBest(vouchers, calls, best)
      modifies this`vouchers
      ensures sent == (pushed && LaneSpendable(old(vouchers), calls, lane)) && ok == (sent && receipt == Some(0))
      ensures vouchers == Swept(old(vouchers), best, if sent then {lane} else {})
      ensures sent ==> lane in best && IsSubmitted(vouchers, best[lane])
    {
      BestIff(vouchers, calls, best, lane);
      SweptNothing(vouchers, best);
      if lane !in best {
        return false, false;
      }
      StillFresh(vouchers, best, {}, lane);
      MarkSweeps(vouchers, best, {}, lane);
      assert {} + {lane} == {lane};
      var submitted := SubmitVoucher(best[lane], pushed);
      sent := submitted;
      if submitted {
        MarkSubmits(old(vouchers), best[lane]);
      }
      ok := submitted && receipt.Some? && receipt.value == 0;
    }

    /** `SubmitAllVouchers`, lane by lane in any order; `pushes` are the lanes whose message the pool
        takes.  A message that is refused is never waited for to the end, so the call hangs.  When the
        chain would take every unsubmitted voucher, exactly the lanes whose push succeeded are cleared,
        and the call returns if and only if that leaves nothing to submit. */
    method SubmitAllVouchers(ghost base: LaneMap, calls: set<Voucher>, pushes: set<nat>)
      returns (any: bool, hangs: bool, ghost best: map<nat, Voucher>)
      modifies this`vouchers
      ensures IsBest(old(vouchers), calls, best) && any == (best != map[])
      ensures vouchers == Swept(old(vouchers), best, pushes)
      ensures hangs <==> !(best.Keys <= pushes)
      ensures Redeemable(base, old(vouchers), calls) ==>
                && (forall l: nat :: LaneCleared(vouchers, l) <==> LaneCleared(old(vouchers), l) || l in pushes)
                && (hangs <==> exists l: nat :: !LaneCleared(vouchers, l))
    {
      var picks := BestSpendableByLane(calls);
      best := picks;
      any := picks != map[];
      hangs := Sweep(calls, picks, pushes);
      if Redeemable(base, old(vouchers), calls) {
        forall l: nat
          ensures LaneCleared(vouchers, l) <==> LaneCleared(old(vouchers), l) || l in pushes
          ensures l in best <==> !LaneCleared(old(vouchers), l)
        {
          SweptIff(base, old(vouchers), calls, best, pushes, l);
          BestIsTop(base, old(vouchers), calls, best, l);
        }
      }
    }

    method Sweep(ghost calls: set<Voucher>, best: map<nat, Voucher>, pushes: set<nat>) returns (hangs: bool)
      requires IsBest(vouchers, calls, best)
      modifies this`vouchers
      ensures vouchers == Swept(old(vouchers), best, pushes)
      ensures hangs <==> !(best.Keys <= pushes)
    {
      var rest := best.Keys;
      hangs := false;
      SweptNothing(vouchers, best);
      assert Taken(best, best.Keys, pushes) == {};
      while rest != {}
        invariant rest <= best.Keys && vouchers == Swept(old(vouchers), best, Taken(best, rest, pushes))
        invariant hangs <==> !(best.Keys - rest <= pushes)
        decreases rest
      {
        var l :| l in rest;
        SweepLane(old(vouchers), best, rest, pushes, l);
        var ok := SubmitVoucher(best[l], l in pushes);
        hangs := hangs || !ok;
        rest := rest - {l};
      }
      assert Taken(best, {}, pushes) == best.Keys * pushes;
      SweptWithin(old(vouchers), best, pushes);
    }
  }

  lemma {:induction false} UnusedLane(vs: seq<VoucherInfo>, lane: nat)
    requires forall i | 0 <= i < |vs| :: vs[i].voucher.lane < lane
    ensures Amounts(vs, lane) == []
  {
    if vs != [] {
      UnusedLane(vs[..|vs| - 1], lane);
    }
  }

  /** `totalRedeemedWithVoucher`: a sum over the lanes in any order, adjusted by the voucher. */
  method TotalRedeemedWithVoucher(laneStates: LaneMap, sv: Voucher) returns (total: int)
    ensures total == TotalWith(laneStates, sv)
  {
    total := 0;
    var rest := laneStates;
    while rest != map[]
      invariant rest.Keys <= laneStates.Keys
      invariant total + Total(rest) == Total(laneStates)
      invariant forall l <- rest :: rest[l] == laneStates[l]
      decreases |rest|
    {
      var l :| l in rest;
      TotalRemove(rest, l);
      total := total + rest[l].redeemed;
      rest := rest - {l};
    }
    if sv.lane in laneStates {
      if sv.nonce > laneStates[sv.lane].nonce {
        total := total + (sv.amount - laneStates[sv.lane].redeemed);
      }
    } else {
      total := total + sv.amount;
    }
  }

  /** `nextLaneFromState`: one above the highest lane the chain knows. */
  method NextLaneFromState(lanes: LaneMap) returns (next: nat)
    ensures forall l <- lanes :: l < next
    ensures next > 0 ==> next - 1 in lanes || next == 1
    ensures lanes == map[] ==> next == 0
  {
    if |lanes| == 0 {
      return 0;
    }
    var maxID := 0;
    var rest := lanes.Keys;
    while rest != {}
      invariant rest <= lanes.Keys
      invariant forall l <- lanes :: l in rest || l <= maxID
      invariant maxID == 0 || maxID in lanes
      decreases rest
    {
      var l :| l in rest;
      if l > maxID {
        maxID := l;
      }
      rest := rest - {l};
    }
    next := maxID + 1;
  }
}
