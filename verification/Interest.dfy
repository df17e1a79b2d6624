/** Content that peers have and this node does not, ranked by how often it is read
(exchange/index.go, the interest part).

`InterestList.Valid` is kept by every load and drop; the frequencies after a load do not depend
on the order the refs come in.  `Replay` carries out any history, and `FrequencyIsSum` says what the
frequencies are after it.  `Interesting` picks a set of the most read refs that just fills the space
that is left.
 */
module Interest {
  import opened Deal
  import opened BucketList
  import opened LfuIndex

  /** A ref in a peer's index. */
  datatype Offered = Offered(size: nat, freq: nat)

  /** Frequencies after one offered ref. */
  function Added(freqs: map<Cid, int>, have: set<Cid>, k: Cid, freq: nat): map<Cid, int> {
    if k in have then freqs else freqs[k := (if k in freqs then freqs[k] else 0) + freq]
  }

  /** Frequencies after a peer's whole index. */
  function Loaded(freqs: map<Cid, int>, have: set<Cid>, root: map<Cid, Offered>): map<Cid, int> {
    map k | k in freqs.Keys + (root.Keys - have) ::
      (if k in freqs then freqs[k] else 0) + (if k in root && k !in have then root[k].freq else 0)
  }

  /** Frequencies after the refs of a peer's index, taken in the given order. */
  function LoadedInOrder(freqs: map<Cid, int>, have: set<Cid>, root: map<Cid, Offered>, order: seq<Cid>): map<Cid, int>
    requires forall k <- order :: k in root
  {
    if order == [] then freqs
    else
      var k := order[|order| - 1];
      assert k in order;
      Added(LoadedInOrder(freqs, have, root, order[..|order| - 1]), have, k, root[k].freq)
  }

  ghost predicate DistinctCids(s: seq<Cid>) {
    forall i, j | 0 <= i < j < |s| :: s[i] != s[j]
  }

  function Restricted(root: map<Cid, Offered>, order: seq<Cid>): map<Cid, Offered> {
    map k | k in root && k in order :: root[k]
  }

  lemma LoadedStep(freqs: map<Cid, int>, have: set<Cid>, done: map<Cid, Offered>, k: Cid, v: Offered)
    requires k !in done
    ensures Added(Loaded(freqs, have, done), have, k, v.freq) == Loaded(freqs, have, done[k := v])
  {
  }

  lemma RestrictedStep(root: map<Cid, Offered>, init: seq<Cid>, k: Cid)
    requires k in root
    ensures Restricted(root, init + [k]) == Restricted(root, init)[k := root[k]]
  {
  }

  lemma {:induction false} LoadedPrefix(freqs: map<Cid, int>, have: set<Cid>, root: map<Cid, Offered>, order: seq<Cid>)
    requires DistinctCids(order) && forall k <- order :: k in root
    ensures LoadedInOrder(freqs, have, root, order) == Loaded(freqs, have, Restricted(root, order))
  {
    if order == [] {
      assert Restricted(root, order) == map[];
    } else {
      var init, k := order[..|order| - 1], order[|order| - 1];
      assert order == init + [k] && k in order;
      LoadedPrefix(freqs, have, root, init);
      assert k !in init;
      LoadedStep(freqs, have, Restricted(root, init), k, root[k]);
      RestrictedStep(root, init, k);
    }
  }

  /** `LoadInterest` visits every ref of the peer's index once; whatever the order, the frequencies
      are the same. */
  lemma OrderIsIrrelevant(freqs: map<Cid, int>, have: set<Cid>, root: map<Cid, Offered>, order: seq<Cid>)
    requires DistinctCids(order) && forall k :: k in order <==> k in root
    ensures LoadedInOrder(freqs, have, root, order) == Loaded(freqs, have, root)
  {
    LoadedPrefix(freqs, have, root, order);
    assert Restricted(root, order) == root;
  }

  /** The refs still to come and, in order, those taken. */
  ghost predicate Visiting(root: map<Cid, Offered>, rest: set<Cid>, order: seq<Cid>) {
    DistinctCids(order) && rest <= root.Keys && forall k :: k in order <==> k in root && k !in rest
  }

  lemma VisitOne(freqs: map<Cid, int>, have: set<Cid>, root: map<Cid, Offered>, rest: set<Cid>, order: seq<Cid>, k: Cid)
    requires Visiting(root, rest, order) && k in rest
    ensures Visiting(root, rest - {k}, order + [k])
    ensures LoadedInOrder(freqs, have, root, order + [k])
         == Added(LoadedInOrder(freqs, have, root, order), have, k, root[k].freq)
  {
    assert (order + [k])[..|order|] == order;
    assert forall j :: j in order + [k] <==> j in order || j == k;
  }

  class InterestList {
    const freqs: Ranking
    var interest: map<Cid, DataRef>

    ghost predicate Indexed(r: DataRef)
      reads this`interest
    {
      r.payloadCID in interest && interest[r.payloadCID] == r
    }

    /** A ref that stands in the bucket of its frequency. */
    ghost predicate Standing(r: DataRef)
      reads r
    {
      r.bucketNode != null && r.freq == r.bucketNode.id
    }

    /** The list strictly ascends, and holds exactly the known refs, each in the bucket of its
        frequency (but for `stale`, which has just been moved). */
    ghost predicate ValidBut(stale: DataRef?)
      reads this`interest, freqs, freqs.list`entries, freqs.members
    {
      && freqs.Valid()
      && Keyed(interest)
      && (forall k <- interest :: interest[k] in freqs.members)
      && (forall r <- freqs.members :: Indexed(r))
      && (forall r <- freqs.members :: r == stale || Standing(r))
    }

    ghost predicate Valid()
      reads this`interest, freqs, freqs.list`entries, freqs.members
    {
      ValidBut(null)
    }

    ghost function Freqs(): map<Cid, int>
      reads this, interest.Values
    {
      map k | k in interest :: interest[k].freq
    }

    constructor ()
      ensures Valid() && fresh(freqs) && freqs.list == [] && freqs.members == {} && interest == map[]
    {
      freqs := new Ranking();
      interest := map[];
    }

    twostate lemma FreqsAdded(new have: set<Cid>, new k: Cid, new freq: nat)
      requires k !in have && interest.Keys == old(interest.Keys) + {k}
      requires forall j <- old(interest) :: interest[j] == old(interest[j])
      requires forall j <- old(interest) :: j != k ==> interest[j].freq == old(interest[j].freq)
      requires interest[k].freq == (if k in old(interest) then old(interest[k].freq) else 0) + freq
      ensures Freqs() == Added(old(Freqs()), have, k, freq)
    {
    }

    /** Moves a known ref to a higher frequency. */
    method Advance(ref: DataRef, nextFreq: int)
      requires Valid() && ref in freqs.members && nextFreq > ref.freq
      modifies freqs`list, freqs.list, ref`bucketNode, ref`freq
      ensures Valid() && ref.freq == nextFreq
      ensures forall b <- freqs.list :: b in old(freqs.list) || fresh(b)
    {
      assert Standing(ref);
      Shift(ref, nextFreq);
      label shifted:
      ref.freq := nextFreq;
      freqs.StillValid@shifted();
      forall r <- freqs.members ensures Standing(r) {
        assert r == ref || old@shifted(Standing(r));
      }
    }

    method Shift(ref: DataRef, nextFreq: int)
      requires Valid() && ref in freqs.members && nextFreq > ref.bucketNode.id
      modifies freqs`list, freqs.list, ref`bucketNode
      ensures ValidBut(ref) && ref.bucketNode.id == nextFreq
      ensures forall b <- freqs.list :: b in old(freqs.list) || fresh(b)
    {
      freqs.MoveTo(ref, nextFreq);
      forall r <- freqs.members ensures r == ref || Standing(r) {
        assert r == ref || old(Standing(r));
      }
    }

    /** A ref that entered the map and the ranking leaves the others as they are. */
    twostate lemma ValidWith(new ref: DataRef)
      requires old(Valid()) && freqs.Valid() && freqs.members == old(freqs.members) + {ref}
      requires ref.payloadCID !in old(interest) && interest == old(interest)[ref.payloadCID := ref]
      requires Standing(ref) && forall r <- old(freqs.members) :: r == ref || unchanged(r)
      ensures Valid()
    {
      forall r <- freqs.members ensures Indexed(r) && Standing(r) {
        assert r == ref || (old(Indexed(r)) && old(Standing(r)));
      }
    }

    /** Adds a ref that was not known. */
    method Discover(ref: DataRef)
      requires Valid() && ref.payloadCID !in interest && ref !in freqs.members
      modifies this`interest, freqs, freqs.list, ref`bucketNode
      ensures Valid() && interest == old(interest)[ref.payloadCID := ref]
      ensures freqs.members == old(freqs.members) + {ref}
      ensures forall b <- freqs.list :: b in old(freqs.list) || fresh(b)
    {
      interest := interest[ref.payloadCID := ref];
      freqs.Place(ref, ref.freq);
      ValidWith(ref);
    }

    /** A ref that is already known; content without reads changes nothing. */
    method Repeat(ghost have: set<Cid>, k: Cid, freq: nat)
      requires Valid() && k in interest && k !in have
      modifies freqs`list, freqs.list, interest[k]
      ensures Valid() && Freqs() == Added(old(Freqs()), have, k, freq)
      ensures forall b <- freqs.list :: b in old(freqs.list) || fresh(b)
    {
      var ref := interest[k];
      assert forall j <- interest :: j != k ==> interest[j] != ref;
      if freq != 0 {
        Advance(ref, ref.freq + freq);
      }
      FreqsAdded(have, k, freq);
    }

    /** What `LoadInterest` does with one ref of a peer's index. */
    method LoadRef(have: set<Cid>, k: Cid, v: Offered)
      requires Valid()
      modifies this`interest, freqs, freqs.list, if k in interest then {interest[k]} else {}
      ensures Valid() && Freqs() == Added(old(Freqs()), have, k, v.freq)
      ensures forall b <- freqs.list :: b in old(freqs.list) || fresh(b)
      ensures forall r <- freqs.members :: r in old(freqs.members) || fresh(r)
    {
      if k in have {
        return;
      }
      if k in interest {
        Repeat(have, k, v.freq);
      } else {
        DiscoverRef(have, k, v);
      }
    }

    twostate lemma FreqsDiscovered(new have: set<Cid>, new k: Cid, new found: DataRef)
      requires k !in have && k !in old(interest) && interest == old(interest)[k := found] && found.freq >= 0
      requires forall j <- old(interest) :: old(interest)[j].freq == old(interest[j].freq)
      ensures Freqs() == Added(old(Freqs()), have, k, found.freq)
    {
    }

    /** Adds a ref that was not known: what becomes of the frequencies. */
    method Introduce(ghost have: set<Cid>, found: DataRef)
      requires Valid() && found.payloadCID !in interest && found.payloadCID !in have && found !in freqs.members
      requires found.freq >= 0
      modifies this`interest, freqs, freqs.list, found`bucketNode
      ensures Valid() && Freqs() == Added(old(Freqs()), have, found.payloadCID, found.freq)
      ensures freqs.members == old(freqs.members) + {found}
      ensures forall b <- freqs.list :: b in old(freqs.list) || fresh(b)
    {
      Discover(found);
      FreqsDiscovered(have, found.payloadCID, found);
    }

    method DiscoverRef(ghost have: set<Cid>, k: Cid, v: Offered)
      requires Valid() && k !in interest && k !in have
      modifies this`interest, freqs, freqs.list
      ensures Valid() && Freqs() == Added(old(Freqs()), have, k, v.freq)
      ensures forall b <- freqs.list :: b in old(freqs.list) || fresh(b)
      ensures forall r <- freqs.members :: r in old(freqs.members) || fresh(r)
    {
      var found := new DataRef(k, v.size, v.freq, 0);
      assert Valid() && Freqs() == old(Freqs());
      Introduce(have, found);
    }

    /** `LoadInterest`: the refs of a peer's index are taken in any order. */
    method LoadInterest(have: set<Cid>, root: map<Cid, Offered>)
      requires Valid()
      modifies this`interest, freqs, freqs.list, freqs.members
      ensures Valid() && Freqs() == Loaded(old(Freqs()), have, root)
      ensures forall b <- freqs.list :: b in old(freqs.list) || fresh(b)
      ensures forall r <- freqs.members :: r in old(freqs.members) || fresh(r)
    {
      var rest := root.Keys;
      ghost var order: seq<Cid> := [];
      while rest != {}
        invariant Valid() && Visiting(root, rest, order)
        invariant Freqs() == LoadedInOrder(old(Freqs()), have, root, order)
        invariant forall b <- freqs.list :: b in old(freqs.list) || fresh(b)
        invariant forall r <- freqs.members :: r in old(freqs.members) || fresh(r)
        decreases rest
      {
        var k :| k in rest;
        VisitOne(old(Freqs()), have, root, rest, order, k);
        assert k in interest ==> interest[k] in freqs.members;
        assert forall i | 0 <= i < |freqs.list| :: freqs.list[i] in old(freqs.list) || fresh(freqs.list[i]);
        LoadRef(have, k, root[k]);
        rest, order := rest - {k}, order + [k];
      }
      OrderIsIrrelevant(old(Freqs()), have, root, order);
    }

    twostate lemma FreqsDropped(k: Cid)
      requires interest == old(interest) - {k}
      requires forall j <- interest :: interest[j].freq == old(interest[j].freq)
      ensures Freqs() == old(Freqs()) - {k}
    {
    }

    /** `DropInterest`; `false` when the ref is not known. */
    method DropInterest(k: Cid) returns (found: bool)
      requires Valid()
      modifies this`interest, freqs`list, freqs`members, freqs.list
      ensures Valid() && found == (k in old(interest)) && Freqs() == old(Freqs()) - {k}
      ensures forall b <- freqs.list :: b in old(freqs.list)
      ensures forall r <- freqs.members :: r in old(freqs.members)
    {
      found := k in interest;
      if found {
        Remove(interest[k]);
      }
      FreqsDropped(k);
    }

    method Remove(ref: DataRef)
      requires Valid() && ref in freqs.members
      modifies this`interest, freqs`list, freqs`members, ref.bucketNode`entries
      ensures Valid() && interest == old(interest) - {ref.payloadCID}
      ensures freqs.members == old(freqs.members) - {ref}
      ensures forall b <- freqs.list :: b in old(freqs.list)
    {
      assert Indexed(ref);
      interest := interest - {ref.payloadCID};
      freqs.Detach(ref);
      forall r <- freqs.members ensures Indexed(r) && Standing(r) {
        assert old(Indexed(r)) && old(Standing(r));
      }
    }

    /** The refs of each bucket, least read first. */
    function Contents(): (gs: seq<set<DataRef>>)
      reads freqs, freqs.list
      ensures |gs| == |freqs.list| && forall i | 0 <= i < |gs| :: gs[i] == freqs.list[i].entries
    {
      seq(|freqs.list|, i requires 0 <= i < |freqs.list| reads freqs, freqs.list => freqs.list[i].entries)
    }

    ghost function FreqOf(): map<DataRef, int>
      reads freqs, freqs.members
    {
      map r | r in freqs.members :: r.freq
    }

    ghost function Ids(): (ids: seq<int>)
      reads freqs
      ensures |ids| == |freqs.list| && forall i | 0 <= i < |ids| :: ids[i] == freqs.list[i].id
    {
      seq(|freqs.list|, i requires 0 <= i < |freqs.list| reads freqs => freqs.list[i].id)
    }

    lemma ContentsRanked()
      requires Valid()
      ensures Ranked(Contents(), freqs.members, Ids(), FreqOf())
    {
      var gs := Contents();
      forall i, r: DataRef | 0 <= i < |gs| && r in gs[i] ensures r in freqs.members && r.freq == freqs.list[i].id {
        assert freqs.list[i] in freqs.list;
        assert Standing(r);
      }
      forall r <- freqs.members ensures exists i :: 0 <= i < |gs| && r in gs[i] {
        assert r in gs[Position(freqs.list, r.bucketNode)];
      }
    }

    lemma NoBucketsIff()
      requires Valid()
      ensures freqs.list == [] <==> interest == map[]
    {
      if freqs.list != [] {
        assert freqs.list[0] in freqs.list;
        var r :| r in freqs.list[0].entries;
        assert Indexed(r);
      }
    }

    lemma NoBucketsNoMembers()
      requires Valid() && freqs.list == []
      ensures freqs.members == {}
    {
    }

    /** `Interesting` while there is space: refs are picked from the most read bucket downwards, in
        any order within a bucket, until they fill the space. */
    method Fill(av: nat) returns (picks: seq<DataRef>)
      requires Valid() && av > 0
      ensures Distinct(picks) && Elements(picks) <= freqs.members
      ensures Bytes(picks) >= av || Elements(picks) == freqs.members
      ensures picks != [] ==> Bytes(picks[..|picks| - 1]) < av
      ensures IsTop(freqs.members, Elements(picks), FreqOf())
    {
      ContentsRanked();
      picks := FillLevels(Contents(), freqs.members, Ids(), FreqOf(), av);
    }

    /** `Interesting` while there is no space: one of the most read refs, if something in the least
        popular bucket of the index is read less. */
    method Swap(front: set<DataRef>) returns (pick: Option<DataRef>)
      requires Valid()
      ensures pick.Some? <==> exists r, m :: r in front && m in freqs.members && r.freq < m.freq
      ensures pick.Some? ==> pick.value in freqs.members && forall m <- freqs.members :: m.freq <= pick.value.freq
    {
      if |freqs.list| == 0 {
        NoBucketsNoMembers();
        return None;
      }
      var last := freqs.list[|freqs.list| - 1];
      assert last in freqs.list;
      forall m <- freqs.members ensures m.freq <= last.id {
        assert Standing(m);
        var p := Position(freqs.list, m.bucketNode);
      }
      var m: DataRef :| m in last.entries;
      assert Standing(m) && m.freq == last.id;
      var rest := front;
      while rest != {}
        invariant rest <= front && forall r <- front - rest :: r.freq >= last.id
        decreases rest
      {
        var r: DataRef :| r in rest;
        if last.id > r.freq {
          return Some(m);
        }
        rest := rest - {r};
      }
      return None;
    }
  }

  /** Everything above bucket `e`, nothing below it. */
  ghost predicate FromBack(gs: seq<set<DataRef>>, picks: set<DataRef>, e: nat) {
    && (forall j | e < j < |gs| :: gs[j] <= picks)
    && (forall j | 0 <= j < e && j < |gs| :: gs[j] !! picks)
  }

  /** The refs of bucket `i` have frequency `ids[i]`, and these ascend. */
  ghost predicate Levels(gs: seq<set<DataRef>>, ids: seq<int>, freq: map<DataRef, int>) {
    && |ids| == |gs|
    && (forall i, j | 0 <= i < j < |ids| :: ids[i] < ids[j])
    && (forall i, r | 0 <= i < |gs| && r in gs[i] :: r in freq && freq[r] == ids[i])
  }

  ghost predicate Ranked(gs: seq<set<DataRef>>, members: set<DataRef>, ids: seq<int>, freq: map<DataRef, int>) {
    && Levels(gs, ids, freq)
    && (forall r <- members :: exists i :: 0 <= i < |gs| && r in gs[i])
    && (forall i | 0 <= i < |gs| :: gs[i] <= members)
  }

  lemma LevelsPartition(gs: seq<set<DataRef>>, members: set<DataRef>, ids: seq<int>, freq: map<DataRef, int>)
    requires Ranked(gs, members, ids, freq)
    ensures Partition(gs, members)
  {
    forall i, j | 0 <= i < j < |gs| ensures gs[i] !! gs[j] {
      forall r: DataRef | r in gs[i] ensures r !in gs[j] {
        assert freq[r] == ids[i] < ids[j];
      }
    }
  }

  /** No ref that was left out is read more often than one that was picked. */
  ghost predicate IsTop(members: set<DataRef>, picks: set<DataRef>, freq: map<DataRef, int>) {
    forall r, m | r in picks && m in members && m !in picks :: r in freq && m in freq && freq[m] <= freq[r]
  }

  lemma TopOfLevels(gs: seq<set<DataRef>>, members: set<DataRef>, picks: set<DataRef>, e: nat,
                    ids: seq<int>, freq: map<DataRef, int>)
    requires Partition(gs, members) && Levels(gs, ids, freq) && picks <= members && FromBack(gs, picks, e)
    ensures IsTop(members, picks, freq)
  {
    forall r, m | r in picks && m in members && m !in picks ensures r in freq && m in freq && freq[m] <= freq[r] {
      var i :| 0 <= i < |gs| && r in gs[i];
      var j :| 0 <= j < |gs| && m in gs[j];
      assert j <= e <= i;
    }
  }

  /** Refs picked so far: everything from bucket `e` on, nothing before, not enough bytes yet. */
  ghost predicate Picking(gs: seq<set<DataRef>>, members: set<DataRef>, picks: seq<DataRef>, e: nat, av: nat) {
    && Distinct(picks) && Elements(picks) <= members
    && (forall j | e <= j < |gs| :: gs[j] <= Elements(picks))
    && (forall j | 0 <= j < e && j < |gs| :: gs[j] !! Elements(picks))
    && Bytes(picks) < av
  }

  /** The two loops of `Interesting`: from the last bucket to the first. */
  method PickFromBack(gs: seq<set<DataRef>>, ghost members: set<DataRef>, av: nat)
    returns (picks: seq<DataRef>, ghost e: nat)
    requires Partition(gs, members) && av > 0
    ensures Distinct(picks) && Elements(picks) <= members && FromBack(gs, Elements(picks), e)
    ensures Bytes(picks) >= av || Elements(picks) == members
    ensures picks != [] ==> Bytes(picks[..|picks| - 1]) < av
  {
    picks := [];
    var i: nat := |gs|;
    while i > 0
      invariant i <= |gs| && Picking(gs, members, picks, i, av)
      invariant picks != [] ==> Bytes(picks[..|picks| - 1]) < av
    {
      i := i - 1;
      var met: bool;
      ghost var before := picks;
      picks, met := PickBucket(picks, gs[i], av);
      PickedBucket(gs, members, before, picks, i, av);
      if met {
        e := i;
        return;
      }
    }
    e := 0;
    PickedAll(gs, members, picks, av);
  }

  method FillLevels(gs: seq<set<DataRef>>, ghost members: set<DataRef>, ghost ids: seq<int>,
                    ghost freq: map<DataRef, int>, av: nat) returns (picks: seq<DataRef>)
    requires Ranked(gs, members, ids, freq) && av > 0
    ensures Distinct(picks) && Elements(picks) <= members
    ensures Bytes(picks) >= av || Elements(picks) == members
    ensures picks != [] ==> Bytes(picks[..|picks| - 1]) < av
    ensures IsTop(members, Elements(picks), freq)
  {
    LevelsPartition(gs, members, ids, freq);
    ghost var e: nat;
    picks, e := PickFromBack(gs, members, av);
    TopOfLevels(gs, members, Elements(picks), e, ids, freq);
  }

  lemma PickedBucket(gs: seq<set<DataRef>>, members: set<DataRef>, before: seq<DataRef>,
                     picks: seq<DataRef>, i: nat, av: nat)
    requires Partition(gs, members) && i < |gs| && Picking(gs, members, before, i + 1, av)
    requires Distinct(picks) && Elements(before) <= Elements(picks) <= Elements(before) + gs[i]
    requires Bytes(picks) < av ==> Elements(picks) == Elements(before) + gs[i]
    ensures Elements(picks) <= members && FromBack(gs, Elements(picks), i)
    ensures Bytes(picks) < av ==> Picking(gs, members, picks, i, av)
  {
  }

  lemma PickedAll(gs: seq<set<DataRef>>, members: set<DataRef>, picks: seq<DataRef>, av: nat)
    requires Partition(gs, members) && Picking(gs, members, picks, 0, av)
    ensures Elements(picks) == members && FromBack(gs, Elements(picks), 0)
  {
    forall r <- members ensures r in Elements(picks) {
      var i :| 0 <= i < |gs| && r in gs[i];
      assert gs[i] <= Elements(picks);
    }
  }

  /** One bucket, in any order, until the bytes are enough. */
  method PickBucket(before: seq<DataRef>, bucket: set<DataRef>, av: nat) returns (picks: seq<DataRef>, met: bool)
    requires Distinct(before) && Elements(before) !! bucket && Bytes(before) < av
    requires before != [] ==> Bytes(before[..|before| - 1]) < av
    ensures Distinct(picks) && Elements(before) <= Elements(picks) <= Elements(before) + bucket
    ensures met == (Bytes(picks) >= av)
    ensures !met ==> Elements(picks) == Elements(before) + bucket
    ensures picks != [] ==> Bytes(picks[..|picks| - 1]) < av
  {
    picks, met := before, false;
    var rest := bucket;
    while rest != {}
      invariant InBucket(before, bucket, rest, picks) && Short(picks, av)
      decreases rest
    {
      var r: DataRef :| r in rest;
      PickOne(before, bucket, rest, picks, r);
      BytesAppend(picks, r);
      picks := picks + [r];
      rest := rest - {r};
      if Bytes(picks) >= av {
        return picks, true;
      }
    }
  }

  /** `rest` is what is left of the bucket. */
  ghost predicate InBucket(before: seq<DataRef>, bucket: set<DataRef>, rest: set<DataRef>, picks: seq<DataRef>) {
    rest <= bucket && Distinct(picks) && Elements(picks) == Elements(before) + (bucket - rest)
  }

  ghost predicate Short(picks: seq<DataRef>, av: nat) {
    Bytes(picks) < av && (picks != [] ==> Bytes(picks[..|picks| - 1]) < av)
  }

  lemma BytesAppend(picks: seq<DataRef>, r: DataRef)
    ensures (picks + [r])[..|picks|] == picks && Bytes(picks + [r]) == Bytes(picks) + r.payloadSize
  {
  }

  lemma DistinctAppend(picks: seq<DataRef>, r: DataRef)
    requires Distinct(picks) && r !in Elements(picks)
    ensures Distinct(picks + [r])
  {
    forall i | 0 <= i < |picks| ensures picks[i] != r {
      assert picks[i] in Elements(picks);
    }
  }

  lemma ElementsAppend(picks: seq<DataRef>, r: DataRef)
    ensures Elements(picks + [r]) == Elements(picks) + {r}
  {
    assert forall x :: x in picks + [r] <==> x in picks || x == r;
  }

  lemma PickOne(before: seq<DataRef>, bucket: set<DataRef>, rest: set<DataRef>, picks: seq<DataRef>, r: DataRef)
    requires InBucket(before, bucket, rest, picks) && r in rest && Elements(before) !! bucket
    ensures InBucket(before, bucket, rest - {r}, picks + [r])
  {
    DistinctAppend(picks, r);
    ElementsAppend(picks, r);
    assert bucket - (rest - {r}) == (bucket - rest) + {r};
  }

  // ---------- Interesting ----------

  /** With `NoFront` the call panics on a front bucket that is not there. */
  datatype Picked = Picks(refs: seq<DataRef>) | Nothing | NoFront

  /** Picks that fill the space `av`: the most read refs, as many as are needed and no more. */
  ghost predicate Fills(picks: seq<DataRef>, members: set<DataRef>, freq: map<DataRef, int>, av: nat) {
    && Distinct(picks) && Elements(picks) <= members && IsTop(members, Elements(picks), freq)
    && (Bytes(picks) >= av || Elements(picks) == members)
    && (picks != [] ==> Bytes(picks[..|picks| - 1]) < av)
  }

  /** Some known ref is read more often than one in the least popular bucket of the index. */
  ghost predicate Improves(l: InterestList, front: set<DataRef>)
    reads l, l.freqs, l.freqs.members, front
  {
    exists r, m :: r in front && m in l.freqs.members && r.freq < m.freq
  }

  /** `Interesting`.  With space, the most read refs fill it.  Without, a most read ref is picked if it
      improves on the least popular bucket; an index without refs has none, and then the call panics
      if there is anything to compare it with. */
  method Interesting(idx: Index, l: InterestList) returns (picked: Picked)
    requires idx.Valid() && l.Valid()
    ensures Space(idx.ub, idx.lb, idx.size) > 0 ==>
              picked.Picks? && Fills(picked.refs, l.freqs.members, l.FreqOf(), Space(idx.ub, idx.lb, idx.size))
    ensures Space(idx.ub, idx.lb, idx.size) == 0 ==>
              && (picked == NoFront <==> idx.refs == map[] && l.interest != map[])
              && (picked.Picks? <==> Improves(l, idx.Front()))
              && (picked.Picks? ==> |picked.refs| == 1 && IsTop(l.freqs.members, {picked.refs[0]}, l.FreqOf()))
  {
    var av := idx.Available();
    if av > 0 {
      var picks := l.Fill(av);
      return Picks(picks);
    }
    picked := WithoutSpace(idx, l);
  }

  method WithoutSpace(idx: Index, l: InterestList) returns (picked: Picked)
    requires idx.Valid() && l.Valid()
    ensures picked == NoFront <==> idx.refs == map[] && l.interest != map[]
    ensures picked.Picks? <==> Improves(l, idx.Front())
    ensures picked.Picks? ==> |picked.refs| == 1 && IsTop(l.freqs.members, {picked.refs[0]}, l.FreqOf())
  {
    idx.FrontByRanks();
    l.NoBucketsIff();
    if |l.freqs.list| == 0 {
      l.NoBucketsNoMembers();
      return Nothing;
    }
    if |idx.blist.list| == 0 {
      return NoFront;
    }
    var pick := l.Swap(idx.blist.list[0].entries);
    return if pick.Some? then Picks([pick.value]) else Nothing;
  }

  /** A new index without bounds has no space and no refs: with anything known from a peer, the call
      panics. */
  method InterestingPanics(l: InterestList) returns (picked: Picked)
    requires l.Valid() && l.interest != map[]
    ensures picked == NoFront
  {
    var idx := NewIndex(map[], 0, 0);
    assert PersistedSizes(map[], {}) == map[];
    picked := Interesting(idx, l);
  }

  // ---------- Histories ----------

  /** A ref of a peer's index is loaded while the node has the content of `have`; a ref is dropped. */
  datatype Event = Load(have: set<Cid>, k: Cid, v: Offered) | Lose(k: Cid)

  /** Frequencies after a history of loads and drops. */
  function FreqsAfter(es: seq<Event>): map<Cid, int> {
    if es == [] then map[]
    else
      var before := FreqsAfter(es[..|es| - 1]);
      match es[|es| - 1]
      case Load(have, k, v) => Added(before, have, k, v.freq)
      case Lose(k) => before - {k}
  }

  /** The number of events up to and including the last drop of `k`. */
  function LastDrop(es: seq<Event>, k: Cid): (n: nat)
    ensures n <= |es|
  {
    if es == [] then 0
    else if es[|es| - 1] == Lose(k) then |es|
    else LastDrop(es[..|es| - 1], k)
  }

  /** Whether the event adds to the frequency of `k`: what the node has is skipped. */
  predicate Counts(e: Event, k: Cid) {
    e.Load? && e.k == k && k !in e.have
  }

  function SumLoads(es: seq<Event>, k: Cid): nat {
    if es == [] then 0
    else SumLoads(es[..|es| - 1], k) + if Counts(es[|es| - 1], k) then es[|es| - 1].v.freq else 0
  }

  ghost predicate LoadedIn(es: seq<Event>, k: Cid) {
    exists i :: 0 <= i < |es| && Counts(es[i], k)
  }

  /** A ref is known exactly when it was loaded since its last drop, and its frequency is the sum of
      the frequencies it was loaded with since then. */
  lemma {:induction false} FrequencyIsSum(es: seq<Event>, k: Cid)
    ensures var since := es[LastDrop(es, k)..];
            && (k in FreqsAfter(es) <==> LoadedIn(since, k))
            && (if k in FreqsAfter(es) then FreqsAfter(es)[k] == SumLoads(since, k) else SumLoads(since, k) == 0)
  {
    if es != [] {
      var init, e := es[..|es| - 1], es[|es| - 1];
      FrequencyIsSum(init, k);
      if e != Lose(k) {
        var d := LastDrop(init, k);
        assert es[d..] == init[d..] + [e];
        assert (init[d..] + [e])[..|init[d..]|] == init[d..];
        assert Counts(e, k) ==> es[d..][|init[d..]|] == e;
        assert forall i | 0 <= i < |init[d..]| :: es[d..][i] == init[d..][i];
      }
    }
  }

  /** Any history of loads and drops leaves a valid list with exactly those frequencies. */
  method Replay(es: seq<Event>) returns (l: InterestList)
    ensures fresh(l) && l.Valid() && l.Freqs() == FreqsAfter(es)
    ensures forall k: Cid :: k in l.interest <==> LoadedIn(es[LastDrop(es, k)..], k)
    ensures forall k <- l.interest ::
              && l.interest[k].freq == SumLoads(es[LastDrop(es, k)..], k)
              && l.interest[k].bucketNode != null && l.interest[k].bucketNode.id == l.interest[k].freq
  {
    l := new InterestList();
    assert l.Freqs() == map[];
    for i := 0 to |es|
      invariant fresh(l) && fresh(l.freqs) && fresh(set b | b in l.freqs.list) && fresh(l.freqs.members)
      invariant l.Valid() && l.Freqs() == FreqsAfter(es[..i])
    {
      assert es[..i + 1][..i] == es[..i];
      Happen(l, es[i]);
    }
    assert es[..|es|] == es;
    Summed(l, es);
  }

  /** One event of a history. */
  method Happen(l: InterestList, e: Event)
    requires l.Valid()
    modifies l, l.freqs, l.freqs.list, l.freqs.members
    ensures l.Valid()
    ensures l.Freqs() == match e
                         case Load(have, k, v) => Added(old(l.Freqs()), have, k, v.freq)
                         case Lose(k) => old(l.Freqs()) - {k}
    ensures forall b <- l.freqs.list :: b in old(l.freqs.list) || fresh(b)
    ensures forall r <- l.freqs.members :: r in old(l.freqs.members) || fresh(r)
  {
    match e
    case Load(have, k, v) => l.LoadRef(have, k, v);
    case Lose(k) => var found := l.DropInterest(k);
  }

  lemma Summed(l: InterestList, es: seq<Event>)
    requires l.Valid() && l.Freqs() == FreqsAfter(es)
    ensures forall k: Cid :: k in l.interest <==> LoadedIn(es[LastDrop(es, k)..], k)
    ensures forall k <- l.interest ::
              && l.interest[k].freq == SumLoads(es[LastDrop(es, k)..], k)
              && l.interest[k].bucketNode != null && l.interest[k].bucketNode.id == l.interest[k].freq
  {
    assert l.Freqs().Keys == l.interest.Keys;
    forall k: Cid ensures k in l.interest <==> LoadedIn(es[LastDrop(es, k)..], k) {
      FrequencyIsSum(es, k);
    }
    forall k <- l.interest
      ensures l.interest[k].freq == SumLoads(es[LastDrop(es, k)..], k)
      ensures l.interest[k].bucketNode != null && l.interest[k].bucketNode.id == l.interest[k].freq
    {
      FrequencyIsSum(es, k);
      assert l.Freqs()[k] == l.interest[k].freq;
      assert l.Standing(l.interest[k]);
    }
  }
}
