/** The content index with least-frequently-used eviction (exchange/index.go).

The index keeps, in step, a map of refs, the ranking of the refs, a persisted copy of each ref and
the number of bytes stored.  `Valid` is what every operation keeps; each operation says what it
does to the ranks, and `Index.RanksViewed` with `BucketList.GroupsUnique` turn ranks into the
list.  Whole runs are in `IndexRuns`.
 */
module LfuIndex {
  import opened Deal
  import opened BucketList

  /** A ref as it is persisted. */
  datatype RefValue = RefValue(size: nat, freq: int, bucketID: int)

  /** With `NilRef` the call panics on a ref that is not there. */
  datatype Error = RefNotFound | RefAlreadyExists | NilRef

  /** The bytes of a list of refs. */
  function Bytes(refs: seq<DataRef>): nat {
    if refs == [] then 0 else Bytes(refs[..|refs| - 1]) + refs[|refs| - 1].payloadSize
  }

  ghost function Elements(s: seq<DataRef>): set<DataRef> {
    set r | r in s
  }

  ghost predicate Distinct(s: seq<DataRef>) {
    forall i, j | 0 <= i < j < |s| :: s[i] != s[j]
  }

  /** Refs taken one by one from a bucket, until the target is met for the first time or the
      bucket is empty. */
  ghost predicate Taken(order: seq<DataRef>, bucket: set<DataRef>, target: nat) {
    && Distinct(order) && Elements(order) <= bucket
    && (forall i | 0 < i < |order| :: Bytes(order[..i]) < target)
    && (Bytes(order) >= target || Elements(order) == bucket)
  }

  /** The same, while `rest` is left and the target is not met. */
  ghost predicate Taking(order: seq<DataRef>, bucket: set<DataRef>, rest: set<DataRef>, target: nat) {
    && Distinct(order) && Elements(order) + rest == bucket && Elements(order) !! rest
    && forall i | 0 < i <= |order| :: Bytes(order[..i]) < target
  }

  /** What is left of the map, the ranking and the byte count without the refs in `order`. */
  ghost predicate Gone(order: seq<DataRef>, refs: map<Cid, DataRef>, members: set<DataRef>, size: int,
                       refs': map<Cid, DataRef>, members': set<DataRef>, size': int)
  {
    && refs' == refs - Cids(Elements(order))
    && members' == members - Elements(order)
    && size' == size - Bytes(order)
  }

  lemma TakeOne(order: seq<DataRef>, bucket: set<DataRef>, rest: set<DataRef>, target: nat, r: DataRef)
    requires Taking(order, bucket, rest, target) && r in rest
    ensures var order' := order + [r];
            && Bytes(order') == Bytes(order) + r.payloadSize
            && (Bytes(order') >= target ==> Taken(order', bucket, target))
            && (Bytes(order') < target ==> Taking(order', bucket, rest - {r}, target))
            && (Bytes(order') < target && rest == {r} ==> Taken(order', bucket, target))
  {
    var order' := order + [r];
    assert order'[..|order|] == order;
    assert order'[..|order'|] == order';
    forall i | 0 < i < |order'| ensures Bytes(order'[..i]) < target {
      assert order'[..i] == order[..i];
    }
  }

  lemma GoneOne(order: seq<DataRef>, refs: map<Cid, DataRef>, members: set<DataRef>, size: int,
                refs': map<Cid, DataRef>, members': set<DataRef>, size': int, r: DataRef)
    requires Gone(order, refs, members, size, refs', members', size')
    ensures Gone(order + [r], refs, members, size, refs' - {r.payloadCID}, members' - {r}, size' - r.payloadSize)
  {
    assert (order + [r])[..|order|] == order;
    assert Elements(order + [r]) == Elements(order) + {r};
  }

  /** In the middle of an eviction, or at its end once the target is met. */
  ghost predicate Evicting(order: seq<DataRef>, bucket: set<DataRef>, rest: set<DataRef>, met: bool, target: nat,
                           refs: map<Cid, DataRef>, members: set<DataRef>, size: int,
                           refs': map<Cid, DataRef>, members': set<DataRef>, size': int)
  {
    && Gone(order, refs, members, size, refs', members', size')
    && if met then Taken(order, bucket, target) else Taking(order, bucket, rest, target)
  }

  lemma EvictOne(order: seq<DataRef>, bucket: set<DataRef>, rest: set<DataRef>, target: nat,
                 refs: map<Cid, DataRef>, members: set<DataRef>, size: int,
                 refs': map<Cid, DataRef>, members': set<DataRef>, size': int, r: DataRef)
    requires Evicting(order, bucket, rest, false, target, refs, members, size, refs', members', size') && r in rest
    ensures Bytes(order + [r]) == Bytes(order) + r.payloadSize
    ensures Evicting(order + [r], bucket, rest - {r}, Bytes(order + [r]) >= target, target,
                     refs, members, size, refs' - {r.payloadCID}, members' - {r}, size' - r.payloadSize)
  {
    TakeOne(order, bucket, rest, target, r);
    GoneOne(order, refs, members, size, refs', members', size', r);
  }

  lemma BucketDrained(order: seq<DataRef>, bucket: set<DataRef>, target: nat)
    requires Taking(order, bucket, {}, target)
    ensures Taken(order, bucket, target)
  {
  }

  /** Refs are indexed by their content. */
  ghost predicate Keyed(refs: map<Cid, DataRef>) {
    forall k <- refs :: refs[k].payloadCID == k
  }

  /** Ranks with one content moved up. */
  function Raised(ranks: map<Cid, int>, k: Cid): map<Cid, int> {
    if k in ranks then ranks[k := ranks[k] + 1] else ranks
  }

  class Index {
    const ub: nat
    const lb: nat
    const blist: Ranking
    var refs: map<Cid, DataRef>
    var root: map<Cid, RefValue>
    var size: int

    ghost predicate Indexed(r: DataRef)
      reads this`refs
    {
      r.payloadCID in refs && refs[r.payloadCID] == r
    }

    /** A ref that carries the rank it stands at and is persisted as it is. */
    ghost predicate Recorded(r: DataRef)
      reads this`root, r
    {
      && r.bucketNode != null && r.bucketID == r.bucketNode.id
      && r.payloadCID in root && root[r.payloadCID] == ValueOf(r)
    }

    /** Everything holds, but that `pending` is in the map and not ranked, and `stale` is ranked but
        not recorded. */
    ghost predicate ValidBut(pending: DataRef?, stale: DataRef?)
      reads this`refs, this`root, blist, blist.list`entries, blist.members
    {
      && blist.Valid()
      && Keyed(refs)
      && (forall k <- refs :: refs[k] in blist.members || refs[k] == pending)
      && (forall r <- blist.members :: Indexed(r) && r != pending)
      && (forall r <- blist.members :: r == stale || Recorded(r))
    }

    /** The ranking is well formed and holds exactly the indexed refs, each at the rank it carries,
        and every indexed ref is persisted as it is. */
    ghost predicate Valid()
      reads this`refs, this`root, blist, blist.list`entries, blist.members
    {
      ValidBut(null, null)
    }

    ghost function ValueOf(r: DataRef): RefValue
      reads r
    {
      RefValue(r.payloadSize, r.freq, r.bucketID)
    }

    ghost function Ranks(): map<Cid, int>
      reads this, refs.Values
    {
      map k | k in refs :: refs[k].bucketID
    }

    /** The persisted ranks. */
    ghost function PersistedRanks(): map<Cid, int>
      reads this
    {
      map k | k in root :: root[k].bucketID
    }

    /** Nothing but the indexed refs is persisted. */
    ghost predicate InSync()
      reads this
    {
      root.Keys == refs.Keys
    }

    /** The list shows exactly the groups of the ranks. */
    lemma RanksViewed()
      requires Valid()
      ensures Groups(blist.View(), Ranks())
    {
      var ranks := Ranks();
      forall k ensures k in ranks <==> exists r :: r in blist.members && r.payloadCID == k {
        if k in ranks {
          assert refs[k] in blist.members && refs[k].payloadCID == k;
        }
      }
      forall r <- blist.members ensures r.payloadCID in ranks && ranks[r.payloadCID] == r.bucketNode.id {
        assert Indexed(r) && Recorded(r);
      }
      blist.ViewIsGroups(ranks);
    }

    lemma RanksIn(gs: seq<Group>)
      requires Valid() && gs == blist.View()
      ensures Groups(gs, Ranks()) && Ranks().Keys == refs.Keys
    {
      RanksViewed();
    }

    lemma RanksPersisted()
      requires Valid() && InSync()
      ensures Ranks() == PersistedRanks()
    {
      forall k | k in refs ensures root[k].bucketID == refs[k].bucketID {
        assert Recorded(refs[k]);
      }
    }

    /** The indexed refs have the sizes they are persisted with. */
    lemma SizesPersisted()
      requires Valid() && InSync()
      ensures SizesOf(refs) == PersistedSizes(root, root.Keys)
    {
      forall k <- refs ensures refs[k].payloadSize == root[k].size {
        assert Recorded(refs[k]);
      }
    }

    /** An index that has read its persisted refs but loaded none of them. */
    constructor (root: map<Cid, RefValue>, ub: nat, lb: nat)
      requires lb <= ub
      ensures Valid() && fresh(blist) && blist.list == [] && blist.members == {}
      ensures this.root == root && refs == map[] && size == 0 && this.ub == ub && this.lb == lb
    {
      this.ub, this.lb, this.root := ub, lb, root;
      blist := new Ranking();
      refs, size := map[], 0;
    }

    /** Puts a new ref into the map and counts its bytes, without ranking it. */
    method Enter(ref: DataRef)
      requires Valid() && ref.payloadCID !in refs && ref !in blist.members
      modifies this`refs, this`size
      ensures ValidBut(ref, null) && refs == old(refs)[ref.payloadCID := ref] && size == old(size) + ref.payloadSize
    {
      refs := refs[ref.payloadCID := ref];
      size := size + ref.payloadSize;
      forall r <- blist.members ensures Indexed(r) {
        assert old(Indexed(r));
      }
    }

    /** Ranks the ref that was entered. */
    method Rank(ref: DataRef, id: int)
      requires ValidBut(ref, null) && Indexed(ref) && ref !in blist.members
      modifies blist, blist.list, ref`bucketNode
      ensures ValidBut(null, ref) && blist.members == old(blist.members) + {ref} && ref.bucketNode.id == id
      ensures forall b <- blist.list :: b in old(blist.list) || fresh(b)
    {
      blist.Place(ref, id);
      forall r <- blist.members ensures Indexed(r) && (r == ref || Recorded(r)) {
        assert r == ref || (old(Indexed(r)) && old(Recorded(r)));
      }
    }

    /** Ranks the ref that was entered among the most popular ones. */
    method RankLast(ref: DataRef)
      requires ValidBut(ref, null) && Indexed(ref) && ref !in blist.members
      modifies blist, if blist.list == [] then {} else {blist.list[|blist.list| - 1]}, ref`bucketNode
      ensures ValidBut(null, ref) && ref in blist.members && ref.freq == old(ref.freq) && root == old(root)
      ensures ref.bucketNode.id == if old(blist.list) == [] then 1 else old(blist.list)[|old(blist.list)| - 1].id
      ensures forall b <- blist.list :: b in old(blist.list) || fresh(b)
    {
      var id := blist.PlaceLast(ref);
      forall r <- blist.members ensures Indexed(r) && (r == ref || Recorded(r)) {
        assert r == ref || (old(Indexed(r)) && old(Recorded(r)));
      }
    }

    /** `increment` of a ref that is in no list. */
    method IncrementNew(ref: DataRef)
      requires ValidBut(ref, null) && Indexed(ref) && ref !in blist.members
      modifies this`root, blist, if blist.list == [] then {} else {blist.list[|blist.list| - 1]}
      modifies ref`freq, ref`bucketID, ref`bucketNode
      ensures Valid() && ref.freq == old(ref.freq)
      ensures ref.bucketID == if old(blist.list) == [] then 1 else old(blist.list)[|old(blist.list)| - 1].id
      ensures root == old(root)[ref.payloadCID := ValueOf(ref)]
      ensures forall b <- blist.list :: b in old(blist.list) || fresh(b)
    {
      RankLast(ref);
      Record(ref, 0);
    }

    /** Enters and ranks a ref that is persisted as it is. */
    method Load(ref: DataRef)
      requires Valid() && ref.payloadCID !in refs && ref !in blist.members
      requires ref.payloadCID in root && root[ref.payloadCID] == ValueOf(ref)
      modifies this`refs, this`size, blist, blist.list, ref`bucketNode
      ensures Valid() && refs == old(refs)[ref.payloadCID := ref] && size == old(size) + ref.payloadSize
      ensures blist.members == old(blist.members) + {ref}
      ensures forall b <- blist.list :: b in old(blist.list) || fresh(b)
    {
      Enter(ref);
      Rank(ref, ref.bucketID);
      assert Recorded(ref);
    }

    /** Loads one persisted ref, at the rank it was persisted with. */
    method LoadRef(k: Cid)
      requires Valid() && k in root && k !in refs
      modifies this`refs, this`size, blist, blist.list
      ensures Valid() && refs.Keys == old(refs.Keys) + {k} && size == old(size) + root[k].size
      ensures forall b <- blist.list :: b in old(blist.list) || fresh(b)
      ensures forall r <- blist.members :: r in old(blist.members) || fresh(r)
    {
      var val := root[k];
      var v := new DataRef(k, val.size, val.freq, val.bucketID);
      assert Valid() && ValueOf(v) == val;
      Load(v);
    }

    /** Loads one persisted ref more, after those of `done`. */
    method LoadNext(k: Cid, ghost done: set<Cid>)
      requires Valid() && k in root && k !in done && refs.Keys == done && size == Stored(PersistedSizes(root, done))
      modifies this`refs, this`size, blist, blist.list
      ensures Valid() && refs.Keys == done + {k} && size == Stored(PersistedSizes(root, done + {k}))
      ensures forall b <- blist.list :: b in old(blist.list) || fresh(b)
      ensures forall r <- blist.members :: r in old(blist.members) || fresh(r)
    {
      LoadRef(k);
      PersistedStep(root, done, k);
    }

    /** Writes the rank a ref stands at into the ref, and persists the ref. */
    method Record(ref: DataRef, uses: int)
      requires ValidBut(null, ref) && ref in blist.members
      modifies this`root, ref`freq, ref`bucketID
      ensures Valid()
      ensures ref.bucketID == ref.bucketNode.id && ref.freq == old(ref.freq) + uses
      ensures root == old(root)[ref.payloadCID := ValueOf(ref)]
    {
      ref.freq := ref.freq + uses;
      ref.bucketID := ref.bucketNode.id;
      root := root[ref.payloadCID := RefValue(ref.payloadSize, ref.freq, ref.bucketID)];
      blist.StillValid();
      forall r <- blist.members ensures Recorded(r) {
        assert Indexed(r);
        assert r == ref || old(Recorded(r));
      }
    }

    /** Moves a ref one rank up without recording it. */
    method Promote(ref: DataRef)
      requires Valid() && ref in blist.members
      modifies blist`list, blist.list, ref`bucketNode
      ensures ValidBut(null, ref) && ref.bucketNode.id == old(ref.bucketID) + 1
      ensures forall b <- blist.list :: b in old(blist.list) || fresh(b)
    {
      assert Recorded(ref);
      blist.MoveUp(ref);
      forall r <- blist.members ensures r == ref || Recorded(r) {
        assert r == ref || old(Recorded(r));
      }
    }

    /** `increment` of a ref that is already ranked: one rank up, one read more. */
    method IncrementRanked(ref: DataRef)
      requires Valid() && ref in blist.members
      modifies this`root, blist`list, blist.list, ref
      ensures Valid()
      ensures ref.bucketID == old(ref.bucketID) + 1 && ref.freq == old(ref.freq) + 1
      ensures root == old(root)[ref.payloadCID := ValueOf(ref)]
      ensures forall b <- blist.list :: b in old(blist.list) || fresh(b)
    {
      Promote(ref);
      Record(ref, 1);
    }

    twostate lemma RanksRaised(k: Cid)
      requires refs == old(refs)
      requires forall j <- refs :: refs[j].bucketID == old(refs[j].bucketID) + if j == k then 1 else 0
      ensures Ranks() == Raised(old(Ranks()), k)
    {
    }

    /** `GetRef`. */
    method GetRef(k: Cid) returns (err: Option<Error>)
      requires Valid()
      modifies this`root, blist`list, blist.list, if k in refs then {refs[k]} else {}
      ensures Valid() && err == if k in refs then None else Some(RefNotFound)
      ensures Ranks() == Raised(old(Ranks()), k)
      ensures k in refs ==> refs[k].freq == old(refs[k].freq) + 1
      ensures root == if k in refs then old(root)[k := ValueOf(refs[k])] else old(root)
      ensures forall b <- blist.list :: b in old(blist.list) || fresh(b)
    {
      if k !in refs {
        RanksRaised(k);
        return Some(RefNotFound);
      }
      var ref := refs[k];
      assert forall j <- refs :: j != k ==> refs[j] != ref;
      IncrementRanked(ref);
      RanksRaised(k);
      return None;
    }

    /** A ref that left the map and the ranking takes nothing else with it. */
    twostate lemma ValidWithout(new ref: DataRef, new pending: DataRef?)
      requires old(allocated(ref)) && (pending == null || old(allocated(pending)))
      requires old(ValidBut(pending, null)) && ref in old(blist.members)
      requires blist.Valid() && blist.members == old(blist.members) - {ref}
      requires refs == old(refs) - {ref.payloadCID} && root == old(root)
      requires forall r <- old(blist.members) :: unchanged(r)
      ensures ValidBut(pending, null)
    {
      forall r <- blist.members ensures Indexed(r) && r != pending && Recorded(r) {
        assert old(Indexed(r)) && old(Recorded(r));
      }
    }

    /** Takes a ranked ref out of the map and the ranking. */
    method Forget(ref: DataRef, ghost pending: DataRef?)
      requires ValidBut(pending, null) && ref in blist.members
      modifies this`refs, blist`list, blist`members, ref.bucketNode`entries
      ensures ValidBut(pending, null)
      ensures refs == old(refs) - {ref.payloadCID} && blist.members == old(blist.members) - {ref}
      ensures ref.bucketNode.entries == old(ref.bucketNode.entries) - {ref}
      ensures forall b <- blist.list :: b in old(blist.list)
    {
      assert Indexed(ref);
      refs := refs - {ref.payloadCID};
      blist.Detach(ref);
      ValidWithout(ref, pending);
    }

    /** `DropRef`.  The ref leaves the map, the ranking and the persisted copy, but its bytes are
        still counted.  A key that is persisted and not indexed has no ref to drop. */
    method DropRef(k: Cid) returns (err: Option<Error>)
      requires Valid()
      modifies this`refs, this`root, blist`list, blist`members, blist.list
      ensures Valid()
      ensures err == if k !in old(root) then Some(RefNotFound) else if k in old(refs) then None else Some(NilRef)
      ensures refs == (if err == None then old(refs) - {k} else old(refs))
      ensures root == old(root) - {k}
      ensures forall b <- blist.list :: b in old(blist.list)
    {
      if k !in root {
        return Some(RefNotFound);
      }
      if k !in refs {
        Unpersist(k);
        return Some(NilRef);
      }
      Forget(refs[k], null);
      Unpersist(k);
      return None;
    }

    /** Deletes a key that is not indexed from the persisted copy. */
    method Unpersist(k: Cid)
      requires Valid() && k !in refs
      modifies this`root
      ensures Valid() && root == old(root) - {k}
    {
      root := root - {k};
      forall r <- blist.members ensures Recorded(r) {
        assert old(Recorded(r)) && Indexed(r);
      }
    }

    /** `evict`.  Go's list gives a removed element no successor, so only the front bucket is ever
        drained.  Refs are taken in any order; `order` is the order they were taken in. */
    method Evict(target: nat, ghost pending: DataRef) returns (evicted: nat, ghost order: seq<DataRef>)
      requires ValidBut(pending, null)
      modifies this`refs, this`size, blist`list, blist`members, blist.list
      ensures ValidBut(pending, null)
      ensures Taken(order, if old(blist.list) == [] then {} else old(blist.list[0].entries), target)
      ensures evicted == Bytes(order)
      ensures Gone(order, old(refs), old(blist.members), old(size), refs, blist.members, size)
      ensures forall b <- blist.list :: b in old(blist.list)
    {
      evicted, order := 0, [];
      if |blist.list| == 0 {
        return;
      }
      var place := blist.list[0];
      var rest, met := place.entries, false;
      while rest != {} && !met
        invariant ValidBut(pending, null)
        invariant place.entries == rest && rest <= blist.members && forall r <- rest :: r.bucketNode == place
        invariant Evicting(order, old(place.entries), rest, met, target,
                           old(refs), old(blist.members), old(size), refs, blist.members, size)
        invariant evicted == Bytes(order)
        invariant forall b <- blist.list :: b in old(blist.list)
        decreases rest
      {
        var entry :| entry in rest;
        EvictOne(order, old(place.entries), rest, target,
                 old(refs), old(blist.members), old(size), refs, blist.members, size, entry);
        EvictEntry(entry, pending);
        evicted, met := evicted + entry.payloadSize, evicted + entry.payloadSize >= target;
        rest, order := rest - {entry}, order + [entry];
      }
      if !met {
        BucketDrained(order, old(place.entries), target);
      }
    }

    /** Evicts one ref: its bytes leave the count; the persisted copy stays. */
    method EvictEntry(entry: DataRef, ghost pending: DataRef)
      requires ValidBut(pending, null) && entry in blist.members
      modifies this`refs, this`size, blist`list, blist`members, entry.bucketNode`entries
      ensures ValidBut(pending, null)
      ensures refs == old(refs) - {entry.payloadCID} && blist.members == old(blist.members) - {entry}
      ensures entry.bucketNode.entries == old(entry.bucketNode.entries) - {entry}
      ensures size == old(size) - entry.payloadSize
      ensures forall b <- blist.list :: b in old(blist.list)
    {
      Forget(entry, pending);
      size := size - entry.payloadSize;
    }

    /** No ref ranks below the front bucket. */
    lemma FrontIsLowest(pending: DataRef?)
      requires ValidBut(pending, null)
      ensures Front() <= blist.members
      ensures forall r <- Front(), m <- blist.members :: r.bucketID <= m.bucketID
    {
      if blist.list != [] {
        var front := blist.list[0];
        assert front in blist.list;
        forall r <- front.entries, m <- blist.members ensures r.bucketID <= m.bucketID {
          assert Recorded(r) && Recorded(m);
          var p := Position(blist.list, m.bucketNode);
        }
      }
    }

    /** The front bucket holds exactly the refs that rank lowest, and is missing only if nothing is
        indexed. */
    lemma FrontByRanks()
      requires Valid()
      ensures forall r <- blist.members :: r in Front() <==> forall m <- blist.members :: r.bucketID <= m.bucketID
      ensures Front() == {} <==> refs == map[]
    {
      FrontIsLowest(null);
      if blist.list == [] {
        NoBucketsNoRefs();
      } else {
        var front := blist.list[0];
        assert front in blist.list;
        var f :| f in front.entries;
        assert Indexed(f) && Recorded(f);
        forall r <- blist.members | forall m <- blist.members :: r.bucketID <= m.bucketID
          ensures r in front.entries
        {
          assert Recorded(r) && r.bucketID <= f.bucketID;
          var p := Position(blist.list, r.bucketNode);
        }
      }
    }

    lemma IndexedIsPersisted(k: Cid)
      requires Valid() && k in refs
      ensures k in root
    {
      assert refs[k] in blist.members && Recorded(refs[k]);
    }

    lemma LastIsHighest()
      requires Valid() && blist.list != []
      ensures forall m <- blist.members :: m.bucketID <= blist.list[|blist.list| - 1].id
    {
      forall m <- blist.members ensures m.bucketID <= blist.list[|blist.list| - 1].id {
        assert Recorded(m);
        var p := Position(blist.list, m.bucketNode);
      }
    }

    lemma NoBucketsNoRefs()
      requires Valid() && blist.list == []
      ensures refs == map[] && blist.members == {}
    {
      assert forall k <- refs :: refs[k] in blist.members;
    }

    lemma FrontIsIndexed()
      requires Valid()
      ensures forall r <- Front() :: r.payloadCID in refs && refs[r.payloadCID] == r
    {
      if blist.list != [] {
        assert blist.list[0] in blist.list;
        assert forall r <- Front() :: Indexed(r);
      }
    }

    /** Whether storing `bytes` more goes over the upper bound. */
    predicate Overflows(bytes: nat)
      reads this`size
    {
      ub > 0 && lb > 0 && size + bytes > ub
    }

    ghost function Front(): set<DataRef>
      reads blist, blist.list
    {
      if blist.list == [] then {} else blist.list[0].entries
    }

    /** `SetRef` of a ref that is in no list.  Room is made before the new ref is ranked, so it is
        never evicted itself; `order` are the refs that were. */
    method SetRef(ref: DataRef) returns (err: Option<Error>, ghost order: seq<DataRef>)
      requires Valid() && ref.bucketNode == null && lb <= ub
      modifies this`refs, this`size, this`root, blist, blist.list, ref
      ensures Valid()
      ensures err == if ref.payloadCID in old(refs) then Some(RefAlreadyExists) else None
      ensures err != None ==> refs == old(refs) && root == old(root) && size == old(size) && order == []
      ensures err == None ==>
                && refs == (old(refs) - Cids(Elements(order)))[ref.payloadCID := ref]
                && root == old(root)[ref.payloadCID := ValueOf(ref)]
                && size == old(size) + ref.payloadSize - Bytes(order)
                && ref !in order && ref.freq == old(ref.freq)
      ensures err == None && !old(Overflows(ref.payloadSize)) ==>
                order == [] && ref.bucketID == if old(blist.list) == [] then 1 else old(blist.list)[|old(blist.list)| - 1].id
      ensures err == None && old(Overflows(ref.payloadSize)) ==>
                Taken(order, old(Front()), old(size) + ref.payloadSize - lb)
      ensures forall b <- blist.list :: b in old(blist.list) || fresh(b)
    {
      order := [];
      if ref.payloadCID in refs {
        return Some(RefAlreadyExists), order;
      }
      order := Admit(ref);
      assert blist.list != [] ==> blist.list[|blist.list| - 1] in blist.list;
      IncrementNew(ref);
      return None, order;
    }

    /** Enters a ref and makes room for it. */
    method Admit(ref: DataRef) returns (ghost order: seq<DataRef>)
      requires Valid() && ref.bucketNode == null && lb <= ub && ref.payloadCID !in refs
      modifies this`refs, this`size, blist`list, blist`members, blist.list
      ensures ValidBut(ref, null) && Indexed(ref) && ref !in blist.members && ref !in order
      ensures forall r <- order, m <- blist.members :: r.bucketID <= m.bucketID
      ensures refs == (old(refs) - Cids(Elements(order)))[ref.payloadCID := ref]
      ensures size == old(size) + ref.payloadSize - Bytes(order)
      ensures if old(Overflows(ref.payloadSize)) then Taken(order, old(Front()), old(size) + ref.payloadSize - lb)
              else order == [] && blist.list == old(blist.list)
      ensures forall b <- blist.list :: b in old(blist.list)
    {
      Enter(ref);
      order := MakeRoom(ref);
      EnteredStays(old(refs), ref, Cids(Elements(order)), refs);
    }

    /** Only refs that rank lowest are evicted. */
    method EvictLowest(target: nat, ref: DataRef) returns (ghost order: seq<DataRef>)
      requires ValidBut(ref, null)
      modifies this`refs, this`size, blist`list, blist`members, blist.list
      ensures ValidBut(ref, null)
      ensures Taken(order, old(Front()), target) && (forall r <- order :: r in old(blist.members))
      ensures Gone(order, old(refs), old(blist.members), old(size), refs, blist.members, size)
      ensures forall r <- order, m <- blist.members :: r.bucketID <= m.bucketID
      ensures forall b <- blist.list :: b in old(blist.list)
    {
      FrontIsLowest(ref);
      var evicted: nat;
      evicted, order := Evict(target, ref);
      FrontOnly(order, old(Front()), old(blist.members), target);
    }

    method MakeRoom(ref: DataRef) returns (ghost order: seq<DataRef>)
      requires ValidBut(ref, null) && Indexed(ref) && ref !in blist.members && lb <= ub
      modifies this`refs, this`size, blist`list, blist`members, blist.list
      ensures ValidBut(ref, null) && Indexed(ref) && ref !in blist.members
      ensures Gone(order, old(refs), old(blist.members), old(size), refs, blist.members, size)
      ensures if ub > 0 && lb > 0 && old(size) > ub then Taken(order, old(Front()), old(size) - lb)
              else order == [] && blist.list == old(blist.list)
      ensures ref !in order
      ensures forall r <- order, m <- blist.members :: r.bucketID <= m.bucketID
      ensures forall b <- blist.list :: b in old(blist.list)
    {
      order := [];
      if ub > 0 && lb > 0 {
        if size > ub {
          order := EvictLowest(size - lb, ref);
        }
      }
    }

    /** `Available`, in unsigned 64-bit arithmetic. */
    method Available() returns (av: nat)
      ensures av == Space(ub, lb, size)
    {
      var margin := Sub64(ub, lb);
      if Sub64(ub, size) < margin {
        return 0;
      }
      return Sub64(ub, size);
    }

    /** The refs of each bucket, front to back. */
    function Contents(): (gs: seq<set<DataRef>>)
      reads blist, blist.list
      ensures |gs| == |blist.list| && forall i | 0 <= i < |gs| :: gs[i] == blist.list[i].entries
    {
      seq(|blist.list|, i requires 0 <= i < |blist.list| reads blist, blist.list => blist.list[i].entries)
    }

    lemma ContentsPartition()
      requires Valid()
      ensures Partition(Contents(), blist.members)
    {
      var gs := Contents();
      forall i, r | 0 <= i < |gs| && r in gs[i] ensures r in blist.members && r.bucketNode == blist.list[i] {
        assert blist.list[i] in blist.list;
      }
      forall i, j | 0 <= i < j < |gs| ensures gs[i] !! gs[j] {
        forall r: DataRef | r in gs[i] ensures r !in gs[j] {
          assert blist.list[i] in blist.list && blist.list[j] in blist.list;
          assert r.bucketNode == blist.list[i] && blist.list[i].id < blist.list[j].id;
        }
      }
      forall r <- blist.members ensures exists i :: 0 <= i < |gs| && r in gs[i] {
        assert r in gs[Position(blist.list, r.bucketNode)];
      }
    }

    /** `ListRefs`: every ref once, bucket by bucket; the result never overflows. */
    method ListRefs() returns (out: array<DataRef?>)
      requires Valid()
      ensures fresh(out) && out.Length == |refs|
      ensures Listed(out[..], blist.members)
    {
      ContentsPartition();
      assert forall r <- blist.members :: Indexed(r);
      MembersFit(blist.members, refs);
      out := ListBuckets(Contents(), blist.members, |refs|);
    }
  }

  /** Disjoint sets that make up the members. */
  ghost predicate Partition(gs: seq<set<DataRef>>, members: set<DataRef>) {
    && (forall i, j | 0 <= i < j < |gs| :: gs[i] !! gs[j])
    && (forall i | 0 <= i < |gs| :: gs[i] <= members)
    && (forall r <- members :: exists i :: 0 <= i < |gs| && r in gs[i])
  }

  ghost function Union(gs: seq<set<DataRef>>): set<DataRef> {
    if gs == [] then {} else Union(gs[..|gs| - 1]) + gs[|gs| - 1]
  }

  lemma {:induction false} UnionOfPrefix(gs: seq<set<DataRef>>, members: set<DataRef>, e: nat)
    requires Partition(gs, members) && e <= |gs|
    ensures Union(gs[..e]) <= members
    ensures forall i | e <= i < |gs| :: Union(gs[..e]) !! gs[i]
    ensures e < |gs| ==> Union(gs[..e + 1]) == Union(gs[..e]) + gs[e]
    ensures forall i | 0 <= i < e :: gs[i] <= Union(gs[..e])
  {
    if e < |gs| {
      assert gs[..e + 1][..e] == gs[..e];
    }
    if e > 0 {
      UnionOfPrefix(gs, members, e - 1);
    }
  }

  /** The two loops of `ListRefs` over the contents of the buckets. */
  method ListBuckets(gs: seq<set<DataRef>>, ghost members: set<DataRef>, n: nat) returns (out: array<DataRef?>)
    requires Partition(gs, members) && |members| == n
    ensures fresh(out) && out.Length == n && Listed(out[..], members)
  {
    out := new DataRef?[n](_ => null);
    var i: nat := 0;
    ghost var done: set<DataRef> := {};
    for e := 0 to |gs|
      invariant done == Union(gs[..e]) && i <= n && Listed(out[..i], done)
    {
      UnionOfPrefix(gs, members, e);
      i := ListBucket(out, i, gs[e], done, members);
      done := done + gs[e];
    }
    UnionOfPrefix(gs, members, |gs|);
    assert done == members;
    assert out[..] == out[..i];
  }

  method ListBucket(out: array<DataRef?>, start: nat, bucket: set<DataRef>,
                    ghost done: set<DataRef>, ghost members: set<DataRef>)
    returns (i: nat)
    requires start <= out.Length == |members| && Listed(out[..start], done)
    requires done <= members && bucket <= members && bucket !! done
    modifies out
    ensures i <= out.Length && Listed(out[..i], done + bucket)
  {
    i := start;
    var rest := bucket;
    ghost var listed := done;
    while rest != {}
      invariant rest <= bucket && listed + rest == done + bucket && listed !! rest
      invariant i <= out.Length && Listed(out[..i], listed)
      decreases rest
    {
      var k: DataRef :| k in rest;
      Fits(listed, k, members, out.Length);
      ghost var before := out[..i];
      ListOne(before, listed, k);
      out[i] := k;
      assert out[..i + 1] == before + [k];
      i := i + 1;
      listed := listed + {k};
      rest := rest - {k};
    }
  }

  /** A list of exactly the given refs, each once. */
  ghost predicate Listed(s: seq<DataRef?>, refs: set<DataRef>) {
    && |s| == |refs|
    && (forall i | 0 <= i < |s| :: s[i] != null && s[i] in refs)
    && (forall i, j | 0 <= i < j < |s| :: s[i] != s[j])
  }

  lemma ListOne(s: seq<DataRef?>, refs: set<DataRef>, r: DataRef)
    requires Listed(s, refs) && r !in refs
    ensures Listed(s + [r], refs + {r})
  {
  }

  lemma Fits(done: set<DataRef>, r: DataRef, members: set<DataRef>, n: nat)
    requires done <= members && r in members && r !in done && |members| <= n
    ensures |done| < n
  {
    Cardinality(done + {r}, members);
  }

  lemma {:induction false} Cardinality(a: set<DataRef>, b: set<DataRef>)
    requires a <= b
    ensures |a| <= |b|
  {
    if a != {} {
      var x :| x in a;
      Cardinality(a - {x}, b - {x});
    }
  }

  lemma {:induction false} MembersFit(members: set<DataRef>, refs: map<Cid, DataRef>)
    requires forall r <- members :: r.payloadCID in refs && refs[r.payloadCID] == r
    requires Keyed(refs) && forall k <- refs :: refs[k] in members
    ensures |members| == |refs|
    decreases |members|
  {
    if members == {} {
      assert refs == map[];
    } else {
      var r :| r in members;
      var refs' := refs - {r.payloadCID};
      forall k <- refs' ensures refs'[k] in members - {r} {
        assert refs[k] in members && refs[refs[k].payloadCID] == refs[k];
      }
      MembersFit(members - {r}, refs');
    }
  }

  lemma EnteredStays(refs: map<Cid, DataRef>, ref: DataRef, gone: set<Cid>, refs': map<Cid, DataRef>)
    requires refs' == refs[ref.payloadCID := ref] - gone && ref.payloadCID in refs'
    ensures refs' == (refs - gone)[ref.payloadCID := ref]
  {
  }

  lemma FrontOnly(order: seq<DataRef>, front: set<DataRef>, members: set<DataRef>, target: nat)
    requires Taken(order, front, target) && front <= members
    ensures forall r <- order :: r in members && r in front
  {
    forall r <- order ensures r in members && r in front {
      assert r in Elements(order);
    }
  }

  // ---------- Available space ----------

  const WRAP: nat := 0x1_0000_0000_0000_0000

  /** Subtraction of unsigned 64-bit numbers. */
  function Sub64(a: int, b: int): nat {
    (a - b) % WRAP
  }

  function Space(ub: nat, lb: nat, size: int): nat {
    if Sub64(ub, size) < Sub64(ub, lb) then 0 else Sub64(ub, size)
  }

  /** Up to the upper bound, the space is what is missing to it, or nothing once the lower bound is
      passed. */
  lemma SpaceWithinBounds(ub: nat, lb: nat, size: nat)
    requires lb <= ub < WRAP && size <= ub
    ensures Space(ub, lb, size) == if size > lb then 0 else ub - size
  {
  }

  /** A full index is meant to have no space.  The subtraction wraps around, so that holds exactly
      at the upper bound, or so far above it that the wrapped value is below the margin. */
  lemma NoSpaceWhenFullIff(ub: nat, lb: nat, size: nat)
    requires lb <= ub <= size < WRAP
    ensures Space(ub, lb, size) == 0 <==> size == ub || WRAP - (size - ub) < ub - lb
  {
  }

  // ---------- Restarting ----------

  /** The keys still to be loaded and those that are. */
  predicate Divided(keys: set<Cid>, rest: set<Cid>, done: set<Cid>) {
    keys == rest + done && rest !! done
  }

  lemma DividedOn(keys: set<Cid>, rest: set<Cid>, done: set<Cid>, k: Cid)
    requires Divided(keys, rest, done) && k in rest
    ensures Divided(keys, rest - {k}, done + {k})
  {
  }

  /** `NewIndex`: rebuilds the ranking from the persisted refs, taken in any order. */
  method NewIndex(root: map<Cid, RefValue>, ub: nat, lb: nat) returns (idx: Index)
    requires lb <= ub
    ensures fresh(idx) && fresh(idx.blist) && fresh(set b | b in idx.blist.list) && fresh(idx.blist.members)
    ensures idx.Valid() && idx.InSync() && idx.root == root && idx.ub == ub && idx.lb == lb
    ensures idx.size == Stored(PersistedSizes(root, root.Keys))
  {
    idx := new Index(root, ub, lb);
    var rest := root.Keys;
    ghost var done: set<Cid> := {};
    while rest != {}
      invariant fresh(idx) && fresh(idx.blist) && fresh(set b | b in idx.blist.list) && fresh(idx.blist.members)
      invariant idx.Valid() && idx.root == root
      invariant idx.refs.Keys == done && Divided(root.Keys, rest, done)
      invariant idx.size == Stored(PersistedSizes(root, done))
      decreases rest
    {
      var k :| k in rest;
      idx.LoadNext(k, done);
      DividedOn(root.Keys, rest, done, k);
      rest, done := rest - {k}, done + {k};
    }
    assert done == root.Keys;
  }

  // ---------- The byte count ----------

  function SizesOf(refs: map<Cid, DataRef>): map<Cid, nat> {
    map k | k in refs :: refs[k].payloadSize
  }

  lemma SizesWithout(refs: map<Cid, DataRef>, k: Cid)
    ensures SizesOf(refs - {k}) == SizesOf(refs) - {k}
  {
  }

  /** The sizes of some of the persisted refs. */
  function PersistedSizes(root: map<Cid, RefValue>, keys: set<Cid>): map<Cid, nat> {
    map k | k in keys && k in root :: root[k].size
  }

  function Only(sizes: map<Cid, nat>, keys: set<Cid>): map<Cid, nat> {
    map k | k in sizes && k in keys :: sizes[k]
  }

  /** The sum of the sizes. */
  ghost function Stored(sizes: map<Cid, nat>): nat {
    if sizes == map[] then 0
    else var k :| k in sizes; sizes[k] + Stored(sizes - {k})
  }

  lemma {:induction false} StoredRemove(sizes: map<Cid, nat>, k: Cid)
    requires k in sizes
    ensures Stored(sizes) == sizes[k] + Stored(sizes - {k})
    decreases |sizes|
  {
    var j :| j in sizes && Stored(sizes) == sizes[j] + Stored(sizes - {j});
    if j != k {
      StoredRemove(sizes - {j}, k);
      StoredRemove(sizes - {k}, j);
      assert sizes - {j} - {k} == sizes - {k} - {j};
    }
  }

  lemma StoredAdd(sizes: map<Cid, nat>, k: Cid, size: nat)
    requires k !in sizes
    ensures Stored(sizes[k := size]) == Stored(sizes) + size
  {
    StoredRemove(sizes[k := size], k);
    assert sizes[k := size] - {k} == sizes;
  }

  lemma PersistedStep(root: map<Cid, RefValue>, done: set<Cid>, k: Cid)
    requires k in root && k !in done
    ensures Stored(PersistedSizes(root, done + {k})) == Stored(PersistedSizes(root, done)) + root[k].size
  {
    StoredAdd(PersistedSizes(root, done), k, root[k].size);
    assert PersistedSizes(root, done + {k}) == PersistedSizes(root, done)[k := root[k].size];
  }

  /** One key more, on either side of a split. */
  lemma SplitOne(sizes: map<Cid, nat>, gone: set<Cid>, k: Cid)
    requires k in sizes
    ensures var rest := sizes - {k};
            && (k in gone ==> rest - gone == sizes - gone
                              && Stored(Only(sizes, gone)) == sizes[k] + Stored(Only(rest, gone)))
            && (k !in gone ==> Only(rest, gone) == Only(sizes, gone)
                               && Stored(sizes - gone) == sizes[k] + Stored(rest - gone))
  {
    var rest := sizes - {k};
    if k in gone {
      StoredRemove(Only(sizes, gone), k);
      assert Only(sizes, gone) - {k} == Only(rest, gone) && rest - gone == sizes - gone;
    } else {
      StoredRemove(sizes - gone, k);
      assert (sizes - gone) - {k} == rest - gone && Only(rest, gone) == Only(sizes, gone);
    }
  }

  /** The sum splits into the keys that go and those that stay. */
  lemma {:induction false} StoredSplit(sizes: map<Cid, nat>, gone: set<Cid>)
    ensures Stored(sizes) == Stored(sizes - gone) + Stored(Only(sizes, gone))
    decreases |sizes|
  {
    if sizes == map[] {
      assert sizes - gone == map[] && Only(sizes, gone) == map[];
    } else {
      var k :| k in sizes;
      StoredSplit(sizes - {k}, gone);
      StoredRemove(sizes, k);
      SplitOne(sizes, gone, k);
    }
  }

  /** The bytes of evicted refs are the sum of their sizes. */
  lemma {:induction false} EvictedBytes(refs: map<Cid, DataRef>, order: seq<DataRef>)
    requires Distinct(order) && forall r <- order :: r.payloadCID in refs && refs[r.payloadCID] == r
    ensures Bytes(order) == Stored(Only(SizesOf(refs), Cids(Elements(order))))
  {
    var sizes, gone := SizesOf(refs), Cids(Elements(order));
    if order == [] {
      assert Only(sizes, gone) == map[];
    } else {
      var init, r := order[..|order| - 1], order[|order| - 1];
      var before := Cids(Elements(init));
      EvictedBytes(refs, init);
      assert order == init + [r];
      assert Elements(order) == Elements(init) + {r};
      assert gone == before + {r.payloadCID};
      assert r.payloadCID !in before by {
        forall x <- init ensures x.payloadCID != r.payloadCID {
          assert x in order;
        }
      }
      StoredAdd(Only(sizes, before), r.payloadCID, r.payloadSize);
      assert Only(sizes, gone) == Only(sizes, before)[r.payloadCID := r.payloadSize];
    }
  }

  lemma OnlyFewer(sizes: map<Cid, nat>, few: set<Cid>, many: set<Cid>)
    requires few <= many
    ensures Stored(Only(sizes, few)) <= Stored(Only(sizes, many))
  {
    StoredSplit(Only(sizes, many), few);
    assert Only(Only(sizes, many), few) == Only(sizes, few);
  }

  /** The bounds are meant to bring the store down to the lower one.  Only one bucket is drained per
      call, so the target is met exactly when the refs of that bucket have enough bytes. */
  lemma EvictionSufficesIff(refs: map<Cid, DataRef>, order: seq<DataRef>, bucket: set<DataRef>, target: nat)
    requires Taken(order, bucket, target)
    requires forall r <- bucket :: r.payloadCID in refs && refs[r.payloadCID] == r
    ensures Bytes(order) >= target <==> Stored(Only(SizesOf(refs), Cids(bucket))) >= target
  {
    forall r <- order ensures r in bucket {
      assert r in Elements(order);
    }
    EvictedBytes(refs, order);
    OnlyFewer(SizesOf(refs), Cids(Elements(order)), Cids(bucket));
  }
}
