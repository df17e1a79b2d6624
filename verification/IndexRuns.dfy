/** Whole runs of the content index (exchange/index.go).

A ledger says what an index holds: the sizes of its refs, the byte count, the bytes that `DropRef`
left in the count, and the orphans, which are persisted and no longer indexed.  `Replay` carries out
any run after any restart and keeps the books; what holds over runs is proved about the books.
`ReplayAndReload` is about restarting after a run, and `OverfullIndex` and `ShortEviction` are runs
in which the bounds are not kept.
 */
module IndexRuns {
  import opened Deal
  import opened BucketList
  import opened LfuIndex

  datatype Op = Set(k: Cid, size: nat) | Get(k: Cid) | Drop(k: Cid)

  datatype Bounds = Bounds(ub: nat, lb: nat)

  datatype Ledger = Ledger(sizes: map<Cid, nat>, size: int, dropped: nat, orphans: set<Cid>)

  /** Whether storing `size` bytes more evicts something. */
  ghost predicate Evicts(b: Bounds, l: Ledger, size: nat) {
    b.ub > 0 && b.lb > 0 && l.size + size > b.ub && l.sizes != map[]
  }

  /** What storing `size` bytes under a new key does when the refs of `gone` are evicted for it. */
  ghost predicate Posted(b: Bounds, l: Ledger, k: Cid, size: nat, gone: set<Cid>, l': Ledger) {
    && gone <= l.sizes.Keys
    && (gone != {} <==> Evicts(b, l, size))
    && l' == Ledger((l.sizes - gone)[k := size], l.size + size - Stored(Only(l.sizes, gone)), l.dropped,
                    l.orphans + gone - {k})
  }

  /** Dropping a key that is persisted and not indexed panics. */
  predicate Panics(op: Op, l: Ledger) {
    op.Drop? && op.k in l.orphans
  }

  /** What an operation that does not panic does to the ledger: storing a key that is there, reading,
      and dropping a key that is not there change nothing. */
  ghost predicate Accounts(b: Bounds, op: Op, l: Ledger, l': Ledger) {
    && !Panics(op, l)
    && match op
       case Set(k, size) => if k in l.sizes then l' == l else exists gone :: Posted(b, l, k, size, gone, l')
       case Get(k) => l' == l
       case Drop(k) => l' == AfterDrop(l, k)
  }

  /** A dropped ref leaves its bytes in the count. */
  function AfterDrop(l: Ledger, k: Cid): Ledger {
    if k in l.sizes then l.(sizes := l.sizes - {k}, dropped := l.dropped + l.sizes[k]) else l
  }

  /** The ledgers of a run. */
  ghost predicate Books(b: Bounds, l: Ledger, ops: seq<Op>, ls: seq<Ledger>) {
    && |ls| == |ops| + 1 && ls[0] == l
    && forall j | 0 <= j < |ops| :: Accounts(b, ops[j], ls[j], ls[j + 1])
  }

  lemma BooksAppend(b: Bounds, l: Ledger, ops: seq<Op>, i: nat, ls: seq<Ledger>, l': Ledger)
    requires i < |ops| && Books(b, l, ops[..i], ls) && Accounts(b, ops[i], ls[i], l')
    ensures Books(b, l, ops[..i + 1], ls + [l'])
  {
  }

  /** A ledger that says what the index holds. */
  ghost predicate Mirrors(idx: Index, l: Ledger)
    reads idx
  {
    && SizesOf(idx.refs) == l.sizes && idx.size == l.size
    && idx.root.Keys == l.sizes.Keys + l.orphans && l.sizes.Keys !! l.orphans
  }

  // ---------- The byte count ----------

  ghost predicate Balanced(l: Ledger) {
    l.size == Stored(l.sizes) + l.dropped
  }

  lemma AccountsKeeps(b: Bounds, op: Op, l: Ledger, l': Ledger)
    requires Balanced(l) && Accounts(b, op, l, l')
    ensures Balanced(l')
  {
    if op.Set? && op.k !in l.sizes {
      var gone :| Posted(b, l, op.k, op.size, gone, l');
      StoredSplit(l.sizes, gone);
      StoredAdd(l.sizes - gone, op.k, op.size);
    } else if op.Drop? && op.k in l.sizes {
      StoredRemove(l.sizes, op.k);
    }
  }

  /** Over any run, the byte count is ahead of the indexed refs by exactly the bytes that were
      dropped: it never goes negative, and it is exact until the first `DropRef`. */
  lemma {:induction false} SizeIsStoredPlusDropped(b: Bounds, l: Ledger, ops: seq<Op>, ls: seq<Ledger>, i: nat)
    requires Books(b, l, ops, ls) && i < |ls| && Balanced(l)
    ensures Balanced(ls[i])
  {
    if i > 0 {
      SizeIsStoredPlusDropped(b, l, ops, ls, i - 1);
      AccountsKeeps(b, ops[i - 1], ls[i - 1], ls[i]);
    }
  }

  // ---------- Orphans ----------

  /** The key was evicted by operation `j`. */
  predicate EvictedAt(ops: seq<Op>, ls: seq<Ledger>, j: nat, k: Cid)
    requires |ls| == |ops| + 1
  {
    j < |ops| && ops[j].Set? && ops[j].k != k && k in ls[j].sizes && k !in ls[j + 1].sizes
  }

  /** The key was evicted by operation `j` and no operation before `i` stored it again. */
  ghost predicate EvictedFor(ops: seq<Op>, ls: seq<Ledger>, i: nat, k: Cid, j: nat)
    requires |ls| == |ops| + 1 && i < |ls|
  {
    && j < i && EvictedAt(ops, ls, j, k)
    && forall m | j < m < i :: !(ops[m].Set? && ops[m].k == k)
  }

  lemma OrphanStep(b: Bounds, op: Op, l: Ledger, l': Ledger, k: Cid)
    requires Accounts(b, op, l, l') && l.sizes.Keys !! l.orphans
    ensures l'.sizes.Keys !! l'.orphans
    ensures k in l'.orphans <==>
              (k in l.orphans && !(op.Set? && op.k == k)) || (op.Set? && op.k != k && k in l.sizes && k !in l'.sizes)
  {
    if op.Set? && op.k !in l.sizes {
      var gone :| Posted(b, l, op.k, op.size, gone, l');
    }
  }

  /** Over any run, the orphans are exactly the keys that were evicted since the restart and not stored
      again: the keys that `DropRef` panics on. */
  lemma {:induction false} OrphanIff(b: Bounds, l: Ledger, ops: seq<Op>, ls: seq<Ledger>, i: nat, k: Cid)
    requires Books(b, l, ops, ls) && i < |ls| && l.orphans == {}
    ensures ls[i].sizes.Keys !! ls[i].orphans
    ensures k in ls[i].orphans <==> exists j: nat :: EvictedFor(ops, ls, i, k, j)
  {
    if i > 0 {
      OrphanIff(b, l, ops, ls, i - 1, k);
      assert Accounts(b, ops[i - 1], ls[i - 1], ls[i]);
      OrphanStep(b, ops[i - 1], ls[i - 1], ls[i], k);
      if k in ls[i].orphans {
        if k in ls[i - 1].orphans {
          var j: nat :| EvictedFor(ops, ls, i - 1, k, j);
          assert EvictedFor(ops, ls, i, k, j);
        } else {
          assert EvictedFor(ops, ls, i, k, i - 1);
        }
      }
      if j: nat :| EvictedFor(ops, ls, i, k, j) {
        if j < i - 1 {
          assert EvictedFor(ops, ls, i - 1, k, j);
        }
      }
    }
  }

  /** No operation of the run evicts anything. */
  ghost predicate Roomy(b: Bounds, ops: seq<Op>, ls: seq<Ledger>)
    requires |ls| == |ops| + 1
  {
    forall j | 0 <= j < |ops| && ops[j].Set? && ops[j].k !in ls[j].sizes :: !Evicts(b, ls[j], ops[j].size)
  }

  lemma {:induction false} RoomyHasNoOrphans(b: Bounds, l: Ledger, ops: seq<Op>, ls: seq<Ledger>, i: nat)
    requires Books(b, l, ops, ls) && Roomy(b, ops, ls) && i < |ls| && l.orphans == {}
    ensures ls[i].orphans == {}
  {
    if i > 0 {
      RoomyHasNoOrphans(b, l, ops, ls, i - 1);
      assert Accounts(b, ops[i - 1], ls[i - 1], ls[i]);
      var op := ops[i - 1];
      if op.Set? && op.k !in ls[i - 1].sizes {
        var gone :| Posted(b, ls[i - 1], op.k, op.size, gone, ls[i]);
        assert gone == {};
      }
    }
  }

  // ---------- Carrying out operations ----------

  /** Every ref that is ranked now was ranked before or is `ref`. */
  twostate lemma MembersFrom(idx: Index, new ref: DataRef?)
    requires old(idx.Valid()) && idx.Valid()
    requires forall k <- idx.refs :: idx.refs[k] == ref || (k in old(idx.refs) && idx.refs[k] == old(idx.refs)[k])
    ensures forall r <- idx.blist.members :: r == ref || r in old(idx.blist.members)
  {
    forall r <- idx.blist.members ensures r == ref || r in old(idx.blist.members) {
      assert idx.Indexed(r);
      var k := r.payloadCID;
      assert r == ref || old(idx.refs)[k] == r;
    }
  }

  lemma TakenSome(order: seq<DataRef>, bucket: set<DataRef>, target: nat)
    requires Taken(order, bucket, target) && target > 0
    ensures order != [] <==> bucket != {}
  {
    assert order != [] ==> order[0] in Elements(order);
  }

  /** Stores a new ref: what becomes of the index. */
  method StoreNew(idx: Index, ref: DataRef) returns (stored: bool, ghost order: seq<DataRef>)
    requires idx.Valid() && idx.lb <= idx.ub && ref.bucketNode == null
    modifies idx, idx.blist, idx.blist.list, ref
    ensures idx.Valid()
    ensures forall b <- idx.blist.list :: b in old(idx.blist.list) || fresh(b)
    ensures forall r <- idx.blist.members :: r in old(idx.blist.members) || r == ref
    ensures stored == (ref.payloadCID !in old(idx.refs)) && Distinct(order) && Elements(order) <= old(idx.Front())
    ensures !stored ==> idx.refs == old(idx.refs) && idx.size == old(idx.size) && idx.root == old(idx.root)
    ensures stored ==> idx.refs == (old(idx.refs) - Cids(Elements(order)))[ref.payloadCID := ref]
    ensures stored ==> idx.size == old(idx.size) + ref.payloadSize - Bytes(order)
    ensures stored ==> idx.root.Keys == old(idx.root).Keys + {ref.payloadCID}
    ensures stored ==> (order != [] <==> old(idx.Overflows(ref.payloadSize)) && old(idx.refs) != map[])
  {
    idx.FrontByRanks();
    var err;
    err, order := idx.SetRef(ref);
    MembersFrom(idx, ref);
    stored := err == None;
    if stored && old(idx.Overflows(ref.payloadSize)) {
      TakenSome(order, old(idx.Front()), old(idx.size) + ref.payloadSize - idx.lb);
    }
  }

  /** The ledger after `ref` was stored and the refs in `order` were evicted. */
  ghost function AfterStore(l: Ledger, refs: map<Cid, DataRef>, ref: DataRef, order: seq<DataRef>): Ledger {
    Ledger(SizesOf((refs - Cids(Elements(order)))[ref.payloadCID := ref]),
           l.size + ref.payloadSize - Bytes(order), l.dropped, l.orphans + Cids(Elements(order)) - {ref.payloadCID})
  }

  lemma StoreAccounts(b: Bounds, l: Ledger, refs: map<Cid, DataRef>, ref: DataRef, order: seq<DataRef>,
                      front: set<DataRef>)
    requires SizesOf(refs) == l.sizes && ref.payloadCID !in refs && Distinct(order) && Elements(order) <= front
    requires forall r <- front :: r.payloadCID in refs && refs[r.payloadCID] == r
    requires order != [] <==> Evicts(b, l, ref.payloadSize)
    ensures Accounts(b, Set(ref.payloadCID, ref.payloadSize), l, AfterStore(l, refs, ref, order))
  {
    forall r <- order ensures r in front {
      assert r in Elements(order);
    }
    EvictedBytes(refs, order);
    var gone := Cids(Elements(order));
    assert order != [] ==> order[0].payloadCID in gone by {
      assert order != [] ==> order[0] in Elements(order);
    }
    assert Posted(b, l, ref.payloadCID, ref.payloadSize, gone, AfterStore(l, refs, ref, order));
  }

  /** The persisted keys after a store. */
  lemma StoreKeys(l: Ledger, refs: map<Cid, DataRef>, root: set<Cid>, ref: DataRef, order: seq<DataRef>, front: set<DataRef>)
    requires SizesOf(refs) == l.sizes && root == l.sizes.Keys + l.orphans && l.sizes.Keys !! l.orphans
    requires Elements(order) <= front
    requires forall r <- front :: r.payloadCID in refs && refs[r.payloadCID] == r
    ensures var l' := AfterStore(l, refs, ref, order);
            root + {ref.payloadCID} == l'.sizes.Keys + l'.orphans && l'.sizes.Keys !! l'.orphans
  {
    var l' := AfterStore(l, refs, ref, order);
    assert l'.sizes.Keys == l.sizes.Keys - Cids(Elements(order)) + {ref.payloadCID};
  }

  lemma StoreMirrors(idx: Index, l: Ledger, refs: map<Cid, DataRef>, root: set<Cid>, ref: DataRef,
                     order: seq<DataRef>, front: set<DataRef>)
    requires SizesOf(refs) == l.sizes && root == l.sizes.Keys + l.orphans && l.sizes.Keys !! l.orphans
    requires Elements(order) <= front
    requires forall r <- front :: r.payloadCID in refs && refs[r.payloadCID] == r
    requires idx.refs == (refs - Cids(Elements(order)))[ref.payloadCID := ref]
    requires idx.size == l.size + ref.payloadSize - Bytes(order) && idx.root.Keys == root + {ref.payloadCID}
    ensures Mirrors(idx, AfterStore(l, refs, ref, order))
  {
    StoreKeys(l, refs, root, ref, order, front);
  }

  ghost function BoundsOf(idx: Index): Bounds {
    Bounds(idx.ub, idx.lb)
  }

  /** Stores a new ref: what becomes of the ledger. */
  method StorePosted(idx: Index, ref: DataRef, ghost l: Ledger) returns (ghost l': Ledger)
    requires idx.Valid() && idx.lb <= idx.ub && ref.bucketNode == null && Mirrors(idx, l)
    modifies idx, idx.blist, idx.blist.list, ref
    ensures idx.Valid() && Mirrors(idx, l') && Accounts(BoundsOf(idx), Set(ref.payloadCID, ref.payloadSize), l, l')
    ensures forall b <- idx.blist.list :: b in old(idx.blist.list) || fresh(b)
    ensures forall r <- idx.blist.members :: r in old(idx.blist.members) || r == ref
  {
    idx.FrontIsIndexed();
    assert l.sizes.Keys == idx.refs.Keys;
    var stored, order := StoreNew(idx, ref);
    l' := l;
    if stored {
      l' := AfterStore(l, old(idx.refs), ref, order);
      StoreAccounts(BoundsOf(idx), l, old(idx.refs), ref, order, old(idx.Front()));
      StoreMirrors(idx, l, old(idx.refs), old(idx.root).Keys, ref, order, old(idx.Front()));
    }
  }

  method RunSet(idx: Index, k: Cid, size: nat, ghost l: Ledger) returns (ghost l': Ledger)
    requires idx.Valid() && idx.lb <= idx.ub && Mirrors(idx, l)
    modifies idx, idx.blist, idx.blist.list
    ensures idx.Valid() && Mirrors(idx, l') && Accounts(BoundsOf(idx), Set(k, size), l, l')
    ensures forall b <- idx.blist.list :: b in old(idx.blist.list) || fresh(b)
    ensures forall r <- idx.blist.members :: r in old(idx.blist.members) || fresh(r)
  {
    var ref := new DataRef(k, size, 0, 0);
    l' := StorePosted(idx, ref, l);
  }

  method RunGet(idx: Index, k: Cid)
    requires idx.Valid()
    modifies idx`root, idx.blist`list, idx.blist.list, idx.blist.members
    ensures idx.Valid() && idx.root.Keys == old(idx.root).Keys
    ensures forall b <- idx.blist.list :: b in old(idx.blist.list) || fresh(b)
  {
    if k in idx.refs {
      assert idx.Recorded(idx.refs[k]);
    }
    var err := idx.GetRef(k);
  }

  lemma DropMirrors(idx: Index, refs: map<Cid, DataRef>, root: map<Cid, RefValue>, l: Ledger, k: Cid)
    requires SizesOf(refs) == l.sizes && idx.size == l.size && k !in l.orphans
    requires root.Keys == l.sizes.Keys + l.orphans && l.sizes.Keys !! l.orphans
    requires idx.refs == (if k in refs then refs - {k} else refs) && idx.root == root - {k}
    ensures Mirrors(idx, AfterDrop(l, k))
  {
    SizesWithout(refs, k);
    assert k in refs <==> k in l.sizes;
  }

  /** Drops a key; `true` when the call panics. */
  method RunDrop(idx: Index, k: Cid, ghost l: Ledger) returns (panicked: bool, ghost l': Ledger)
    requires idx.Valid() && Mirrors(idx, l)
    modifies idx`refs, idx`root, idx.blist`list, idx.blist`members, idx.blist.list
    ensures idx.Valid() && panicked == (k in l.orphans)
    ensures !panicked ==> Mirrors(idx, l') && Accounts(BoundsOf(idx), Drop(k), l, l')
    ensures forall b <- idx.blist.list :: b in old(idx.blist.list)
    ensures forall r <- idx.blist.members :: r in old(idx.blist.members)
  {
    var err := idx.DropRef(k);
    MembersFrom(idx, null);
    panicked := err == Some(NilRef);
    l' := AfterDrop(l, k);
    if !panicked {
      DropMirrors(idx, old(idx.refs), old(idx.root), l, k);
    }
  }

  /** One operation: it panics exactly on dropping an orphan, and else keeps the books. */
  method RunOp(idx: Index, op: Op, ghost l: Ledger) returns (panicked: bool, ghost l': Ledger)
    requires idx.Valid() && idx.lb <= idx.ub && Mirrors(idx, l)
    modifies idx, idx.blist, idx.blist.list, idx.blist.members
    ensures idx.Valid() && panicked == Panics(op, l)
    ensures !panicked ==> Mirrors(idx, l') && Accounts(BoundsOf(idx), op, l, l')
    ensures forall b <- idx.blist.list :: b in old(idx.blist.list) || fresh(b)
    ensures forall r <- idx.blist.members :: r in old(idx.blist.members) || fresh(r)
  {
    panicked, l' := false, l;
    match op
    case Set(k, size) =>
      l' := RunSet(idx, k, size, l);
    case Get(k) =>
      RunGet(idx, k);
    case Drop(k) =>
      panicked, l' := RunDrop(idx, k, l);
  }

  // ---------- Runs ----------

  /** The ledger of an index that has just been restarted. */
  ghost function Opening(root: map<Cid, RefValue>): Ledger {
    var sizes := PersistedSizes(root, root.Keys);
    Ledger(sizes, Stored(sizes), 0, {})
  }

  lemma OpensMirrored(idx: Index)
    requires idx.Valid() && idx.InSync() && idx.size == Stored(PersistedSizes(idx.root, idx.root.Keys))
    ensures Mirrors(idx, Opening(idx.root))
  {
    idx.SizesPersisted();
  }

  lemma BooksClosed(idx: Index, b: Bounds, root: map<Cid, RefValue>, ops: seq<Op>, ls: seq<Ledger>)
    requires Books(b, Opening(root), ops, ls) && Mirrors(idx, ls[|ops|])
    ensures idx.size == Stored(SizesOf(idx.refs)) + ls[|ops|].dropped
    ensures idx.InSync() <==> ls[|ops|].orphans == {}
  {
    SizeIsStoredPlusDropped(b, Opening(root), ops, ls, |ops|);
    assert idx.refs.Keys == ls[|ops|].sizes.Keys;
  }

  /** Any run after any restart, up to the first operation that panics: the index stays valid and the
      books say what it holds, so that the byte count is the indexed bytes plus the dropped ones, and
      it is in step with the persisted copy exactly if nothing evicted is missing. */
  method Replay(root: map<Cid, RefValue>, ops: seq<Op>, b: Bounds)
    returns (idx: Index, n: nat, ghost ls: seq<Ledger>)
    requires b.lb <= b.ub
    ensures fresh(idx) && fresh(idx.blist) && fresh(set b | b in idx.blist.list) && fresh(idx.blist.members)
    ensures idx.Valid() && BoundsOf(idx) == b
    ensures n <= |ops| && Books(b, Opening(root), ops[..n], ls)
    ensures n < |ops| ==> Panics(ops[n], ls[n])
    ensures n == |ops| ==>
              && Mirrors(idx, ls[n]) && idx.size == Stored(SizesOf(idx.refs)) + ls[n].dropped
              && (idx.InSync() <==> ls[n].orphans == {})
  {
    idx := NewIndex(root, b.ub, b.lb);
    OpensMirrored(idx);
    ls, n := [Opening(root)], 0;
    var panicked := false;
    while n < |ops| && !panicked
      invariant fresh(idx) && fresh(idx.blist) && fresh(set b | b in idx.blist.list) && fresh(idx.blist.members)
      invariant idx.Valid() && BoundsOf(idx) == b
      invariant n <= |ops| && Books(b, Opening(root), ops[..n], ls)
      invariant if panicked then n < |ops| && Panics(ops[n], ls[n]) else Mirrors(idx, ls[n])
      decreases |ops| - n, !panicked
    {
      ghost var l';
      panicked, l' := RunOp(idx, ops[n], ls[n]);
      if !panicked {
        BooksAppend(b, Opening(root), ops, n, ls, l');
        ls, n := ls + [l'], n + 1;
      }
    }
    if !panicked {
      BooksClosed(idx, b, root, ops[..n], ls);
    }
  }

  // ---------- Restarting after a run ----------

  lemma GroupsRank(gs: seq<Group>, a: map<Cid, int>, b: map<Cid, int>, k: Cid)
    requires Groups(gs, a) && Groups(gs, b) && k in a
    ensures k in b && b[k] == a[k]
  {
    var i :| 0 <= i < |gs| && gs[i].id == a[k];
    assert k in gs[i].cids;
  }

  /** The list determines the ranks. */
  lemma GroupsRanks(gs: seq<Group>, a: map<Cid, int>, b: map<Cid, int>)
    requires Groups(gs, a) && Groups(gs, b)
    ensures a.Keys == b.Keys
  {
    forall k | k in a ensures k in b {
      GroupsRank(gs, a, b, k);
    }
    forall k | k in b ensures k in a {
      GroupsRank(gs, b, a, k);
    }
  }

  lemma SameViewSameKeys(gs: seq<Group>, live: Index, again: Index)
    requires live.Valid() && live.blist.View() == gs && again.Valid() && again.blist.View() == gs
    ensures live.refs.Keys == again.refs.Keys
  {
    live.RanksIn(gs);
    again.RanksIn(gs);
    GroupsRanks(gs, live.Ranks(), again.Ranks());
  }

  lemma SameRanksSameView(live: Index, again: Index)
    requires live.Valid() && again.Valid() && live.InSync() && again.InSync() && live.root == again.root
    ensures live.blist.View() == again.blist.View()
  {
    live.RanksViewed();
    live.RanksPersisted();
    again.RanksViewed();
    again.RanksPersisted();
    GroupsUnique(again.blist.View(), live.blist.View(), live.Ranks());
  }

  /** Restarting from the persisted refs, in any order, gives the list as it was, the same ranks with
      the same content, if and only if the index is in step with its persisted copy. */
  method ReloadEqualsLive(live: Index) returns (again: Index)
    requires live.Valid() && live.lb <= live.ub
    ensures fresh(again) && again.Valid() && again.InSync()
    ensures again.blist.View() == live.blist.View() <==> live.InSync()
  {
    again := NewIndex(live.root, live.ub, live.lb);
    if live.InSync() {
      SameRanksSameView(live, again);
    } else if again.blist.View() == live.blist.View() {
      SameViewSameKeys(live.blist.View(), live, again);
    }
  }

  /** Every key that was evicted has been stored again. */
  ghost predicate AllRestored(ops: seq<Op>, ls: seq<Ledger>)
    requires |ls| == |ops| + 1
  {
    forall k: Cid, j: nat :: !EvictedFor(ops, ls, |ops|, k, j)
  }

  lemma RestoredIff(b: Bounds, l: Ledger, ops: seq<Op>, ls: seq<Ledger>)
    requires Books(b, l, ops, ls) && l.orphans == {}
    ensures AllRestored(ops, ls) <==> ls[|ops|].orphans == {}
  {
    if AllRestored(ops, ls) {
      forall k ensures k !in ls[|ops|].orphans {
        OrphanIff(b, l, ops, ls, |ops|, k);
      }
    } else {
      var k: Cid, j: nat :| EvictedFor(ops, ls, |ops|, k, j);
      OrphanIff(b, l, ops, ls, |ops|, k);
    }
  }

  /** After any run that does not panic, a restart gives the list as it was if and only if every key
      that was evicted has been stored again; and a run in which no store goes over the upper bound
      does not panic and restarts to the same list. */
  method ReplayAndReload(root: map<Cid, RefValue>, ops: seq<Op>, b: Bounds)
    returns (live: Index, again: Index, n: nat, ghost ls: seq<Ledger>)
    requires b.lb <= b.ub
    ensures live.Valid() && again.Valid()
    ensures n <= |ops| && Books(b, Opening(root), ops[..n], ls)
    ensures n == |ops| ==> (again.blist.View() == live.blist.View() <==> AllRestored(ops[..n], ls))
    ensures Roomy(b, ops[..n], ls) ==> n == |ops| && again.blist.View() == live.blist.View()
  {
    live, n, ls := Replay(root, ops, b);
    RestoredIff(b, Opening(root), ops[..n], ls);
    if Roomy(b, ops[..n], ls) {
      RoomyHasNoOrphans(b, Opening(root), ops[..n], ls, n);
    }
    again := ReloadEqualsLive(live);
  }

  // ---------- The bounds ----------

  /** The bytes of the refs that rank lowest. */
  ghost function FrontBytes(idx: Index): nat
    reads idx, idx.blist, idx.blist.list
  {
    Stored(Only(SizesOf(idx.refs), Cids(idx.Front())))
  }

  /** A store that goes over the upper bound brings the index down to the lower one if and only if the
      refs that rank lowest have enough bytes. */
  method SetReachesLowerBound(idx: Index, ref: DataRef) returns (reached: bool)
    requires idx.Valid() && idx.lb <= idx.ub && ref.bucketNode == null
    requires ref.payloadCID !in idx.refs && idx.Overflows(ref.payloadSize)
    modifies idx, idx.blist, idx.blist.list, ref
    ensures idx.Valid() && reached == (idx.size <= idx.lb)
    ensures reached <==> old(FrontBytes(idx)) >= old(idx.size) + ref.payloadSize - idx.lb
  {
    idx.FrontIsIndexed();
    var err, order := idx.SetRef(ref);
    EvictionSufficesIff(old(idx.refs), order, old(idx.Front()), old(idx.size) + ref.payloadSize - idx.lb);
    reached := idx.size <= idx.lb;
  }

  method EmptyIndex(b: Bounds) returns (idx: Index)
    requires b.lb <= b.ub
    ensures fresh(idx) && fresh(idx.blist) && fresh(set b | b in idx.blist.list)
    ensures idx.Valid() && BoundsOf(idx) == b && idx.refs == map[] && idx.size == 0 && idx.Front() == {}
  {
    idx := NewIndex(map[], b.ub, b.lb);
    assert PersistedSizes(map[], {}) == map[];
    idx.FrontByRanks();
  }

  lemma OverfullSpace(ub: nat, lb: nat, size: nat)
    requires lb <= ub < size < WRAP
    ensures Space(ub, lb, size) == if WRAP - (size - ub) < ub - lb then 0 else WRAP - (size - ub)
  {
  }

  /** Content larger than the upper bound is stored in an empty index all the same.  `Available` then
      reports almost all of the 64-bit range, unless it wraps into the margin. */
  method OverfullIndex(k: Cid, size: nat, b: Bounds) returns (idx: Index, av: nat)
    requires 0 < b.lb <= b.ub < size < WRAP
    ensures idx.Valid() && BoundsOf(idx) == b && idx.size == size > idx.ub
    ensures av == if WRAP - (size - b.ub) < b.ub - b.lb then 0 else WRAP - (size - b.ub)
  {
    idx := EmptyIndex(b);
    var ref := new DataRef(k, size, 0, 0);
    var err, order := idx.SetRef(ref);
    TakenSome(order, {}, size - b.lb);
    OverfullSpace(b.ub, b.lb, size);
    av := idx.Available();
  }

  lemma TakenSingle(order: seq<DataRef>, r: DataRef, target: nat)
    requires Taken(order, {r}, target) && target > 0
    ensures order == [r] && Bytes(order) == r.payloadSize
  {
    TakenSome(order, {r}, target);
    assert |order| > 1 ==> order[0] != order[1];
    forall i | 0 <= i < |order| ensures order[i] == r {
      assert order[i] in Elements(order);
    }
    assert order == [r] && order[..0] == [];
  }

  /** An index with one ref, at rank 1. */
  method OneRef(k: Cid, size: nat, b: Bounds) returns (idx: Index, ref: DataRef)
    requires b.lb <= b.ub && size <= b.ub
    ensures fresh(idx) && fresh(idx.blist) && fresh(set b | b in idx.blist.list) && fresh(ref)
    ensures idx.Valid() && BoundsOf(idx) == b && idx.refs == map[k := ref] && idx.size == size
    ensures ref.payloadCID == k && ref.payloadSize == size
  {
    idx := EmptyIndex(b);
    ref := new DataRef(k, size, 0, 0);
    var err, order := idx.SetRef(ref);
    assert Elements(order) == {};
  }

  /** A second ref that is read once ranks above the first, so that the first alone is in front. */
  method TwoRanks(k1: Cid, size1: nat, k2: Cid, size2: nat, b: Bounds) returns (idx: Index, low: DataRef)
    requires b.lb <= b.ub && size1 + size2 <= b.ub && k1 != k2
    ensures fresh(idx) && fresh(idx.blist) && fresh(set b | b in idx.blist.list)
    ensures idx.Valid() && BoundsOf(idx) == b && idx.refs.Keys == {k1, k2} && idx.size == size1 + size2
    ensures low.payloadCID == k1 && low.payloadSize == size1 && idx.Front() == {low} && k1 in idx.root
  {
    idx, low := OneRef(k1, size1, b);
    var high := new DataRef(k2, size2, 0, 0);
    AddSecond(idx, low, high);
    ReadSecond(idx, low, high);
  }

  /** A second ref joins the highest rank. */
  method AddSecond(idx: Index, low: DataRef, high: DataRef)
    requires idx.Valid() && idx.lb <= idx.ub && idx.refs == map[low.payloadCID := low] && high.bucketNode == null
    requires high.payloadCID != low.payloadCID && high != low && !idx.Overflows(high.payloadSize)
    modifies idx, idx.blist, idx.blist.list, high
    ensures idx.Valid() && idx.refs == map[low.payloadCID := low, high.payloadCID := high]
    ensures idx.size == old(idx.size) + high.payloadSize && low.bucketID <= high.bucketID
    ensures forall b <- idx.blist.list :: b in old(idx.blist.list) || fresh(b)
  {
    assert idx.refs[low.payloadCID] in idx.blist.members;
    idx.LastIsHighest();
    var err, order := idx.SetRef(high);
    assert Elements(order) == {} && Cids({}) == {};
  }

  /** Reading the second of two refs leaves the first alone in front. */
  method ReadSecond(idx: Index, low: DataRef, high: DataRef)
    requires idx.Valid() && low != high && idx.refs == map[low.payloadCID := low, high.payloadCID := high]
    requires low.payloadCID != high.payloadCID && low.bucketID <= high.bucketID
    modifies idx`root, idx.blist`list, idx.blist.list, high
    ensures idx.Valid() && idx.Front() == {low} && low.payloadCID in idx.root
    ensures forall b <- idx.blist.list :: b in old(idx.blist.list) || fresh(b)
  {
    assert idx.refs[high.payloadCID] in idx.blist.members;
    ghost var ranks := idx.Ranks();
    var err := idx.GetRef(high.payloadCID);
    assert idx.Ranks()[high.payloadCID] == ranks[high.payloadCID] + 1;
    TwoInFront(idx, low, high);
  }

  lemma TwoInFront(idx: Index, low: DataRef, high: DataRef)
    requires idx.Valid() && low != high && idx.refs == map[low.payloadCID := low, high.payloadCID := high]
    requires low.payloadCID != high.payloadCID && low.bucketID < high.bucketID
    ensures idx.Front() == {low} && low.payloadCID in idx.root
  {
    idx.IndexedIsPersisted(low.payloadCID);
    assert idx.refs[low.payloadCID] in idx.blist.members && idx.refs[high.payloadCID] in idx.blist.members;
    forall r <- idx.blist.members ensures r == low || r == high {
      assert idx.Indexed(r);
    }
    idx.FrontByRanks();
    idx.FrontIsLowest(null);
  }

  /** With one ref in front, a store that goes over the upper bound evicts that one. */
  method StoreOver(idx: Index, low: DataRef, ref: DataRef)
    requires idx.Valid() && idx.lb <= idx.ub && idx.Front() == {low} && ref.bucketNode == null
    requires ref.payloadCID !in idx.refs && idx.Overflows(ref.payloadSize)
    modifies idx, idx.blist, idx.blist.list, ref
    ensures idx.Valid() && idx.size == old(idx.size) + ref.payloadSize - low.payloadSize
    ensures low.payloadCID != ref.payloadCID ==> low.payloadCID !in idx.refs
    ensures forall k <- old(idx.root) :: k in idx.root
    ensures forall b <- idx.blist.list :: b in old(idx.blist.list) || fresh(b)
  {
    var err, order := idx.SetRef(ref);
    assert low in {low};
    TakenSingle(order, low, old(idx.size) + ref.payloadSize - idx.lb);
  }

  /** However large the new content is, a store evicts only the refs that rank lowest: here one, and
      the index stays above its lower bound, and above its upper one, as much as the others and the new
      content need. */
  method ShortEviction(k1: Cid, size1: nat, k2: Cid, size2: nat, k3: Cid, size3: nat, b: Bounds) returns (idx: Index)
    requires 0 < b.lb <= b.ub && size1 + size2 <= b.ub < size1 + size2 + size3 && k1 != k2 && k3 !in {k1, k2}
    ensures fresh(idx) && fresh(idx.blist) && fresh(set b | b in idx.blist.list)
    ensures idx.Valid() && BoundsOf(idx) == b && idx.size == size2 + size3
    ensures (idx.size > idx.lb <==> size2 + size3 > b.lb) && (idx.size > idx.ub <==> size2 + size3 > b.ub)
    ensures k1 in idx.root && k1 !in idx.refs
  {
    var low;
    idx, low := TwoRanks(k1, size1, k2, size2, b);
    var ref := new DataRef(k3, size3, 0, 0);
    StoreOver(idx, low, ref);
  }

  /** For all bounds, a store that evicts can leave the index above both of them. */
  method AboveBothBounds(k1: Cid, k2: Cid, k3: Cid, b: Bounds) returns (idx: Index)
    requires 0 < b.lb <= b.ub && k1 != k2 && k3 !in {k1, k2}
    ensures fresh(idx) && idx.Valid() && BoundsOf(idx) == b
    ensures idx.size > idx.ub >= idx.lb && k1 in idx.root && k1 !in idx.refs
  {
    idx := ShortEviction(k1, b.ub, k2, 0, k3, b.ub + 1, b);
  }

  /** The ref that was evicted is still persisted, so that dropping it panics. */
  method EvictedDropPanics(k1: Cid, size1: nat, k2: Cid, size2: nat, k3: Cid, size3: nat, b: Bounds)
    returns (err: Option<Error>)
    requires 0 < b.lb <= b.ub && size1 + size2 <= b.ub < size1 + size2 + size3 && k1 != k2 && k3 !in {k1, k2}
    ensures err == Some(NilRef)
  {
    var idx := ShortEviction(k1, size1, k2, size2, k3, size3, b);
    err := idx.DropRef(k1);
  }
}
