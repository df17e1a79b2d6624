/** The list of buckets behind both popularity rankings of the content index (exchange/index.go).

A ranking is a list of buckets in ascending order of their number; each bucket holds the refs of
that rank and each ref points back at its bucket.  The list itself is the standard linked list, so
it is a sequence of bucket objects here; bucket and ref objects are updated in place.
 */
module BucketList {

  type Cid = nat

  class Bucket {
    const id: int
    var entries: set<DataRef>

    constructor (id: int)
      ensures this.id == id && entries == {}
    {
      this.id := id;
      entries := {};
    }
  }

  class DataRef {
    const payloadCID: Cid
    const payloadSize: nat
    var freq: int
    var bucketID: int
    var bucketNode: Bucket?

    constructor (payloadCID: Cid, payloadSize: nat, freq: int, bucketID: int)
      ensures this.payloadCID == payloadCID && this.payloadSize == payloadSize
      ensures this.freq == freq && this.bucketID == bucketID && bucketNode == null
    {
      this.payloadCID := payloadCID;
      this.payloadSize := payloadSize;
      this.freq := freq;
      this.bucketID := bucketID;
      bucketNode := null;
    }
  }

  ghost predicate Ascending(s: seq<Bucket>) {
    forall i, j | 0 <= i < j < |s| :: s[i].id < s[j].id
  }

  function Position(s: seq<Bucket>, b: Bucket): (p: nat)
    requires b in s
    ensures p < |s| && s[p] == b
  {
    if s[0] == b then 0 else 1 + Position(s[1..], b)
  }

  lemma InsertAscending(s: seq<Bucket>, p: nat, b: Bucket)
    requires Ascending(s) && p <= |s|
    requires p > 0 ==> s[p - 1].id < b.id
    requires p < |s| ==> b.id < s[p].id
    ensures Ascending(s[..p] + [b] + s[p..])
    ensures forall c :: c in s[..p] + [b] + s[p..] <==> c in s || c == b
  {
    var t := s[..p] + [b] + s[p..];
    forall i, j | 0 <= i < j < |t| ensures t[i].id < t[j].id {
      var i' := if i > p then i - 1 else i;
      var j' := if j > p then j - 1 else j;
      assert i != p ==> t[i] == s[i'];
      assert j != p ==> t[j] == s[j'];
    }
    forall c | c in s ensures c in t {
      var q := Position(s, c);
      assert t[if q < p then q else q + 1] == c;
    }
  }

  lemma RemoveAscending(s: seq<Bucket>, p: nat)
    requires Ascending(s) && p < |s|
    ensures Ascending(s[..p] + s[p + 1..])
    ensures forall c :: c in s[..p] + s[p + 1..] <==> c in s && c != s[p]
  {
    var t := s[..p] + s[p + 1..];
    assert forall i | 0 <= i < |t| :: t[i] == s[if i < p then i else i + 1];
    forall c | c in s && c != s[p] ensures c in t {
      var q := Position(s, c);
      assert t[if q < p then q else q - 1] == c;
    }
  }

  function Cids(refs: set<DataRef>): set<Cid> {
    set r | r in refs :: r.payloadCID
  }

  /** What a ranking shows: ranks in ascending order with the content at each. */
  datatype Group = Group(id: int, cids: set<Cid>)

  /** The list of groups that a rank for each content determines. */
  ghost predicate Groups(gs: seq<Group>, ranks: map<Cid, int>) {
    && (forall i, j | 0 <= i < j < |gs| :: gs[i].id < gs[j].id)
    && (forall i | 0 <= i < |gs| :: gs[i].cids == (set k | k in ranks && ranks[k] == gs[i].id) && gs[i].cids != {})
    && (forall k <- ranks :: exists i :: 0 <= i < |gs| && gs[i].id == ranks[k])
  }

  /** Strictly ascending lists of the same numbers agree at each place. */
  lemma {:induction false} AscendingAgree(a: seq<int>, b: seq<int>, i: nat)
    requires forall i, j | 0 <= i < j < |a| :: a[i] < a[j]
    requires forall i, j | 0 <= i < j < |b| :: b[i] < b[j]
    requires (forall x <- a :: x in b) && (forall x <- b :: x in a) && i < |a|
    ensures i < |b| && a[i] == b[i]
  {
    forall h | 0 <= h < i ensures h < |b| && a[h] == b[h] {
      AscendingAgree(a, b, h);
    }
    assert a[i] in a;
    var j :| 0 <= j < |b| && b[j] == a[i];
    assert j >= i;
    assert b[i] in b;
    var h :| 0 <= h < |a| && a[h] == b[i];
    assert h >= i;
  }

  function GroupIds(gs: seq<Group>): (ids: seq<int>)
    ensures |ids| == |gs| && forall i | 0 <= i < |gs| :: ids[i] == gs[i].id
  {
    seq(|gs|, i requires 0 <= i < |gs| => gs[i].id)
  }

  lemma GroupOf(a: seq<Group>, b: seq<Group>, ranks: map<Cid, int>, x: int)
    requires Groups(a, ranks) && Groups(b, ranks) && x in GroupIds(a)
    ensures x in GroupIds(b)
  {
    var i :| 0 <= i < |a| && GroupIds(a)[i] == x;
    assert a[i].cids != {};
    var k :| k in a[i].cids;
    assert k in ranks;
    var j :| 0 <= j < |b| && b[j].id == ranks[k];
    assert GroupIds(b)[j] == x;
  }

  /** Ranks determine the groups: two lists for the same ranks are equal, element by element. */
  lemma GroupsAgree(a: seq<Group>, b: seq<Group>, ranks: map<Cid, int>, i: nat)
    requires Groups(a, ranks) && Groups(b, ranks) && i < |a|
    ensures i < |b| && a[i] == b[i]
  {
    forall x | x in GroupIds(a) ensures x in GroupIds(b) { GroupOf(a, b, ranks, x); }
    forall x | x in GroupIds(b) ensures x in GroupIds(a) { GroupOf(b, a, ranks, x); }
    AscendingAgree(GroupIds(a), GroupIds(b), i);
    assert a[i].id == b[i].id;
  }

  lemma GroupsUnique(a: seq<Group>, b: seq<Group>, ranks: map<Cid, int>)
    requires Groups(a, ranks) && Groups(b, ranks)
    ensures a == b
  {
    forall i | 0 <= i < |a| ensures i < |b| && a[i] == b[i] {
      GroupsAgree(a, b, ranks, i);
    }
    if |a| > |b| {
      GroupsAgree(a, b, ranks, |b|);
    } else if |b| > |a| {
      GroupsAgree(b, a, ranks, |a|);
    }
  }

  class Ranking {
    var list: seq<Bucket>
    ghost var members: set<DataRef>

    /** Everything holds but that bucket `e` may be empty. */
    ghost predicate ValidBut(e: Bucket?)
      reads this, list`entries, members`bucketNode
    {
      && Ascending(list)
      && (forall b <- list :: b == e || b.entries != {})
      && (forall b <- list, r <- b.entries :: r in members && r.bucketNode == b)
      && (forall r <- members :: r.bucketNode != null && r.bucketNode in list && r in r.bucketNode.entries)
    }

    /** Bucket numbers strictly ascend, no bucket is empty, each member is in exactly one bucket,
        and that bucket is the one it points at. */
    ghost predicate Valid()
      reads this, list`entries, members`bucketNode
    {
      ValidBut(null)
    }

    /** Only the list, its buckets and the back references matter. */
    twostate lemma StillValid()
      requires old(Valid()) && list == old(list) && members == old(members)
      requires forall b <- list :: b.entries == old(b.entries)
      requires forall r <- members :: r.bucketNode == old(r.bucketNode)
      ensures Valid()
    {
    }

    /** A new empty bucket in the right place may be empty. */
    twostate lemma ValidWith(new b: Bucket)
      requires old(Valid()) && members == old(members)
      requires fresh(b) && b.entries == {} && Ascending(list)
      requires forall c <- list :: c in old(list) || c == b
      requires forall c <- old(list) :: c in list && c.entries == old(c.entries)
      requires forall r <- members :: r.bucketNode == old(r.bucketNode)
      ensures ValidBut(b)
    {
    }

    ghost function View(): (gs: seq<Group>)
      reads this, list
      ensures |gs| == |list|
      ensures forall i | 0 <= i < |gs| :: gs[i] == Group(list[i].id, Cids(list[i].entries))
    {
      seq(|list|, i requires 0 <= i < |list| reads this, list => Group(list[i].id, Cids(list[i].entries)))
    }

    /** A valid list shows exactly the groups of its members' ranks. */
    lemma ViewIsGroups(ranks: map<Cid, int>)
      requires Valid()
      requires forall k :: k in ranks <==> exists r :: r in members && r.payloadCID == k
      requires forall r <- members :: r.payloadCID in ranks && ranks[r.payloadCID] == r.bucketNode.id
      ensures Groups(View(), ranks)
    {
      var gs := View();
      forall i | 0 <= i < |gs|
        ensures gs[i].cids == (set k | k in ranks && ranks[k] == gs[i].id) && gs[i].cids != {}
      {
        var b := list[i];
        assert b in list;
        forall k | k in ranks && ranks[k] == b.id ensures k in gs[i].cids {
          var r :| r in members && r.payloadCID == k;
          var p := Position(list, r.bucketNode);
          assert p == i;
        }
        var r :| r in b.entries;
        assert r.payloadCID in gs[i].cids;
      }
      forall k <- ranks ensures exists i :: 0 <= i < |gs| && gs[i].id == ranks[k] {
        var r :| r in members && r.payloadCID == k;
        var p := Position(list, r.bucketNode);
        assert gs[p].id == ranks[k];
      }
    }

    constructor ()
      ensures Valid() && list == [] && members == {}
    {
      list, members := [], {};
    }

    /** `InsertBefore`, `InsertAfter`, `PushFront` and `PushBack` of a new bucket. */
    method InsertBucket(p: nat, id: int) returns (b: Bucket)
      requires Valid() && p <= |list|
      requires p > 0 ==> list[p - 1].id < id
      requires p < |list| ==> id < list[p].id
      modifies this`list
      ensures fresh(b) && b.id == id && b.entries == {}
      ensures list == old(list)[..p] + [b] + old(list)[p..]
      ensures ValidBut(b)
    {
      b := new Bucket(id);
      InsertAscending(list, p, b);
      list := list[..p] + [b] + list[p..];
      ValidWith(b);
    }

    /** Puts a ref that is not in the list into a bucket. */
    method Attach(r: DataRef, target: Bucket)
      requires ValidBut(target) && target in list && r !in members
      modifies this`members, target`entries, r`bucketNode
      ensures Valid() && members == old(members) + {r} && r.bucketNode == target
    {
      target.entries := target.entries + {r};
      r.bucketNode := target;
      members := members + {r};
    }

    /** `remBlistEntry` and `remFreqEntry`: a bucket that becomes empty leaves the list. */
    method Detach(r: DataRef)
      requires Valid() && r in members
      modifies this`list, this`members, r.bucketNode`entries
      ensures Valid() && members == old(members) - {r}
      ensures forall b <- list :: b in old(list)
      ensures list == old(list) || r.bucketNode !in list
      ensures r.bucketNode.entries == old(r.bucketNode.entries) - {r}
    {
      var b := r.bucketNode;
      b.entries := b.entries - {r};
      members := members - {r};
      if b.entries == {} {
        DropBucket(b);
      }
    }

    /** Takes an emptied bucket out of the list. */
    method DropBucket(b: Bucket)
      requires ValidBut(b) && b in list && b.entries == {}
      modifies this`list
      ensures Valid()
      ensures forall c :: c in list <==> c in old(list) && c != b
    {
      var p := Position(list, b);
      RemoveAscending(list, p);
      list := list[..p] + list[p + 1..];
    }

    /** Moves a member to another bucket of the list, which may leave its bucket empty. */
    method Reassign(r: DataRef, target: Bucket) returns (current: Bucket)
      requires ValidBut(target) && target in list && r in members && r.bucketNode != target
      modifies target`entries, r.bucketNode`entries, r`bucketNode
      ensures ValidBut(current) && current == old(r.bucketNode) && current in list
      ensures r.bucketNode == target && r in target.entries
    {
      current := r.bucketNode;
      target.entries := target.entries + {r};
      r.bucketNode := target;
      current.entries := current.entries - {r};
    }

    /** Moves a member to another bucket of the list; a bucket that becomes empty leaves it. */
    method Transfer(r: DataRef, target: Bucket)
      requires ValidBut(target) && target in list && r in members && r.bucketNode != target
      modifies this`list, list, r`bucketNode
      ensures Valid() && r.bucketNode == target
      ensures forall b <- list :: b in old(list)
    {
      var current := Reassign(r, target);
      if current.entries == {} {
        DropBucket(current);
      }
    }

    /** Places a new ref at rank `id`, searching from the front. */
    method Place(r: DataRef, id: int)
      requires Valid() && r !in members
      modifies this, list, r`bucketNode
      ensures Valid() && members == old(members) + {r} && r.bucketNode.id == id
      ensures forall b <- list :: b in old(list) || fresh(b)
    {
      var p := 0;
      while p < |list| && list[p].id < id
        invariant p <= |list|
        invariant forall i | 0 <= i < p :: list[i].id < id
      {
        p := p + 1;
      }
      if p < |list| && list[p].id == id {
        Attach(r, list[p]);
      } else {
        var b := InsertBucket(p, id);
        Attach(r, b);
      }
    }

    /** Places a new ref among the most popular ones, or at rank 1 of an empty list. */
    method PlaceLast(r: DataRef) returns (id: int)
      requires Valid() && r !in members
      modifies this, if list == [] then {} else {list[|list| - 1]}, r`bucketNode
      ensures Valid() && members == old(members) + {r} && r.bucketNode.id == id
      ensures if old(list) == [] then id == 1 else id == old(list)[|old(list)| - 1].id
      ensures forall b <- list :: b in old(list) || fresh(b)
    {
      if |list| == 0 {
        id := 1;
        var b := InsertBucket(0, id);
        Attach(r, b);
      } else {
        id := list[|list| - 1].id;
        Attach(r, list[|list| - 1]);
      }
    }

    /** Moves a member one rank up, right after its bucket. */
    method MoveUp(r: DataRef)
      requires Valid() && r in members
      modifies this`list, list, r`bucketNode
      ensures Valid() && r.bucketNode.id == old(r.bucketNode.id) + 1
      ensures forall b <- list :: b in old(list) || fresh(b)
    {
      var p := Position(list, r.bucketNode);
      var nextID := r.bucketNode.id + 1;
      if p + 1 < |list| && list[p + 1].id == nextID {
        Transfer(r, list[p + 1]);
      } else {
        var b := InsertBucket(p + 1, nextID);
        Transfer(r, b);
      }
    }

    /** Moves a member to a higher rank, searching from its bucket. */
    method MoveTo(r: DataRef, id: int)
      requires Valid() && r in members && id > r.bucketNode.id
      modifies this`list, list, r`bucketNode
      ensures Valid() && r.bucketNode.id == id
      ensures forall b <- list :: b in old(list) || fresh(b)
    {
      var p := Position(list, r.bucketNode);
      while p < |list| && list[p].id < id
        invariant p <= |list|
        invariant forall i | 0 <= i < p :: list[i].id < id
      {
        p := p + 1;
      }
      if p < |list| && list[p].id == id {
        Transfer(r, list[p]);
      } else {
        var b := InsertBucket(p, id);
        Transfer(r, b);
      }
    }
  }
}
