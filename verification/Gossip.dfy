/** Sending offers back along the path of a gossip query (exchange/routing.go).

Every node traces which messages it published and from whom each message was delivered to it.  An
offer that answers a query is forwarded from node to node with nothing but these two records.
`OfferReachesPublisher` is about every network history in which a node is delivered a message
once, from a node that already had it.
 */
module Gossip {
  import opened Deal

  type Peer = nat
  type MessageID = nat

  /** What one node has traced. */
  datatype Traced = Traced(published: set<MessageID>, senders: map<MessageID, Peer>)

  /** An internal event of the gossip library: either part may be missing. */
  datatype TraceEvent = TraceEvent(publish: Option<MessageID>, deliver: Option<(MessageID, Peer)>)

  datatype OfferAction = Receive | Forward(to: Peer) | NoSender | NoReceiver

  function Recorded(t: Traced, e: TraceEvent): Traced {
    var t := if e.publish.Some? then t.(published := t.published + {e.publish.value}) else t;
    if e.deliver.Some? then t.(senders := t.senders[e.deliver.value.0 := e.deliver.value.1]) else t
  }

  /** What `handleOffer` does with an offer for a message. */
  function Handled(t: Traced, mid: MessageID, receiver: bool): OfferAction {
    if mid in t.published then if receiver then Receive else NoReceiver
    else if mid in t.senders then Forward(t.senders[mid])
    else NoSender
  }

  class GossipTracer {
    var published: map<MessageID, bool>
    var senders: map<MessageID, Peer>

    ghost function View(): Traced
      reads this
    {
      Traced((set m | m in published && published[m]), senders)
    }

    constructor ()
      ensures View() == Traced({}, map[])
    {
      published, senders := map[], map[];
    }

    method Trace(evt: TraceEvent)
      modifies this
      ensures View() == Recorded(old(View()), evt)
    {
      if evt.publish.Some? {
        published := published[evt.publish.value := true];
      }
      if evt.deliver.Some? {
        var (mid, from) := evt.deliver.value;
        senders := senders[mid := from];
      }
    }

    method Published(mid: MessageID) returns (p: bool)
      ensures p == (mid in View().published)
    {
      p := mid in published && published[mid];
    }

    method Sender(mid: MessageID) returns (from: Option<Peer>)
      ensures from == if mid in View().senders then Some(View().senders[mid]) else None
    {
      from := if mid in senders then Some(senders[mid]) else None;
    }

    method HandleOffer(mid: MessageID, receiver: bool) returns (action: OfferAction)
      ensures action == Handled(View(), mid, receiver)
    {
      var ours := Published(mid);
      if !ours {
        var to := Sender(mid);
        if to.None? {
          return NoSender;
        }
        return Forward(to.value);
      }
      if !receiver {
        return NoReceiver;
      }
      return Receive;
    }
  }

  // ---------- Network histories ----------

  datatype Event = Publish(node: Peer, mid: MessageID) | Deliver(node: Peer, mid: MessageID, from: Peer)

  function At(net: map<Peer, Traced>, p: Peer): Traced {
    if p in net then net[p] else Traced({}, map[])
  }

  function AsTraced(e: Event): TraceEvent {
    match e
    case Publish(_, mid) => TraceEvent(Some(mid), None)
    case Deliver(_, mid, from) => TraceEvent(None, Some((mid, from)))
  }

  function Extended(net: map<Peer, Traced>, e: Event): map<Peer, Traced> {
    net[e.node := Recorded(At(net, e.node), AsTraced(e))]
  }

  /** What all nodes have traced after a history. */
  function After(es: seq<Event>): map<Peer, Traced> {
    if es == [] then map[] else Extended(After(es[..|es| - 1]), es[|es| - 1])
  }

  predicate Published(net: map<Peer, Traced>, p: Peer, mid: MessageID) {
    mid in At(net, p).published
  }

  predicate Delivered(net: map<Peer, Traced>, p: Peer, mid: MessageID) {
    mid in At(net, p).senders
  }

  predicate Knows(net: map<Peer, Traced>, p: Peer, mid: MessageID) {
    Published(net, p, mid) || Delivered(net, p, mid)
  }

  ghost predicate HasPublisher(net: map<Peer, Traced>, mid: MessageID) {
    exists q :: Published(net, q, mid)
  }

  /** A message has one publisher; a node is delivered a message once, from a node that published
      it or was delivered it before. */
  ghost predicate Fits(net: map<Peer, Traced>, e: Event) {
    match e
    case Publish(_, mid) => !HasPublisher(net, mid)
    case Deliver(p, mid, from) => !Delivered(net, p, mid) && Knows(net, from, mid)
  }

  ghost predicate History(es: seq<Event>) {
    es == [] || (History(es[..|es| - 1]) && Fits(After(es[..|es| - 1]), es[|es| - 1]))
  }

  lemma {:induction false} OnePublisher(es: seq<Event>, p: Peer, q: Peer, mid: MessageID)
    requires History(es) && Published(After(es), p, mid) && Published(After(es), q, mid)
    ensures p == q
  {
    var init, e := es[..|es| - 1], es[|es| - 1];
    if e.Publish? && e.mid == mid {
      assert !Published(After(init), p, mid) && !Published(After(init), q, mid);
    } else {
      OnePublisher(init, p, q, mid);
    }
  }

  /** A message that some node knows has been published. */
  lemma {:induction false} KnownIsPublished(es: seq<Event>, p: Peer, mid: MessageID)
    requires History(es) && Knows(After(es), p, mid)
    ensures HasPublisher(After(es), mid)
  {
    if !Published(After(es), p, mid) {
      var init, e := es[..|es| - 1], es[|es| - 1];
      KnownIsPublished(init, Hop(After(init), e, p, mid), mid);
      var q :| Published(After(init), q, mid);
      assert Published(After(es), q, mid);
    }
  }

  /** The node that knew the message before an event, by which `p` knows it after the event. */
  function Hop(net: map<Peer, Traced>, e: Event, p: Peer, mid: MessageID): Peer {
    if !Knows(net, p, mid) && e.Deliver? then e.from else p
  }

  /** The way an offer takes from a node, by the history. */
  ghost function Route(es: seq<Event>, p: Peer, mid: MessageID): seq<Peer>
    requires History(es) && Knows(After(es), p, mid)
  {
    if Published(After(es), p, mid) then [p]
    else
      var init, e := es[..|es| - 1], es[|es| - 1];
      if Knows(After(init), p, mid) then Route(init, p, mid)
      else [p] + Route(init, Hop(After(init), e, p, mid), mid)
  }

  /** A way from `p` along which every node but the last forwards to the next, and the last is the
      publisher; no node is on it twice. */
  ghost predicate Leads(net: map<Peer, Traced>, route: seq<Peer>, p: Peer, mid: MessageID) {
    && route != [] && route[0] == p
    && (forall i | 0 <= i < |route| :: Knows(net, route[i], mid))
    && (forall i | 0 <= i < |route| - 1 :: Handled(At(net, route[i]), mid, true) == Forward(route[i + 1]))
    && Handled(At(net, route[|route| - 1]), mid, true) == Receive
    && (forall i, j | 0 <= i < j < |route| :: route[i] != route[j])
  }

  /** Later events leave what a node does with an offer as it is. */
  lemma HandledStays(net: map<Peer, Traced>, e: Event, p: Peer, mid: MessageID)
    requires Fits(net, e) && Knows(net, p, mid) && HasPublisher(net, mid)
    ensures Handled(At(Extended(net, e), p), mid, true) == Handled(At(net, p), mid, true)
    ensures Knows(Extended(net, e), p, mid)
  {
  }

  lemma LeadsStays(net: map<Peer, Traced>, e: Event, route: seq<Peer>, p: Peer, mid: MessageID)
    requires Fits(net, e) && HasPublisher(net, mid) && Leads(net, route, p, mid)
    ensures Leads(Extended(net, e), route, p, mid)
  {
    forall i | 0 <= i < |route|
      ensures Handled(At(Extended(net, e), route[i]), mid, true) == Handled(At(net, route[i]), mid, true)
      ensures Knows(Extended(net, e), route[i], mid)
    {
      HandledStays(net, e, route[i], mid);
    }
  }

  /** The way from a node that is delivered the message runs through the node it came from. */
  lemma LeadsOn(net: map<Peer, Traced>, e: Event, rest: seq<Peer>, mid: MessageID)
    requires e.Deliver? && e.mid == mid && Fits(net, e) && HasPublisher(net, mid)
    requires !Knows(net, e.node, mid) && Leads(net, rest, e.from, mid)
    ensures Leads(Extended(net, e), [e.node] + rest, e.node, mid)
  {
    LeadsStays(net, e, rest, e.from, mid);
    assert forall i | 0 <= i < |rest| :: rest[i] != e.node;
  }

  lemma {:induction false} RouteLeads(es: seq<Event>, p: Peer, mid: MessageID)
    requires History(es) && Knows(After(es), p, mid)
    ensures Leads(After(es), Route(es, p, mid), p, mid)
  {
    if !Published(After(es), p, mid) {
      var init, e := es[..|es| - 1], es[|es| - 1];
      var hop := Hop(After(init), e, p, mid);
      RouteLeads(init, hop, mid);
      KnownIsPublished(init, hop, mid);
      if Knows(After(init), p, mid) {
        LeadsStays(After(init), e, Route(init, p, mid), p, mid);
      } else {
        LeadsOn(After(init), e, Route(init, hop, mid), mid);
      }
    }
  }

  /** An offer sent back from any node that was delivered the query is forwarded by each node on its
      way, visits no node twice and is received by the publisher of the query. */
  lemma OfferReachesPublisher(es: seq<Event>, p: Peer, mid: MessageID)
    requires History(es) && Delivered(After(es), p, mid)
    ensures Leads(After(es), Route(es, p, mid), p, mid)
    ensures forall q :: Published(After(es), q, mid) <==> q == Route(es, p, mid)[|Route(es, p, mid)| - 1]
  {
    RouteLeads(es, p, mid);
    var route := Route(es, p, mid);
    forall q | Published(After(es), q, mid)
      ensures q == route[|route| - 1]
    {
      OnePublisher(es, route[|route| - 1], q, mid);
    }
  }
}
