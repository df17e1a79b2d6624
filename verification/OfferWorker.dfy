/** The offer selection worker (exchange/tx.go, sessionWorker).

The worker is a loop over events: offers pushed to the back or the front, a delay, the end of an
execution, and closing.  All results are about every event sequence: `AtMostOneExecution`,
`OffersConserved`, `CeilingRespected`, `CheapestFirst` and `FinishRule`.
 */
module OfferWorker {
  import opened Deal

  datatype Offer = Offer(id: nat, minPricePerByte: int)

  /** An offer that was taken in, with the side it came from. */
  datatype Item = Item(offer: Offer, front: bool)

  /** -1 turns a threshold or the ceiling off. */
  datatype Config = Config(numThreshold: int, timeThreshold: int, priceCeiling: int) {
    predicate UsesCeiling() {
      priceCeiling != -1
    }

    predicate Allows(offer: Offer) {
      UsesCeiling() ==> offer.minPricePerByte <= priceCeiling
    }

    /** Whether the first offer is executed as soon as it comes in. */
    predicate Eager() {
      numThreshold < 0 && timeThreshold < 0
    }
  }

  /** `started` is whether an execution was ever started: the result channel is never reset.
      `running` are the executions under way, `executed` those that ended, `finished` the results
      reported, and `accepted` every offer taken in.  `trail` are the offers executed since they
      were last sorted, as long as nothing came in. */
  datatype Worker = Worker(
    q: seq<Item>,
    started: bool,
    running: seq<Item>,
    executed: seq<Item>,
    finished: seq<bool>,
    accepted: seq<Item>,
    trail: Option<seq<Item>>,
    delayed: bool,
    closed: Option<seq<Item>>)

  /** `sorted` is how the library sorts the queue, should it be asked to. */
  datatype Event =
    | PushBack(offer: Offer, sorted: seq<Item>)
    | PushFront(offer: Offer)
    | Delay(sorted: seq<Item>)
    | ExecDone(failed: bool)
    | Close

  ghost predicate Ascending(s: seq<Item>) {
    forall i, j | 0 <= i < j < |s| :: s[i].offer.minPricePerByte <= s[j].offer.minPricePerByte
  }

  /** Any sorted permutation: the library's sort is not stable. */
  ghost predicate IsSort(q: seq<Item>, s: seq<Item>) {
    multiset(s) == multiset(q) && Ascending(s)
  }

  function Start(w: Worker, item: Item, q: seq<Item>): Worker {
    w.(started := true, running := w.running + [item], q := q)
  }

  /** Executes the cheapest of a sorted queue. */
  function StartSorted(w: Worker, sorted: seq<Item>): Worker
    requires sorted != []
  {
    Start(w, sorted[0], sorted[1..]).(trail := Some([sorted[0]]))
  }

  function OnPushBack(c: Config, w: Worker, offer: Offer, sorted: seq<Item>): Worker {
    if !c.Allows(offer) then w
    else
      var item := Item(offer, false);
      var w := w.(accepted := w.accepted + [item], trail := None);
      if c.Eager() && !w.started then Start(w, item, w.q)
      else
        var q := w.q + [item];
        if !w.started && |q| == c.numThreshold && sorted != [] then StartSorted(w, sorted) else w.(q := q)
  }

  function OnPushFront(w: Worker, offer: Offer): Worker {
    var item := Item(offer, true);
    var w := w.(accepted := w.accepted + [item], trail := None);
    if !w.started then Start(w, item, w.q) else w.(q := [item] + w.q)
  }

  function OnDelay(w: Worker, sorted: seq<Item>): Worker {
    var w := w.(delayed := true);
    if w.started || sorted == [] then w else StartSorted(w, sorted)
  }

  /** The execution under way has ended. */
  function Ended(w: Worker): Worker
    requires w.running != []
  {
    w.(executed := w.executed + [w.running[|w.running| - 1]], running := w.running[..|w.running| - 1])
  }

  function OnExecDone(w: Worker, failed: bool): Worker
    requires w.running != []
  {
    var w := Ended(w);
    if failed && w.q != [] then
      Start(w, w.q[0], w.q[1..]).(trail := if w.trail.Some? then Some(w.trail.value + [w.q[0]]) else None)
    else w.(finished := w.finished + [failed])
  }

  /** An idle worker that has nothing queued indexes past the end of its queue. */
  predicate DelayPanics(w: Worker) {
    !w.started && w.q == []
  }

  /** A closed worker takes no events; the delay fires once, if there is one, and not before an
      offer came in; results come from executions under way. */
  ghost predicate Legal(c: Config, w: Worker, e: Event) {
    && w.closed.None?
    && match e
       case PushBack(offer, sorted) => IsSort(w.q + [Item(offer, false)], sorted)
       case PushFront(_) => true
       case Delay(sorted) => c.timeThreshold >= 0 && !w.delayed && !DelayPanics(w) && IsSort(w.q, sorted)
       case ExecDone(_) => w.running != []
       case Close => true
  }

  function Take(c: Config, w: Worker, e: Event): Worker
    requires e.ExecDone? ==> w.running != []
  {
    match e
    case PushBack(offer, sorted) => OnPushBack(c, w, offer, sorted)
    case PushFront(offer) => OnPushFront(w, offer)
    case Delay(sorted) => OnDelay(w, sorted)
    case ExecDone(failed) => OnExecDone(w, failed)
    case Close => w.(closed := Some(w.q))
  }

  function Initial(): Worker {
    Worker([], false, [], [], [], [], None, false, None)
  }

  // ---------- The worker object ----------

  class SessionWorker {
    const config: Config
    var q: seq<Item>
    var started: bool
    var running: seq<Item>
    var executed: seq<Item>
    var finished: seq<bool>
    var delayed: bool
    var closed: Option<seq<Item>>
    ghost var accepted: seq<Item>
    ghost var trail: Option<seq<Item>>

    ghost function View(): Worker
      reads this
    {
      Worker(q, started, running, executed, finished, accepted, trail, delayed, closed)
    }

    constructor (config: Config)
      ensures this.config == config && View() == Initial()
    {
      this.config := config;
      q, started, running, executed, finished, delayed, closed := [], false, [], [], [], false, None;
      accepted, trail := [], None;
    }

    /** `go s.exec` with a new result channel. */
    method Exec(item: Item)
      modifies this`started, this`running
      ensures started && running == old(running) + [item]
    {
      started := true;
      running := running + [item];
    }

    /** Sorts the queue and executes its first offer; `sorted` is the order the sort produced. */
    method ExecCheapest() returns (ghost sorted: seq<Item>)
      requires q != []
      modifies this`q, this`started, this`running, this`trail
      ensures IsSort(old(q), sorted) && sorted != [] && View() == StartSorted(old(View()), sorted)
    {
      q := SortOffers(q);
      sorted := q;
      Exec(q[0]);
      trail := Some([q[0]]);
      q := q[1..];
    }

    method OfferBack(offer: Offer) returns (ghost sorted: seq<Item>)
      requires closed.None?
      modifies this
      ensures Legal(config, old(View()), PushBack(offer, sorted))
      ensures View() == Take(config, old(View()), PushBack(offer, sorted))
    {
      ghost var asked := q + [Item(offer, false)];
      sorted := Sorted(asked);
      SortedIsSort(asked);
      if config.UsesCeiling() && offer.minPricePerByte > config.priceCeiling {
        return;
      }
      var item := Item(offer, false);
      accepted, trail := accepted + [item], None;
      if config.numThreshold < 0 && config.timeThreshold < 0 && !started {
        Exec(item);
        return;
      }
      q := q + [item];
      if started {
        return;
      }
      if |q| == config.numThreshold {
        sorted := ExecCheapest();
      }
    }

    method OfferFront(offer: Offer)
      requires closed.None?
      modifies this
      ensures View() == Take(config, old(View()), PushFront(offer))
    {
      var item := Item(offer, true);
      accepted, trail := accepted + [item], None;
      if !started {
        Exec(item);
        return;
      }
      q := [item] + q;
    }

    method DelayFired() returns (panicked: bool, ghost sorted: seq<Item>)
      requires closed.None? && config.timeThreshold >= 0 && !delayed
      modifies this
      ensures panicked == old(DelayPanics(View()))
      ensures !panicked ==> Legal(config, old(View()), Delay(sorted))
      ensures !panicked ==> View() == Take(config, old(View()), Delay(sorted))
    {
      delayed := true;
      sorted := Sorted(q);
      SortedIsSort(q);
      if started {
        return false, sorted;
      }
      if |q| == 0 {
        return true, sorted;
      }
      sorted := ExecCheapest();
      return false, sorted;
    }

    method ExecEnded(failed: bool)
      requires closed.None? && running != []
      modifies this
      ensures View() == Take(config, old(View()), ExecDone(failed))
    {
      executed, running := executed + [running[|running| - 1]], running[..|running| - 1];
      if failed && |q| > 0 {
        trail := if trail.Some? then Some(trail.value + [q[0]]) else None;
        Exec(q[0]);
        q := q[1..];
        return;
      }
      if !failed || |q| == 0 {
        finished := finished + [failed];
      }
    }

    /** `Close`: the caller gets what is queued. */
    method Shut() returns (left: seq<Item>)
      requires closed.None?
      modifies this`closed
      ensures View() == Take(config, old(View()), Close) && left == q
    {
      closed := Some(q);
      left := q;
    }
  }

  /** `sortOffers`: one of the orders the library's sort may produce. */
  method SortOffers(q: seq<Item>) returns (sorted: seq<Item>)
    ensures IsSort(q, sorted)
  {
    sorted := Sorted(q);
    SortedIsSort(q);
  }

  function Insert(s: seq<Item>, x: Item): seq<Item> {
    if s == [] || x.offer.minPricePerByte <= s[0].offer.minPricePerByte then [x] + s
    else [s[0]] + Insert(s[1..], x)
  }

  function Sorted(q: seq<Item>): seq<Item> {
    if q == [] then [] else Insert(Sorted(q[1..]), q[0])
  }

  lemma {:induction false} InsertKeeps(s: seq<Item>, x: Item)
    ensures multiset(Insert(s, x)) == multiset(s) + multiset{x}
  {
    if s != [] && x.offer.minPricePerByte > s[0].offer.minPricePerByte {
      InsertKeeps(s[1..], x);
      assert s == [s[0]] + s[1..];
    }
  }

  lemma {:induction false} InsertAscends(s: seq<Item>, x: Item)
    requires Ascending(s)
    ensures Ascending(Insert(s, x))
  {
    if s != [] && x.offer.minPricePerByte > s[0].offer.minPricePerByte {
      InsertAscends(s[1..], x);
      InsertKeeps(s[1..], x);
      var t := Insert(s[1..], x);
      forall j | 0 <= j < |t| ensures s[0].offer.minPricePerByte <= t[j].offer.minPricePerByte {
        assert t[j] in multiset(t);
        assert t[j] == x || t[j] in s[1..];
      }
    }
  }

  lemma {:induction false} SortedIsSort(q: seq<Item>)
    ensures IsSort(q, Sorted(q))
  {
    if q != [] {
      SortedIsSort(q[1..]);
      InsertKeeps(Sorted(q[1..]), q[0]);
      InsertAscends(Sorted(q[1..]), q[0]);
      assert q == [q[0]] + q[1..];
    }
  }

  // ---------- What every event keeps ----------

  ghost predicate Conserved(w: Worker) {
    multiset(w.accepted) == multiset(w.q) + multiset(w.running) + multiset(w.executed)
  }

  /** One execution at a time, and a result is reported exactly when the last one has ended. */
  predicate OneAtATime(w: Worker) {
    && |w.running| + |w.finished| == (if w.started then 1 else 0)
    && (!w.started ==> w.executed == [])
    && (w.finished != [] ==> w.executed != [])
  }

  predicate Within(c: Config, items: seq<Item>) {
    forall i | 0 <= i < |items| :: items[i].front || c.Allows(items[i].offer)
  }

  predicate Capped(c: Config, w: Worker) {
    Within(c, w.q) && Within(c, w.running) && Within(c, w.executed)
  }

  /** After a sorted start and without new offers, the trail is all that was ever executed, and with
      what is queued it is in order of price. */
  ghost predicate InOrder(w: Worker) {
    w.trail.Some? ==> w.trail.value == w.executed + w.running && Ascending(w.trail.value + w.q)
  }

  ghost predicate Ok(c: Config, w: Worker) {
    Conserved(w) && OneAtATime(w) && Capped(c, w) && InOrder(w)
  }

  lemma StartConserves(w: Worker, item: Item, q: seq<Item>)
    requires multiset(w.accepted) == multiset(q) + multiset{item} + multiset(w.running) + multiset(w.executed)
    ensures Conserved(Start(w, item, q))
  {
  }

  lemma HeadTail(s: seq<Item>)
    requires s != []
    ensures multiset(s) == multiset(s[1..]) + multiset{s[0]}
  {
    assert s == [s[0]] + s[1..];
  }

  lemma LastInit(s: seq<Item>)
    requires s != []
    ensures multiset(s) == multiset(s[..|s| - 1]) + multiset{s[|s| - 1]}
  {
    assert s == s[..|s| - 1] + [s[|s| - 1]];
  }

  lemma SortWithin(c: Config, q: seq<Item>, s: seq<Item>)
    requires IsSort(q, s) && Within(c, q)
    ensures Within(c, s)
  {
    forall i | 0 <= i < |s| ensures s[i].front || c.Allows(s[i].offer) {
      assert s[i] in multiset(s);
      assert s[i] in q;
    }
  }

  /** Starting the cheapest of a sorted queue that holds everything taken in. */
  lemma StartSortedKeeps(c: Config, w: Worker, sorted: seq<Item>)
    requires sorted != [] && Ascending(sorted) && Within(c, sorted) && OneAtATime(w) && !w.started
    requires multiset(w.accepted) == multiset(sorted) + multiset(w.running) + multiset(w.executed)
    ensures Ok(c, StartSorted(w, sorted))
  {
    HeadTail(sorted);
    assert [sorted[0]] + sorted[1..] == sorted;
    StartConserves(w, sorted[0], sorted[1..]);
  }

  lemma QueueBackKeeps(c: Config, w: Worker, item: Item)
    requires Conserved(w) && OneAtATime(w) && Capped(c, w) && (item.front || c.Allows(item.offer))
    ensures Ok(c, w.(accepted := w.accepted + [item], trail := None, q := w.q + [item]))
  {
  }

  lemma QueueFrontKeeps(c: Config, w: Worker, item: Item)
    requires Conserved(w) && OneAtATime(w) && Capped(c, w) && (item.front || c.Allows(item.offer))
    ensures Ok(c, w.(accepted := w.accepted + [item], trail := None, q := [item] + w.q))
  {
  }

  lemma StartNowKeeps(c: Config, w: Worker, item: Item)
    requires Conserved(w) && OneAtATime(w) && Capped(c, w) && (item.front || c.Allows(item.offer)) && !w.started
    ensures Ok(c, Start(w.(accepted := w.accepted + [item], trail := None), item, w.q))
  {
    StartConserves(w.(accepted := w.accepted + [item], trail := None), item, w.q);
  }

  lemma PushBackKeeps(c: Config, w: Worker, offer: Offer, sorted: seq<Item>)
    requires Ok(c, w) && IsSort(w.q + [Item(offer, false)], sorted)
    ensures Ok(c, OnPushBack(c, w, offer, sorted))
  {
    if c.Allows(offer) {
      var item := Item(offer, false);
      if c.Eager() && !w.started {
        StartNowKeeps(c, w, item);
      } else {
        QueueBackKeeps(c, w, item);
      }
      if !c.Eager() && !w.started && sorted != [] {
        SortWithin(c, w.q + [item], sorted);
        StartSortedKeeps(c, w.(accepted := w.accepted + [item], trail := None), sorted);
      }
    }
  }

  lemma PushFrontKeeps(c: Config, w: Worker, offer: Offer)
    requires Ok(c, w)
    ensures Ok(c, OnPushFront(w, offer))
  {
    if w.started {
      QueueFrontKeeps(c, w, Item(offer, true));
    } else {
      StartNowKeeps(c, w, Item(offer, true));
    }
  }

  lemma DelayKeeps(c: Config, w: Worker, sorted: seq<Item>)
    requires Ok(c, w) && IsSort(w.q, sorted)
    ensures Ok(c, OnDelay(w, sorted))
  {
    if !w.started && sorted != [] {
      SortWithin(c, w.q, sorted);
      StartSortedKeeps(c, w.(delayed := true), sorted);
    }
  }

  lemma EndedKeeps(c: Config, w: Worker)
    requires Ok(c, w) && w.running != []
    ensures Conserved(Ended(w)) && Capped(c, Ended(w)) && InOrder(Ended(w))
    ensures Ended(w).running == [] && w.started && w.finished == [] && Ended(w).executed != []
  {
    LastInit(w.running);
    assert Ended(w).executed + Ended(w).running == w.executed + w.running;
  }

  lemma NextKeeps(c: Config, w: Worker)
    requires Conserved(w) && Capped(c, w) && InOrder(w) && w.running == [] && w.started && w.finished == [] && w.q != []
    ensures Ok(c, Start(w, w.q[0], w.q[1..]).(trail := if w.trail.Some? then Some(w.trail.value + [w.q[0]]) else None))
  {
    HeadTail(w.q);
    StartConserves(w, w.q[0], w.q[1..]);
    if w.trail.Some? {
      assert w.executed + (w.running + [w.q[0]]) == (w.executed + w.running) + [w.q[0]];
      assert w.trail.value + w.q == (w.trail.value + [w.q[0]]) + w.q[1..];
    }
  }

  lemma ExecDoneKeeps(c: Config, w: Worker, failed: bool)
    requires Ok(c, w) && w.running != []
    ensures Ok(c, OnExecDone(w, failed))
  {
    EndedKeeps(c, w);
    if w.q != [] {
      NextKeeps(c, Ended(w));
    }
  }

  lemma StepKeeps(c: Config, w: Worker, e: Event)
    requires Ok(c, w) && Legal(c, w, e)
    ensures Ok(c, Take(c, w, e))
  {
    match e
    case PushBack(offer, sorted) => PushBackKeeps(c, w, offer, sorted);
    case PushFront(offer) => PushFrontKeeps(c, w, offer);
    case Delay(sorted) => DelayKeeps(c, w, sorted);
    case ExecDone(failed) => ExecDoneKeeps(c, w, failed);
    case Close =>
  }

  ghost predicate Follows(c: Config, w: Worker, e: Event, w': Worker) {
    Legal(c, w, e) && w' == Take(c, w, e)
  }

  ghost predicate Run(c: Config, ws: seq<Worker>, es: seq<Event>) {
    && |ws| == |es| + 1
    && ws[0] == Initial()
    && forall i | 0 <= i < |es| :: Follows(c, ws[i], es[i], ws[i + 1])
  }

  lemma {:induction false} RunKeeps(c: Config, ws: seq<Worker>, es: seq<Event>, i: nat)
    requires Run(c, ws, es) && i < |ws|
    ensures Ok(c, ws[i])
  {
    if i > 0 {
      RunKeeps(c, ws, es, i - 1);
      assert Follows(c, ws[i - 1], es[i - 1], ws[i]);
      StepKeeps(c, ws[i - 1], es[i - 1]);
    }
  }

  /** At most one execution is under way, and at most one result is ever reported, never while an
      execution is under way. */
  lemma AtMostOneExecution(c: Config, ws: seq<Worker>, es: seq<Event>, i: nat)
    requires Run(c, ws, es) && i < |ws|
    ensures |ws[i].running| <= 1 && |ws[i].finished| <= 1
    ensures ws[i].running == [] || ws[i].finished == []
  {
    RunKeeps(c, ws, es, i);
  }

  /** Every offer taken in is in exactly one place: queued, being executed, or executed. */
  lemma OffersConserved(c: Config, ws: seq<Worker>, es: seq<Event>, i: nat)
    requires Run(c, ws, es) && i < |ws|
    ensures multiset(ws[i].accepted) == multiset(ws[i].q) + multiset(ws[i].running) + multiset(ws[i].executed)
  {
    RunKeeps(c, ws, es, i);
  }

  /** No offer above the ceiling that was pushed to the back is ever executed. */
  lemma CeilingRespected(c: Config, ws: seq<Worker>, es: seq<Event>, i: nat, item: Item)
    requires Run(c, ws, es) && i < |ws|
    requires item in ws[i].running || item in ws[i].executed
    ensures item.front || c.Allows(item.offer)
  {
    RunKeeps(c, ws, es, i);
  }

  /** From a sorted start on, as long as nothing comes in, all offers that were ever tried were tried in
      order of price, and none is dearer than any that is queued. */
  lemma CheapestFirst(c: Config, ws: seq<Worker>, es: seq<Event>, i: nat)
    requires Run(c, ws, es) && i < |ws| && ws[i].trail.Some?
    ensures Ascending(ws[i].executed + ws[i].running)
    ensures forall x, y | x in ws[i].executed + ws[i].running && y in ws[i].q ::
              x.offer.minPricePerByte <= y.offer.minPricePerByte
  {
    RunKeeps(c, ws, es, i);
    var tried, q := ws[i].executed + ws[i].running, ws[i].q;
    var all := tried + q;
    assert forall k | 0 <= k < |tried| :: all[k] == tried[k];
    forall x, y | x in tried && y in q ensures x.offer.minPricePerByte <= y.offer.minPricePerByte {
      var a :| 0 <= a < |tried| && tried[a] == x;
      var b :| 0 <= b < |q| && q[b] == y;
      assert all[a] == x && all[|tried| + b] == y;
    }
  }

  /** The trail is there from a sorted start until the next offer is taken in, and never before. */
  lemma TrailIff(c: Config, ws: seq<Worker>, es: seq<Event>, i: nat)
    requires Run(c, ws, es) && i < |es|
    ensures ws[i + 1].trail.Some? <==>
              || (ws[i].trail.Some? && ws[i + 1].accepted == ws[i].accepted)
              || (!ws[i].started && ws[i + 1].started && SortsOn(es[i], ws[i], c))
  {
    RunKeeps(c, ws, es, i);
    assert Follows(c, ws[i], es[i], ws[i + 1]);
  }

  /** An event on which an idle worker sorts its queue. */
  predicate SortsOn(e: Event, w: Worker, c: Config) {
    e.Delay? || (e.PushBack? && c.Allows(e.offer) && !c.Eager() && |w.q| + 1 == c.numThreshold)
  }

  /** Over every event sequence, a delay that fires finds nothing to execute, and panics, if and only if
      no offer was ever taken in. */
  lemma DelayPanicsIff(c: Config, ws: seq<Worker>, es: seq<Event>, i: nat)
    requires Run(c, ws, es) && i < |ws|
    ensures DelayPanics(ws[i]) <==> ws[i].accepted == []
  {
    RunKeeps(c, ws, es, i);
    var w := ws[i];
    assert w.accepted == [] <==> multiset(w.accepted) == multiset{};
    assert w.q == [] <==> multiset(w.q) == multiset{};
    assert w.running != [] ==> w.running[0] in multiset(w.running);
    assert w.executed != [] ==> w.executed[0] in multiset(w.executed);
    assert w.accepted != [] ==> w.accepted[0] in multiset(w.accepted);
    assert w.q != [] ==> w.q[0] in multiset(w.q);
  }

  /** A result is reported exactly when an execution ends well or nothing is left to try; a failure
      with offers left starts the next one instead. */
  lemma FinishRule(c: Config, ws: seq<Worker>, es: seq<Event>, i: nat)
    requires Run(c, ws, es) && i < |es|
    ensures ws[i + 1].finished != ws[i].finished <==>
              es[i].ExecDone? && (!es[i].failed || ws[i].q == [])
    ensures es[i].ExecDone? && es[i].failed && ws[i].q != [] ==>
              ws[i + 1].running == [ws[i].q[0]] && ws[i + 1].q == ws[i].q[1..]
    ensures es[i] == Close ==> ws[i + 1].closed == Some(ws[i].q)
  {
    RunKeeps(c, ws, es, i);
    assert Follows(c, ws[i], es[i], ws[i + 1]);
  }

  lemma FinishedFollows(c: Config, w: Worker, e: Event, w': Worker)
    requires OneAtATime(w) && Follows(c, w, e, w') && w.finished != []
    ensures w'.finished == w.finished && w'.running == [] && w'.executed == w.executed
    ensures w'.accepted != w.accepted ==> |w'.q| == |w.q| + 1
    ensures multiset(w.q) <= multiset(w'.q)
  {
    if e.PushFront? {
      assert w'.q == [w'.q[0]] + w.q;
    }
  }

  /** Once a result is reported the session is over: no offer is executed any more, and offers that
      still come in pile up in the queue. */
  lemma {:induction false} NothingAfterResult(c: Config, ws: seq<Worker>, es: seq<Event>, i: nat, j: nat)
    requires Run(c, ws, es) && i <= j < |ws| && ws[i].finished != []
    ensures ws[j].finished == ws[i].finished && ws[j].running == [] && ws[j].executed == ws[i].executed
    ensures multiset(ws[i].q) <= multiset(ws[j].q)
  {
    RunKeeps(c, ws, es, j);
    if i < j {
      NothingAfterResult(c, ws, es, i, j - 1);
      RunKeeps(c, ws, es, j - 1);
      FinishedFollows(c, ws[j - 1], es[j - 1], ws[j]);
    }
  }
}
