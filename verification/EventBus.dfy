/** The household event bus: bounded history, bounded drop-oldest queues, in memory and on Redis.
    Models backend/app/modules/households/event_bus.py. */
module EventBus {
  import opened Units

  type HouseholdId = nat
  type EventId = nat

  const QUEUE_MAXSIZE: nat := 100
  const HISTORY_LIMIT: nat := 500

  /** What a caller publishes, and the event once it has an id. */
  datatype Draft = Draft(id: Option<EventId>, payload: nat)
  datatype Event = Event(id: EventId, payload: nat)

  function WithEventId(d: Draft, drawn: EventId): Event {
    Event(if d.id.Some? then d.id.value else drawn, d.payload)
  }

  // ----- Pure parts -----

  function LastN<T>(s: seq<T>, n: nat): seq<T> {
    if |s| <= n then s else s[|s| - n..]
  }

  function Enqueue(items: seq<Event>, e: Event): seq<Event> {
    (if |items| >= QUEUE_MAXSIZE then items[1..] else items) + [e]
  }

  /** The events after the first one with the given id; none if there is no such event. */
  function EventsAfter(history: seq<Event>, last: EventId): seq<Event> {
    if history == [] then []
    else if history[0].id == last then history[1..]
    else EventsAfter(history[1..], last)
  }

  /** The first match decides: what follows it is replayed, and nothing without one. */
  lemma {:induction false} ReplayFollowsFirstMatch(history: seq<Event>, last: EventId) returns (k: nat)
    ensures (forall j :: 0 <= j < |history| ==> history[j].id != last) ==> EventsAfter(history, last) == []
    ensures (exists j :: 0 <= j < |history| && history[j].id == last) ==>
              && k < |history| && history[k].id == last && (forall j :: 0 <= j < k ==> history[j].id != last)
              && EventsAfter(history, last) == history[k + 1..]
  {
    k := 0;
    if history != [] && history[0].id != last {
      var j := ReplayFollowsFirstMatch(history[1..], last);
      k := j + 1;
      assert forall i :: 0 < i < |history| ==> history[i] == history[1..][i - 1];
    }
  }

  function Recall(history: map<HouseholdId, seq<Event>>, h: HouseholdId): seq<Event> {
    if h in history then history[h] else []
  }

  // ----- The bus as a value -----

  /** Q identifies queues. A queue is listed under the household it subscribed to. */
  datatype Bus<!Q> = Bus(history: map<HouseholdId, seq<Event>>, subscribers: map<HouseholdId, set<Q>>,
                         queues: map<Q, seq<Event>>)
  {
    ghost function Subscribers(h: HouseholdId): set<Q> {
      if h in subscribers then subscribers[h] else {}
    }

    ghost function Published(h: HouseholdId, e: Event): Bus<Q> {
      this.(history := history[h := LastN(Recall(history, h) + [e], HISTORY_LIMIT)],
            queues := map q | q in queues :: if q in Subscribers(h) then Enqueue(queues[q], e) else queues[q])
    }

    ghost function Subscribed(h: HouseholdId, q: Q): Bus<Q> {
      this.(subscribers := subscribers[h := Subscribers(h) + {q}], queues := queues[q := []])
    }

    ghost function Unsubscribed(h: HouseholdId, q: Q): Bus<Q> {
      var rest := Subscribers(h) - {q};
      this.(subscribers := if rest == {} then subscribers - {h} else subscribers[h := rest], queues := queues - {q})
    }

    ghost function Consumed(q: Q): Bus<Q>
      requires q in queues && queues[q] != []
    {
      this.(queues := queues[q := queues[q][1..]])
    }
  }

  // ----- Every sequence of calls -----

  /** The newest of the events since position `start`, at most QUEUE_MAXSIZE of them. */
  ghost predicate Recent(all: seq<Event>, start: nat, items: seq<Event>) {
    |items| <= QUEUE_MAXSIZE && start + |items| <= |all| && items == all[|all| - |items|..]
  }

  /** Increasing positions from `start` up to, not including, `end`. */
  ghost predicate InOrder(positions: seq<nat>, start: nat, end: int) {
    && (forall k :: 0 <= k < |positions| ==> start <= positions[k] < end)
    && (forall j, k :: 0 <= j < k < |positions| ==> positions[j] < positions[k])
  }

  datatype Call<Q> =
    | Publish(h: HouseholdId, e: Event)
    | Subscribe(h: HouseholdId, q: Q)
    | Consume(q: Q)
    | Unsubscribe(h: HouseholdId, q: Q)

  /** The bus together with a record of what happened: all events published per household, and for each
      queue its household, how much had been published when it subscribed, and the positions, in the
      household's published sequence, of the events taken from it. */
  datatype World<!Q> = World(bus: Bus<Q>, published: map<HouseholdId, seq<Event>>,
                             home: map<Q, HouseholdId>, start: map<Q, nat>, taken: map<Q, seq<nat>>)
  {
    ghost function All(h: HouseholdId): seq<Event> {
      Recall(published, h)
    }

    ghost predicate Enabled(c: Call<Q>) {
      match c
      case Publish(_, _) => true
      case Subscribe(_, q) => q !in home
      case Consume(q) => q in bus.queues && q in home && q in taken && bus.queues[q] != []
        && |bus.queues[q]| <= |All(home[q])|
      case Unsubscribe(h, q) => q in bus.Subscribers(h)
    }

    ghost function Next(c: Call<Q>): World<Q>
      requires Enabled(c)
    {
      match c
      case Publish(h, e) => this.(bus := bus.Published(h, e), published := published[h := All(h) + [e]])
      case Subscribe(h, q) => this.(bus := bus.Subscribed(h, q), home := home[q := h], start := start[q := |All(h)|],
        taken := taken[q := []])
      case Consume(q) => this.(bus := bus.Consumed(q),
        taken := taken[q := taken[q] + [|All(home[q])| - |bus.queues[q]|]])
      case Unsubscribe(h, q) => this.(bus := bus.Unsubscribed(h, q))
    }

    /** A queue holds a suffix of its household's events since subscription, at most QUEUE_MAXSIZE long; what
        was taken from it lies before that suffix, in order and without repetition. */
    ghost predicate QueueOk(q: Q) {
      && q in home && q in start && q in taken && q in bus.queues && q in bus.Subscribers(home[q])
      && Recent(All(home[q]), start[q], bus.queues[q])
      && InOrder(taken[q], start[q], |All(home[q])| - |bus.queues[q]|)
    }

    ghost predicate Inv() {
      && (forall h: HouseholdId :: HistoryOk(h))
      && (forall q :: q in bus.queues ==> QueueOk(q))
      && (forall h: HouseholdId :: ListedOk(h))
    }

    ghost predicate HistoryOk(h: HouseholdId) {
      Recall(bus.history, h) == LastN(All(h), HISTORY_LIMIT)
    }

    ghost predicate ListedOk(h: HouseholdId) {
      forall q :: q in bus.Subscribers(h) ==> q in bus.queues && q in home && home[q] == h
    }
  }

  ghost function Initial<Q>(): World<Q> {
    World(Bus(map[], map[], map[]), map[], map[], map[], map[])
  }

  ghost function Execute<Q>(calls: seq<Call<Q>>): Option<World<Q>> {
    if calls == [] then Some(Initial())
    else
      match Execute(calls[..|calls| - 1])
      case None => None
      case Some(w) => if w.Enabled(calls[|calls| - 1]) then Some(w.Next(calls[|calls| - 1])) else None
  }

  lemma LastNExtends<T>(s: seq<T>, x: T, n: nat)
    ensures LastN(LastN(s, n) + [x], n) == LastN(s + [x], n)
  {
  }

  lemma EnqueueExtends(all: seq<Event>, items: seq<Event>, e: Event)
    requires |items| <= |all| && items == all[|all| - |items|..] && |items| <= QUEUE_MAXSIZE
    ensures var items' := Enqueue(items, e); var all' := all + [e];
            |items'| <= QUEUE_MAXSIZE && |items'| <= |items| + 1 && |items'| <= |all'|
              && items' == all'[|all'| - |items'|..]
            && |all| - |items| <= |all'| - |items'|
  {
  }

  lemma EnqueueKeepsRecent(all: seq<Event>, start: nat, items: seq<Event>, e: Event)
    requires Recent(all, start, items)
    ensures Recent(all + [e], start, Enqueue(items, e)) && |all| - |items| <= |all + [e]| - |Enqueue(items, e)|
  {
    EnqueueExtends(all, items, e);
  }

  lemma PublishKeepsHistory<Q>(w: World<Q>, h: HouseholdId, e: Event, g: HouseholdId)
    requires w.HistoryOk(g)
    ensures w.Next(Publish(h, e)).HistoryOk(g)
  {
    if g == h {
      LastNExtends(w.All(h), e, HISTORY_LIMIT);
    }
  }

  /** What a publication does to one queue and to what has been published. */
  lemma PublishReaches<Q>(w: World<Q>, h: HouseholdId, e: Event, q: Q)
    requires q in w.bus.queues
    ensures var w' := w.Next(Publish(h, e));
            && q in w'.bus.queues
            && w'.bus.queues[q] == (if q in w.bus.Subscribers(h) then Enqueue(w.bus.queues[q], e) else w.bus.queues[q])
  {
  }

  lemma PublishRecords<Q>(w: World<Q>, h: HouseholdId, e: Event, g: HouseholdId)
    ensures var w' := w.Next(Publish(h, e));
            && w'.home == w.home && w'.start == w.start && w'.taken == w.taken
               && w'.bus.subscribers == w.bus.subscribers
            && w'.All(g) == (if g == h then w.All(h) + [e] else w.All(g))
  {
  }

  lemma PublishKeepsQueue<Q>(w: World<Q>, h: HouseholdId, e: Event, q: Q)
    requires q in w.bus.queues && w.QueueOk(q) && w.ListedOk(h)
    ensures w.Next(Publish(h, e)).QueueOk(q)
  {
    PublishReaches(w, h, e, q);
    PublishRecords(w, h, e, w.home[q]);
    if w.home[q] == h {
      EnqueueKeepsRecent(w.All(h), w.start[q], w.bus.queues[q], e);
    }
  }

  lemma ListsStayOk<Q>(w: World<Q>, c: Call<Q>, g: HouseholdId)
    requires w.Enabled(c) && w.ListedOk(g) && (c.Unsubscribe? ==> w.ListedOk(c.h))
    ensures w.Next(c).ListedOk(g)
  {
    if c.Publish? {
      PublishRecords(w, c.h, c.e, g);
      assert w.Next(c).bus.queues.Keys == w.bus.queues.Keys;
    }
  }

  lemma DropFirst(all: seq<Event>, start: nat, items: seq<Event>)
    requires Recent(all, start, items) && items != []
    ensures Recent(all, start, items[1..])
  {
  }

  lemma ConsumeKeepsQueue<Q>(w: World<Q>, p: Q, q: Q)
    requires w.Enabled(Consume(p)) && q in w.bus.queues && w.QueueOk(q)
    ensures w.Next(Consume(p)).QueueOk(q)
  {
    if q == p {
      var all, items := w.All(w.home[q]), w.bus.queues[q];
      DropFirst(all, w.start[q], items);
      var w' := w.Next(Consume(p));
      assert w'.All(w'.home[q]) == all && w'.bus.queues[q] == items[1..];
      assert w'.taken[q] == w.taken[q] + [|all| - |items|];
    }
  }

  lemma SubscribeKeepsQueue<Q>(w: World<Q>, h: HouseholdId, p: Q, q: Q)
    requires w.Enabled(Subscribe(h, p)) && (q != p ==> q in w.bus.queues && w.QueueOk(q))
    ensures w.Next(Subscribe(h, p)).QueueOk(q)
  {
  }

  lemma UnsubscribeKeepsQueue<Q>(w: World<Q>, h: HouseholdId, p: Q, q: Q)
    requires w.Enabled(Unsubscribe(h, p)) && q in w.bus.queues && w.QueueOk(q) && q != p
    ensures w.Next(Unsubscribe(h, p)).QueueOk(q)
  {
    var w' := w.Next(Unsubscribe(h, p));
    assert q in w'.bus.Subscribers(w.home[q]);
  }

  lemma OthersKeepQueue<Q>(w: World<Q>, c: Call<Q>, q: Q)
    requires w.Inv() && w.Enabled(c) && !c.Publish? && q in w.Next(c).bus.queues
    ensures w.Next(c).QueueOk(q)
  {
    match c
    case Consume(p) => ConsumeKeepsQueue(w, p, q);
    case Subscribe(h, p) => SubscribeKeepsQueue(w, h, p, q);
    case Unsubscribe(h, p) => UnsubscribeKeepsQueue(w, h, p, q);
  }

  lemma StepKeepsInv<Q>(w: World<Q>, c: Call<Q>)
    requires w.Inv() && w.Enabled(c)
    ensures w.Next(c).Inv()
  {
    var w' := w.Next(c);
    forall g: HouseholdId ensures w'.HistoryOk(g) {
      assert w.HistoryOk(g);
      if c.Publish? {
        PublishKeepsHistory(w, c.h, c.e, g);
      }
    }
    forall g: HouseholdId ensures w'.ListedOk(g) {
      assert w.ListedOk(g);
      assert c.Unsubscribe? ==> w.ListedOk(c.h);
      ListsStayOk(w, c, g);
    }
    forall q | q in w'.bus.queues ensures w'.QueueOk(q) {
      if c.Publish? {
        assert w.QueueOk(q) && w.ListedOk(c.h);
        PublishKeepsQueue(w, c.h, c.e, q);
      } else {
        OthersKeepQueue(w, c, q);
      }
    }
  }

  lemma {:induction false} RunKeepsInv<Q>(calls: seq<Call<Q>>)
    requires Execute(calls).Some?
    ensures Execute(calls).value.Inv()
  {
    if calls != [] {
      RunKeepsInv(calls[..|calls| - 1]);
      StepKeepsInv(Execute(calls[..|calls| - 1]).value, calls[|calls| - 1]);
    }
  }

  /** After any calls, a household's history is its last HISTORY_LIMIT published events. */
  lemma HistoryIsRecent<Q>(calls: seq<Call<Q>>, h: HouseholdId)
    requires Execute(calls).Some?
    ensures Execute(calls).value.HistoryOk(h)
    ensures var w := Execute(calls).value;
            Recall(w.bus.history, h) ==
              if |w.All(h)| <= 500 then w.All(h) else w.All(h)[|w.All(h)| - 500..]
  {
    RunKeepsInv(calls);
    assert Execute(calls).value.HistoryOk(h);
  }

  /** After any calls, a live queue holds the newest events of its household, at most QUEUE_MAXSIZE of those
      since it subscribed; what was taken from it came from that household, in publish order, never twice. */
  lemma QueueIsRecent<Q>(calls: seq<Call<Q>>, q: Q)
    requires Execute(calls).Some? && q in Execute(calls).value.bus.queues
    ensures var w := Execute(calls).value;
            && w.QueueOk(q) && |w.bus.queues[q]| <= 100
            && w.bus.queues[q] == w.All(w.home[q])[|w.All(w.home[q])| - |w.bus.queues[q]|..]
  {
    RunKeepsInv(calls);
    assert Execute(calls).value.QueueOk(q);
  }

  /** Whatever is waiting can be taken: after any calls, a queue can be read exactly when it is live and
      not empty. */
  lemma WaitingCanBeTaken<Q>(calls: seq<Call<Q>>, q: Q)
    requires Execute(calls).Some?
    ensures var w := Execute(calls).value; w.Enabled(Consume(q)) <==> q in w.bus.queues && w.bus.queues[q] != []
  {
    RunKeepsInv(calls);
    assert q in Execute(calls).value.bus.queues ==> Execute(calls).value.QueueOk(q);
  }

  /** What can be called, and what each call does to the bus: publishing is always possible, a new queue can be
      subscribed, and a listed one unsubscribed; all of what is published is recorded. */
  lemma CallsAreTheBus<Q>(w: World<Q>, h: HouseholdId, e: Event, q: Q)
    ensures w.Enabled(Publish(h, e)) && w.Next(Publish(h, e)).bus == w.bus.Published(h, e)
            && w.Next(Publish(h, e)).All(h) == w.All(h) + [e]
    ensures w.Enabled(Subscribe(h, q)) <==> q !in w.home
    ensures q !in w.home ==> w.Next(Subscribe(h, q)).bus == w.bus.Subscribed(h, q)
    ensures w.Enabled(Unsubscribe(h, q)) <==> q in w.bus.Subscribers(h)
    ensures q in w.bus.Subscribers(h) ==> w.Next(Unsubscribe(h, q)).bus == w.bus.Unsubscribed(h, q)
    ensures q in w.bus.Subscribers(h) ==>
              && w.bus.Unsubscribed(h, q).Subscribers(h) == w.bus.Subscribers(h) - {q}
              && (h in w.bus.Unsubscribed(h, q).subscribers <==> w.bus.Subscribers(h) != {q})
    ensures w.Enabled(Consume(q)) ==> w.Next(Consume(q)).bus == w.bus.Consumed(q)
  {
  }

  // ----- In memory -----

  class Queue {
    var items: seq<Event>

    constructor ()
      ensures items == []
    {
      items := [];
    }

    method Put(e: Event)
      modifies this
      ensures items == Enqueue(old(items), e)
      ensures items == (if |old(items)| >= 100 then old(items)[1..] else old(items)) + [e]
    {
      if |items| >= QUEUE_MAXSIZE {
        items := items[1..];
      }
      items := items + [e];
    }

    method Get() returns (e: Event)
      requires items != []
      modifies this
      ensures e == old(items)[0] && items == old(items)[1..]
    {
      e := items[0];
      items := items[1..];
    }
  }

  class InMemoryBus {
    var subscribers: map<HouseholdId, set<Queue>>
    var history: map<HouseholdId, seq<Event>>

    constructor ()
      ensures Valid() && AllQueues() == {} && State() == Bus(map[], map[], map[])
    {
      subscribers, history := map[], map[];
    }

    function Listening(h: HouseholdId): set<Queue>
      reads this
    {
      if h in subscribers then subscribers[h] else {}
    }

    ghost function AllQueues(): set<Queue>
      reads this
    {
      set h, q | h in subscribers && q in subscribers[h] :: q
    }

    /** A queue listens to one household. */
    ghost predicate Valid()
      reads this
    {
      Apart(subscribers)
    }

    static ghost predicate Apart(lists: map<HouseholdId, set<Queue>>) {
      forall g, h :: g in lists && h in lists && g != h ==> lists[g] !! lists[h]
    }

    ghost function State(): Bus<Queue>
      reads this, AllQueues()
    {
      Bus(history, subscribers, map q | q in AllQueues() :: q.items)
    }

    method Subscribe(h: HouseholdId) returns (queue: Queue)
      requires Valid()
      modifies this
      ensures Valid() && fresh(queue) && State() == old(State()).Subscribed(h, queue)
      ensures queue.items == [] && history == old(history)
      ensures subscribers == old(subscribers)[h := old(Listening(h)) + {queue}]
    {
      queue := new Queue();
      ghost var before := subscribers;
      subscribers := subscribers[h := Listening(h) + {queue}];
      JoinsOne(before, subscribers, h, queue);
      assert AllQueues() == old(AllQueues()) + {queue};
      ghost var want := old(State()).Subscribed(h, queue);
      assert State().queues.Keys == want.queues.Keys;
      forall q | q in AllQueues() ensures State().queues[q] == want.queues[q] {
        assert q != queue ==> q in old(AllQueues());
      }
    }

    /** Putting a new queue on its household's set puts it in the union. */
    static lemma JoinsOne(before: map<HouseholdId, set<Queue>>, after: map<HouseholdId, set<Queue>>, h: HouseholdId,
        queue: Queue)
      requires Apart(before) && forall g :: g in before ==> queue !in before[g]
      requires after == before[h := (if h in before then before[h] else {}) + {queue}]
      ensures Apart(after)
      ensures (set g, q | g in after && q in after[g] :: q) == (set g, q | g in before && q in before[g] :: q) + {queue}
    {
      var union, larger := (set g, q | g in before && q in before[g] :: q),
        (set g, q | g in after && q in after[g] :: q);
      forall q | q in union + {queue} ensures q in larger {
        if q == queue {
          assert h in after && q in after[h];
        } else {
          var g :| g in before && q in before[g];
          assert g in after && q in after[g];
        }
      }
      forall q | q in larger ensures q in union + {queue} {
        var g :| g in after && q in after[g];
        assert q != queue ==> g in before && q in before[g];
      }
    }

    method Unsubscribe(h: HouseholdId, queue: Queue)
      requires Valid() && queue in Listening(h)
      modifies this
      ensures Valid() && State() == old(State()).Unsubscribed(h, queue)
      ensures history == old(history) && AllQueues() == old(AllQueues()) - {queue}
    {
      var rest := Listening(h) - {queue};
      ghost var before := subscribers;
      if rest == {} {
        subscribers := subscribers - {h};
      } else {
        subscribers := subscribers[h := rest];
      }
      LeavesOne(before, subscribers, h, queue);
      ghost var queues, want := State().queues, old(State()).queues - {queue};
      assert queues.Keys == want.Keys;
      assert forall q :: q in queues ==> queues[q] == want[q];
      assert queues == want;
    }

    /** Taking one queue off its household's set takes it off the union. */
    static lemma LeavesOne(before: map<HouseholdId, set<Queue>>, after: map<HouseholdId, set<Queue>>, h: HouseholdId,
        queue: Queue)
      requires h in before && queue in before[h]
      requires Apart(before)
      requires after == if before[h] - {queue} == {} then before - {h} else before[h := before[h] - {queue}]
      ensures Apart(after)
      ensures (set g, q | g in after && q in after[g] :: q) == (set g, q | g in before && q in before[g] :: q) - {queue}
    {
      var union, smaller := (set g, q | g in before && q in before[g] :: q),
        (set g, q | g in after && q in after[g] :: q);
      forall q | q in union - {queue} ensures q in smaller {
        var g :| g in before && q in before[g];
        assert g in after && q in after[g];
      }
      forall q | q in smaller ensures q in union && q != queue {
        var g :| g in after && q in after[g];
        assert g in before && q in before[g];
      }
    }

    /** Appends to the history, trims it, and puts the event on each of the household's queues. */
    method Publish(h: HouseholdId, draft: Draft, drawn: EventId) returns (e: Event)
      requires Valid()
      modifies this`history, Listening(h)
      ensures Valid() && e == WithEventId(draft, drawn)
      ensures e == Event(if draft.id.Some? then draft.id.value else drawn, draft.payload)
      ensures subscribers == old(subscribers) && State() == old(State()).Published(h, e)
      ensures var past := (if h in old(history) then old(history)[h] else []) + [e];
              history == old(history)[h := if |past| <= 500 then past else past[|past| - 500..]]
      ensures forall q :: q in Listening(h) ==>
                q.items == (if |old(q.items)| >= 100 then old(q.items)[1..] else old(q.items)) + [e]
    {
      e := WithEventId(draft, drawn);
      var events := Recall(history, h) + [e];
      if |events| > HISTORY_LIMIT {
        events := events[|events| - HISTORY_LIMIT..];
      }
      history := history[h := events];
      var todo := Listening(h);
      while todo != {}
        invariant todo <= Listening(h) && subscribers == old(subscribers) && history == old(history)[h := events]
        invariant forall q :: q in Listening(h) ==>
                  q.items == if q in todo then old(q.items) else Enqueue(old(q.items), e)
        decreases |todo|
      {
        var q :| q in todo;
        todo := todo - {q};
        q.Put(e);
      }
      ghost var want := old(State()).Published(h, e);
      assert State().history == want.history && State().subscribers == want.subscribers;
      assert State().queues == want.queues;
    }

    method GetEventsAfter(h: HouseholdId, last: EventId) returns (events: seq<Event>)
      ensures events == EventsAfter(Recall(history, h), last)
    {
      var past := Recall(history, h);
      for k := 0 to |past|
        invariant EventsAfter(past, last) == EventsAfter(past[k..], last)
      {
        assert past[k..][1..] == past[k + 1..];
        if past[k].id == last {
          return past[k + 1..];
        }
      }
      events := [];
    }
  }

  // ----- On Redis -----

  /** Keeps the decodable entries of a list. */
  function Decoded(raw: seq<Option<Event>>): seq<Event> {
    if raw == [] then []
    else Decoded(raw[..|raw| - 1]) + (if raw[|raw| - 1].Some? then [raw[|raw| - 1].value] else [])
  }

  /** Entries are decoded in order, and one that does not decode is passed over. */
  lemma DecodesInOrder(raw: seq<Option<Event>>, e: Event)
    ensures Decoded([]) == [] && Decoded(raw + [Some(e)]) == Decoded(raw) + [e] && Decoded(raw + [None]) == Decoded(raw)
  {
    assert (raw + [Some(e)])[..|raw|] == raw && (raw + [None])[..|raw|] == raw;
  }

  function Encoded(events: seq<Event>): (r: seq<Option<Event>>)
    ensures |r| == |events| && forall k :: 0 <= k < |r| ==> r[k] == Some(events[k])
  {
    seq(|events|, k requires 0 <= k < |events| => Some(events[k]))
  }

  lemma {:induction false} DecodeEncoded(events: seq<Event>)
    ensures Decoded(Encoded(events)) == events
  {
    if events != [] {
      var front := events[..|events| - 1];
      DecodeEncoded(front);
      assert Encoded(events)[..|events| - 1] == Encoded(front);
    }
  }

  /** One pass over the entries: what has been collected and whether the id has been seen. */
  function Scan(events: seq<Event>, last: EventId): (bool, seq<Event>) {
    if events == [] then (false, [])
    else
      var (found, collected) := Scan(events[..|events| - 1], last);
      var e := events[|events| - 1];
      if found then (true, collected + [e]) else (e.id == last, [])
  }

  /** The one-pass scan and the indexed search agree, also when ids repeat. */
  lemma {:induction false} ScanIsSearch(events: seq<Event>, last: EventId)
    ensures Scan(events, last).1 == EventsAfter(events, last)
    ensures Scan(events, last).0 <==> exists k :: 0 <= k < |events| && events[k].id == last
  {
    if events != [] {
      var front, e := events[..|events| - 1], events[|events| - 1];
      ScanIsSearch(front, last);
      SearchExtends(front, e, last);
      assert events == front + [e];
    }
  }

  lemma {:induction false} SearchExtends(events: seq<Event>, e: Event, last: EventId)
    ensures EventsAfter(events + [e], last) ==
            if exists k :: 0 <= k < |events| && events[k].id == last then EventsAfter(events, last) + [e] else []
  {
    if events == [] {
      assert EventsAfter([e][1..], last) == [];
    } else {
      assert (events + [e])[1..] == events[1..] + [e];
      if events[0].id != last {
        SearchExtends(events[1..], e, last);
        assert (exists k :: 0 <= k < |events| && events[k].id == last) <==>
          (exists k :: 0 <= k < |events[1..]| && events[1..][k].id == last) by {
          if k :| 0 <= k < |events| && events[k].id == last { assert events[1..][k - 1].id == last; }
          if k :| 0 <= k < |events[1..]| && events[1..][k].id == last { assert events[k + 1].id == last; }
        }
      }
    }
  }

  class RedisBus {
    /** The history lists; None is an entry that does not decode to an object. */
    var lists: map<HouseholdId, seq<Option<Event>>>

    constructor ()
      ensures lists == map[]
    {
      lists := map[];
    }

    function Entries(h: HouseholdId): seq<Option<Event>>
      reads this
    {
      if h in lists then lists[h] else []
    }

    /** Push, then trim to the last HISTORY_LIMIT entries. */
    method Publish(h: HouseholdId, draft: Draft, drawn: EventId) returns (e: Event)
      modifies this
      ensures e == Event(if draft.id.Some? then draft.id.value else drawn, draft.payload)
      ensures var all := (if h in old(lists) then old(lists)[h] else []) + [Some(e)];
              lists == old(lists)[h := if |all| <= 500 then all else all[|all| - 500..]]
      ensures lists == old(lists)[h := LastN(old(Entries(h)) + [Some(e)], HISTORY_LIMIT)]
    {
      e := WithEventId(draft, drawn);
      var entries := Entries(h) + [Some(e)];
      lists := lists[h := entries];
      entries := if |entries| <= HISTORY_LIMIT then entries else entries[|entries| - HISTORY_LIMIT..];
      lists := lists[h := entries];
    }

    method GetEventsAfter(h: HouseholdId, last: EventId) returns (events: seq<Event>)
      ensures events == EventsAfter(Decoded(Entries(h)), last)
    {
      var raw := Entries(h);
      var parsed: seq<Event> := [];
      var found := false;
      for k := 0 to |raw|
        invariant (found, parsed) == Scan(Decoded(raw[..k]), last)
        invariant !found ==> parsed == []
      {
        assert raw[..k + 1][..k] == raw[..k];
        var entry := raw[k];
        if entry.None? {
          assert Decoded(raw[..k + 1]) == Decoded(raw[..k]);
          continue;
        }
        assert Decoded(raw[..k + 1]) == Decoded(raw[..k]) + [entry.value];
        assert (Decoded(raw[..k]) + [entry.value])[..|Decoded(raw[..k])|] == Decoded(raw[..k]);
        if found {
          parsed := parsed + [entry.value];
          continue;
        }
        if entry.value.id == last {
          found := true;
        }
      }
      assert raw[..|raw|] == raw;
      ScanIsSearch(Decoded(raw), last);
      events := if found then parsed else [];
    }
  }

  // ----- The two agree -----

  /** The in-memory history and the Redis list after the same publications to a household. */
  function MemoryAfter(events: seq<Event>): seq<Event> {
    if events == [] then [] else LastN(MemoryAfter(events[..|events| - 1]) + [events[|events| - 1]], HISTORY_LIMIT)
  }

  function RedisAfter(events: seq<Event>): seq<Option<Event>> {
    if events == [] then [] else LastN(RedisAfter(events[..|events| - 1]) + [Some(events[|events| - 1])], HISTORY_LIMIT)
  }

  lemma {:induction false} SameContents(events: seq<Event>)
    ensures MemoryAfter(events) == LastN(events, HISTORY_LIMIT)
    ensures RedisAfter(events) == Encoded(LastN(events, HISTORY_LIMIT))
  {
    if events != [] {
      var front, e := events[..|events| - 1], events[|events| - 1];
      SameContents(front);
      LastNExtends(front, e, HISTORY_LIMIT);
      assert events == front + [e];
      assert Encoded(LastN(front, HISTORY_LIMIT)) + [Some(e)] == Encoded(LastN(front, HISTORY_LIMIT) + [e]);
    }
  }

  /** Both buses answer a replay request alike after any publications: the events after the first match
      among the last HISTORY_LIMIT, or none if it was evicted. */
  lemma BusesAgree(events: seq<Event>, last: EventId)
    ensures EventsAfter(MemoryAfter(events), last) == EventsAfter(Decoded(RedisAfter(events)), last)
    ensures EventsAfter(MemoryAfter(events), last) == EventsAfter(LastN(events, HISTORY_LIMIT), last)
  {
    SameContents(events);
    DecodeEncoded(LastN(events, HISTORY_LIMIT));
  }
}
