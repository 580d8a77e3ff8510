/** The server-sent event stream: connect, replay what was missed, then follow the queue.
    Models backend/app/modules/households/sse.py and the subscribe-then-stream order of
    backend/app/modules/households/router.py. */
module Sse {
  import opened Units
  import opened EventBus

  /** What the generator yields; an event's id line and data line are one chunk. */
  datatype Chunk = Connected | Data(event: Event) | KeepAlive

  /** Where the generator is suspended. */
  datatype Phase = New | Opened | Replaying(pending: seq<Event>) | Live

  /** The replay still to be sent when the generator resumes; the history is read on the first resumption. */
  function Pending(phase: Phase, last: Option<EventId>, history: seq<Event>): seq<Event> {
    match phase
    case New => []
    case Opened => if last.Some? then EventsAfter(history, last.value) else []
    case Replaying(pending) => pending
    case Live => []
  }

  /** One resumption of the generator: the chunk, the new phase, and what is left in the queue. */
  function Resume(phase: Phase, last: Option<EventId>, history: seq<Event>, queue: seq<Event>)
    : (Chunk, Phase, seq<Event>)
  {
    var pending := Pending(phase, last, history);
    if phase == New then (Connected, Opened, queue)
    else if pending != [] then (Data(pending[0]), Replaying(pending[1..]), queue)
    else if queue == [] then (KeepAlive, Live, queue)
    else (Data(queue[0]), Live, queue[1..])
  }

  class EventStream {
    const bus: InMemoryBus
    const household: HouseholdId
    const queue: Queue
    const last: Option<EventId>
    var phase: Phase

    constructor (bus: InMemoryBus, household: HouseholdId, queue: Queue, last: Option<EventId>)
      ensures phase == New && this.bus == bus && this.household == household && this.queue == queue && this.last == last
    {
      this.bus, this.household, this.queue, this.last := bus, household, queue, last;
      phase := New;
    }

    /** Resumes the generator. With an empty queue the wait times out and a keep-alive is sent. */
    method Next() returns (chunk: Chunk)
      modifies this`phase, queue
      ensures (chunk, phase, queue.items) ==
              Resume(old(phase), last, Recall(old(bus.history), household), old(queue.items))
      ensures old(phase) == New ==> chunk == Connected && phase == Opened && queue.items == old(queue.items)
      ensures old(phase) != New ==>
                var pending :=
                  if old(phase).Replaying? then old(phase).pending
                  else if old(phase) == Opened && last.Some?
                  then EventsAfter(if household in bus.history then bus.history[household] else [], last.value)
                  else [];
                if pending != []
                then chunk == Data(pending[0]) && phase == Replaying(pending[1..]) && queue.items == old(queue.items)
                else if old(queue.items) != []
                then chunk == Data(old(queue.items)[0]) && phase == Live && queue.items == old(queue.items)[1..]
                else chunk == KeepAlive && phase == Live && queue.items == []
    {
      if phase == New {
        phase := Opened;
        return Connected;
      }
      if phase == Opened {
        var replay: seq<Event> := [];
        if last.Some? {
          replay := bus.GetEventsAfter(household, last.value);
        }
        phase := Replaying(replay);
      }
      if phase.Replaying? && phase.pending != [] {
        chunk := Data(phase.pending[0]);
        phase := Replaying(phase.pending[1..]);
        return;
      }
      phase := Live;
      if queue.items == [] {
        return KeepAlive;
      }
      var event := queue.Get();
      chunk := Data(event);
    }
  }

  // ----- One connection among publications -----

  /** A connection made when `start` events of the household had been published. `read` is how many had
      been published when the history was read, `dropped` the positions of the events that the full queue
      gave up; `replayed` and `live` are the events sent in either phase. */
  datatype Connection = Connection(published: seq<Event>, start: nat, last: Option<EventId>,
                                   phase: Phase, queue: seq<Event>, read: nat, dropped: set<int>,
                                   replayed: seq<Event>, live: seq<Event>)
  {
    function History(): seq<Event> {
      LastN(published, HISTORY_LIMIT)
    }

    /** The position of the next event in the queue. */
    function Next(): int {
      |published| - |queue|
    }

    function Sent(): seq<Event> {
      replayed + live
    }
  }

  datatype Happening = Arrive(e: Event) | Pull

  function Open(published: seq<Event>, last: Option<EventId>): Connection {
    Connection(published, |published|, last, New, [], 0, {}, [], [])
  }

  /** Arriving at a full queue drops the oldest event in it. */
  function After(c: Connection, x: Happening): Connection {
    match x
    case Arrive(e) =>
      c.(published := c.published + [e], queue := Enqueue(c.queue, e),
         dropped := if |c.queue| >= QUEUE_MAXSIZE then c.dropped + {c.Next()} else c.dropped)
    case Pull =>
      var (chunk, phase, queue) := Resume(c.phase, c.last, c.History(), c.queue);
      var d := c.(phase := phase, queue := queue, read := if c.phase.Opened? then |c.published| else c.read);
      if !chunk.Data? then d
      else if phase.Replaying? then d.(replayed := d.replayed + [chunk.event])
      else d.(live := d.live + [chunk.event])
  }

  function Run(c: Connection, xs: seq<Happening>): Connection {
    if xs == [] then c else After(Run(c, xs[..|xs| - 1]), xs[|xs| - 1])
  }

  /** What the replay reads. */
  function Replay(c: Connection): seq<Event>
    requires c.read <= |c.published|
  {
    if c.last.Some? then EventsAfter(LastN(c.published[..c.read], HISTORY_LIMIT), c.last.value) else []
  }

  /** The events at positions low up to, not including, high, but for the dropped ones: in order, once each. */
  function Kept(events: seq<Event>, low: nat, high: int, dropped: set<int>): seq<Event>
    requires high <= |events|
    decreases high
  {
    if high <= low then []
    else Kept(events, low, high - 1, dropped) + (if high - 1 in dropped then [] else [events[high - 1]])
  }

  lemma {:induction false} KeptFrame(events: seq<Event>, more: seq<Event>, low: nat, high: int, a: set<int>,
      b: set<int>)
    requires high <= |events| && forall k :: low <= k < high ==> (k in a <==> k in b)
    ensures Kept(events + more, low, high, b) == Kept(events, low, high, a)
    decreases high
  {
    if low < high {
      KeptFrame(events, more, low, high - 1, a, b);
    }
  }

  /** The queue holds the newest events since the subscription; those before it were sent live, in order, or
      dropped. */
  ghost predicate QueueOk(c: Connection) {
    && c.start <= c.Next() && |c.queue| <= QUEUE_MAXSIZE && c.queue == c.published[c.Next()..]
    && (forall k :: k in c.dropped ==> c.start <= k < c.Next())
    && c.live == Kept(c.published, c.start, c.Next(), c.dropped)
  }

  /** The replay phase sends the replay in order, before anything is sent live. */
  ghost predicate PhaseOk(c: Connection) {
    && c.read <= |c.published|
    && match c.phase
       case New => c.replayed == [] && c.live == []
       case Opened => c.replayed == [] && c.live == []
       case Replaying(pending) => c.start <= c.read && c.live == [] && c.replayed + pending == Replay(c)
       case Live => c.start <= c.read && c.replayed == Replay(c)
  }

  ghost predicate Inv(c: Connection) {
    QueueOk(c) && PhaseOk(c)
  }

  lemma PublishKeepsInv(c: Connection, e: Event)
    requires Inv(c)
    ensures Inv(After(c, Arrive(e)))
  {
    var d := After(c, Arrive(e));
    EnqueueExtends(c.published, c.queue, e);
    KeptFrame(c.published, [e], c.start, c.Next(), c.dropped, d.dropped);
    assert d.published[..c.read] == c.published[..c.read];
    if |c.queue| >= QUEUE_MAXSIZE {
      assert d.Next() == c.Next() + 1;
      assert Kept(d.published, d.start, d.Next(), d.dropped) == Kept(d.published, d.start, c.Next(), d.dropped) + [];
    }
  }

  /** Sending the head of the queue moves it to what has been sent live. */
  lemma SendLive(c: Connection)
    requires QueueOk(c) && c.queue != []
    ensures QueueOk(c.(queue := c.queue[1..], live := c.live + [c.queue[0]]))
  {
    var d := c.(queue := c.queue[1..], live := c.live + [c.queue[0]]);
    assert d.Next() == c.Next() + 1 && c.queue[0] == c.published[c.Next()] && c.Next() !in c.dropped;
    assert c.queue[1..] == c.published[c.Next() + 1..];
  }

  /** Pulling while some replay is pending sends its head. */
  lemma PullReplays(c: Connection, pending: seq<Event>)
    requires Inv(c) && pending == Pending(c.phase, c.last, c.History()) && pending != []
    ensures Inv(After(c, Pull))
  {
    var d := After(c, Pull);
    assert d.phase == Replaying(pending[1..]) && d.replayed == c.replayed + [pending[0]];
    assert (c.replayed + [pending[0]]) + pending[1..] == c.replayed + pending;
    if c.phase.Opened? {
      assert c.published[..|c.published|] == c.published;
      assert [] + pending == pending;
    }
  }

  /** With nothing to replay and nothing queued, a keep-alive is sent. */
  lemma PullWaits(c: Connection)
    requires Inv(c) && c.phase != New && Pending(c.phase, c.last, c.History()) == [] && c.queue == []
    ensures Inv(After(c, Pull))
  {
    var read := if c.phase.Opened? then |c.published| else c.read;
    var d := After(c, Pull);
    assert d == c.(phase := Live, read := read);
    assert c.phase.Opened? ==> c.published[..|c.published|] == c.published;
    assert c.replayed + [] == c.replayed;
    assert QueueOk(d) && d.replayed == Replay(d);
  }

  /** With nothing to replay, the head of the queue is sent live. */
  lemma PullFollows(c: Connection)
    requires Inv(c) && c.phase != New && Pending(c.phase, c.last, c.History()) == [] && c.queue != []
    ensures Inv(After(c, Pull))
  {
    var read := if c.phase.Opened? then |c.published| else c.read;
    var d := After(c, Pull);
    assert d == c.(phase := Live, read := read, queue := c.queue[1..], live := c.live + [c.queue[0]]);
    SendLive(c);
    assert c.phase.Opened? ==> c.published[..|c.published|] == c.published;
    assert c.replayed + [] == c.replayed;
    assert d.replayed == Replay(d);
  }

  lemma PullKeepsInv(c: Connection)
    requires Inv(c)
    ensures Inv(After(c, Pull))
  {
    var pending := Pending(c.phase, c.last, c.History());
    if pending != [] {
      PullReplays(c, pending);
    } else if c.phase != New && c.queue == [] {
      PullWaits(c);
    } else if c.phase != New {
      PullFollows(c);
    }
  }

  lemma {:induction false} RunKeepsInv(published: seq<Event>, last: Option<EventId>, xs: seq<Happening>)
    ensures Inv(Run(Open(published, last), xs))
  {
    if xs != [] {
      RunKeepsInv(published, last, xs[..|xs| - 1]);
      match xs[|xs| - 1]
      case Arrive(e) => PublishKeepsInv(Run(Open(published, last), xs[..|xs| - 1]), e);
      case Pull => PullKeepsInv(Run(Open(published, last), xs[..|xs| - 1]));
    }
  }

  // ----- What a reconnecting client gets -----

  ghost predicate DistinctIds(events: seq<Event>) {
    forall j, k :: 0 <= j < k < |events| ==> events[j].id != events[k].id
  }

  lemma {:induction false} SearchFinds(events: seq<Event>, at: nat)
    requires at < |events| && DistinctIds(events)
    ensures EventsAfter(events, events[at].id) == events[at + 1..]
  {
    if at > 0 {
      assert events[1..][at - 1] == events[at];
      SearchFinds(events[1..], at - 1);
    }
  }

  lemma {:induction false} SearchMisses(events: seq<Event>, id: EventId)
    requires forall k :: 0 <= k < |events| ==> events[k].id != id
    ensures EventsAfter(events, id) == []
  {
    if events != [] {
      SearchMisses(events[1..], id);
    }
  }

  /** The event is still in the history when the history is read. */
  predicate Retained(c: Connection, m: nat) {
    c.read - m <= HISTORY_LIMIT
  }

  lemma ReplayIs(c: Connection, m: nat)
    requires c.read <= |c.published| && m < c.read && DistinctIds(c.published) && c.last == Some(c.published[m].id)
    ensures Replay(c) == if Retained(c, m) then c.published[m + 1..c.read] else []
  {
    var all := c.published[..c.read];
    var recent := LastN(all, HISTORY_LIMIT);
    var cut := |all| - |recent|;
    assert forall k :: 0 <= k < |recent| ==> recent[k] == c.published[cut + k];
    if Retained(c, m) {
      assert recent[m - cut] == c.published[m];
      SearchFinds(recent, m - cut);
      assert recent[m - cut + 1..] == c.published[m + 1..c.read];
    } else {
      SearchMisses(recent, c.published[m].id);
    }
  }

  /** The connection of a client that resumes after event m. */
  function Resumed(published: seq<Event>, m: nat, xs: seq<Happening>): Connection
    requires m < |published|
  {
    Run(Open(published, Some(published[m].id)), xs)
  }

  /** Once live, a stream that resumes after event m has sent the events from m up to the read of the history
      -- if m was still retained -- and then the events from the subscription on that the queue did not drop,
      each part in publish order. */
  lemma StreamSends(published: seq<Event>, m: nat, xs: seq<Happening>)
    requires m < |published|
    requires Resumed(published, m, xs).phase.Live? && DistinctIds(Resumed(published, m, xs).published)
    ensures var c := Resumed(published, m, xs);
            && m < c.start <= c.read <= |c.published| && c.start <= c.Next() <= |c.published|
            && c.replayed == (if Retained(c, m) then c.published[m + 1..c.read] else [])
            && c.live == Kept(c.published, c.start, c.Next(), c.dropped)
  {
    RunKeepsInv(published, Some(published[m].id), xs);
    RunKeepsStart(published, Some(published[m].id), xs);
    ReplayIs(Resumed(published, m, xs), m);
  }

  lemma {:induction false} RunKeepsStart(published: seq<Event>, last: Option<EventId>, xs: seq<Happening>)
    ensures var c := Run(Open(published, last), xs);
            c.start == |published| && c.last == last && published <= c.published
  {
    if xs != [] {
      RunKeepsStart(published, last, xs[..|xs| - 1]);
    }
  }

  /** How often an event comes. */
  function Times(events: seq<Event>, e: Event): nat {
    if events == [] then 0 else Times(events[..|events| - 1], e) + (if events[|events| - 1] == e then 1 else 0)
  }

  lemma {:induction false} TimesInSlice(events: seq<Event>, low: nat, high: nat, k: nat)
    requires low <= high <= |events| && k < |events| && DistinctIds(events)
    ensures Times(events[low..high], events[k]) == (if low <= k < high then 1 else 0)
    decreases high
  {
    if low < high {
      TimesInSlice(events, low, high - 1, k);
      assert events[low..high][..high - 1 - low] == events[low..high - 1];
    } else {
      assert events[low..high] == [];
    }
  }

  lemma {:induction false} TimesAdd(a: seq<Event>, b: seq<Event>, e: Event)
    ensures Times(a + b, e) == Times(a, e) + Times(b, e)
  {
    if b == [] {
      assert a + b == a;
    } else {
      TimesAdd(a, b[..|b| - 1], e);
      assert (a + b)[..|a + b| - 1] == a + b[..|b| - 1];
    }
  }

  lemma TimesKeptStep(events: seq<Event>, low: nat, high: int, dropped: set<int>, e: Event)
    requires low < high <= |events|
    ensures Times(Kept(events, low, high, dropped), e) ==
            Times(Kept(events, low, high - 1, dropped), e) +
              (if high - 1 !in dropped && events[high - 1] == e then 1 else 0)
  {
    var front, x := Kept(events, low, high - 1, dropped), events[high - 1];
    if high - 1 in dropped {
      assert front + [] == front;
    } else {
      assert (front + [x])[..|front|] == front;
    }
  }

  /** e stands at position k and nowhere else. */
  ghost predicate OnlyAt(events: seq<Event>, e: Event, k: nat) {
    forall j :: 0 <= j < |events| ==> (events[j] == e <==> j == k)
  }

  lemma {:induction false} TimesKept(events: seq<Event>, low: nat, high: int, dropped: set<int>, e: Event, k: nat)
    requires high <= |events| && OnlyAt(events, e, k)
    ensures low <= k < high && k !in dropped ==> Times(Kept(events, low, high, dropped), e) == 1
    ensures !(low <= k < high && k !in dropped) ==> Times(Kept(events, low, high, dropped), e) == 0
    decreases high
  {
    if low < high {
      TimesKept(events, low, high - 1, dropped, e, k);
      TimesKeptStep(events, low, high, dropped, e);
    } else {
      assert Kept(events, low, high, dropped) == [];
    }
  }

  /** An event after m that has left the queue is sent once by the replay if it was published before the history
      was read and m was retained, and once live if it was published since the subscription and not dropped.
      So it is missing exactly when neither holds, and comes twice exactly when both do. */
  lemma SentAsOftenAs(published: seq<Event>, m: nat, xs: seq<Happening>, k: nat)
    requires m < |published|
    requires var c := Resumed(published, m, xs); c.phase.Live? && DistinctIds(c.published) && m < k < c.Next()
    ensures var c := Resumed(published, m, xs);
            && k < |c.published|
            && Times(c.Sent(), c.published[k]) ==
               (if Retained(c, m) && k < c.read then 1 else 0) + (if c.start <= k && k !in c.dropped then 1 else 0)
  {
    StreamSends(published, m, xs);
    var c := Resumed(published, m, xs);
    assert OnlyAt(c.published, c.published[k], k);
    TimesKept(c.published, c.start, c.Next(), c.dropped, c.published[k], k);
    TimesInSlice(c.published, m + 1, c.read, k);
    TimesAdd(c.replayed, c.live, c.published[k]);
  }

  /** If m was retained and the queue never overflowed, reconnecting loses nothing, and only events published
      between the subscription and the read come twice. */
  lemma ReconnectLosesNothing(published: seq<Event>, m: nat, xs: seq<Happening>, k: nat)
    requires m < |published|
    requires var c := Resumed(published, m, xs);
             && c.phase.Live? && DistinctIds(c.published) && m < k < c.Next()
             && Retained(c, m) && c.dropped == {}
    ensures var c := Resumed(published, m, xs);
            k < |c.published| && Times(c.Sent(), c.published[k]) == (if c.start <= k < c.read then 2 else 1)
  {
    SentAsOftenAs(published, m, xs, k);
    StreamSends(published, m, xs);
  }

  predicate Delivered(c: Connection, m: nat, k: int) {
    (Retained(c, m) && k < c.read) || (c.start <= k && k !in c.dropped)
  }

  lemma AllDeliveredIff(c: Connection, m: nat)
    requires m < c.start <= c.read && c.start <= c.Next() && forall k :: k in c.dropped ==> c.start <= k < c.Next()
    ensures (forall k :: m < k < c.Next() ==> Delivered(c, m, k)) <==>
              && (Retained(c, m) || m + 1 == c.start)
              && (forall k :: k in c.dropped ==> Retained(c, m) && k < c.read)
  {
    if !Retained(c, m) && m + 1 < c.start {
      assert !Delivered(c, m, m + 1);
    }
    if k :| k in c.dropped && !(Retained(c, m) && k < c.read) {
      assert !Delivered(c, m, k);
    }
  }

  /** The whole of it, for every run: nothing after m is missing exactly when m was retained or was the newest
      event at the subscription, and everything the queue dropped was published before the history was read and
      came with the replay. */
  lemma NothingMissingIff(published: seq<Event>, m: nat, xs: seq<Happening>)
    requires m < |published|
    requires Resumed(published, m, xs).phase.Live? && DistinctIds(Resumed(published, m, xs).published)
    ensures var c := Resumed(published, m, xs);
            && c.Next() <= |c.published|
            && ((forall k :: m < k < c.Next() ==> Times(c.Sent(), c.published[k]) >= 1) <==>
                  && (Retained(c, m) || m + 1 == |published|)
                  && (forall k :: k in c.dropped ==> Retained(c, m) && k < c.read))
  {
    var c := Resumed(published, m, xs);
    RunKeepsInv(published, Some(published[m].id), xs);
    RunKeepsStart(published, Some(published[m].id), xs);
    StreamSends(published, m, xs);
    AllDeliveredIff(c, m);
    forall k: nat | m < k < c.Next() ensures Times(c.Sent(), c.published[k]) >= 1 <==> Delivered(c, m, k) {
      SentAsOftenAs(published, m, xs, k);
    }
  }

  // ----- The connection on the bus -----

  /** The connection's queue is the bus's queue q, listed under household h. */
  ghost predicate Watches<Q>(c: Connection, w: World<Q>, h: HouseholdId, q: Q) {
    && q in w.bus.queues && q in w.bus.Subscribers(h) && q in w.home && w.home[q] == h
    && c.queue == w.bus.queues[q] && c.published == w.All(h)
  }

  /** What can happen beside a stream: a call on the bus that leaves its queue to it, or its own resumption. */
  datatype Move<Q> = Beside(call: Call<Q>) | Resumption

  ghost predicate Leaves<Q>(call: Call<Q>, q: Q) {
    (call.Consume? ==> call.q != q) && (call.Unsubscribe? ==> call.q != q)
  }

  ghost predicate CanMove<Q>(w: World<Q>, q: Q, move: Move<Q>) {
    move.Beside? ==> w.Enabled(move.call) && Leaves(move.call, q)
  }

  /** The bus after a resumption that leads from c to d: an event is taken exactly if the queue changed. */
  ghost function AfterTaking<Q>(w: World<Q>, c: Connection, d: Connection, q: Q): World<Q> {
    if d.queue != c.queue && w.Enabled(Consume(q)) then w.Next(Consume(q)) else w
  }

  ghost function Moved<Q>(w: World<Q>, c: Connection, q: Q, move: Move<Q>): World<Q>
    requires CanMove(w, q, move)
  {
    match move
    case Beside(call) => w.Next(call)
    case Resumption => AfterTaking(w, c, After(c, Pull), q)
  }

  function Happened<Q>(c: Connection, h: HouseholdId, move: Move<Q>): Connection {
    match move
    case Beside(call) => if call.Publish? && call.h == h then After(c, Arrive(call.e)) else c
    case Resumption => After(c, Pull)
  }

  lemma SubscribeOpens<Q>(w: World<Q>, h: HouseholdId, q: Q, last: Option<EventId>)
    requires w.Inv() && w.Enabled(Subscribe(h, q))
    ensures Watches(Open(w.All(h), last), w.Next(Subscribe(h, q)), h, q)
  {
  }

  lemma PublishArrives<Q>(w: World<Q>, c: Connection, h: HouseholdId, q: Q, g: HouseholdId, e: Event)
    requires w.ListedOk(g) && Watches(c, w, h, q)
    ensures Watches(Happened(c, h, Move<Q>.Beside(Publish(g, e))), w.Next(Publish(g, e)), h, q)
  {
    PublishReaches(w, g, e, q);
    PublishRecords(w, g, e, h);
  }

  /** A resumption takes the head of the queue or leaves the queue alone, and publishes nothing. */
  lemma PullTakes(c: Connection)
    ensures var d := After(c, Pull);
            && d.published == c.published
            && (d.queue == c.queue || (c.queue != [] && d.queue == c.queue[1..]))
  {
  }

  lemma ConsumeTakes<Q>(w: World<Q>, h: HouseholdId, q: Q)
    requires w.Enabled(Consume(q)) && q in w.home && w.home[q] == h
    ensures var w' := w.Next(Consume(q));
            && q in w'.bus.queues && w'.bus.queues[q] == w.bus.queues[q][1..]
            && w'.home == w.home && w'.All(h) == w.All(h)
  {
  }

  lemma TakingKeepsWatching<Q>(w: World<Q>, c: Connection, d: Connection, h: HouseholdId, q: Q)
    requires Watches(c, w, h, q) && d.published == c.published
    requires c.queue != [] ==> w.Enabled(Consume(q))
    requires d.queue == c.queue || (c.queue != [] && d.queue == c.queue[1..])
    ensures Watches(d, AfterTaking(w, c, d, q), h, q)
  {
    if d.queue != c.queue {
      ConsumeTakes(w, h, q);
    }
  }

  lemma NonEmptyCanBeTaken<Q>(w: World<Q>, q: Q)
    requires q in w.bus.queues && w.QueueOk(q)
    ensures w.bus.queues[q] != [] ==> w.Enabled(Consume(q))
  {
  }

  /** The history that the stream reads is the one the bus keeps. */
  lemma SameHistory<Q>(w: World<Q>, c: Connection, h: HouseholdId)
    requires w.HistoryOk(h) && c.published == w.All(h)
    ensures c.History() == Recall(w.bus.history, h)
  {
  }

  lemma OthersLeaveQueue<Q>(w: World<Q>, c: Connection, h: HouseholdId, q: Q, call: Call<Q>)
    requires Watches(c, w, h, q) && w.Enabled(call) && Leaves(call, q) && !call.Publish?
    ensures Watches(c, w.Next(call), h, q)
  {
    match call
    case Subscribe(g, p) => assert p != q;
    case Consume(p) => assert p != q;
    case Unsubscribe(g, p) => assert p != q;
  }

  lemma TakingKeepsBus<Q>(w: World<Q>, c: Connection, d: Connection, q: Q)
    requires w.Inv()
    ensures AfterTaking(w, c, d, q).Inv()
  {
    if w.Enabled(Consume(q)) {
      StepKeepsInv(w, Consume(q));
    }
  }

  lemma MoveKeepsBus<Q>(w: World<Q>, c: Connection, q: Q, move: Move<Q>)
    requires w.Inv() && CanMove(w, q, move)
    ensures Moved(w, c, q, move).Inv()
  {
    match move
    case Resumption => TakingKeepsBus(w, c, After(c, Pull), q);
    case Beside(call) => StepKeepsInv(w, call);
  }

  lemma MoveKeepsWatching<Q>(w: World<Q>, c: Connection, h: HouseholdId, q: Q, move: Move<Q>)
    requires Watches(c, w, h, q) && CanMove(w, q, move)
    requires c.queue != [] ==> w.Enabled(Consume(q))
    requires move.Beside? && move.call.Publish? ==> w.ListedOk(move.call.h)
    ensures Watches(Happened(c, h, move), Moved(w, c, q, move), h, q)
  {
    match move
    case Resumption =>
      PullTakes(c);
      TakingKeepsWatching(w, c, After(c, Pull), h, q);
    case Beside(call) =>
      if call.Publish? {
        PublishArrives(w, c, h, q, call.h, call.e);
      } else {
        OthersLeaveQueue(w, c, h, q, call);
      }
  }

  /** The bus and the connection after a subscription and any moves. */
  ghost function Joint<Q>(w: World<Q>, h: HouseholdId, q: Q, last: Option<EventId>,
      moves: seq<Move<Q>>): Option<(World<Q>, Connection)>
    requires w.Enabled(Subscribe(h, q))
  {
    if moves == [] then Some((w.Next(Subscribe(h, q)), Open(w.All(h), last)))
    else
      var move := moves[|moves| - 1];
      match Joint(w, h, q, last, moves[..|moves| - 1])
      case None => None
      case Some((v, c)) => if CanMove(v, q, move) then Some((Moved(v, c, q, move), Happened(c, h, move))) else None
  }

  /** What the connection sees of the moves. */
  function Seen<Q>(moves: seq<Move<Q>>, h: HouseholdId): seq<Happening> {
    if moves == [] then []
    else
      Seen(moves[..|moves| - 1], h) +
      match moves[|moves| - 1]
      case Resumption => [Pull]
      case Beside(call) => if call.Publish? && call.h == h then [Arrive(call.e)] else []
  }

  lemma RunSnoc(c: Connection, xs: seq<Happening>, x: Happening)
    ensures Run(c, xs + [x]) == After(Run(c, xs), x)
  {
    assert (xs + [x])[..|xs|] == xs;
  }

  /** A stream on the bus, among any calls by others, is a connection run: what is proved of those holds of it. */
  lemma {:induction false} StreamIsConnection<Q>(w: World<Q>, h: HouseholdId, q: Q, last: Option<EventId>,
      moves: seq<Move<Q>>)
    requires w.Inv() && w.Enabled(Subscribe(h, q)) && Joint(w, h, q, last, moves).Some?
    ensures var (v, c) := Joint(w, h, q, last, moves).value;
            && v.Inv() && Watches(c, v, h, q) && c.History() == Recall(v.bus.history, h)
            && c == Run(Open(w.All(h), last), Seen(moves, h))
  {
    if moves == [] {
      SubscribeOpens(w, h, q, last);
      StepKeepsInv(w, Subscribe(h, q));
      SameHistory(w.Next(Subscribe(h, q)), Open(w.All(h), last), h);
    } else {
      var front, move := moves[..|moves| - 1], moves[|moves| - 1];
      StreamIsConnection(w, h, q, last, front);
      var (v, c) := Joint(w, h, q, last, front).value;
      NonEmptyCanBeTaken(v, q);
      assert move.Beside? && move.call.Publish? ==> v.ListedOk(move.call.h);
      MoveKeepsWatching(v, c, h, q, move);
      MoveKeepsBus(v, c, q, move);
      SameHistory(Moved(v, c, q, move), Happened(c, h, move), h);
      var x := match move case Resumption => Pull case Beside(call) => if call.Publish? then Arrive(call.e) else Pull;
      RunSnoc(Open(w.All(h), last), Seen(front, h), x);
      assert Seen(front, h) + [] == Seen(front, h);
    }
  }
}
