/** The relay as a protocol: any number of workers, crashes at every point, messages that arrive late, never or
    twice. */
module Delivery {
  import opened Reals
  import opened Ordering
  import opened Outbox
  import opened Relay

  /** `OneByOne(next, wrote)`: rows before `next` have been tried, `wrote` of them landed. */
  datatype Phase =
    Idle | Polled | OneByOne(next: nat, wrote: nat) | Written | Quarantining | Quarantined | Acking | Done

  /** A worker's cycle: the events it polled and the rows it set aside. */
  datatype Worker = Worker(phase: Phase, batch: seq<Event>, poison: seq<Item>)

  /** A request to the queue's owner. */
  datatype Message = Message(items: seq<Item>, poison: bool)

  /** `emitted` is every event ever queued (event k + 1 at position k); `gone` every event that retention took out. */
  datatype State = State(
    queue: seq<Event>,
    gone: seq<Event>,
    emitted: seq<Event>,
    sink: seq<Row>,
    workers: seq<Worker>,
    mail: set<Message>)

  datatype Step =
    | Emit(kind: Kind, key: string, payload: Payload, at: int)
    | Prune(horizon: int, hardCap: nat)
    | Poll(w: nat, limit: int)
    | BatchCommits(w: nat)
    | BatchRefused(w: nat, landed: bool)
    | RowCommits(w: nat)
    | RowRefused(w: nat, landed: bool)
    | Isolated(w: nat)
    | SendQuarantine(w: nat)
    | NothingToQuarantine(w: nat)
    | QuarantineAnswered(w: nat, now: int)
    | SendAck(w: nat)
    | AckAnswered(w: nat, now: int)
    | Arrives(m: Message, now: int)
    | Crash(w: nat, landed: bool)

  // ---- what the messages carry ----

  function Ids(items: seq<Item>): set<nat> {
    set i | 0 <= i < |items| :: items[i].id
  }

  /** An empty key is not sent. */
  function Keys(items: seq<Item>): set<string> {
    set i | 0 <= i < |items| && items[i].key != "" :: items[i].key
  }

  predicate Poisoned(poison: seq<Item>, key: string) {
    exists i :: 0 <= i < |poison| && poison[i].key == key
  }

  /** The events of a batch whose key was not set aside. */
  function Good(batch: seq<Event>, poison: seq<Item>, n: nat): (r: seq<Item>)
    requires n <= |batch|
  {
    if n == 0 then []
    else if Poisoned(poison, batch[n - 1].key) then Good(batch, poison, n - 1)
    else Good(batch, poison, n - 1) + [ItemOf(batch[n - 1])]
  }

  function AckOf(w: Worker): Message {
    Message(Good(w.batch, w.poison, |w.batch|), false)
  }

  function QuarantineOf(w: Worker): Message {
    Message(w.poison, true)
  }

  function Handled(queue: seq<Event>, m: Message, now: int): seq<Event> {
    Marked(queue, Ids(m.items), Keys(m.items), now, m.poison)
  }

  // ---- steps ----

  function PendingFirst(queue: seq<Event>, n: nat, limit: nat): (r: seq<Event>)
    requires n <= |queue|
    ensures |r| <= limit
  {
    if n == 0 then []
    else
      var r := PendingFirst(queue, n - 1, limit);
      if queue[n - 1].Pending() && |r| < limit then r + [queue[n - 1]] else r
  }

  function PollLimit(limit: int): (n: nat)
    ensures 1 <= n <= 500 && (limit <= 500 ==> limit <= n) && (limit >= 1 ==> n <= limit)
  {
    if limit < 1 then 1 else if limit > 500 then 500 else limit
  }

  function DroppedBy(queue: seq<Event>, horizon: int, overflow: nat, n: nat): (r: seq<Event>)
    requires n <= |queue|
  {
    if n == 0 then []
    else if Drops(queue, horizon, overflow, n - 1) then DroppedBy(queue, horizon, overflow, n - 1) + [queue[n - 1]]
    else DroppedBy(queue, horizon, overflow, n - 1)
  }

  function RowsOf(st: State, w: nat): seq<Row>
    requires w < |st.workers|
  {
    SpecRows(st.workers[w].batch)
  }

  predicate At(st: State, w: nat, phase: Phase) {
    w < |st.workers| && st.workers[w].phase == phase
  }

  predicate AtRow(st: State, w: nat) {
    w < |st.workers| && st.workers[w].phase.OneByOne? && st.workers[w].phase.next < |RowsOf(st, w)|
  }

  predicate Enabled(st: State, step: Step) {
    match step
    case Emit(_, _, _, _) => true
    case Prune(_, _) => true
    case Poll(w, _) => At(st, w, Idle) || At(st, w, Done)
    case BatchCommits(w) => At(st, w, Polled)
    case BatchRefused(w, _) => At(st, w, Polled) && RowsOf(st, w) != []
    case RowCommits(w) => AtRow(st, w)
    case RowRefused(w, _) => AtRow(st, w)
    case Isolated(w) => w < |st.workers| && st.workers[w].phase.OneByOne? && st.workers[w].phase.next == |RowsOf(st, w)|
    case SendQuarantine(w) => At(st, w, Written) && st.workers[w].poison != []
    case NothingToQuarantine(w) => At(st, w, Written) && st.workers[w].poison == []
    case QuarantineAnswered(w, _) => At(st, w, Quarantining)
    case SendAck(w) => At(st, w, Quarantined)
    case AckAnswered(w, _) => At(st, w, Acking)
    case Arrives(m, _) => m in st.mail
    case Crash(w, _) => w < |st.workers|
  }

  function With(st: State, w: nat, worker: Worker): State
    requires w < |st.workers|
  {
    st.(workers := st.workers[w := worker])
  }

  function Land(st: State, rows: seq<Row>, landed: bool): State {
    if landed then st.(sink := InsertedAll(st.sink, rows, |rows|)) else st
  }

  function Emitted(st: State, kind: Kind, key: string, payload: Payload, at: int): State {
    if key in KeySet(st.queue) then st
    else
      var e := Event(|st.emitted| + 1, kind, key, payload, at, None, false);
      st.(queue := st.queue + [e], emitted := st.emitted + [e])
  }

  /** What may have reached the sink when a worker dies while writing. */
  function InFlight(st: State, w: nat): seq<Row>
    requires w < |st.workers|
  {
    if st.workers[w].phase == Polled then RowsOf(st, w)
    else if AtRow(st, w) then [RowsOf(st, w)[st.workers[w].phase.next]]
    else []
  }

  function Next(st: State, step: Step): State
    requires Enabled(st, step)
  {
    match step
    case Emit(kind, key, payload, at) => Emitted(st, kind, key, payload, at)
    case Prune(horizon, hardCap) =>
      st.(queue := Pruned(st.queue, horizon, hardCap),
          gone := st.gone + DroppedBy(st.queue, horizon, Overflow(st.queue, hardCap), |st.queue|))
    case Poll(w, limit) =>
      var batch := PendingFirst(st.queue, |st.queue|, PollLimit(limit));
      With(st, w, Worker(if batch == [] then Done else Polled, batch, []))
    case BatchCommits(w) =>
      var worker := st.workers[w];
      With(Land(st, RowsOf(st, w), true), w,
        worker.(phase := Written, poison := RefusedItems(worker.batch, |worker.batch|)))
    case BatchRefused(w, landed) =>
      With(Land(st, RowsOf(st, w), landed), w, st.workers[w].(phase := OneByOne(0, 0), poison := []))
    case RowCommits(w) =>
      var phase := st.workers[w].phase;
      With(Land(st, [RowsOf(st, w)[phase.next]], true), w,
        st.workers[w].(phase := OneByOne(phase.next + 1, phase.wrote + 1)))
    case RowRefused(w, landed) =>
      var worker := st.workers[w];
      var row := RowsOf(st, w)[worker.phase.next];
      With(Land(st, [row], landed), w,
           worker.(phase := OneByOne(worker.phase.next + 1, worker.phase.wrote), poison := worker.poison + [row.item]))
    case Isolated(w) =>
      var worker := st.workers[w];
      if worker.poison != [] && worker.phase.wrote == 0 then With(st, w, Worker(Idle, [], []))
      else With(st, w, worker.(phase := Written, poison := RefusedItems(worker.batch, |worker.batch|) + worker.poison))
    case SendQuarantine(w) =>
      With(st.(mail := st.mail + {QuarantineOf(st.workers[w])}), w, st.workers[w].(phase := Quarantining))
    case NothingToQuarantine(w) => With(st, w, st.workers[w].(phase := Quarantined))
    case QuarantineAnswered(w, now) =>
      With(st.(queue := Handled(st.queue, QuarantineOf(st.workers[w]), now)), w, st.workers[w].(phase := Quarantined))
    case SendAck(w) => With(st.(mail := st.mail + {AckOf(st.workers[w])}), w, st.workers[w].(phase := Acking))
    case AckAnswered(w, now) =>
      With(st.(queue := Handled(st.queue, AckOf(st.workers[w]), now)), w, st.workers[w].(phase := Done))
    case Arrives(m, now) => st.(queue := Handled(st.queue, m, now))
    case Crash(w, landed) => With(Land(st, InFlight(st, w), landed), w, Worker(Idle, [], []))
  }

  // ---- the invariant ----

  /** e is some event that was queued, apart from how far it has been processed. */
  ghost predicate From(emitted: seq<Event>, e: Event) {
    && 1 <= e.id <= |emitted|
    && emitted[e.id - 1].id == e.id && emitted[e.id - 1].key == e.key
    && emitted[e.id - 1].kind == e.kind && emitted[e.id - 1].payload == e.payload
    && emitted[e.id - 1].createdAt == e.createdAt
  }

  ghost predicate FromItem(emitted: seq<Event>, x: Item) {
    1 <= x.id <= |emitted| && emitted[x.id - 1].key == x.key
  }

  /** Some event with this key maps to no table. */
  ghost predicate Untabled(emitted: seq<Event>, key: string) {
    exists j :: 0 <= j < |emitted| && emitted[j].key == key && RouteOf(emitted[j]) == Nothing
  }

  /** The sink holds a row under the event's primary key. */
  ghost predicate InSink(sink: seq<Row>, e: Event) {
    RouteOf(e).Write? && HasPk(sink, PkOf(e, RouteOf(e).table))
  }

  /** Some event with this key is in the sink. */
  ghost predicate Landed(emitted: seq<Event>, sink: seq<Row>, key: string) {
    exists j :: 0 <= j < |emitted| && emitted[j].key == key && InSink(sink, emitted[j])
  }

  ghost predicate Settled(emitted: seq<Event>, sink: seq<Row>, key: string) {
    Landed(emitted, sink, key) || Untabled(emitted, key)
  }

  /** A processed event was written, quarantined, or is one no table takes. */
  ghost predicate EventOk(emitted: seq<Event>, sink: seq<Row>, e: Event) {
    From(emitted, e) && (!e.Pending() ==> e.quarantined || Settled(emitted, sink, e.key))
  }

  ghost predicate EventsOk(emitted: seq<Event>, sink: seq<Row>, events: seq<Event>) {
    forall i :: 0 <= i < |events| ==> EventOk(emitted, sink, events[i])
  }

  ghost predicate InList(events: seq<Event>, id: nat) {
    exists i :: 0 <= i < |events| && events[i].id == id
  }

  /** Every event is still queued, or left the queue after being processed. */
  ghost predicate NoneLost(st: State) {
    && (forall id: nat :: 1 <= id <= |st.emitted| ==> InList(st.queue, id) || InList(st.gone, id))
    && (forall i :: 0 <= i < |st.gone| ==> !st.gone[i].Pending())
  }

  ghost predicate SinkOk(st: State) {
    && OneRowPerPk(st.sink)
    && (forall j :: 0 <= j < |st.sink| ==> RowOk(st.emitted, st.sink[j]))
  }

  /** A row of the sink is the row of an event that was queued, in the table its route names. */
  ghost predicate RowOk(emitted: seq<Event>, r: Row) {
    && FromItem(emitted, r.item)
    && RouteOf(emitted[r.item.id - 1]) == Write(r.table) && r.pk == PkOf(emitted[r.item.id - 1], r.table)
  }

  ghost predicate NotPending(queue: seq<Event>, id: nat) {
    forall i :: 0 <= i < |queue| && queue[i].id == id ==> !queue[i].Pending()
  }

  ghost predicate BatchOk(emitted: seq<Event>, batch: seq<Event>) {
    && (forall i :: 0 <= i < |batch| ==> From(emitted, batch[i]))
    && (forall i, j :: 0 <= i < j < |batch| ==> batch[i].key != batch[j].key)
  }

  ghost predicate PoisonOk(batch: seq<Event>, poison: seq<Item>) {
    forall k :: 0 <= k < |poison| ==> Names(batch, poison[k])
  }

  ghost predicate Names(batch: seq<Event>, x: Item) {
    exists i :: 0 <= i < |batch| && ItemOf(batch[i]) == x
  }

  /** Row r was written or set aside. */
  ghost predicate Tried(sink: seq<Row>, poison: seq<Item>, r: Row) {
    HasPk(sink, r.pk) || r.item in poison
  }

  ghost predicate TriedTo(sink: seq<Row>, w: Worker, n: nat)
    requires n <= |SpecRows(w.batch)|
  {
    forall i :: 0 <= i < n ==> Tried(sink, w.poison, SpecRows(w.batch)[i])
  }

  /** The write is over: every row was written or set aside, and so was every refused event. */
  ghost predicate Covered(sink: seq<Row>, w: Worker) {
    && TriedTo(sink, w, |SpecRows(w.batch)|)
    && (forall x :: x in RefusedItems(w.batch, |w.batch|) ==> x in w.poison)
  }

  ghost predicate PoisonHandled(queue: seq<Event>, w: Worker) {
    forall k :: 0 <= k < |w.poison| ==> NotPending(queue, w.poison[k].id)
  }

  ghost predicate BatchHandled(queue: seq<Event>, w: Worker) {
    forall i :: 0 <= i < |w.batch| ==> NotPending(queue, w.batch[i].id)
  }

  ghost predicate WorkerOk(queue: seq<Event>, emitted: seq<Event>, sink: seq<Row>, w: Worker) {
    && BatchOk(emitted, w.batch) && PoisonOk(w.batch, w.poison)
    && match w.phase
       case Idle => true
       case Polled => w.poison == []
       case OneByOne(next, _) => next <= |SpecRows(w.batch)| && TriedTo(sink, w, next)
       case Written => Covered(sink, w)
       case Quarantining => Covered(sink, w)
       case Quarantined => Covered(sink, w) && PoisonHandled(queue, w)
       case Acking => Covered(sink, w) && PoisonHandled(queue, w)
       case Done => BatchHandled(queue, w)
  }

  /** Only events that were queued are mentioned, and only settled ones are acknowledged. */
  ghost predicate MessageOk(emitted: seq<Event>, sink: seq<Row>, m: Message) {
    forall k :: 0 <= k < |m.items| ==>
      FromItem(emitted, m.items[k]) && (m.poison || Settled(emitted, sink, m.items[k].key))
  }

  ghost predicate Inv(st: State) {
    && Sequenced(st.queue, |st.emitted|)
    && EventsOk(st.emitted, st.sink, st.queue) && EventsOk(st.emitted, st.sink, st.gone)
    && NoneLost(st) && SinkOk(st)
    && (forall w :: 0 <= w < |st.workers| ==> WorkerOk(st.queue, st.emitted, st.sink, st.workers[w]))
    && (forall m :: m in st.mail ==> MessageOk(st.emitted, st.sink, m))
  }

  // ---- what may change under a worker's feet ----

  /** The world moves on: events are only added, rows only land, and nothing becomes pending again. */
  ghost predicate Advances(a: State, b: State) {
    && a.emitted <= b.emitted && a.sink <= b.sink
    && (forall id :: 1 <= id <= |a.emitted| && NotPending(a.queue, id) ==> NotPending(b.queue, id))
  }

  lemma SettledStays(a: State, b: State, key: string)
    requires Advances(a, b) && Settled(a.emitted, a.sink, key)
    ensures Settled(b.emitted, b.sink, key)
  {
    PksStay(a.sink, b.sink);
    if Landed(a.emitted, a.sink, key) {
      var j :| 0 <= j < |a.emitted| && a.emitted[j].key == key && InSink(a.sink, a.emitted[j]);
      assert b.emitted[j].key == key && InSink(b.sink, b.emitted[j]);
    } else {
      var j :| 0 <= j < |a.emitted| && a.emitted[j].key == key && RouteOf(a.emitted[j]) == Nothing;
      assert b.emitted[j].key == key && RouteOf(b.emitted[j]) == Nothing;
    }
  }

  lemma EventsStay(a: State, b: State, events: seq<Event>)
    requires Advances(a, b) && EventsOk(a.emitted, a.sink, events)
    ensures EventsOk(b.emitted, b.sink, events)
  {
    forall i | 0 <= i < |events| ensures EventOk(b.emitted, b.sink, events[i]) {
      assert EventOk(a.emitted, a.sink, events[i]);
      if Settled(a.emitted, a.sink, events[i].key) {
        SettledStays(a, b, events[i].key);
      }
    }
  }

  lemma TriedStays(a: State, b: State, w: Worker, n: nat)
    requires Advances(a, b) && n <= |SpecRows(w.batch)| && TriedTo(a.sink, w, n)
    ensures TriedTo(b.sink, w, n)
  {
    PksStay(a.sink, b.sink);
    forall i | 0 <= i < n ensures Tried(b.sink, w.poison, SpecRows(w.batch)[i]) {
      assert Tried(a.sink, w.poison, SpecRows(w.batch)[i]);
    }
  }

  lemma WorkerStays(a: State, b: State, w: Worker)
    requires Advances(a, b) && WorkerOk(a.queue, a.emitted, a.sink, w)
    ensures WorkerOk(b.queue, b.emitted, b.sink, w)
  {
    assert BatchOk(b.emitted, w.batch) by {
      forall i | 0 <= i < |w.batch| ensures From(b.emitted, w.batch[i]) {
        assert From(a.emitted, w.batch[i]);
      }
    }
    if w.phase.OneByOne? {
      TriedStays(a, b, w, w.phase.next);
    } else if w.phase.Written? || w.phase.Quarantining? || w.phase.Quarantined? || w.phase.Acking? {
      TriedStays(a, b, w, |SpecRows(w.batch)|);
    }
    if w.phase.Quarantined? || w.phase.Acking? {
      PoisonStays(a, b, w);
    }
    if w.phase.Done? {
      forall i | 0 <= i < |w.batch| ensures NotPending(b.queue, w.batch[i].id) {
        assert From(a.emitted, w.batch[i]) && NotPending(a.queue, w.batch[i].id);
      }
    }
  }

  lemma PoisonStays(a: State, b: State, w: Worker)
    requires Advances(a, b) && BatchOk(a.emitted, w.batch) && PoisonOk(w.batch, w.poison) && PoisonHandled(a.queue, w)
    ensures PoisonHandled(b.queue, w)
  {
    forall k | 0 <= k < |w.poison| ensures NotPending(b.queue, w.poison[k].id) {
      assert Names(w.batch, w.poison[k]);
      var i :| 0 <= i < |w.batch| && ItemOf(w.batch[i]) == w.poison[k];
      assert From(a.emitted, w.batch[i]) && NotPending(a.queue, w.poison[k].id);
    }
  }

  lemma MessageStays(a: State, b: State, m: Message)
    requires Advances(a, b) && MessageOk(a.emitted, a.sink, m)
    ensures MessageOk(b.emitted, b.sink, m)
  {
    forall k | 0 <= k < |m.items|
      ensures FromItem(b.emitted, m.items[k]) && (m.poison || Settled(b.emitted, b.sink, m.items[k].key))
    {
      assert FromItem(a.emitted, m.items[k]);
      if !m.poison {
        SettledStays(a, b, m.items[k].key);
      }
    }
  }

  /** Everything but the queue and the changed worker follows from the world only moving on. */
  lemma InvStays(a: State, b: State)
    requires Inv(a) && Advances(a, b) && |a.workers| == |b.workers| && SinkOk(b) && NoneLost(b)
    requires Sequenced(b.queue, |b.emitted|) && EventsOk(b.emitted, b.sink, b.queue)
      && EventsOk(b.emitted, b.sink, b.gone)
    requires forall w :: 0 <= w < |a.workers| ==>
      b.workers[w] == a.workers[w] || WorkerOk(b.queue, b.emitted, b.sink, b.workers[w])
    requires forall m :: m in b.mail ==> m in a.mail || MessageOk(b.emitted, b.sink, m)
    ensures Inv(b)
  {
    forall w | 0 <= w < |b.workers| ensures WorkerOk(b.queue, b.emitted, b.sink, b.workers[w]) {
      if b.workers[w] == a.workers[w] {
        WorkerStays(a, b, a.workers[w]);
      }
    }
    forall m | m in b.mail ensures MessageOk(b.emitted, b.sink, m) {
      if m in a.mail {
        MessageStays(a, b, m);
      }
    }
  }

  // ---- the queue's own steps ----

  lemma EmitKeeps(st: State, kind: Kind, key: string, payload: Payload, at: int)
    requires Inv(st)
    ensures Inv(Emitted(st, kind, key, payload, at))
  {
    var r := Emitted(st, kind, key, payload, at);
    if r != st {
      var e := Event(|st.emitted| + 1, kind, key, payload, at, None, false);
      PushKeeps(st.queue, |st.emitted|, e);
      assert Advances(st, r) by {
        forall id | 1 <= id <= |st.emitted| && NotPending(st.queue, id) ensures NotPending(r.queue, id) {
          assert r.queue[|st.queue|].id != id;
        }
      }
      EventsStay(st, r, st.queue);
      EventsStay(st, r, st.gone);
      assert EventOk(r.emitted, r.sink, e);
      forall id: nat | 1 <= id <= |r.emitted| ensures InList(r.queue, id) || InList(r.gone, id) {
        if id <= |st.emitted| {
          InListStays(st.queue, r.queue, id);
        } else {
          assert r.queue[|st.queue|].id == id;
        }
      }
      SinkStays(st, r);
      InvStays(st, r);
    }
  }

  lemma InListStays(a: seq<Event>, b: seq<Event>, id: nat)
    requires a <= b
    ensures InList(a, id) ==> InList(b, id)
  {
    if InList(a, id) {
      var i :| 0 <= i < |a| && a[i].id == id;
      assert b[i].id == id;
    }
  }

  lemma SinkStays(a: State, b: State)
    requires SinkOk(a) && a.emitted <= b.emitted && a.sink == b.sink
    ensures SinkOk(b)
  {
    forall j | 0 <= j < |b.sink| ensures RowOk(b.emitted, b.sink[j]) {
      assert RowOk(a.emitted, a.sink[j]);
    }
  }

  lemma {:induction false} DroppedAre(queue: seq<Event>, horizon: int, overflow: nat, n: nat)
    requires n <= |queue|
    ensures var r := DroppedBy(queue, horizon, overflow, n);
            && (forall e :: e in r ==> e in queue && !e.Pending())
            && (forall i :: 0 <= i < n && Drops(queue, horizon, overflow, i) ==> InList(r, queue[i].id))
  {
    if n > 0 {
      DroppedAre(queue, horizon, overflow, n - 1);
      var m, r := DroppedBy(queue, horizon, overflow, n - 1), DroppedBy(queue, horizon, overflow, n);
      forall i | 0 <= i < n && Drops(queue, horizon, overflow, i) ensures InList(r, queue[i].id) {
        if i < n - 1 {
          InListStays(m, r, queue[i].id);
        } else {
          assert r[|m|].id == queue[i].id;
        }
      }
    }
  }

  lemma PruneKeeps(st: State, horizon: int, hardCap: nat)
    requires Inv(st)
    ensures Inv(Next(st, Prune(horizon, hardCap)))
  {
    var r := Next(st, Prune(horizon, hardCap));
    var overflow := Overflow(st.queue, hardCap);
    PrunedIs(st.queue, horizon, hardCap, |st.emitted|);
    DroppedAre(st.queue, horizon, overflow, |st.queue|);
    var dropped := DroppedBy(st.queue, horizon, overflow, |st.queue|);
    assert EventsOk(r.emitted, r.sink, r.queue) by {
      forall i | 0 <= i < |r.queue| ensures EventOk(r.emitted, r.sink, r.queue[i]) {
        assert r.queue[i] in st.queue;
      }
    }
    assert EventsOk(r.emitted, r.sink, r.gone) by {
      forall i | 0 <= i < |r.gone| ensures EventOk(r.emitted, r.sink, r.gone[i]) {
        if i >= |st.gone| {
          var j := i - |st.gone|;
          assert r.gone[i] == dropped[j];
          assert dropped[j] in st.queue;
        }
      }
    }
    assert Advances(st, r) by {
      forall id | 1 <= id <= |st.emitted| && NotPending(st.queue, id) ensures NotPending(r.queue, id) {
        forall i | 0 <= i < |r.queue| && r.queue[i].id == id ensures !r.queue[i].Pending() {
          assert r.queue[i] in st.queue;
        }
      }
    }
    PruneLosesNone(st, horizon, hardCap);
    InvStays(st, r);
  }

  lemma PruneLosesNone(st: State, horizon: int, hardCap: nat)
    requires Inv(st)
    ensures NoneLost(Next(st, Prune(horizon, hardCap)))
  {
    var r := Next(st, Prune(horizon, hardCap));
    var overflow := Overflow(st.queue, hardCap);
    PrunedIs(st.queue, horizon, hardCap, |st.emitted|);
    DroppedAre(st.queue, horizon, overflow, |st.queue|);
    var dropped := DroppedBy(st.queue, horizon, overflow, |st.queue|);
    forall id: nat | 1 <= id <= |r.emitted| ensures InList(r.queue, id) || InList(r.gone, id) {
      InListStays(st.gone, r.gone, id);
      if InList(st.queue, id) {
        var i :| 0 <= i < |st.queue| && st.queue[i].id == id;
        if Drops(st.queue, horizon, overflow, i) {
          var j :| 0 <= j < |dropped| && dropped[j].id == id;
          assert r.gone[|st.gone| + j].id == id;
        } else {
          assert st.queue[i] in r.queue;
        }
      }
    }
    forall i | 0 <= i < |r.gone| ensures !r.gone[i].Pending() {
      if i >= |st.gone| {
        var j := i - |st.gone|;
        assert r.gone[i] == dropped[j];
      }
    }
  }

  /** A handled message marks exactly events that may be marked, and afterwards none of its events is pending. */
  lemma HandledKeeps(st: State, m: Message, now: int)
    requires Inv(st) && MessageOk(st.emitted, st.sink, m)
    ensures var r := st.(queue := Handled(st.queue, m, now));
            && Inv(r) && Advances(st, r)
            && forall k :: 0 <= k < |m.items| ==> NotPending(r.queue, m.items[k].id)
  {
    var r := st.(queue := Handled(st.queue, m, now));
    HandledOk(st, m, now);
    forall id: nat | 1 <= id <= |r.emitted| ensures InList(r.queue, id) || InList(r.gone, id) {
      if InList(st.queue, id) {
        var i :| 0 <= i < |st.queue| && st.queue[i].id == id;
        assert r.queue[i].id == id;
      }
    }
    forall k | 0 <= k < |m.items| ensures NotPending(r.queue, m.items[k].id) {
      assert m.items[k].id in Ids(m.items);
    }
    forall id | 1 <= id <= |st.emitted| && NotPending(st.queue, id) ensures NotPending(r.queue, id) {
      forall i | 0 <= i < |r.queue| && r.queue[i].id == id ensures !r.queue[i].Pending() {
        assert st.queue[i].id == id;
      }
    }
    InvStays(st, r);
  }

  lemma HandledOk(st: State, m: Message, now: int)
    requires EventsOk(st.emitted, st.sink, st.queue) && MessageOk(st.emitted, st.sink, m)
    ensures EventsOk(st.emitted, st.sink, Handled(st.queue, m, now))
  {
    var queue := Handled(st.queue, m, now);
    forall i | 0 <= i < |queue| ensures EventOk(st.emitted, st.sink, queue[i]) {
      assert EventOk(st.emitted, st.sink, st.queue[i]);
      if Wanted(st.queue[i], Ids(m.items), Keys(m.items)) && !m.poison {
        WantedSettled(st, m, st.queue[i]);
      }
    }
  }

  lemma WantedSettled(st: State, m: Message, e: Event)
    requires MessageOk(st.emitted, st.sink, m) && !m.poison && From(st.emitted, e)
    requires e.id in Ids(m.items) || e.key in Keys(m.items)
    ensures Settled(st.emitted, st.sink, e.key)
  {
    if e.id in Ids(m.items) {
      var k :| 0 <= k < |m.items| && m.items[k].id == e.id;
      assert FromItem(st.emitted, m.items[k]);
    } else {
      var k :| 0 <= k < |m.items| && m.items[k].key != "" && m.items[k].key == e.key;
    }
  }

  // ---- a worker's steps ----

  lemma {:induction false} PollIs(queue: seq<Event>, n: nat, limit: nat)
    requires n <= |queue|
    ensures var r := PendingFirst(queue, n, limit);
            forall e :: e in r ==> e in queue[..n] && e.Pending()
  {
    if n > 0 {
      PollIs(queue, n - 1, limit);
      assert queue[..n] == queue[..n - 1] + [queue[n - 1]];
    }
  }

  ghost function Pendings(queue: seq<Event>): seq<bool> {
    seq(|queue|, i requires 0 <= i < |queue| => queue[i].processedAt.None?)
  }

  /** r is the unprocessed events of the first `upto` places, in queue order. */
  ghost predicate Oldest(queue: seq<Event>, upto: nat, r: seq<Event>, pos: seq<nat>) {
    && upto <= |queue| && |pos| == |r| && Picks(pos, Pendings(queue), upto)
    && forall k :: 0 <= k < |r| ==> r[k] == queue[pos[k]]
  }

  lemma OldestPush(queue: seq<Event>, n: nat, r: seq<Event>, pos: seq<nat>)
    requires n < |queue| && Oldest(queue, n, r, pos) && queue[n].Pending()
    ensures Oldest(queue, n + 1, r + [queue[n]], pos + [n])
  {
    PicksNext(pos, Pendings(queue), n);
  }

  lemma OldestNext(queue: seq<Event>, n: nat, r: seq<Event>, pos: seq<nat>) returns (more: seq<nat>)
    requires n < |queue| && Oldest(queue, n, r, pos)
    ensures Oldest(queue, n + 1, if queue[n].Pending() then r + [queue[n]] else r, more)
  {
    if queue[n].Pending() {
      OldestPush(queue, n, r, pos);
      more := pos + [n];
    } else {
      PicksNext(pos, Pendings(queue), n);
      more := pos;
    }
  }

  ghost predicate Polls(queue: seq<Event>, n: nat, limit: nat, r: seq<Event>, upto: nat) {
    && |r| <= limit && upto <= n && (|r| < limit ==> upto == n)
    && exists pos :: Oldest(queue, upto, r, pos)
  }

  lemma PollNext(queue: seq<Event>, n: nat, limit: nat, r: seq<Event>, upto: nat) returns (next: nat)
    requires n < |queue| && Polls(queue, n, limit, r, upto)
    ensures Polls(queue, n + 1, limit, if queue[n].Pending() && |r| < limit then r + [queue[n]] else r, next)
  {
    next := upto;
    if |r| < limit {
      var pos :| Oldest(queue, upto, r, pos);
      var more := OldestNext(queue, n, r, pos);
      next := n + 1;
    }
  }

  /** A poll hands out the oldest unprocessed events: all those up to some place of the queue, which is its end unless
      the limit was reached. */
  lemma {:induction false} PollsOldest(queue: seq<Event>, n: nat, limit: nat) returns (upto: nat)
    requires n <= |queue|
    ensures Polls(queue, n, limit, PendingFirst(queue, n, limit), upto)
  {
    if n == 0 {
      upto := 0;
      assert Oldest(queue, 0, [], []);
    } else {
      upto := PollsOldest(queue, n - 1, limit);
      upto := PollNext(queue, n - 1, limit, PendingFirst(queue, n - 1, limit), upto);
    }
  }

  lemma {:induction false} PollDistinct(queue: seq<Event>, n: nat, limit: nat, last: nat)
    requires n <= |queue| && Sequenced(queue, last)
    ensures var r := PendingFirst(queue, n, limit);
            forall i, j :: 0 <= i < j < |r| ==> r[i].key != r[j].key
  {
    if n > 0 {
      PollDistinct(queue, n - 1, limit, last);
      PollIs(queue, n - 1, limit);
      var r := PendingFirst(queue, n - 1, limit);
      forall i | 0 <= i < |r| ensures r[i].key != queue[n - 1].key {
        assert r[i] in queue[..n - 1];
        var k :| 0 <= k < n - 1 && queue[k] == r[i];
      }
    }
  }

  lemma PollKeeps(st: State, w: nat, limit: int)
    requires Inv(st) && Enabled(st, Poll(w, limit))
    ensures Inv(Next(st, Poll(w, limit)))
  {
    var r := Next(st, Poll(w, limit));
    var batch := PendingFirst(st.queue, |st.queue|, PollLimit(limit));
    PollIs(st.queue, |st.queue|, PollLimit(limit));
    PollDistinct(st.queue, |st.queue|, PollLimit(limit), |st.emitted|);
    forall i | 0 <= i < |batch| ensures From(st.emitted, batch[i]) {
      assert batch[i] in st.queue[..|st.queue|];
      var k :| 0 <= k < |st.queue| && st.queue[k] == batch[i];
      assert EventOk(st.emitted, st.sink, st.queue[k]);
    }
    InvStays(st, r);
  }

  /** Rows of a sound batch may land at any time. */
  lemma LandKeeps(st: State, rows: seq<Row>, landed: bool)
    requires Inv(st) && forall i :: 0 <= i < |rows| ==> RowOk(st.emitted, rows[i])
    ensures Inv(Land(st, rows, landed)) && Advances(st, Land(st, rows, landed))
    ensures landed ==> forall i :: 0 <= i < |rows| ==> HasPk(Land(st, rows, landed).sink, rows[i].pk)
  {
    if landed {
      var r := Land(st, rows, landed);
      InsertedAllIs(st.sink, rows, |rows|);
      forall j | 0 <= j < |r.sink| ensures RowOk(r.emitted, r.sink[j]) {
        if j < |st.sink| {
          assert r.sink[j] == st.sink[j];
        } else {
          assert r.sink[j] in rows;
        }
      }
      EventsStay(st, r, st.queue);
      EventsStay(st, r, st.gone);
      InvStays(st, r);
    }
  }

  lemma BatchRows(st: State, w: nat)
    requires Inv(st) && w < |st.workers|
    ensures forall i :: 0 <= i < |RowsOf(st, w)| ==>
              RowOk(st.emitted, RowsOf(st, w)[i])
              && Names(st.workers[w].batch, RowsOf(st, w)[i].item)
  {
    var batch := st.workers[w].batch;
    SplitIs(batch);
    forall i | 0 <= i < |RowsOf(st, w)|
      ensures RowOk(st.emitted, RowsOf(st, w)[i])
      ensures Names(batch, RowsOf(st, w)[i].item)
    {
      assert RowsOf(st, w)[i] in SpecRows(batch);
      var k :| 0 <= k < |batch| && RouteOf(batch[k]) == Write(RowsOf(st, w)[i].table)
        && RowsOf(st, w)[i] == RowOf(batch[k], RowsOf(st, w)[i].table);
      assert From(st.emitted, batch[k]);
    }
  }

  /** Replacing one worker by a sound one. */
  lemma WithKeeps(st: State, w: nat, worker: Worker)
    requires Inv(st) && w < |st.workers| && WorkerOk(st.queue, st.emitted, st.sink, worker)
    ensures Inv(With(st, w, worker))
  {
    InvStays(st, With(st, w, worker));
  }

  lemma RefusedPoison(batch: seq<Event>, extra: seq<Item>)
    requires PoisonOk(batch, extra)
    ensures PoisonOk(batch, RefusedItems(batch, |batch|) + extra)
  {
    SplitIs(batch);
    var poison := RefusedItems(batch, |batch|) + extra;
    forall k | 0 <= k < |poison| ensures Names(batch, poison[k]) {
      if k < |RefusedItems(batch, |batch|)| {
        assert poison[k] in RefusedItems(batch, |batch|);
        var i :| 0 <= i < |batch| && RouteOf(batch[i]) == Refuse && poison[k] == ItemOf(batch[i]);
      } else {
        assert poison[k] == extra[k - |RefusedItems(batch, |batch|)|];
      }
    }
  }

  lemma BatchCommitsKeeps(st: State, w: nat)
    requires Inv(st) && Enabled(st, BatchCommits(w))
    ensures Inv(Next(st, BatchCommits(w)))
  {
    var worker := st.workers[w];
    BatchRows(st, w);
    var m := Land(st, RowsOf(st, w), true);
    LandKeeps(st, RowsOf(st, w), true);
    RefusedPoison(worker.batch, []);
    assert RefusedItems(worker.batch, |worker.batch|) + [] == RefusedItems(worker.batch, |worker.batch|);
    WorkerStays(st, m, worker);
    WithKeeps(m, w, worker.(phase := Written, poison := RefusedItems(worker.batch, |worker.batch|)));
  }

  lemma BatchRefusedKeeps(st: State, w: nat, landed: bool)
    requires Inv(st) && Enabled(st, BatchRefused(w, landed))
    ensures Inv(Next(st, BatchRefused(w, landed)))
  {
    BatchRows(st, w);
    LandKeeps(st, RowsOf(st, w), landed);
    var m := Land(st, RowsOf(st, w), landed);
    WorkerStays(st, m, st.workers[w]);
    WithKeeps(m, w, st.workers[w].(phase := OneByOne(0, 0), poison := []));
  }

  lemma RowCommitsKeeps(st: State, w: nat)
    requires Inv(st) && Enabled(st, RowCommits(w))
    ensures Inv(Next(st, RowCommits(w)))
  {
    var worker := st.workers[w];
    BatchRows(st, w);
    var row := [RowsOf(st, w)[worker.phase.next]];
    LandKeeps(st, row, true);
    var m := Land(st, row, true);
    WorkerStays(st, m, worker);
    assert HasPk(m.sink, row[0].pk);
    var r := worker.(phase := OneByOne(worker.phase.next + 1, worker.phase.wrote + 1));
    forall i | 0 <= i < r.phase.next ensures Tried(m.sink, r.poison, SpecRows(r.batch)[i]) {
      if i < worker.phase.next {
        assert Tried(m.sink, worker.poison, SpecRows(worker.batch)[i]);
      }
    }
    WithKeeps(m, w, r);
  }

  lemma RowRefusedKeeps(st: State, w: nat, landed: bool)
    requires Inv(st) && Enabled(st, RowRefused(w, landed))
    ensures Inv(Next(st, RowRefused(w, landed)))
  {
    var worker := st.workers[w];
    BatchRows(st, w);
    var row := RowsOf(st, w)[worker.phase.next];
    LandKeeps(st, [row], landed);
    var m := Land(st, [row], landed);
    WorkerStays(st, m, worker);
    var r := worker.(phase := OneByOne(worker.phase.next + 1, worker.phase.wrote),
      poison := worker.poison + [row.item]);
    forall i | 0 <= i < r.phase.next ensures Tried(m.sink, r.poison, SpecRows(r.batch)[i]) {
      if i < worker.phase.next {
        assert Tried(m.sink, worker.poison, SpecRows(worker.batch)[i]);
      } else {
        assert r.poison[|worker.poison|] == row.item;
      }
    }
    WithKeeps(m, w, r);
  }

  lemma IsolatedKeeps(st: State, w: nat)
    requires Inv(st) && Enabled(st, Isolated(w))
    ensures Inv(Next(st, Isolated(w)))
  {
    var worker := st.workers[w];
    if worker.poison != [] && worker.phase.wrote == 0 {
      WithKeeps(st, w, Worker(Idle, [], []));
    } else {
      var refused := RefusedItems(worker.batch, |worker.batch|);
      var r := worker.(phase := Written, poison := refused + worker.poison);
      RefusedPoison(worker.batch, worker.poison);
      forall i | 0 <= i < |SpecRows(r.batch)| ensures Tried(st.sink, r.poison, SpecRows(r.batch)[i]) {
        assert Tried(st.sink, worker.poison, SpecRows(worker.batch)[i]);
      }
      WithKeeps(st, w, r);
    }
  }

  lemma QuarantineSound(st: State, w: Worker)
    requires BatchOk(st.emitted, w.batch) && PoisonOk(w.batch, w.poison)
    ensures MessageOk(st.emitted, st.sink, QuarantineOf(w))
  {
    forall k | 0 <= k < |w.poison| ensures FromItem(st.emitted, w.poison[k]) {
      assert Names(w.batch, w.poison[k]);
      var i :| 0 <= i < |w.batch| && ItemOf(w.batch[i]) == w.poison[k];
      assert From(st.emitted, w.batch[i]);
    }
  }

  lemma {:induction false} GoodIs(batch: seq<Event>, poison: seq<Item>, n: nat)
    requires n <= |batch|
    ensures forall k :: 0 <= k < |Good(batch, poison, n)| ==> GoodFrom(batch, poison, Good(batch, poison, n)[k])
    ensures forall i :: 0 <= i < n && !Poisoned(poison, batch[i].key) ==> ItemOf(batch[i]) in Good(batch, poison, n)
  {
    if n > 0 {
      GoodIs(batch, poison, n - 1);
      if !Poisoned(poison, batch[n - 1].key) {
        assert GoodFrom(batch, poison, ItemOf(batch[n - 1]));
      }
    }
  }

  ghost predicate GoodFrom(batch: seq<Event>, poison: seq<Item>, x: Item) {
    exists i :: 0 <= i < |batch| && !Poisoned(poison, batch[i].key) && x == ItemOf(batch[i])
  }

  /** An event of a finished write whose key was not set aside is itself in the sink, or one no table takes; so its key
      is settled. */
  lemma GoodSettled(st: State, w: Worker, i: nat)
    requires BatchOk(st.emitted, w.batch) && Covered(st.sink, w) && i < |w.batch| && !Poisoned(w.poison, w.batch[i].key)
    ensures InSink(st.sink, w.batch[i]) || RouteOf(w.batch[i]) == Nothing
    ensures Settled(st.emitted, st.sink, w.batch[i].key)
  {
    var e := w.batch[i];
    SplitIs(w.batch);
    assert From(st.emitted, e);
    match RouteOf(e) {
      case Write(table) =>
        var row := RowOf(e, table);
        assert RowFrom(w.batch, row);
        var k :| 0 <= k < |SpecRows(w.batch)| && SpecRows(w.batch)[k] == row;
        assert Tried(st.sink, w.poison, SpecRows(w.batch)[k]);
        assert InSink(st.sink, st.emitted[e.id - 1]);
      case Refuse =>
        RefusedIsPoisoned(w, i);
      case Nothing =>
        assert st.emitted[e.id - 1].key == e.key;
    }
  }

  lemma RefusedIsPoisoned(w: Worker, i: nat)
    requires i < |w.batch| && RouteOf(w.batch[i]) == Refuse
    requires forall x :: x in RefusedItems(w.batch, |w.batch|) ==> x in w.poison
    ensures Poisoned(w.poison, w.batch[i].key)
  {
    SplitIs(w.batch);
    assert RefusedFrom(w.batch, ItemOf(w.batch[i]));
    var k :| 0 <= k < |w.poison| && w.poison[k] == ItemOf(w.batch[i]);
    assert w.poison[k].key == w.batch[i].key;
  }

  lemma AckSound(st: State, w: Worker)
    requires BatchOk(st.emitted, w.batch) && Covered(st.sink, w)
    ensures MessageOk(st.emitted, st.sink, AckOf(w))
  {
    GoodIs(w.batch, w.poison, |w.batch|);
    var m := AckOf(w);
    forall k | 0 <= k < |m.items| ensures FromItem(st.emitted, m.items[k])
      && Settled(st.emitted, st.sink, m.items[k].key) {
      var i :| 0 <= i < |w.batch| && !Poisoned(w.poison, w.batch[i].key) && m.items[k] == ItemOf(w.batch[i]);
      assert From(st.emitted, w.batch[i]);
      GoodSettled(st, w, i);
    }
  }

  lemma SendQuarantineKeeps(st: State, w: nat)
    requires Inv(st) && Enabled(st, SendQuarantine(w))
    ensures Inv(Next(st, SendQuarantine(w)))
  {
    assert WorkerOk(st.queue, st.emitted, st.sink, st.workers[w]);
    QuarantineSound(st, st.workers[w]);
    InvStays(st, Next(st, SendQuarantine(w)));
  }

  lemma QuarantineAnsweredKeeps(st: State, w: nat, now: int)
    requires Inv(st) && Enabled(st, QuarantineAnswered(w, now))
    ensures Inv(Next(st, QuarantineAnswered(w, now)))
  {
    var worker := st.workers[w];
    assert WorkerOk(st.queue, st.emitted, st.sink, worker);
    QuarantineSound(st, worker);
    HandledKeeps(st, QuarantineOf(worker), now);
    var m := st.(queue := Handled(st.queue, QuarantineOf(worker), now));
    WorkerStays(st, m, worker);
    WithKeeps(m, w, worker.(phase := Quarantined));
  }

  lemma SendAckKeeps(st: State, w: nat)
    requires Inv(st) && Enabled(st, SendAck(w))
    ensures Inv(Next(st, SendAck(w)))
  {
    assert WorkerOk(st.queue, st.emitted, st.sink, st.workers[w]);
    AckSound(st, st.workers[w]);
    InvStays(st, Next(st, SendAck(w)));
  }

  lemma AckAnsweredKeeps(st: State, w: nat, now: int)
    requires Inv(st) && Enabled(st, AckAnswered(w, now))
    ensures Inv(Next(st, AckAnswered(w, now)))
  {
    var worker := st.workers[w];
    assert WorkerOk(st.queue, st.emitted, st.sink, worker);
    AckSound(st, worker);
    HandledKeeps(st, AckOf(worker), now);
    var m := st.(queue := Handled(st.queue, AckOf(worker), now));
    WorkerStays(st, m, worker);
    AckedAll(m.queue, m.emitted, worker);
    WithKeeps(m, w, worker.(phase := Done));
  }

  /** Between what was set aside and what was acknowledged, nothing of the batch is left. */
  lemma AckedAll(queue: seq<Event>, emitted: seq<Event>, w: Worker)
    requires BatchOk(emitted, w.batch) && PoisonOk(w.batch, w.poison) && PoisonHandled(queue, w)
    requires forall k :: 0 <= k < |AckOf(w).items| ==> NotPending(queue, AckOf(w).items[k].id)
    ensures BatchHandled(queue, w)
  {
    GoodIs(w.batch, w.poison, |w.batch|);
    forall i | 0 <= i < |w.batch| ensures NotPending(queue, w.batch[i].id) {
      if Poisoned(w.poison, w.batch[i].key) {
        var k :| 0 <= k < |w.poison| && w.poison[k].key == w.batch[i].key;
        assert Names(w.batch, w.poison[k]);
        var j :| 0 <= j < |w.batch| && ItemOf(w.batch[j]) == w.poison[k];
        assert j == i;
        assert NotPending(queue, w.poison[k].id);
      } else {
        var good := AckOf(w).items;
        var k :| 0 <= k < |good| && good[k] == ItemOf(w.batch[i]);
        assert NotPending(queue, good[k].id);
      }
    }
  }

  lemma CrashKeeps(st: State, w: nat, landed: bool)
    requires Inv(st) && w < |st.workers|
    ensures Inv(Next(st, Crash(w, landed)))
  {
    BatchRows(st, w);
    LandKeeps(st, InFlight(st, w), landed);
    WithKeeps(Land(st, InFlight(st, w), landed), w, Worker(Idle, [], []));
  }

  lemma StepKeeps(st: State, step: Step)
    requires Inv(st) && Enabled(st, step)
    ensures Inv(Next(st, step))
  {
    match step {
      case Emit(kind, key, payload, at) => EmitKeeps(st, kind, key, payload, at);
      case Prune(horizon, hardCap) => PruneKeeps(st, horizon, hardCap);
      case Poll(w, limit) => PollKeeps(st, w, limit);
      case BatchCommits(w) => BatchCommitsKeeps(st, w);
      case BatchRefused(w, landed) => BatchRefusedKeeps(st, w, landed);
      case RowCommits(w) => RowCommitsKeeps(st, w);
      case RowRefused(w, landed) => RowRefusedKeeps(st, w, landed);
      case Isolated(w) => IsolatedKeeps(st, w);
      case SendQuarantine(w) => SendQuarantineKeeps(st, w);
      case NothingToQuarantine(w) => WithKeeps(st, w, st.workers[w].(phase := Quarantined));
      case QuarantineAnswered(w, now) => QuarantineAnsweredKeeps(st, w, now);
      case SendAck(w) => SendAckKeeps(st, w);
      case AckAnswered(w, now) => AckAnsweredKeeps(st, w, now);
      case Arrives(m, now) => HandledKeeps(st, m, now);
      case Crash(w, landed) => CrashKeeps(st, w, landed);
    }
  }

  // ---- runs ----

  function Start(workers: nat): State {
    State([], [], [], [], seq(workers, _ => Worker(Idle, [], [])), {})
  }

  /** `states` is a run: it starts empty and every state follows from the one before by the step listed. */
  ghost predicate Run(states: seq<State>, steps: seq<Step>) {
    && |states| == |steps| + 1
    && (exists n: nat :: states[0] == Start(n))
    && (forall k :: 0 <= k < |steps| ==> Enabled(states[k], steps[k]) && states[k + 1] == Next(states[k], steps[k]))
  }

  lemma StartOk(n: nat)
    ensures Inv(Start(n))
  {
  }

  lemma {:induction false} RunKeeps(states: seq<State>, steps: seq<Step>, k: nat)
    requires Run(states, steps) && k <= |steps|
    ensures Inv(states[k])
  {
    if k == 0 {
      var n: nat :| states[0] == Start(n);
      StartOk(n);
    } else {
      RunKeeps(states, steps, k - 1);
      StepKeeps(states[k - 1], steps[k - 1]);
    }
  }

  /** In every state of every run: a processed event was quarantined, or an event with its key is in the sink or is one
      no table takes; the sink holds at most one row per primary key and only rows of events that were emitted, each
      under its event's primary key; no event is lost; and a worker whose cycle returned normally leaves none of the
      events it polled pending. */
  lemma EffectivelyOnce(states: seq<State>, steps: seq<Step>, k: nat)
    requires Run(states, steps) && k <= |steps|
    ensures var st := states[k];
            && EventsOk(st.emitted, st.sink, st.queue) && EventsOk(st.emitted, st.sink, st.gone)
            && SinkOk(st) && NoneLost(st)
            && (forall w :: 0 <= w < |st.workers| && st.workers[w].phase == Done
                 ==> BatchHandled(st.queue, st.workers[w]))
  {
    RunKeeps(states, steps, k);
    var st := states[k];
    forall w | 0 <= w < |st.workers| && st.workers[w].phase == Done ensures BatchHandled(st.queue, st.workers[w]) {
      assert WorkerOk(st.queue, st.emitted, st.sink, st.workers[w]);
    }
  }

  predicate SameRow(a: Event, b: Event) {
    DestinationOf(a).Stored? && DestinationOf(a) == DestinationOf(b)
  }

  /** A primary key never belongs to events with different dedupe keys. */
  ghost predicate PksName(emitted: seq<Event>) {
    forall i, j :: 0 <= i < |emitted| && 0 <= j < |emitted| && SameRow(emitted[i], emitted[j]) ==>
      emitted[i].key == emitted[j].key
  }

  /** Then the row of a landed event carries the event's own key. */
  lemma LandedHasKey(st: State, key: string)
    requires SinkOk(st) && PksName(st.emitted) && Landed(st.emitted, st.sink, key)
    ensures HasKey(st.sink, key)
  {
    var j :| 0 <= j < |st.emitted| && st.emitted[j].key == key && InSink(st.sink, st.emitted[j]);
    var i :| 0 <= i < |st.sink| && st.sink[i].pk == PkOf(st.emitted[j], RouteOf(st.emitted[j]).table);
    assert RowOk(st.emitted, st.sink[i]);
    assert SameRow(st.emitted[st.sink[i].item.id - 1], st.emitted[j]);
  }
}
