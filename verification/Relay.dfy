/** Draining the queue into the sink: classification of events, and writing with row-by-row isolation of poison. */
module Relay {
  import opened Reals
  import opened Ordering
  import opened Outbox

  datatype Table = MeterTick | Enforcement | ConnectorState

  /** What an event becomes: a row of a table, a row the relay itself refuses, or nothing any table takes. */
  datatype Route = Write(table: Table) | Refuse | Nothing

  /** The connector column of a state row: the connector, or the session when no connector is named. */
  datatype Place = Connector(ref: string) | Session(id: int)

  /** The primary keys of the three tables. */
  datatype PrimaryKey =
    | TickKey(session: int, seqNo: int, ts: int)
    | StateKey(place: Place, ts: int, key: string)
    | EnforcementKey(cp: int, ts: int, scheduledKw: real)

  /** A row, the event it carries, and the primary key it is stored under. */
  datatype Row = Row(table: Table, item: Item, pk: PrimaryKey)

  function RouteOf(e: Event): Route {
    var p := e.payload;
    if e.kind == METER_TICK && p.session.Some? && p.ts.Some? then (if p.finiteMeter then Write(MeterTick) else Refuse)
    else if e.kind == ENFORCEMENT_TICK && p.cp.Some? && p.ts.Some? then
      (if p.scheduledKw.Some? then Write(Enforcement) else Refuse)
    else if e.kind == CONNECTOR_STATE && p.ref.Some? then Write(ConnectorState)
    else if e.kind == SESSION_EVENT && p.session.Some? then Write(ConnectorState)
    else Nothing
  }

  function Or<T>(o: Option<T>, fallback: T): T {
    if o.Some? then o.value else fallback
  }

  /** Whole seconds of an instant in milliseconds. */
  function ToSec(ms: int): int {
    ms / 1000 * 1000
  }

  function PlaceOf(p: Payload): Place {
    if p.ref.Some? then Connector(p.ref.value) else Session(Or(p.session, 0))
  }

  /** The primary key of the event's row in a table: ticks and states in whole seconds, states with the dedupe key. */
  function PkOf(e: Event, table: Table): PrimaryKey {
    var p := e.payload;
    match table
    case MeterTick => TickKey(Or(p.session, 0), p.seqNo, ToSec(Or(p.ts, 0)))
    case Enforcement => EnforcementKey(Or(p.cp, 0), Or(p.ts, 0), Or(p.scheduledKw, 0.0))
    case ConnectorState => StateKey(PlaceOf(p), ToSec(e.createdAt), e.key)
  }

  function RowOf(e: Event, table: Table): Row {
    Row(table, ItemOf(e), PkOf(e, table))
  }

  /** Where an event ends up: under a primary key, set aside, or cleared without a row. */
  datatype Destination = Stored(pk: PrimaryKey) | SetAside | Cleared

  function DestinationOf(e: Event): Destination {
    match RouteOf(e)
    case Write(table) => Stored(PkOf(e, table))
    case Refuse => SetAside
    case Nothing => Cleared
  }

  function ItemOf(e: Event): Item {
    Item(e.id, e.key)
  }

  // ---- splitting a batch ----

  /** The rows of one table, in queue order. */
  function RowsFor(events: seq<Event>, table: Table, n: nat): seq<Row>
    requires n <= |events|
  {
    if n == 0 then []
    else if RouteOf(events[n - 1]) == Write(table) then RowsFor(events, table, n - 1) + [RowOf(events[n - 1], table)]
    else RowsFor(events, table, n - 1)
  }

  function RefusedItems(events: seq<Event>, n: nat): seq<Item>
    requires n <= |events|
  {
    if n == 0 then []
    else if RouteOf(events[n - 1]) == Refuse then RefusedItems(events, n - 1) + [ItemOf(events[n - 1])]
    else RefusedItems(events, n - 1)
  }

  // ---- what each list holds, from kind and payload alone ----

  /** The event is for this table: a tick names its session and instant and has a finite register, an enforcement tick
      its charge point, instant and a finite power, a connector state its connector, a session event its session. */
  predicate Belongs(e: Event, table: Table) {
    match table
    case MeterTick => e.kind == METER_TICK && e.payload.session.Some? && e.payload.ts.Some? && e.payload.finiteMeter
    case Enforcement =>
      e.kind == ENFORCEMENT_TICK && e.payload.cp.Some? && e.payload.ts.Some? && e.payload.scheduledKw.Some?
    case ConnectorState =>
      (e.kind == CONNECTOR_STATE && e.payload.ref.Some?) || (e.kind == SESSION_EVENT && e.payload.session.Some?)
  }

  /** A tick or an enforcement tick whose reading is not a finite number. */
  predicate NotFinite(e: Event) {
    || (e.kind == METER_TICK && e.payload.session.Some? && e.payload.ts.Some? && !e.payload.finiteMeter)
    || (e.kind == ENFORCEMENT_TICK && e.payload.cp.Some? && e.payload.ts.Some? && e.payload.scheduledKw.None?)
  }

  ghost predicate WholeSecondOf(sec: int, ms: int) {
    sec % 1000 == 0 && sec <= ms < sec + 1000
  }

  /** The row is the event's own. */
  ghost predicate Carries(r: Row, e: Event) {
    r.item == Item(e.id, e.key) && HasFields(r, e)
  }

  /** The row holds the event's fields: ticks and states under a whole second, enforcement ticks under the instant
      itself, states under the connector or, if none is named, the session. */
  ghost predicate HasFields(r: Row, e: Event) {
    && Belongs(e, r.table)
    && match r.pk
       case TickKey(session, seqNo, ts) =>
         && r.table == MeterTick && e.payload.session == Some(session) && seqNo == e.payload.seqNo
         && WholeSecondOf(ts, e.payload.ts.value)
       case EnforcementKey(cp, ts, kw) =>
         r.table == Enforcement && e.payload.cp == Some(cp) && e.payload.ts == Some(ts)
           && e.payload.scheduledKw == Some(kw)
       case StateKey(place, ts, key) =>
         && r.table == ConnectorState && key == e.key && WholeSecondOf(ts, e.createdAt)
         && match place
            case Connector(ref) => e.payload.ref == Some(ref)
            case Session(id) => e.payload.ref.None? && e.payload.session == Some(id)
  }

  ghost function Belonging(events: seq<Event>, table: Table): seq<bool> {
    seq(|events|, i requires 0 <= i < |events| => Belongs(events[i], table))
  }

  ghost function NotFinites(events: seq<Event>): seq<bool> {
    seq(|events|, i requires 0 <= i < |events| => NotFinite(events[i]))
  }

  /** The list holds one row, in queue order, for each of the first n events that belong to the table, and no others. */
  ghost predicate HoldsRows(events: seq<Event>, table: Table, n: nat, rows: seq<Row>, pos: seq<nat>) {
    && n <= |events| && |pos| == |rows| && Picks(pos, Belonging(events, table), n)
    && (forall k :: 0 <= k < |rows| ==> rows[k].table == table && Carries(rows[k], events[pos[k]]))
  }

  ghost predicate HoldsRefused(events: seq<Event>, n: nat, items: seq<Item>, pos: seq<nat>) {
    && n <= |events| && |pos| == |items| && Picks(pos, NotFinites(events), n)
    && (forall k :: 0 <= k < |items| ==> items[k] == Item(events[pos[k]].id, events[pos[k]].key))
  }

  lemma SecondIs(ms: int)
    ensures WholeSecondOf(ToSec(ms), ms)
  {
  }

  lemma RowCarries(e: Event, table: Table)
    ensures RouteOf(e) == Write(table) <==> Belongs(e, table)
    ensures RouteOf(e) == Write(table) ==> Carries(RowOf(e, table), e)
    ensures RouteOf(e) == Refuse <==> NotFinite(e)
  {
    SecondIs(Or(e.payload.ts, 0));
    SecondIs(e.createdAt);
  }

  lemma HoldsNext(events: seq<Event>, table: Table, n: nat, rows: seq<Row>, pos: seq<nat>, row: Row)
    requires n < |events| && HoldsRows(events, table, n, rows, pos)
    requires Belongs(events[n], table) ==> row.table == table && Carries(row, events[n])
    ensures if Belongs(events[n], table) then HoldsRows(events, table, n + 1, rows + [row], pos + [n])
            else HoldsRows(events, table, n + 1, rows, pos)
  {
    PicksNext(pos, Belonging(events, table), n);
  }

  lemma {:induction false} RowsForHold(events: seq<Event>, table: Table, n: nat) returns (pos: seq<nat>)
    requires n <= |events|
    ensures HoldsRows(events, table, n, RowsFor(events, table, n), pos)
  {
    if n == 0 {
      pos := [];
    } else {
      pos := RowsForHold(events, table, n - 1);
      RowCarries(events[n - 1], table);
      HoldsNext(events, table, n - 1, RowsFor(events, table, n - 1), pos, RowOf(events[n - 1], table));
      pos := if Belongs(events[n - 1], table) then pos + [n - 1] else pos;
    }
  }

  lemma {:induction false} RefusedHold(events: seq<Event>, n: nat) returns (pos: seq<nat>)
    requires n <= |events|
    ensures HoldsRefused(events, n, RefusedItems(events, n), pos)
  {
    if n == 0 {
      pos := [];
    } else {
      pos := RefusedHold(events, n - 1);
      RowCarries(events[n - 1], MeterTick);
      PicksNext(pos, NotFinites(events), n - 1);
      if NotFinite(events[n - 1]) {
        pos := pos + [n - 1];
      }
    }
  }

  /** The split of a batch: every event that belongs to a table has exactly one row in that table's list, carrying its
      own fields; a reading that is not finite is refused and has no row; every other event is in no list. */
  lemma SplitHolds(events: seq<Event>)
    ensures forall table :: Holds(events, table, RowsFor(events, table, |events|))
    ensures Refuses(events, RefusedItems(events, |events|))
    ensures forall i, a, b :: 0 <= i < |events| && Belongs(events[i], a) ==>
              !NotFinite(events[i]) && (Belongs(events[i], b) ==> a == b)
  {
    forall table ensures Holds(events, table, RowsFor(events, table, |events|)) {
      var pos := RowsForHold(events, table, |events|);
    }
    var pos := RefusedHold(events, |events|);
  }

  ghost predicate Holds(events: seq<Event>, table: Table, rows: seq<Row>) {
    exists pos :: HoldsRows(events, table, |events|, rows, pos)
  }

  ghost predicate Refuses(events: seq<Event>, items: seq<Item>) {
    exists pos :: HoldsRefused(events, |events|, items, pos)
  }

  method ToRows(events: seq<Event>)
      returns (ticks: seq<Row>, states: seq<Row>, enforcement: seq<Row>, refused: seq<Item>)
    ensures ticks == RowsFor(events, MeterTick, |events|)
    ensures states == RowsFor(events, ConnectorState, |events|)
    ensures enforcement == RowsFor(events, Enforcement, |events|)
    ensures refused == RefusedItems(events, |events|)
    ensures Holds(events, MeterTick, ticks) && Holds(events, ConnectorState, states)
    ensures Holds(events, Enforcement, enforcement) && Refuses(events, refused)
  {
    SplitHolds(events);
    ticks, states, enforcement, refused := [], [], [], [];
    for n := 0 to |events|
      invariant ticks == RowsFor(events, MeterTick, n)
      invariant states == RowsFor(events, ConnectorState, n)
      invariant enforcement == RowsFor(events, Enforcement, n)
      invariant refused == RefusedItems(events, n)
    {
      var e := events[n];
      var p := e.payload;
      if e.kind == METER_TICK && p.session.Some? && p.ts.Some? {
        if !p.finiteMeter {
          refused := refused + [Item(e.id, e.key)];
        } else {
          ticks := ticks + [Row(MeterTick, Item(e.id, e.key), TickKey(p.session.value, p.seqNo, ToSec(p.ts.value)))];
        }
      } else if e.kind == ENFORCEMENT_TICK && p.cp.Some? && p.ts.Some? {
        if p.scheduledKw.None? {
          refused := refused + [Item(e.id, e.key)];
        } else {
          var pk := EnforcementKey(p.cp.value, p.ts.value, p.scheduledKw.value);
          enforcement := enforcement + [Row(Enforcement, Item(e.id, e.key), pk)];
        }
      } else if e.kind == CONNECTOR_STATE && p.ref.Some? {
        var pk := StateKey(Connector(p.ref.value), ToSec(e.createdAt), e.key);
        states := states + [Row(ConnectorState, Item(e.id, e.key), pk)];
      } else if e.kind == SESSION_EVENT && p.session.Some? {
        var pk := StateKey(PlaceOf(p), ToSec(e.createdAt), e.key);
        states := states + [Row(ConnectorState, Item(e.id, e.key), pk)];
      }
    }
  }

  /** All rows of a batch in the order they are written. */
  function SpecRows(events: seq<Event>): seq<Row> {
    RowsFor(events, MeterTick, |events|) + RowsFor(events, ConnectorState, |events|)
      + RowsFor(events, Enforcement, |events|)
  }

  lemma {:induction false} RowsForAre(events: seq<Event>, table: Table, n: nat)
    requires n <= |events|
    ensures forall i :: 0 <= i < n && RouteOf(events[i]) == Write(table) ==>
              RowOf(events[i], table) in RowsFor(events, table, n)
    ensures forall r :: r in RowsFor(events, table, n) ==> RowFrom(events, r)
  {
    if n > 0 {
      RowsForAre(events, table, n - 1);
      if RouteOf(events[n - 1]) == Write(table) {
        assert RowFrom(events, RowOf(events[n - 1], table));
      }
    }
  }

  ghost predicate RowFrom(events: seq<Event>, r: Row) {
    exists i :: 0 <= i < |events| && RouteOf(events[i]) == Write(r.table) && r == RowOf(events[i], r.table)
  }

  ghost predicate RefusedFrom(events: seq<Event>, x: Item) {
    exists i :: 0 <= i < |events| && RouteOf(events[i]) == Refuse && x == ItemOf(events[i])
  }

  lemma {:induction false} RefusedAre(events: seq<Event>, n: nat)
    requires n <= |events|
    ensures forall i :: 0 <= i < n && RouteOf(events[i]) == Refuse ==> ItemOf(events[i]) in RefusedItems(events, n)
    ensures forall x :: x in RefusedItems(events, n) ==> RefusedFrom(events, x)
  {
    if n > 0 {
      RefusedAre(events, n - 1);
      if RouteOf(events[n - 1]) == Refuse {
        assert RefusedFrom(events, ItemOf(events[n - 1]));
      }
    }
  }

  /** The split loses nothing and invents nothing: an event is a row of exactly the table its route names, or refused,
      or in none of the lists. */
  lemma SplitIs(events: seq<Event>)
    ensures forall r :: r in SpecRows(events) <==> RowFrom(events, r)
    ensures forall x :: x in RefusedItems(events, |events|) <==> RefusedFrom(events, x)
  {
    RowsForAre(events, MeterTick, |events|);
    RowsForAre(events, ConnectorState, |events|);
    RowsForAre(events, Enforcement, |events|);
    RefusedAre(events, |events|);
    forall r | RowFrom(events, r) ensures r in SpecRows(events) {
      assert r in RowsFor(events, r.table, |events|);
    }
  }

  // ---- the sink ----

  ghost predicate HasKey(sink: seq<Row>, key: string) {
    exists j :: 0 <= j < |sink| && sink[j].item.key == key
  }

  ghost predicate HasPk(sink: seq<Row>, pk: PrimaryKey) {
    exists j :: 0 <= j < |sink| && sink[j].pk == pk
  }

  function Knows(sink: seq<Row>, pk: PrimaryKey): (b: bool)
    ensures b <==> HasPk(sink, pk)
  {
    sink != [] && (sink[|sink| - 1].pk == pk || Knows(sink[..|sink| - 1], pk))
  }

  /** INSERT ... ON CONFLICT DO NOTHING: the conflict is one of primary keys. */
  function Inserted(sink: seq<Row>, row: Row): seq<Row> {
    if Knows(sink, row.pk) then sink else sink + [row]
  }

  function InsertedAll(sink: seq<Row>, rows: seq<Row>, n: nat): seq<Row>
    requires n <= |rows|
  {
    if n == 0 then sink else Inserted(InsertedAll(sink, rows, n - 1), rows[n - 1])
  }

  ghost predicate OneRowPerPk(sink: seq<Row>) {
    forall i, j :: 0 <= i < j < |sink| ==> sink[i].pk != sink[j].pk
  }

  ghost predicate OneRowPerKey(sink: seq<Row>) {
    forall i, j :: 0 <= i < j < |sink| ==> sink[i].item.key != sink[j].item.key
  }

  lemma PksStay(before: seq<Row>, after: seq<Row>)
    requires before <= after
    ensures forall pk :: HasPk(before, pk) ==> HasPk(after, pk)
  {
    forall pk | HasPk(before, pk) ensures HasPk(after, pk) {
      var j :| 0 <= j < |before| && before[j].pk == pk;
      assert after[j].pk == pk;
    }
  }

  lemma InsertedIs(sink: seq<Row>, row: Row)
    ensures var r := Inserted(sink, row);
            && sink <= r && HasPk(r, row.pk)
            && (OneRowPerPk(sink) ==> OneRowPerPk(r))
            && (forall j :: |sink| <= j < |r| ==> r[j] == row)
  {
    if !Knows(sink, row.pk) {
      assert Inserted(sink, row)[|sink|] == row;
    }
  }

  /** Inserting again changes nothing for a primary key that is already there; every primary key of the batch ends up
      there, once. */
  lemma {:induction false} InsertedAllIs(sink: seq<Row>, rows: seq<Row>, n: nat)
    requires n <= |rows|
    ensures var r := InsertedAll(sink, rows, n);
            && sink <= r
            && (OneRowPerPk(sink) ==> OneRowPerPk(r))
            && (forall j :: |sink| <= j < |r| ==> r[j] in rows)
    ensures forall i :: 0 <= i < n ==> HasPk(InsertedAll(sink, rows, n), rows[i].pk)
  {
    if n > 0 {
      InsertedAllIs(sink, rows, n - 1);
      InsertedIs(InsertedAll(sink, rows, n - 1), rows[n - 1]);
      PksStay(InsertedAll(sink, rows, n - 1), InsertedAll(sink, rows, n));
    }
  }

  /** How the sink answers one statement. `landed` says whether the rows are there although an error came back. */
  datatype Reply = Committed | Data(landed: bool) | Schema(landed: bool) | Transport(landed: bool)

  datatype Outcome = Thrown | Finished(poison: seq<Item>, wrote: nat)

  /** Row-by-row writing stops at the first transport error and gives up when no row of a non-empty batch commits;
      otherwise exactly the items whose rows did not commit are set aside. */
  ghost predicate Isolates(batch: seq<Row>, replies: nat -> Reply, out: Outcome) {
    && (out == Thrown <==>
         || (exists i :: 0 <= i < |batch| && replies(i).Transport?)
         || (batch != [] && forall i :: 0 <= i < |batch| ==> !replies(i).Committed?))
    && (out.Finished? ==>
         forall x :: x in out.poison <==> exists i :: 0 <= i < |batch| && batch[i].item == x && !replies(i).Committed?)
  }

  class Sink {
    var rows: seq<Row>

    constructor ()
      ensures rows == []
    {
      rows := [];
    }

    method Insert(batch: seq<Row>)
      modifies this
      ensures rows == InsertedAll(old(rows), batch, |batch|)
    {
      for n := 0 to |batch|
        invariant rows == InsertedAll(old(rows), batch, n)
      {
        if !Knows(rows, batch[n].pk) {
          rows := rows + [batch[n]];
        }
      }
    }

    /** One transaction; the rows are there afterwards if it committed, and possibly even if it failed. */
    method Transact(batch: seq<Row>, reply: Reply)
      modifies this
      ensures rows == if reply == Committed || reply.landed then InsertedAll(old(rows), batch, |batch|) else old(rows)
    {
      if reply == Committed || reply.landed {
        Insert(batch);
      }
    }

    /** One row in a transaction of its own. */
    method WriteOne(row: Row, reply: Reply)
      requires OneRowPerPk(rows)
      modifies this
      ensures OneRowPerPk(rows) && old(rows) <= rows
      ensures forall j :: |old(rows)| <= j < |rows| ==> rows[j] == row
      ensures reply.Committed? ==> HasPk(rows, row.pk)
    {
      InsertedAllIs(rows, [row], 1);
      assert [row][0] == row;
      Transact([row], reply);
    }

    /** Row by row after a failed batch: a row the sink refuses is set aside, unless the sink refuses all of them. */
    method WriteOneByOne(batch: seq<Row>, replies: nat -> Reply) returns (out: Outcome)
      requires OneRowPerPk(rows)
      modifies this
      ensures OneRowPerPk(rows) && old(rows) <= rows
      ensures forall j :: |old(rows)| <= j < |rows| ==> rows[j] in batch
      ensures out.Finished? ==>
                forall i :: 0 <= i < |batch| ==> HasPk(rows, batch[i].pk) || batch[i].item in out.poison
      ensures Isolates(batch, replies, out)
    {
      var poison: seq<Item> := [];
      var wrote := 0;
      for i := 0 to |batch|
        invariant OneRowPerPk(rows) && old(rows) <= rows
        invariant forall j :: |old(rows)| <= j < |rows| ==> rows[j] in batch
        invariant forall j :: 0 <= j < i ==> HasPk(rows, batch[j].pk) || batch[j].item in poison
        invariant forall x :: x in poison <==> exists j :: 0 <= j < i && batch[j].item == x && !replies(j).Committed?
        invariant forall j :: 0 <= j < i ==> !replies(j).Transport?
        invariant wrote > 0 <==> exists j :: 0 <= j < i && replies(j).Committed?
        invariant wrote == 0 && i > 0 ==> poison != []
      {
        ghost var before := rows;
        WriteOne(batch[i], replies(i));
        PksStay(before, rows);
        if replies(i).Transport? {
          return Thrown;
        }
        if replies(i).Committed? {
          wrote := wrote + 1;
        } else {
          poison := poison + [batch[i].item];
        }
      }
      if poison != [] && wrote == 0 {
        assert poison[0] in poison;
        return Thrown;
      }
      out := Finished(poison, wrote);
    }

    /** The batch in one transaction; a data-shaped failure is isolated row by row, any other is handed back. */
    method WriteSpecs(batch: seq<Row>, reply: Reply, replies: nat -> Reply) returns (out: Outcome)
      requires OneRowPerPk(rows)
      modifies this
      ensures OneRowPerPk(rows) && old(rows) <= rows
      ensures forall j :: |old(rows)| <= j < |rows| ==> rows[j] in batch
      ensures reply.Transport? || reply.Schema? ==> out == Thrown
      ensures reply.Committed? ==> out == Finished([], |batch|)
      ensures reply.Data? ==> Isolates(batch, replies, out)
      ensures out.Finished? ==>
                forall i :: 0 <= i < |batch| ==> HasPk(rows, batch[i].pk) || batch[i].item in out.poison
    {
      InsertedAllIs(rows, batch, |batch|);
      Transact(batch, reply);
      if reply.Committed? {
        return Finished([], |batch|);
      }
      if reply.Transport? || reply.Schema? {
        return Thrown;
      }
      out := WriteOneByOne(batch, replies);
    }
  }

  // ---- the local mirror, used when there is no sink ----

  ghost predicate AllDistinct(keys: seq<string>) {
    forall i, j :: 0 <= i < j < |keys| ==> keys[i] != keys[j]
  }

  /** The keys of a batch that are not in `have` yet, in order. */
  function Fresh(keys: seq<string>, have: set<string>, n: nat): seq<string>
    requires n <= |keys|
  {
    if n == 0 then []
    else if keys[n - 1] in have then Fresh(keys, have, n - 1)
    else Fresh(keys, have, n - 1) + [keys[n - 1]]
  }

  lemma {:induction false} FreshIs(keys: seq<string>, have: set<string>, n: nat)
    requires n <= |keys|
    ensures forall k :: k in Fresh(keys, have, n) <==> k in keys[..n] && k !in have
    ensures AllDistinct(keys) ==> AllDistinct(Fresh(keys, have, n))
  {
    if n > 0 {
      FreshIs(keys, have, n - 1);
      assert keys[..n] == keys[..n - 1] + [keys[n - 1]];
      var m := Fresh(keys, have, n - 1);
      if AllDistinct(keys) {
        forall i | 0 <= i < |m| ensures m[i] != keys[n - 1] {
          assert m[i] in keys[..n - 1];
        }
      }
    }
  }

  /** The mirror file, one line per key, and the cached set of keys already in it. */
  class Mirror {
    var lines: seq<string>
    var seen: Option<set<string>>

    ghost predicate Valid()
      reads this
    {
      seen.Some? ==> seen.value == set k | k in lines
    }

    constructor (lines: seq<string>)
      ensures Valid() && this.lines == lines
    {
      this.lines, seen := lines, None;
    }

    /** loadSeen: read the file once per process. */
    method LoadSeen() returns (have: set<string>)
      requires Valid()
      modifies this`seen
      ensures Valid() && have == (set k | k in lines) && seen == Some(have)
    {
      if seen.None? {
        have := {};
        for i := 0 to |lines|
          invariant have == set k | k in lines[..i]
        {
          assert lines[..i + 1] == lines[..i] + [lines[i]];
          have := have + {lines[i]};
        }
        assert lines[..|lines|] == lines;
        seen := Some(have);
      }
      have := seen.value;
    }

    /** relayOnce without a sink: append what is new. A batch that was mirrored before adds nothing, so a replay after a
        crash between append and ack is harmless. */
    method Append(keys: seq<string>) returns (added: seq<string>)
      requires Valid() && AllDistinct(keys)
      modifies this
      ensures Valid() && lines == old(lines) + added
      ensures added == Fresh(keys, set k | k in old(lines), |keys|)
      ensures AllDistinct(old(lines)) ==> AllDistinct(lines)
      ensures forall k :: k in keys ==> k in lines
    {
      var have := LoadSeen();
      added := [];
      for n := 0 to |keys|
        invariant added == Fresh(keys, have, n) && lines == old(lines) && Valid() && seen == Some(have)
      {
        if keys[n] !in have {
          added := added + [keys[n]];
        }
      }
      FreshIs(keys, have, |keys|);
      assert keys[..|keys|] == keys;
      forall i | 0 <= i < |added| ensures added[i] !in lines {
        assert added[i] in added;
      }
      lines := lines + added;
      seen := Some(have + (set k | k in added));
    }
  }
}
