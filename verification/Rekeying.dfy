/** Keys that are emitted again: when the sink keeps one row per dedupe key, and when a processed event has its own
    row. */
module Rekeying {
  import opened Reals
  import opened Outbox
  import opened Relay
  import opened Delivery

  /** What a producer hands to the queue. */
  datatype Draft = Draft(kind: Kind, key: string, payload: Payload, at: int)

  function DraftOf(e: Event): Draft {
    Draft(e.kind, e.key, e.payload, e.createdAt)
  }

  function Queued(d: Draft, id: nat): Event {
    Event(id, d.kind, d.key, d.payload, d.at, None, false)
  }

  /** A draft's destination does not depend on the id it is queued under. */
  function Target(d: Draft): Destination {
    DestinationOf(Queued(d, 0))
  }

  ghost predicate Emits(steps: seq<Step>, drafts: set<Draft>) {
    forall k :: 0 <= k < |steps| && steps[k].Emit? ==>
      Draft(steps[k].kind, steps[k].key, steps[k].payload, steps[k].at) in drafts
  }

  ghost predicate EmittedFrom(st: State, drafts: set<Draft>) {
    forall i :: 0 <= i < |st.emitted| ==> DraftOf(st.emitted[i]) in drafts
  }

  lemma StepEmits(st: State, step: Step, drafts: set<Draft>)
    requires EmittedFrom(st, drafts) && Enabled(st, step)
    requires step.Emit? ==> Draft(step.kind, step.key, step.payload, step.at) in drafts
    ensures EmittedFrom(Next(st, step), drafts)
  {
    if !step.Emit? {
      assert Next(st, step).emitted == st.emitted;
    }
  }

  lemma {:induction false} RunEmits(states: seq<State>, steps: seq<Step>, drafts: set<Draft>, k: nat)
    requires Run(states, steps) && Emits(steps, drafts) && k <= |steps|
    ensures EmittedFrom(states[k], drafts)
  {
    if k > 0 {
      RunEmits(states, steps, drafts, k - 1);
      StepEmits(states[k - 1], steps[k - 1], drafts);
    }
  }

  // ---- when it is safe ----

  /** No key is emitted for two different rows. */
  ghost predicate OneRowEach(drafts: set<Draft>) {
    forall a, b :: a in drafts && b in drafts && a.key == b.key && Target(a).Stored? && Target(b).Stored? ==>
      Target(a) == Target(b)
  }

  /** No key is emitted for two different destinations. */
  ghost predicate OneTargetEach(drafts: set<Draft>) {
    forall a, b :: a in drafts && b in drafts && a.key == b.key ==> Target(a) == Target(b)
  }

  lemma RowTarget(st: State, drafts: set<Draft>, j: nat) returns (d: Draft)
    requires SinkOk(st) && EmittedFrom(st, drafts) && j < |st.sink|
    ensures d in drafts && d.key == st.sink[j].item.key && Target(d) == Stored(st.sink[j].pk)
  {
    assert RowOk(st.emitted, st.sink[j]);
    d := DraftOf(st.emitted[st.sink[j].item.id - 1]);
  }

  lemma PinnedRows(st: State, drafts: set<Draft>)
    requires SinkOk(st) && EmittedFrom(st, drafts) && OneRowEach(drafts)
    ensures OneRowPerKey(st.sink)
  {
    forall i, j | 0 <= i < j < |st.sink| ensures st.sink[i].item.key != st.sink[j].item.key {
      var a := RowTarget(st, drafts, i);
      var b := RowTarget(st, drafts, j);
    }
  }

  /** No row belongs to two different keys. */
  ghost predicate OneKeyEach(drafts: set<Draft>) {
    forall a, b :: a in drafts && b in drafts && Target(a).Stored? && Target(a) == Target(b) ==> a.key == b.key
  }

  /** The sink holds a row under the event's primary key, and the row carries the event's own dedupe key. */
  ghost predicate HasOwn(sink: seq<Row>, e: Event) {
    RouteOf(e).Write? &&
    exists j :: 0 <= j < |sink| && sink[j].pk == PkOf(e, RouteOf(e).table) && sink[j].item.key == e.key
  }

  /** A processed event was quarantined, has its own row in the sink, or is one no table takes. */
  ghost predicate OwnRow(sink: seq<Row>, e: Event) {
    e.Pending() || e.quarantined || HasOwn(sink, e) || RouteOf(e) == Nothing
  }

  ghost predicate OwnRows(st: State) {
    && (forall i :: 0 <= i < |st.queue| ==> OwnRow(st.sink, st.queue[i]))
    && (forall i :: 0 <= i < |st.gone| ==> OwnRow(st.sink, st.gone[i]))
  }

  /** When a key names its destination, whatever settled the key settled the event. */
  lemma PinnedSettled(emitted: seq<Event>, sink: seq<Row>, drafts: set<Draft>, e: Event)
    requires From(emitted, e) && Settled(emitted, sink, e.key) && OneTargetEach(drafts)
    requires forall i :: 0 <= i < |emitted| ==> DraftOf(emitted[i]) in drafts
    ensures DraftOf(e) in drafts && (InSink(sink, e) || RouteOf(e) == Nothing)
  {
    assert DraftOf(emitted[e.id - 1]) == DraftOf(e);
    var j :| 0 <= j < |emitted| && emitted[j].key == e.key
      && (InSink(sink, emitted[j]) || RouteOf(emitted[j]) == Nothing);
    assert Target(DraftOf(emitted[j])) == Target(DraftOf(e));
  }

  /** Whose row it is follows from its primary key. */
  lemma PinnedHasOwn(st: State, drafts: set<Draft>, e: Event)
    requires EmittedFrom(st, drafts) && SinkOk(st) && OneKeyEach(drafts) && DraftOf(e) in drafts && InSink(st.sink, e)
    ensures HasOwn(st.sink, e)
  {
    var j :| 0 <= j < |st.sink| && st.sink[j].pk == PkOf(e, RouteOf(e).table);
    var d := RowTarget(st, drafts, j);
    assert Target(DraftOf(e)) == Target(d);
  }

  lemma PinnedOwnRow(st: State, drafts: set<Draft>, e: Event)
    requires EmittedFrom(st, drafts) && SinkOk(st) && EventOk(st.emitted, st.sink, e)
    requires OneTargetEach(drafts) && OneKeyEach(drafts)
    ensures OwnRow(st.sink, e)
  {
    if !e.Pending() && !e.quarantined {
      PinnedSettled(st.emitted, st.sink, drafts, e);
      if InSink(st.sink, e) {
        PinnedHasOwn(st, drafts, e);
      }
    }
  }

  // ---- a run in which a key comes back ----

  /** A run that emits only `drafts` and ends in `last`. */
  ghost predicate Reaches(states: seq<State>, steps: seq<Step>, drafts: set<Draft>, last: State) {
    Run(states, steps) && Emits(steps, drafts) && states[|steps|] == last
  }

  /** One more step. */
  lemma Extend(states: seq<State>, steps: seq<Step>, drafts: set<Draft>, last: State, step: Step, next: State)
    returns (longer: seq<State>, more: seq<Step>)
    requires Reaches(states, steps, drafts, last) && Enabled(last, step) && Next(last, step) == next
    requires step.Emit? ==> Draft(step.kind, step.key, step.payload, step.at) in drafts
    ensures Reaches(longer, more, drafts, next)
  {
    longer, more := states + [next], steps + [step];
  }

  function StoredRows(d: Draft, id: nat): seq<Row> {
    var e := Queued(d, id);
    if RouteOf(e).Write? then [RowOf(e, RouteOf(e).table)] else []
  }

  lemma OneEventBatch(d: Draft, id: nat)
    requires Target(d) != SetAside
    ensures SpecRows([Queued(d, id)]) == StoredRows(d, id)
    ensures RefusedItems([Queued(d, id)], 1) == []
  {
    var e := Queued(d, id);
    forall table: Table ensures RowsFor([e], table, 1) == if RouteOf(e) == Write(table) then [RowOf(e, table)] else [] {
      assert RowsFor([e], table, 0) == [];
    }
    assert RefusedItems([e], 0) == [];
  }

  /** One worker that set nothing aside. */
  function Alone(queue: seq<Event>, gone: seq<Event>, emitted: seq<Event>, sink: seq<Row>, phase: Phase,
      batch: seq<Event>, mail: set<Message>): State
  {
    State(queue, gone, emitted, sink, [Worker(phase, batch, [])], mail)
  }

  function AckFor(d: Draft, id: nat): Message {
    Message([Item(id, d.key)], false)
  }

  lemma PollsOne(d: Draft, id: nat)
    ensures PendingFirst([Queued(d, id)], 1, PollLimit(500)) == [Queued(d, id)]
  {
    assert PendingFirst([Queued(d, id)], 0, PollLimit(500)) == [];
  }

  lemma AcksOne(d: Draft, id: nat)
    ensures AckOf(Worker(Quarantined, [Queued(d, id)], [])) == AckFor(d, id)
  {
    assert Good([Queued(d, id)], [], 0) == [];
  }

  lemma LandsOne(sink: seq<Row>, d: Draft, id: nat)
    ensures InsertedAll(sink, StoredRows(d, id), |StoredRows(d, id)|)
            == if Target(d).Stored? && !Knows(sink, Target(d).pk) then sink + StoredRows(d, id) else sink
  {
    if StoredRows(d, id) != [] {
      assert InsertedAll(sink, StoredRows(d, id), 0) == sink;
    }
  }

  /** Emit, poll, write: an event nobody refuses lands. */
  lemma EmitAndWrite(states: seq<State>, steps: seq<Step>, drafts: set<Draft>, d: Draft, gone: seq<Event>,
      past: seq<Event>, sink: seq<Row>, batch: seq<Event>, mail: set<Message>)
    returns (longer: seq<State>, more: seq<Step>)
    requires d in drafts && Target(d) != SetAside
    requires Reaches(states, steps, drafts, Alone([], gone, past, sink, Idle, batch, mail))
    ensures var e := Queued(d, |past| + 1);
            Reaches(longer, more, drafts,
                    Alone([e], gone, past + [e], InsertedAll(sink, StoredRows(d, e.id), |StoredRows(d, e.id)|), Written,
                      [e], mail))
  {
    var e := Queued(d, |past| + 1);
    var s0 := Alone([], gone, past, sink, Idle, batch, mail);
    var s1 := Alone([e], gone, past + [e], sink, Idle, batch, mail);
    longer, more := Extend(states, steps, drafts, s0, Emit(d.kind, d.key, d.payload, d.at), s1);
    PollsOne(d, e.id);
    var s2 := Alone([e], gone, past + [e], sink, Polled, [e], mail);
    longer, more := Extend(longer, more, drafts, s1, Poll(0, 500), s2);
    OneEventBatch(d, e.id);
    var landed := InsertedAll(sink, StoredRows(d, e.id), |StoredRows(d, e.id)|);
    var s3 := Alone([e], gone, past + [e], landed, Written, [e], mail);
    longer, more := Extend(longer, more, drafts, s2, BatchCommits(0), s3);
  }

  /** The acknowledgement travels and arrives. */
  lemma AckArrives(states: seq<State>, steps: seq<Step>, drafts: set<Draft>, d: Draft, id: nat, gone: seq<Event>,
      past: seq<Event>, sink: seq<Row>, mail: set<Message>)
    returns (longer: seq<State>, more: seq<Step>)
    requires var e := Queued(d, id);
             Reaches(states, steps, drafts, Alone([e], gone, past, sink, Written, [e], mail))
    ensures var e := Queued(d, id);
            Reaches(longer, more, drafts,
                    Alone([e.(processedAt := Some(0))], gone, past, sink, Acking, [e], mail + {AckFor(d, id)}))
  {
    var e := Queued(d, id);
    var m := AckFor(d, id);
    var s0 := Alone([e], gone, past, sink, Written, [e], mail);
    var s1 := Alone([e], gone, past, sink, Quarantined, [e], mail);
    longer, more := Extend(states, steps, drafts, s0, NothingToQuarantine(0), s1);
    AcksOne(d, id);
    var s2 := Alone([e], gone, past, sink, Acking, [e], mail + {m});
    longer, more := Extend(longer, more, drafts, s1, SendAck(0), s2);
    assert m.items[0].id in Ids(m.items);
    Marks(d, id, m, 0);
    var s3 := Alone([e.(processedAt := Some(0))], gone, past, sink, Acking, [e], mail + {m});
    longer, more := Extend(longer, more, drafts, s2, Arrives(m, 0), s3);
  }

  /** And retention takes the event out. */
  lemma AckAndPrune(states: seq<State>, steps: seq<Step>, drafts: set<Draft>, d: Draft, sink: seq<Row>)
    returns (longer: seq<State>, more: seq<Step>, done: Event)
    requires var e := Queued(d, 1);
             Reaches(states, steps, drafts, Alone([e], [], [e], sink, Written, [e], {}))
    ensures done == Queued(d, 1).(processedAt := Some(0))
    ensures Reaches(longer, more, drafts,
      Alone([], [done], [Queued(d, 1)], sink, Acking, [Queued(d, 1)], {AckFor(d, 1)}))
  {
    var e := Queued(d, 1);
    done := e.(processedAt := Some(0));
    longer, more := AckArrives(states, steps, drafts, d, 1, [], [e], sink, {});
    assert {} + {AckFor(d, 1)} == {AckFor(d, 1)};
    var s0 := Alone([done], [], [e], sink, Acking, [e], {AckFor(d, 1)});
    Prunes(done);
    var s1 := Alone([], [done], [e], sink, Acking, [e], {AckFor(d, 1)});
    longer, more := Extend(longer, more, drafts, s0, Prune(1, 0), s1);
  }

  /** A message that names a pending event by its id or by its key marks it. */
  lemma Marks(d: Draft, id: nat, m: Message, now: int)
    requires !m.poison && (id in Ids(m.items) || d.key in Keys(m.items))
    ensures Handled([Queued(d, id)], m, now) == [Queued(d, id).(processedAt := Some(now))]
  {
  }

  lemma Prunes(done: Event)
    requires done.processedAt == Some(0)
    ensures Pruned([done], 1, 0) == [] && DroppedBy([done], 1, Overflow([done], 0), 1) == [done]
  {
    assert Drops([done], 1, 1, 0);
    assert Kept([done], 1, 1, 0) == [] && DroppedBy([done], 1, 1, 0) == [];
  }

  /** First `a` is written, acknowledged and retired, then its worker dies with the acknowledgement still in the
      mail. */
  lemma Retires(a: Draft, drafts: set<Draft>) returns (states: seq<State>, steps: seq<Step>, done: Event)
    requires a in drafts && Target(a) != SetAside
    ensures done == Queued(a, 1).(processedAt := Some(0))
    ensures Reaches(states, steps, drafts,
      Alone([], [done], [Queued(a, 1)], StoredRows(a, 1), Idle, [], {AckFor(a, 1)}))
  {
    states, steps := [Start(1)], [];
    assert Start(1) == Alone([], [], [], [], Idle, [], {});
    states, steps := EmitAndWrite(states, steps, drafts, a, [], [], [], [], {});
    LandsOne([], a, 1);
    states, steps, done := AckAndPrune(states, steps, drafts, a, StoredRows(a, 1));
    var s7 := Alone([], [done], [Queued(a, 1)], StoredRows(a, 1), Acking, [Queued(a, 1)], {AckFor(a, 1)});
    var s8 := Alone([], [done], [Queued(a, 1)], StoredRows(a, 1), Idle, [], {AckFor(a, 1)});
    states, steps := Extend(states, steps, drafts, s7, Crash(0, false), s8);
  }

  /** A key that comes back for another row is in the sink twice. */
  lemma StoredTwice(a: Draft, b: Draft, drafts: set<Draft>) returns (states: seq<State>, steps: seq<Step>)
    requires a in drafts && b in drafts && a.key == b.key
    requires Target(a).Stored? && Target(b).Stored? && Target(a) != Target(b)
    ensures Run(states, steps) && Emits(steps, drafts)
    ensures states[|steps|].sink == StoredRows(a, 1) + StoredRows(b, 2) && !OneRowPerKey(states[|steps|].sink)
  {
    var done;
    states, steps, done := Retires(a, drafts);
    states, steps := EmitAndWrite(states, steps, drafts, b, [done], [Queued(a, 1)], StoredRows(a, 1), [],
      {AckFor(a, 1)});
    assert !Knows(StoredRows(a, 1), Target(b).pk);
    LandsOne(StoredRows(a, 1), b, 2);
    var sink := states[|steps|].sink;
    assert sink[0].item.key == sink[1].item.key;
  }

  /** A key that comes back for another destination can be settled by an acknowledgement of the first event. */
  lemma SettledUnwritten(a: Draft, b: Draft, drafts: set<Draft>) returns (states: seq<State>, steps: seq<Step>)
    requires a in drafts && b in drafts && a.key == b.key != ""
    requires Target(a) != Target(b) && !Target(a).SetAside? && !Target(b).Cleared?
    ensures Run(states, steps) && Emits(steps, drafts) && !OwnRows(states[|steps|])
  {
    var done;
    states, steps, done := Retires(a, drafts);
    var m, e := AckFor(a, 1), Queued(b, 2);
    var s8 := Alone([], [done], [Queued(a, 1)], StoredRows(a, 1), Idle, [], {m});
    var s9 := Alone([e], [done], [Queued(a, 1), e], StoredRows(a, 1), Idle, [], {m});
    states, steps := Extend(states, steps, drafts, s8, Emit(b.kind, b.key, b.payload, b.at), s9);
    assert m.items[0].key in Keys(m.items);
    Marks(b, 2, m, 0);
    var late := e.(processedAt := Some(0));
    var s10 := Alone([late], [done], [Queued(a, 1), e], StoredRows(a, 1), Idle, [], {m});
    states, steps := Extend(states, steps, drafts, s9, Arrives(m, 0), s10);
    assert DestinationOf(late) == Target(b);
    assert !OwnRow(s10.sink, s10.queue[0]);
  }

  /** A key whose row is already there under another key is acknowledged without a row of its own. */
  lemma RowOfAnother(a: Draft, b: Draft, drafts: set<Draft>) returns (states: seq<State>, steps: seq<Step>)
    requires a in drafts && b in drafts && a.key != b.key && Target(a).Stored? && Target(a) == Target(b)
    ensures Run(states, steps) && Emits(steps, drafts)
    ensures states[|steps|].sink == StoredRows(a, 1) && !OwnRows(states[|steps|])
  {
    var done;
    states, steps, done := Retires(a, drafts);
    var e, past, mail := Queued(b, 2), [Queued(a, 1), Queued(b, 2)], {AckFor(a, 1)};
    states, steps := EmitAndWrite(states, steps, drafts, b, [done], [Queued(a, 1)], StoredRows(a, 1), [], mail);
    assert StoredRows(a, 1)[0].pk == Target(b).pk;
    LandsOne(StoredRows(a, 1), b, 2);
    states, steps := AckArrives(states, steps, drafts, b, 2, [done], past, StoredRows(a, 1), mail);
    var st := states[|steps|];
    assert DestinationOf(st.queue[0]) == Target(b);
    assert !OwnRow(st.sink, st.queue[0]);
  }

  // ---- exactly when ----

  ghost predicate AlwaysOneRowPerKey(drafts: set<Draft>) {
    forall states: seq<State>, steps: seq<Step> :: Run(states, steps) && Emits(steps, drafts) ==>
      forall k :: 0 <= k < |states| ==> OneRowPerKey(states[k].sink)
  }

  ghost predicate AlwaysOwnRows(drafts: set<Draft>) {
    forall states: seq<State>, steps: seq<Step> :: Run(states, steps) && Emits(steps, drafts) ==>
      forall k :: 0 <= k < |states| ==> OwnRows(states[k])
  }

  /** The sink keeps one row per dedupe key in every run exactly when no key is emitted for two different rows. */
  lemma OneRowPerKeyIff(drafts: set<Draft>)
    ensures OneRowEach(drafts) <==> AlwaysOneRowPerKey(drafts)
  {
    if OneRowEach(drafts) {
      forall states: seq<State>, steps: seq<Step>, k | Run(states, steps) && Emits(steps, drafts) && 0 <= k < |states|
        ensures OneRowPerKey(states[k].sink)
      {
        RunKeeps(states, steps, k);
        RunEmits(states, steps, drafts, k);
        PinnedRows(states[k], drafts);
      }
    } else {
      var a, b :| a in drafts && b in drafts && a.key == b.key && Target(a).Stored? && Target(b).Stored?
        && Target(a) != Target(b);
      var states, steps := StoredTwice(a, b, drafts);
    }
  }

  /** Every processed event has its own row (under its primary key, carrying its dedupe key), was quarantined or is one
      no table takes, in every run, exactly when no key is emitted for two different destinations and no row belongs to
      two keys. */
  lemma OwnRowsIff(drafts: set<Draft>)
    requires forall d :: d in drafts ==> d.key != ""
    ensures OneTargetEach(drafts) && OneKeyEach(drafts) <==> AlwaysOwnRows(drafts)
  {
    if !OneTargetEach(drafts) {
      var a, b :| a in drafts && b in drafts && a.key == b.key && Target(a) != Target(b);
      if Target(a).SetAside? || Target(b).Cleared? {
        var states, steps := SettledUnwritten(b, a, drafts);
      } else {
        var states, steps := SettledUnwritten(a, b, drafts);
      }
    } else if !OneKeyEach(drafts) {
      var a, b :| a in drafts && b in drafts && Target(a).Stored? && Target(a) == Target(b) && a.key != b.key;
      var states, steps := RowOfAnother(a, b, drafts);
    } else {
      forall states: seq<State>, steps: seq<Step>, k | Run(states, steps) && Emits(steps, drafts) && 0 <= k < |states|
        ensures OwnRows(states[k])
      {
        RunKeeps(states, steps, k);
        RunEmits(states, steps, drafts, k);
        PinnedState(states[k], drafts);
      }
    }
  }

  lemma PinnedState(st: State, drafts: set<Draft>)
    requires Inv(st) && EmittedFrom(st, drafts) && OneTargetEach(drafts) && OneKeyEach(drafts)
    ensures OwnRows(st)
  {
    forall i | 0 <= i < |st.queue| ensures OwnRow(st.sink, st.queue[i]) {
      PinnedOwnRow(st, drafts, st.queue[i]);
    }
    forall i | 0 <= i < |st.gone| ensures OwnRow(st.sink, st.gone[i]) {
      PinnedOwnRow(st, drafts, st.gone[i]);
    }
  }

  // ---- the keys the store writes ----

  /** Ticks are keyed by session and number, enforcement ticks by charge point, time and power, in some text form;
      states may have any key. */
  ghost predicate StoreKeyed(d: Draft, tick: (int, int) -> string, enforcement: (int, int, real) -> string) {
    var p := d.payload;
    && (d.kind == METER_TICK && p.session.Some? ==> d.key == tick(p.session.value, p.seqNo))
    && (d.kind == ENFORCEMENT_TICK && p.cp.Some? && p.ts.Some? && p.scheduledKw.Some? ==>
          d.key == enforcement(p.cp.value, p.ts.value, p.scheduledKw.value))
  }

  /** With such keys no row belongs to two keys, whatever the text form. */
  lemma StoreKeysNameRows(drafts: set<Draft>, tick: (int, int) -> string, enforcement: (int, int, real) -> string)
    requires forall d :: d in drafts ==> StoreKeyed(d, tick, enforcement)
    ensures OneKeyEach(drafts)
  {
    forall a, b | a in drafts && b in drafts && Target(a).Stored? && Target(a) == Target(b) ensures a.key == b.key {
      assert StoreKeyed(a, tick, enforcement) && StoreKeyed(b, tick, enforcement);
    }
  }

  /** So for the store's events it comes down to keys that come back: every processed event has its own row in every run
      exactly when no key is emitted for two different destinations. */
  lemma StoreRowsIff(drafts: set<Draft>, tick: (int, int) -> string, enforcement: (int, int, real) -> string)
    requires forall d :: d in drafts ==> d.key != "" && StoreKeyed(d, tick, enforcement)
    ensures OneTargetEach(drafts) <==> AlwaysOwnRows(drafts)
  {
    StoreKeysNameRows(drafts, tick, enforcement);
    OwnRowsIff(drafts);
  }

  // ---- the key that comes back in practice ----

  /** The release of a connector's hold: its key names the connector and nothing that varies. */
  function Release(ref: string, at: int): Draft {
    Draft(CONNECTOR_STATE, "connstate:" + ref + ":none:release",
      Payload(None, 0, None, None, Some(ref), false, None), at)
  }

  /** Two releases of one connector share a key, and a row only within one second. */
  lemma ReleaseComesBack(ref: string, at: int, again: int)
    ensures OneRowEach({Release(ref, at), Release(ref, again)}) <==> ToSec(at) == ToSec(again)
    ensures ToSec(at) != ToSec(again) ==> !AlwaysOneRowPerKey({Release(ref, at), Release(ref, again)})
  {
    var a, b := Release(ref, at), Release(ref, again);
    assert Target(a) == Stored(StateKey(Connector(ref), ToSec(at), a.key));
    assert Target(b) == Stored(StateKey(Connector(ref), ToSec(again), b.key));
    OneRowPerKeyIff({a, b});
  }
}
