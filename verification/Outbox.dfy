/** The at-least-once queue: emission, acknowledgement, quarantine and in-place retention. */
module Outbox {
  import opened Reals
  import opened Ordering

  datatype Kind = METER_TICK | ENFORCEMENT_TICK | CONNECTOR_STATE | SESSION_EVENT | OTHER

  /** What the relay looks at in a payload: the fields that identify a row (`None` when missing; an absent sequence
      number is 0), and whether the register is a finite number (`scheduledKw` is `None` when it is not). */
  datatype Payload = Payload(
    session: Option<int>,
    seqNo: int,
    ts: Option<int>,
    cp: Option<int>,
    ref: Option<string>,
    finiteMeter: bool,
    scheduledKw: Option<real>)

  datatype Event = Event(
    id: nat,
    kind: Kind,
    key: string,
    payload: Payload,
    createdAt: int,
    processedAt: Option<int>,
    quarantined: bool)
  {
    predicate Pending() {
      processedAt.None?
    }
  }

  /** What left the queue, as the caller is told. */
  datatype Item = Item(id: nat, key: string)

  // ---- what one pass over the queue does ----

  predicate Wanted(e: Event, ids: set<nat>, keys: set<string>) {
    e.Pending() && (e.id in ids || e.key in keys)
  }

  /** A pending event that was asked for is marked, in quarantine or not. */
  function MarkedEvent(e: Event, ids: set<nat>, keys: set<string>, now: int, poison: bool): Event {
    if Wanted(e, ids, keys) then e.(processedAt := Some(now), quarantined := poison) else e
  }

  function Marked(events: seq<Event>, ids: set<nat>, keys: set<string>, now: int, poison: bool): (r: seq<Event>)
    ensures |r| == |events|
  {
    seq(|events|, i requires 0 <= i < |events| => MarkedEvent(events[i], ids, keys, now, poison))
  }

  // ---- retention ----

  /** Number of acked events among the first n. */
  function AckedBefore(events: seq<Event>, n: nat): (c: nat)
    requires n <= |events|
    ensures c <= n
  {
    if n == 0 then 0 else AckedBefore(events, n - 1) + if events[n - 1].Pending() then 0 else 1
  }

  /** An event leaves once it is acked and either past the retention horizon or among the `overflow` oldest acked
      ones. */
  predicate Drops(events: seq<Event>, horizon: int, overflow: nat, i: nat)
    requires i < |events|
  {
    !events[i].Pending() && (events[i].processedAt.value < horizon || AckedBefore(events, i) < overflow)
  }

  function Kept(events: seq<Event>, horizon: int, overflow: nat, n: nat): (r: seq<Event>)
    requires n <= |events|
    ensures |r| <= n
  {
    if n == 0 then []
    else if Drops(events, horizon, overflow, n - 1) then Kept(events, horizon, overflow, n - 1)
    else Kept(events, horizon, overflow, n - 1) + [events[n - 1]]
  }

  function Removed(events: seq<Event>, horizon: int, overflow: nat, n: nat): (r: seq<Item>)
    requires n <= |events|
  {
    if n == 0 then []
    else if Drops(events, horizon, overflow, n - 1) then
      Removed(events, horizon, overflow, n - 1) + [Item(events[n - 1].id, events[n - 1].key)]
    else Removed(events, horizon, overflow, n - 1)
  }

  function Overflow(events: seq<Event>, hardCap: nat): nat {
    if |events| > hardCap then |events| - hardCap else 0
  }

  /** The queue after one pruning. */
  function Pruned(events: seq<Event>, horizon: int, hardCap: nat): seq<Event> {
    Kept(events, horizon, Overflow(events, hardCap), |events|)
  }

  /** Ids ascend and keys are distinct. */
  ghost predicate Sequenced(events: seq<Event>, last: nat) {
    && (forall i, j :: 0 <= i < j < |events| ==> events[i].id < events[j].id && events[i].key != events[j].key)
    && (forall i :: 0 <= i < |events| ==> events[i].id <= last)
  }

  function KeySet(events: seq<Event>): set<string> {
    set i | 0 <= i < |events| :: events[i].key
  }

  lemma {:induction false} KeptFrom(events: seq<Event>, horizon: int, overflow: nat, n: nat)
    requires n <= |events|
    ensures forall j ::
      0 <= j < |Kept(events, horizon, overflow, n)| ==> Kept(events, horizon, overflow, n)[j] in events[..n]
  {
    if n > 0 {
      KeptFrom(events, horizon, overflow, n - 1);
      assert events[..n] == events[..n - 1] + [events[n - 1]];
    }
  }

  lemma {:induction false} KeptSequenced(events: seq<Event>, horizon: int, overflow: nat, n: nat, last: nat)
    requires n <= |events| && Sequenced(events, last)
    ensures Sequenced(Kept(events, horizon, overflow, n), last)
  {
    if n > 0 {
      KeptSequenced(events, horizon, overflow, n - 1, last);
      KeptFrom(events, horizon, overflow, n - 1);
      var r := Kept(events, horizon, overflow, n - 1);
      forall j | 0 <= j < |r| ensures r[j].id < events[n - 1].id && r[j].key != events[n - 1].key {
        var i :| 0 <= i < n - 1 && events[i] == r[j];
      }
    }
  }

  /** Event i is still in the queue exactly when it does not drop; in particular no pending event ever leaves. */
  lemma {:induction false} KeptIff(events: seq<Event>, horizon: int, overflow: nat, n: nat, last: nat, i: nat)
    requires i < n <= |events| && Sequenced(events, last)
    ensures events[i] in Kept(events, horizon, overflow, n) <==> !Drops(events, horizon, overflow, i)
    decreases n
  {
    var r := Kept(events, horizon, overflow, n - 1);
    if i < n - 1 {
      KeptIff(events, horizon, overflow, n - 1, last, i);
    } else {
      KeptFrom(events, horizon, overflow, n - 1);
      assert events[i] !in events[..i];
    }
  }

  /** Pruning takes events out in place: order and contents of the rest are untouched, and only acked events go. */
  lemma PrunedIs(events: seq<Event>, horizon: int, hardCap: nat, last: nat)
    requires Sequenced(events, last)
    ensures var r := Pruned(events, horizon, hardCap);
            && Sequenced(r, last)
            && (forall e :: e in r ==> e in events)
            && (forall i :: 0 <= i < |events| ==> (events[i] in r
                 <==> !Drops(events, horizon, Overflow(events, hardCap), i)))
            && (forall e :: e in events && e.Pending() ==> e in r)
  {
    var overflow, n := Overflow(events, hardCap), |events|;
    KeptFrom(events, horizon, overflow, n);
    KeptSequenced(events, horizon, overflow, n, last);
    forall i | 0 <= i < n
      ensures events[i] in Kept(events, horizon, overflow, n) <==> !Drops(events, horizon, overflow, i)
    {
      KeptIff(events, horizon, overflow, n, last, i);
    }
    assert events[..n] == events;
  }

  /** What is reported as removed is exactly what left: queue and report together are the old queue. */
  lemma {:induction false} RemovedIs(events: seq<Event>, horizon: int, overflow: nat, n: nat)
    requires n <= |events|
    ensures |Kept(events, horizon, overflow, n)| + |Removed(events, horizon, overflow, n)| == n
    ensures forall i :: 0 <= i < n && Drops(events, horizon, overflow, i) ==>
              Item(events[i].id, events[i].key) in Removed(events, horizon, overflow, n)
    ensures forall x :: x in Removed(events, horizon, overflow, n) ==>
              exists i :: 0 <= i < n && Drops(events, horizon, overflow, i) && x == Item(events[i].id, events[i].key)
  {
    if n > 0 {
      RemovedIs(events, horizon, overflow, n - 1);
    }
  }

  /** At least `overflow` events leave, unless every acked event does. */
  lemma {:induction false} RemovedEnough(events: seq<Event>, horizon: int, overflow: nat, n: nat)
    requires n <= |events|
    ensures var acked := AckedBefore(events, n);
            |Removed(events, horizon, overflow, n)| >= if acked < overflow then acked else overflow
  {
    if n > 0 {
      RemovedEnough(events, horizon, overflow, n - 1);
    }
  }

  lemma {:induction false} AckedAscend(events: seq<Event>, i: nat, j: nat)
    requires i <= j <= |events|
    ensures AckedBefore(events, i) <= AckedBefore(events, j)
    decreases j
  {
    if i < j {
      AckedAscend(events, i, j - 1);
    }
  }

  /** After a pruning the queue is within the hard cap, or holds nothing but pending events. */
  lemma PrunedFits(events: seq<Event>, horizon: int, hardCap: nat, last: nat)
    requires Sequenced(events, last)
    ensures var r := Pruned(events, horizon, hardCap);
            |r| <= hardCap || forall j :: 0 <= j < |r| ==> r[j].Pending()
  {
    var overflow, n := Overflow(events, hardCap), |events|;
    var r := Pruned(events, horizon, hardCap);
    RemovedIs(events, horizon, overflow, n);
    RemovedEnough(events, horizon, overflow, n);
    PrunedIs(events, horizon, hardCap, last);
    if AckedBefore(events, n) < overflow {
      forall j | 0 <= j < |r| ensures r[j].Pending() {
        assert r[j] in events;
        var i :| 0 <= i < n && events[i] == r[j];
        AckedAscend(events, i, n);
      }
    }
  }

  // ---- who stays and who leaves, from the events' own fields ----

  /** The positions before i whose events have been processed. */
  ghost function ProcessedAhead(events: seq<Event>, i: nat): set<nat>
    requires i <= |events|
  {
    set j: nat | j < i && events[j].processedAt.Some?
  }

  lemma {:induction false} AckedCount(events: seq<Event>, i: nat)
    requires i <= |events|
    ensures |ProcessedAhead(events, i)| == AckedBefore(events, i)
  {
    if i > 0 {
      AckedCount(events, i - 1);
      var more := if events[i - 1].processedAt.Some? then {i - 1} else {};
      assert ProcessedAhead(events, i) == ProcessedAhead(events, i - 1) + more;
    }
  }

  /** An event stays exactly when it is unprocessed, or young enough while the queue is within its hard cap or as many
      processed events as the queue is over it come before it. */
  lemma StaysIff(events: seq<Event>, horizon: int, hardCap: nat, last: nat, i: nat)
    requires Sequenced(events, last) && i < |events|
    ensures events[i] in Pruned(events, horizon, hardCap) <==>
            || events[i].processedAt.None?
            || (events[i].processedAt.value >= horizon
                 && (|events| <= hardCap || |ProcessedAhead(events, i)| >= |events| - hardCap))
  {
    PrunedIs(events, horizon, hardCap, last);
    AckedCount(events, i);
  }

  /** What is reported is what no longer stays. */
  lemma ReportedIff(events: seq<Event>, horizon: int, hardCap: nat, last: nat, i: nat)
    requires Sequenced(events, last) && i < |events|
    ensures Item(events[i].id, events[i].key) in Removed(events, horizon, Overflow(events, hardCap), |events|)
      <==> events[i] !in Pruned(events, horizon, hardCap)
  {
    var overflow := Overflow(events, hardCap);
    PrunedIs(events, horizon, hardCap, last);
    RemovedIs(events, horizon, overflow, |events|);
    var x := Item(events[i].id, events[i].key);
    if x in Removed(events, horizon, overflow, |events|) {
      var j :| 0 <= j < |events| && Drops(events, horizon, overflow, j) && x == Item(events[j].id, events[j].key);
      assert j == i;
    }
  }

  /** Marking processes, at that instant, every unprocessed event named by id or key, and changes nothing else. */
  lemma MarkedIs(events: seq<Event>, ids: set<nat>, keys: set<string>, now: int, poison: bool, i: nat)
    requires i < |events|
    ensures var e, r := events[i], Marked(events, ids, keys, now, poison)[i];
            && r.id == e.id && r.kind == e.kind && r.key == e.key
            && r.payload == e.payload && r.createdAt == e.createdAt
            && (e.processedAt.Some? || (e.id !in ids && e.key !in keys) ==> r == e)
            && (e.processedAt.None? && (e.id in ids || e.key in keys) ==>
                 r.processedAt == Some(now) && r.quarantined == poison)
  {
  }

  // ---- the shed set, as the code builds it ----

  /** The positions of the acked events among the first n, oldest first. */
  function AckedList(events: seq<Event>, n: nat): (r: seq<nat>)
    requires n <= |events|
    ensures |r| == AckedBefore(events, n)
  {
    if n == 0 then []
    else if events[n - 1].Pending() then AckedList(events, n - 1)
    else AckedList(events, n - 1) + [n - 1]
  }

  /** The k-th acked position has exactly k acked ones before it. */
  lemma {:induction false} AckedListAt(events: seq<Event>, n: nat, k: nat)
    requires n <= |events| && k < |AckedList(events, n)|
    ensures var i := AckedList(events, n)[k];
            i < n && !events[i].Pending() && AckedBefore(events, i) == k
    decreases n
  {
    if k < |AckedList(events, n - 1)| {
      AckedListAt(events, n - 1, k);
    }
  }

  lemma {:induction false} AckedListHas(events: seq<Event>, n: nat, i: nat)
    requires i < n <= |events| && !events[i].Pending()
    ensures AckedBefore(events, i) < |AckedList(events, n)| && AckedList(events, n)[AckedBefore(events, i)] == i
    decreases n
  {
    if i < n - 1 {
      AckedListHas(events, n - 1, i);
    }
  }

  function IdKeys(events: seq<Event>): (keys: seq<Key>)
    ensures |keys| == |events|
  {
    seq(|events|, i requires 0 <= i < |events| => (events[i].id as real, 0))
  }

  /** The filtered events come in the order of their ids. */
  lemma AckedInOrder(events: seq<Event>, last: nat, a: nat, b: nat)
    requires Sequenced(events, last) && a < b < |AckedList(events, |events|)|
    ensures var acked := AckedList(events, |events|);
            acked[a] < |events| && acked[b] < |events| && Before(IdKeys(events)[acked[a]], IdKeys(events)[acked[b]])
  {
    var acked := AckedList(events, |events|);
    AckedListAt(events, |events|, a);
    AckedListAt(events, |events|, b);
    if acked[a] > acked[b] {
      AckedAscend(events, acked[b], acked[a]);
    }
  }

  lemma AckedSorted(events: seq<Event>, last: nat)
    requires Sequenced(events, last)
    ensures InRange(IdKeys(events), AckedList(events, |events|))
    ensures SortBy(IdKeys(events), AckedList(events, |events|)) == AckedList(events, |events|)
  {
    var acked := AckedList(events, |events|);
    forall k | 0 <= k < |acked| ensures acked[k] < |events| {
      AckedListAt(events, |events|, k);
    }
    forall a, b | 0 <= a < b < |acked| ensures Before(IdKeys(events)[acked[a]], IdKeys(events)[acked[b]]) {
      AckedInOrder(events, last, a, b);
    }
    SortedStays(IdKeys(events), acked);
  }

  /** Event i is one of the `overflow` oldest acked ones. */
  predicate Sheds(events: seq<Event>, overflow: nat, i: nat)
    requires i < |events|
  {
    !events[i].Pending() && AckedBefore(events, i) < overflow
  }

  /** The keys in use when the first i events have been compacted. */
  function KeysLeft(events: seq<Event>, horizon: int, overflow: nat, i: nat): set<string>
    requires i <= |events|
  {
    KeySet(Kept(events, horizon, overflow, i)) + KeySet(events[i..])
  }

  lemma KeysStep(events: seq<Event>, horizon: int, overflow: nat, i: nat, last: nat)
    requires i < |events| && Sequenced(events, last)
    ensures KeysLeft(events, horizon, overflow, i + 1)
            == if Drops(events, horizon, overflow, i) then KeysLeft(events, horizon, overflow, i) - {events[i].key}
               else KeysLeft(events, horizon, overflow, i)
  {
    KeptFrom(events, horizon, overflow, i);
    assert events[i..] == [events[i]] + events[i + 1..];
    KeysSplit(Kept(events, horizon, overflow, i), events[i], events[i + 1..], events, i);
  }

  lemma PushKeeps(events: seq<Event>, last: nat, e: Event)
    requires Sequenced(events, last) && e.id == last + 1 && e.key !in KeySet(events)
    ensures Sequenced(events + [e], last + 1) && KeySet(events + [e]) == KeySet(events) + {e.key}
  {
    forall i | 0 <= i < |events| ensures events[i].key != e.key {
      assert events[i].key in KeySet(events);
    }
    assert (events + [e])[|events|].key == e.key;
    forall k | k in KeySet(events) ensures k in KeySet(events + [e]) {
      var i :| 0 <= i < |events| && events[i].key == k;
      assert (events + [e])[i].key == k;
    }
  }

  /** The first i events have been compacted into the first `cursor` places, the rest is where it was. */
  ghost predicate Compacted(start: seq<Event>, events: seq<Event>, horizon: int, overflow: nat, i: nat, cursor: nat)
    requires |events| == |start| && i <= |start|
  {
    && cursor == |Kept(start, horizon, overflow, i)| <= i
    && events[..cursor] == Kept(start, horizon, overflow, i)
    && events[i..] == start[i..]
  }

  lemma CompactStep(start: seq<Event>, events: seq<Event>, horizon: int, overflow: nat, i: nat, cursor: nat)
    requires |events| == |start| && i < |start| && Compacted(start, events, horizon, overflow, i, cursor)
    ensures events[i] == start[i]
    ensures if Drops(start, horizon, overflow, i) then Compacted(start, events, horizon, overflow, i + 1, cursor)
            else Compacted(start, events[cursor := start[i]], horizon, overflow, i + 1, cursor + 1)
  {
    assert events[i] == events[i..][0] == start[i..][0];
    assert events[i + 1..] == events[i..][1..] && start[i + 1..] == start[i..][1..];
    if !Drops(start, horizon, overflow, i) {
      var r := events[cursor := start[i]];
      assert r[..cursor + 1] == events[..cursor] + [start[i]];
      assert r[i + 1..] == events[i + 1..];
    }
  }

  class Queue {
    var events: seq<Event>
    var keys: set<string>
    var last: nat
    var nextPruneAt: int
    const softCap: nat
    const hardCap: nat
    const retentionMs: nat
    const intervalMs: nat

    ghost predicate Valid()
      reads this
    {
      Sequenced(events, last) && keys == KeySet(events) && softCap <= hardCap
    }

    constructor (softCap: nat, hardCap: nat, retentionMs: nat, intervalMs: nat)
      requires softCap <= hardCap
      ensures Valid() && events == [] && last == 0
    {
      events, keys, last, nextPruneAt := [], {}, 0, 0;
      this.softCap, this.hardCap, this.retentionMs, this.intervalMs := softCap, hardCap, retentionMs, intervalMs;
    }

    method AckedPositions() returns (acked: seq<nat>)
      ensures acked == AckedList(events, |events|)
    {
      acked := [];
      for i := 0 to |events|
        invariant acked == AckedList(events, i)
      {
        if !events[i].Pending() {
          acked := acked + [i];
        }
      }
    }

    method FirstIds(acked: seq<nat>, overflow: nat) returns (shed: set<nat>)
      requires InRange(IdKeys(events), acked)
      ensures shed == set j | 0 <= j < |acked| && j < overflow :: events[acked[j]].id
    {
      shed := {};
      var k := 0;
      while k < |acked| && k < overflow
        invariant 0 <= k <= |acked| && k <= overflow
        invariant shed == set j | 0 <= j < k :: events[acked[j]].id
      {
        shed := shed + {events[acked[k]].id};
        k := k + 1;
      }
    }

    /** Ids of the `overflow` oldest acked events. */
    method ShedSet(overflow: nat) returns (shed: set<nat>)
      requires Valid()
      ensures forall i :: 0 <= i < |events| ==> (events[i].id in shed <==> Sheds(events, overflow, i))
    {
      var acked := AckedPositions();
      AckedSorted(events, last);
      shed := FirstIds(SortBy(IdKeys(events), acked), overflow);
      forall i | 0 <= i < |events| ensures events[i].id in shed <==> Sheds(events, overflow, i) {
        ShedMembership(events, last, shed, overflow, i);
      }
    }

    method PruneOutbox(now: int) returns (removed: seq<Item>)
      requires Valid()
      modifies this
      ensures Valid() && last == old(last) && nextPruneAt == old(nextPruneAt)
      ensures events == Pruned(old(events), now - retentionMs, hardCap)
      ensures removed == Removed(old(events), now - retentionMs, Overflow(old(events), hardCap), |old(events)|)
    {
      var horizon := now - retentionMs;
      var overflow := Overflow(events, hardCap);
      ghost var start := events;
      var shed := ShedSet(overflow);
      removed := [];
      var cursor := 0;
      for i := 0 to |events|
        invariant |events| == |start| && last == old(last) && nextPruneAt == old(nextPruneAt)
        invariant Compacted(start, events, horizon, overflow, i, cursor)
        invariant removed == Removed(start, horizon, overflow, i)
        invariant keys == KeysLeft(start, horizon, overflow, i)
      {
        var e := events[i];
        CompactStep(start, events, horizon, overflow, i, cursor);
        KeysStep(start, horizon, overflow, i, last);
        if !e.Pending() && (e.processedAt.value < horizon || e.id in shed) {
          keys := keys - {e.key};
          removed := removed + [Item(e.id, e.key)];
        } else {
          events := events[cursor := e];
          cursor := cursor + 1;
        }
      }
      KeptSequenced(start, horizon, overflow, |start|, last);
      events := events[..cursor];
    }

    method PruneIfDue(now: int) returns (removed: seq<Item>)
      requires Valid()
      modifies this
      ensures Valid() && last == old(last)
      ensures |old(events)| <= hardCap && now < old(nextPruneAt) ==> events == old(events) && removed == []
      ensures !(|old(events)| <= hardCap && now < old(nextPruneAt)) ==>
                && events == Pruned(old(events), now - retentionMs, hardCap) && nextPruneAt == now + intervalMs
                && removed == Removed(old(events), now - retentionMs, Overflow(old(events), hardCap), |old(events)|)
    {
      if |events| <= hardCap && now < nextPruneAt {
        return [];
      }
      nextPruneAt := now + intervalMs;
      removed := PruneOutbox(now);
    }

    /** An event whose key is still queued is not queued again. */
    method Emit(kind: Kind, key: string, payload: Payload, now: int)
      requires Valid()
      modifies this
      ensures Valid()
      ensures key in old(keys) ==> events == old(events) && last == old(last)
      ensures key !in old(keys) ==>
                && last == old(last) + 1
                && var grown := old(events) + [Event(last, kind, key, payload, now, None, false)];
                   if |grown| > softCap && (|grown| > hardCap || now >= old(nextPruneAt)) then
                     events == Pruned(grown, now - retentionMs, hardCap)
                   else events == grown
    {
      if key in keys {
        return;
      }
      PushKeeps(events, last, Event(last + 1, kind, key, payload, now, None, false));
      keys := keys + {key};
      last := last + 1;
      events := events + [Event(last, kind, key, payload, now, None, false)];
      if |events| > softCap {
        var removed := PruneIfDue(now);
      }
    }

    /** The acknowledgement handler. */
    method Ack(ids: set<nat>, acked: set<string>, now: int) returns (removed: seq<Item>)
      requires Valid()
      modifies this
      ensures Valid() && last == old(last)
      ensures var marked := Marked(old(events), ids, acked, now, false);
              if |marked| > hardCap || now >= old(nextPruneAt) then events == Pruned(marked, now - retentionMs, hardCap)
              else events == marked
    {
      Mark(ids, acked, now, false);
      removed := PruneIfDue(now);
    }

    /** The quarantine handler; returns what it marked. */
    method Quarantine(ids: set<nat>, poisoned: set<string>, now: int) returns (marked: seq<Item>)
      requires Valid()
      modifies this`events
      ensures Valid() && events == Marked(old(events), ids, poisoned, now, true)
      ensures forall x :: x in marked <==> exists i :: 0 <= i < |old(events)| && Wanted(old(events)[i], ids, poisoned)
                                                       && x == Item(old(events)[i].id, old(events)[i].key)
    {
      marked := [];
      for i := 0 to |events|
        invariant forall x :: x in marked <==> exists j :: 0 <= j < i && Wanted(events[j], ids, poisoned)
                                                           && x == Item(events[j].id, events[j].key)
      {
        if Wanted(events[i], ids, poisoned) {
          marked := marked + [Item(events[i].id, events[i].key)];
        }
      }
      Mark(ids, poisoned, now, true);
    }

    /** One pass over the queue, in place. */
    method Mark(ids: set<nat>, wanted: set<string>, now: int, poison: bool)
      requires Valid()
      modifies this`events
      ensures Valid() && events == Marked(old(events), ids, wanted, now, poison)
    {
      ghost var start := events;
      for i := 0 to |events|
        invariant |events| == |start| && events[i..] == start[i..]
        invariant forall j :: 0 <= j < i ==> events[j] == MarkedEvent(start[j], ids, wanted, now, poison)
      {
        assert events[i] == start[i..][0];
        if events[i].Pending() && (events[i].id in ids || events[i].key in wanted) {
          events := events[i := events[i].(processedAt := Some(now), quarantined := poison)];
        }
      }
      assert events == Marked(start, ids, wanted, now, poison);
      MarkKeepsKeys(start, ids, wanted, now, poison);
    }
  }

  lemma MarkKeepsKeys(events: seq<Event>, ids: set<nat>, keys: set<string>, now: int, poison: bool)
    ensures KeySet(Marked(events, ids, keys, now, poison)) == KeySet(events)
  {
    var r := Marked(events, ids, keys, now, poison);
    forall k | k in KeySet(events) ensures k in KeySet(r) {
      var i :| 0 <= i < |events| && events[i].key == k;
      assert r[i].key == k;
    }
  }

  lemma ShedMembership(events: seq<Event>, last: nat, shed: set<nat>, overflow: nat, i: nat)
    requires Sequenced(events, last) && i < |events|
    requires var acked := AckedList(events, |events|);
             InRange(IdKeys(events), acked) && shed == set j | 0 <= j < |acked| && j < overflow :: events[acked[j]].id
    ensures events[i].id in shed <==> Sheds(events, overflow, i)
  {
    var acked := AckedList(events, |events|);
    if Sheds(events, overflow, i) {
      AckedListHas(events, |events|, i);
      assert events[acked[AckedBefore(events, i)]].id == events[i].id;
    }
    if events[i].id in shed {
      var j :| 0 <= j < |acked| && j < overflow && events[acked[j]].id == events[i].id;
      AckedListAt(events, |events|, j);
      assert acked[j] == i;
    }
  }

  /** Taking one event's key out, or leaving it in, when the queue's keys are distinct. */
  lemma KeysSplit(kept: seq<Event>, e: Event, rest: seq<Event>, start: seq<Event>, i: nat)
    requires i < |start| && start[i] == e && rest == start[i + 1..]
    requires forall j, k :: 0 <= j < k < |start| ==> start[j].key != start[k].key
    requires forall j :: 0 <= j < |kept| ==> kept[j] in start[..i]
    ensures KeySet(kept) + KeySet([e] + rest) - {e.key} == KeySet(kept) + KeySet(rest)
    ensures KeySet(kept) + KeySet([e] + rest) == KeySet(kept + [e]) + KeySet(rest)
  {
    forall j | 0 <= j < |kept| ensures kept[j].key != e.key {
      assert kept[j] in start[..i];
    }
    forall j | 0 <= j < |rest| ensures rest[j].key != e.key {
      assert rest[j] == start[i + 1 + j];
    }
    forall k | k in KeySet(rest) ensures k in KeySet([e] + rest) {
      var j :| 0 <= j < |rest| && rest[j].key == k;
      assert ([e] + rest)[j + 1].key == k;
    }
    forall k | k in KeySet(kept) ensures k in KeySet(kept + [e]) {
      var j :| 0 <= j < |kept| && kept[j].key == k;
      assert (kept + [e])[j].key == k;
    }
    assert ([e] + rest)[0].key == e.key && (kept + [e])[|kept|].key == e.key;
  }
}
