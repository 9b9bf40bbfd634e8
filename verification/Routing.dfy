/** Where events go over whole runs of the protocol, read from their kinds and payloads. */
module Routing {
  import opened Reals
  import opened Outbox
  import opened Relay
  import opened Delivery
  import opened Rekeying

  /** Every row of the sink is the row of the event it names, field by field. */
  ghost predicate SinkCarries(st: State) {
    forall j :: 0 <= j < |st.sink| ==> RowCarried(st, st.sink[j])
  }

  ghost predicate RowCarried(st: State, r: Row) {
    1 <= r.item.id <= |st.emitted| && HasFields(r, st.emitted[r.item.id - 1])
      && st.emitted[r.item.id - 1].key == r.item.key
  }

  lemma RowOkCarries(st: State, r: Row)
    requires RowOk(st.emitted, r)
    ensures RowCarried(st, r)
  {
    var e := st.emitted[r.item.id - 1];
    RowCarries(e, r.table);
    assert HasFields(RowOf(e, r.table), e);
  }

  /** In no state of any run does the sink hold a row of a reading that is not a finite number: all its rows carry the
      fields of an event that belongs to their table. */
  lemma OnlyFiniteStored(states: seq<State>, steps: seq<Step>, k: nat)
    requires Run(states, steps) && k <= |steps|
    ensures SinkCarries(states[k])
    ensures var st := states[k];
            forall i, j :: 0 <= i < |st.emitted| && 0 <= j < |st.sink| && NotFinite(st.emitted[i]) ==>
              st.sink[j].item.id != i + 1
  {
    RunKeeps(states, steps, k);
    var st := states[k];
    forall j | 0 <= j < |st.sink| ensures RowCarried(st, st.sink[j]) {
      assert RowOk(st.emitted, st.sink[j]);
      RowOkCarries(st, st.sink[j]);
    }
    forall i, j | 0 <= i < |st.emitted| && 0 <= j < |st.sink| && NotFinite(st.emitted[i])
      ensures st.sink[j].item.id != i + 1
    {
      assert RowCarried(st, st.sink[j]);
    }
  }

  /** The sink holds a row with the event's fields under the event's key. */
  ghost predicate Recorded(sink: seq<Row>, e: Event) {
    exists j :: 0 <= j < |sink| && sink[j].item.key == e.key && HasFields(sink[j], e)
  }

  lemma OwnRecorded(st: State, e: Event)
    requires Inv(st) && HasOwn(st.sink, e)
    ensures Recorded(st.sink, e)
  {
    var table := RouteOf(e).table;
    RowCarries(e, table);
    var j :| 0 <= j < |st.sink| && st.sink[j].pk == PkOf(e, table) && st.sink[j].item.key == e.key;
    assert RowOk(st.emitted, st.sink[j]);
    assert HasFields(RowOf(e, table), e) && st.sink[j].table == table;
  }

  lemma Unrouted(e: Event, table: Table)
    requires RouteOf(e) == Nothing
    ensures !Belongs(e, table) && !NotFinite(e)
  {
    RowCarries(e, table);
  }

  /** What became of one processed event. */
  ghost predicate Processed(st: State, e: Event) {
    e.Pending() || e.quarantined || (!NotFinite(e) && forall table :: Belongs(e, table) ==> Recorded(st.sink, e))
  }

  /** When keys name destinations, every processed event that belongs to a table and was not quarantined is recorded in
      that table with its own fields, and every processed reading that is not finite was quarantined. */
  lemma ProcessedRecorded(states: seq<State>, steps: seq<Step>, drafts: set<Draft>, k: nat)
    requires Run(states, steps) && Emits(steps, drafts) && k <= |steps| && OneTargetEach(drafts) && OneKeyEach(drafts)
    ensures forall i :: 0 <= i < |states[k].queue| ==> Processed(states[k], states[k].queue[i])
    ensures forall i :: 0 <= i < |states[k].gone| ==> Processed(states[k], states[k].gone[i])
  {
    RunKeeps(states, steps, k);
    RunEmits(states, steps, drafts, k);
    PinnedState(states[k], drafts);
    forall i | 0 <= i < |states[k].queue| ensures Processed(states[k], states[k].queue[i]) {
      OwnProcessed(states[k], states[k].queue[i]);
    }
    forall i | 0 <= i < |states[k].gone| ensures Processed(states[k], states[k].gone[i]) {
      OwnProcessed(states[k], states[k].gone[i]);
    }
  }

  lemma OwnProcessed(st: State, e: Event)
    requires Inv(st) && OwnRow(st.sink, e)
    ensures Processed(st, e)
  {
    if !e.Pending() && !e.quarantined {
      if HasOwn(st.sink, e) {
        OwnRecorded(st, e);
        RowCarries(e, RouteOf(e).table);
      } else {
        forall table ensures !Belongs(e, table) && !NotFinite(e) {
          Unrouted(e, table);
        }
      }
    }
  }

  // ---- an outage is not poison ----

  ghost predicate SomeLanded(sink: seq<Row>, batch: seq<Event>) {
    exists i :: 0 <= i < |SpecRows(batch)| && HasPk(sink, SpecRows(batch)[i].pk)
  }

  /** Anything set aside is a reading of the batch that is not finite, or some row of the batch is in the sink. */
  ghost predicate Warranted(sink: seq<Row>, w: Worker) {
    SomeLanded(sink, w.batch) || forall x :: x in w.poison ==> RefusedReading(w.batch, x)
  }

  ghost predicate RefusedReading(batch: seq<Event>, x: Item) {
    exists i :: 0 <= i < |batch| && NotFinite(batch[i]) && x == Item(batch[i].id, batch[i].key)
  }

  ghost predicate Warrants(sink: seq<Row>, w: Worker) {
    match w.phase
    case Idle => true
    case Polled => true
    case Done => true
    case OneByOne(_, wrote) => wrote > 0 ==> SomeLanded(sink, w.batch)
    case _ => Warranted(sink, w)
  }

  lemma LandedStays(a: seq<Row>, b: seq<Row>, batch: seq<Event>)
    requires a <= b && SomeLanded(a, batch)
    ensures SomeLanded(b, batch)
  {
    PksStay(a, b);
    var i :| 0 <= i < |SpecRows(batch)| && HasPk(a, SpecRows(batch)[i].pk);
    assert HasPk(b, SpecRows(batch)[i].pk);
  }

  lemma WarrantsStays(a: seq<Row>, b: seq<Row>, w: Worker)
    requires a <= b && Warrants(a, w)
    ensures Warrants(b, w)
  {
    if SomeLanded(a, w.batch) {
      LandedStays(a, b, w.batch);
    }
  }

  lemma RefusedAreReadings(batch: seq<Event>)
    ensures forall x :: x in RefusedItems(batch, |batch|) ==> RefusedReading(batch, x)
  {
    var pos := RefusedHold(batch, |batch|);
    var items := RefusedItems(batch, |batch|);
    forall x | x in items ensures RefusedReading(batch, x) {
      var k :| 0 <= k < |items| && items[k] == x;
      assert pos[k] in pos && NotFinites(batch)[pos[k]];
    }
  }

  lemma SinkGrows(st: State, step: Step)
    requires Enabled(st, step)
    ensures st.sink <= Next(st, step).sink && |st.workers| == |Next(st, step).workers|
  {
    match step {
      case BatchCommits(w) => InsertedAllIs(st.sink, RowsOf(st, w), |RowsOf(st, w)|);
      case BatchRefused(w, _) => InsertedAllIs(st.sink, RowsOf(st, w), |RowsOf(st, w)|);
      case RowCommits(w) => InsertedAllIs(st.sink, [RowsOf(st, w)[st.workers[w].phase.next]], 1);
      case RowRefused(w, _) => InsertedAllIs(st.sink, [RowsOf(st, w)[st.workers[w].phase.next]], 1);
      case Crash(w, _) => InsertedAllIs(st.sink, InFlight(st, w), |InFlight(st, w)|);
      case _ =>
    }
  }

  /** The worker a step moves. */
  function Mover(step: Step): Option<nat> {
    match step
    case Emit(_, _, _, _) => None
    case Prune(_, _) => None
    case Arrives(_, _) => None
    case Poll(w, _) => Some(w)
    case BatchCommits(w) => Some(w)
    case BatchRefused(w, _) => Some(w)
    case RowCommits(w) => Some(w)
    case RowRefused(w, _) => Some(w)
    case Isolated(w) => Some(w)
    case SendQuarantine(w) => Some(w)
    case NothingToQuarantine(w) => Some(w)
    case QuarantineAnswered(w, _) => Some(w)
    case SendAck(w) => Some(w)
    case AckAnswered(w, _) => Some(w)
    case Crash(w, _) => Some(w)
  }

  lemma OthersStand(st: State, step: Step, u: nat)
    requires Enabled(st, step) && u < |st.workers| && Mover(step) != Some(u)
    ensures |Next(st, step).workers| == |st.workers| && Next(st, step).workers[u] == st.workers[u]
  {
  }

  lemma RowLands(st: State, w: nat)
    requires Enabled(st, RowCommits(w))
    ensures SomeLanded(Next(st, RowCommits(w)).sink, st.workers[w].batch)
  {
    var row := RowsOf(st, w)[st.workers[w].phase.next];
    InsertedAllIs(st.sink, [row], 1);
    assert HasPk(Next(st, RowCommits(w)).sink, [row][0].pk);
  }

  lemma MoverWarrants(st: State, step: Step, w: nat)
    requires Enabled(st, step) && Mover(step) == Some(w) && w < |st.workers| && Warrants(st.sink, st.workers[w])
    ensures Warrants(Next(st, step).sink, Next(st, step).workers[w])
  {
    var worker := st.workers[w];
    RefusedAreReadings(worker.batch);
    SinkGrows(st, step);
    if SomeLanded(st.sink, worker.batch) {
      LandedStays(st.sink, Next(st, step).sink, worker.batch);
    }
    if step.RowCommits? {
      RowLands(st, w);
    }
  }

  lemma StepWarrants(st: State, step: Step)
    requires Enabled(st, step) && forall u :: 0 <= u < |st.workers| ==> Warrants(st.sink, st.workers[u])
    ensures var r := Next(st, step);
            forall u :: 0 <= u < |r.workers| ==> Warrants(r.sink, r.workers[u])
  {
    var r := Next(st, step);
    SinkGrows(st, step);
    forall u | 0 <= u < |r.workers| ensures Warrants(r.sink, r.workers[u]) {
      if Mover(step) == Some(u) {
        MoverWarrants(st, step, u);
      } else {
        OthersStand(st, step, u);
        WarrantsStays(st.sink, r.sink, st.workers[u]);
      }
    }
  }

  lemma {:induction false} RunWarrants(states: seq<State>, steps: seq<Step>, k: nat)
    requires Run(states, steps) && k <= |steps|
    ensures forall u :: 0 <= u < |states[k].workers| ==> Warrants(states[k].sink, states[k].workers[u])
  {
    if k > 0 {
      RunWarrants(states, steps, k - 1);
      StepWarrants(states[k - 1], steps[k - 1]);
    }
  }

  /** Nothing but readings that are not finite is ever sent to quarantine while no row of the batch is in the sink: a
      sink that refuses everything does not empty the queue. */
  lemma OutageIsNotPoison(states: seq<State>, steps: seq<Step>, k: nat, w: nat)
    requires Run(states, steps) && k < |steps| && steps[k] == SendQuarantine(w)
    ensures w < |states[k].workers| && Warranted(states[k].sink, states[k].workers[w])
  {
    RunWarrants(states, steps, k);
    assert Enabled(states[k], steps[k]);
  }
}
