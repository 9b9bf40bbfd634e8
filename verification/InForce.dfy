/** The push log: which profile a charge point is following, and what power that profile schedules at an instant. */
module InForce {
  import opened Reals
  import opened Ordering
  import opened Charging
  import opened Profiles

  /** One audit row; its push id is its position in the log plus one. A payload that does not parse is `None`. */
  datatype PushRow = PushRow(decisionId: int, cpId: int, payload: Option<Profile>, pushAt: int, sent: bool,
    ack: Option<string>)

  // ---- the log ----

  predicate Same(row: PushRow, cpId: int, decisionId: int) {
    row.cpId == cpId && row.decisionId == decisionId
  }

  /** Position of the row for this charge point and decision, or the length of the log. */
  function Find(rows: seq<PushRow>, cpId: int, decisionId: int): (j: nat)
    ensures j <= |rows| && (j < |rows| ==> Same(rows[j], cpId, decisionId))
    ensures forall i :: 0 <= i < j ==> !Same(rows[i], cpId, decisionId)
  {
    if rows == [] then 0
    else
      var j := Find(rows[..|rows| - 1], cpId, decisionId);
      if j < |rows| - 1 || Same(rows[j], cpId, decisionId) then j else |rows|
  }

  function Recorded(rows: seq<PushRow>, cpId: int, decisionId: int, payload: Option<Profile>, now: int): seq<PushRow> {
    if Find(rows, cpId, decisionId) < |rows| then rows
      else rows + [PushRow(decisionId, cpId, payload, now, false, None)]
  }

  ghost predicate OnePerDecision(rows: seq<PushRow>) {
    forall i, j :: 0 <= i < j < |rows| ==> !Same(rows[j], rows[i].cpId, rows[i].decisionId)
  }

  /** Retrying a push changes nothing, and no pair ever gets a second row. */
  lemma RecordIdempotent(rows: seq<PushRow>, cpId: int, decisionId: int, payload: Option<Profile>, now: int,
                         retry: Option<Profile>, later: int)
    requires OnePerDecision(rows)
    ensures var r := Recorded(rows, cpId, decisionId, payload, now);
            OnePerDecision(r) && Recorded(r, cpId, decisionId, retry, later) == r
  {
    var r := Recorded(rows, cpId, decisionId, payload, now);
    var j := Find(rows, cpId, decisionId);
    assert r[j].cpId == cpId && r[j].decisionId == decisionId;
    assert Find(r, cpId, decisionId) <= j;
  }

  predicate Obeyed(row: PushRow, cpId: int) {
    row.cpId == cpId && row.sent && (row.ack.None? || row.ack == Some("Accepted"))
  }

  /** Position of the newest row a charge point obeys. */
  function Active(rows: seq<PushRow>, cpId: int): (r: Option<nat>)
    ensures r.Some? ==> r.value < |rows| && Obeyed(rows[r.value], cpId)
    ensures r.Some? ==> forall i :: r.value < i < |rows| ==> !Obeyed(rows[i], cpId)
    ensures r.None? ==> forall i :: 0 <= i < |rows| ==> !Obeyed(rows[i], cpId)
  {
    if rows == [] then None
    else if Obeyed(rows[|rows| - 1], cpId) then Some(|rows| - 1)
    else Active(rows[..|rows| - 1], cpId)
  }

  // ---- the period in force ----

  function StartKeys(periods: seq<Period>): (keys: seq<Key>)
    ensures |keys| == |periods|
  {
    seq(|periods|, i requires 0 <= i < |periods| => (periods[i].startS as real, i))
  }

  function ByStart(periods: seq<Period>): (order: seq<nat>)
    ensures forall k :: 0 <= k < |order| ==> order[k] < |periods|
  {
    SortBy(StartKeys(periods), Upto(|periods|))
  }

  predicate Begun(period: Period, elapsedMs: int) {
    period.startS * 1000 <= elapsedMs
  }

  /** The last of the first k periods of `order` that has begun. */
  function LastBegun(periods: seq<Period>, order: seq<nat>, elapsedMs: int, k: nat): (r: Option<nat>)
    requires k <= |order| && forall i :: 0 <= i < |order| ==> order[i] < |periods|
    ensures r.Some? ==> r.value < |periods|
  {
    if k == 0 then None
    else if Begun(periods[order[k - 1]], elapsedMs) then Some(order[k - 1])
    else LastBegun(periods, order, elapsedMs, k - 1)
  }

  function Current(periods: seq<Period>, elapsedMs: int): (r: Option<nat>)
    ensures r.Some? ==> r.value < |periods|
  {
    LastBegun(periods, ByStart(periods), elapsedMs, |ByStart(periods)|)
  }

  function ElapsedMs(startMs: int, atMs: int): nat {
    if atMs >= startMs then atMs - startMs else 0
  }

  /** The instant asked about; none given means now. */
  function Instant(atMs: int, now: int): int {
    if atMs == 0 then now else atMs
  }

  /** When a pushed profile started: where it says, else when it was pushed, and now if what it says is no instant. */
  function StartMs(start: Start, pushAt: int, now: int): int {
    match start
    case At(ms) => ms
    case Missing => pushAt
    case Unreadable => now
  }

  /** Scheduled power of a profile; a profile in amperes has none. */
  function PowerAt(profile: Profile, startMs: int, atMs: int): Option<real> {
    if profile.inAmps then None
    else
      var j := Current(profile.periods, ElapsedMs(startMs, atMs));
      if j.None? then None else Some(ToFixed4(profile.periods[j.value].limitW as real / 1000.0))
  }

  function ScheduledKw(rows: seq<PushRow>, cpId: int, atMs: int, now: int): Option<real> {
    var j := Active(rows, cpId);
    if j.None? || rows[j.value].payload.None? then None
    else
      var profile := rows[j.value].payload.value;
      PowerAt(profile, StartMs(profile.start, rows[j.value].pushAt, now), Instant(atMs, now))
  }

  /** An empty answer is unknown; answers are stored in twenty characters. */
  function AckText(ack: string): string {
    var text := if ack == "" then "UNKNOWN" else ack;
    if |text| > 20 then text[..20] else text
  }

  class PushLog {
    var rows: seq<PushRow>

    constructor ()
      ensures rows == []
    {
      rows := [];
    }

    method RecordProfilePush(decisionId: int, cpId: int, payload: Option<Profile>, now: int)
      returns (pushId: nat, deduped: bool)
      modifies this
      ensures rows == Recorded(old(rows), cpId, decisionId, payload, now)
      ensures 1 <= pushId <= |rows| && Same(rows[pushId - 1], cpId, decisionId)
      ensures deduped <==> rows == old(rows)
    {
      var j := 0;
      while j < |rows| && !Same(rows[j], cpId, decisionId)
        invariant 0 <= j <= |rows|
        invariant forall i :: 0 <= i < j ==> !Same(rows[i], cpId, decisionId)
      {
        j := j + 1;
      }
      assert j == Find(rows, cpId, decisionId);
      deduped := j < |rows|;
      if !deduped {
        rows := rows + [PushRow(decisionId, cpId, payload, now, false, None)];
      }
      pushId := j + 1;
    }

    method MarkPushSent(pushId: int)
      modifies this
      ensures rows == if 1 <= pushId <= |old(rows)| then old(rows)[pushId - 1 := old(rows)[pushId - 1].(sent := true)]
        else old(rows)
    {
      if 1 <= pushId <= |rows| {
        rows := rows[pushId - 1 := rows[pushId - 1].(sent := true)];
      }
    }

    method SetPushAck(pushId: int, ack: string)
      modifies this
      ensures rows == if 1 <= pushId <= |old(rows)| then
                        old(rows)[pushId - 1 := old(rows)[pushId - 1].(ack := Some(AckText(ack)))]
                      else old(rows)
    {
      if 1 <= pushId <= |rows| {
        rows := rows[pushId - 1 := rows[pushId - 1].(ack := Some(AckText(ack)))];
      }
    }

    method ActiveProfileFor(cpId: int) returns (best: Option<nat>)
      ensures best == Active(rows, cpId)
    {
      best := None;
      for i := 0 to |rows|
        invariant best == Active(rows[..i], cpId)
      {
        assert rows[..i + 1][..i] == rows[..i];
        if Obeyed(rows[i], cpId) {
          best := Some(i);
        }
      }
      assert rows[..|rows|] == rows;
    }

    method ScheduledKwAt(cpId: int, atMs: int, now: int) returns (kw: Option<real>)
      ensures kw == ScheduledKw(rows, cpId, atMs, now)
    {
      var best := ActiveProfileFor(cpId);
      if best.None? || rows[best.value].payload.None? || rows[best.value].payload.value.inAmps {
        return None;
      }
      var profile := rows[best.value].payload.value;
      var startMs := StartMs(profile.start, rows[best.value].pushAt, now);
      var elapsedMs := ElapsedMs(startMs, if atMs == 0 then now else atMs);
      var order := ByStart(profile.periods);
      var current: Option<nat> := None;
      for k := 0 to |order|
        invariant current == LastBegun(profile.periods, order, elapsedMs, k)
      {
        if Begun(profile.periods[order[k]], elapsedMs) {
          current := Some(order[k]);
        }
      }
      kw := if current.None? then None else Some(ToFixed4(profile.periods[current.value].limitW as real / 1000.0));
    }
  }

  // ---- reading a compiled profile back ----

  ghost predicate LastAt(periods: seq<Period>, order: seq<nat>, elapsedMs: int, k: nat, j: nat)
    requires k <= |order| && forall i :: 0 <= i < |order| ==> order[i] < |periods|
  {
    exists m :: 0 <= m < k && order[m] == j && forall i :: m < i < k ==> !Begun(periods[order[i]], elapsedMs)
  }

  lemma {:induction false} LastBegunIs(periods: seq<Period>, order: seq<nat>, elapsedMs: int, k: nat)
    requires k <= |order| && forall i :: 0 <= i < |order| ==> order[i] < |periods|
    ensures var r := LastBegun(periods, order, elapsedMs, k);
            && (r.None? ==> forall i :: 0 <= i < k ==> !Begun(periods[order[i]], elapsedMs))
            && (r.Some? ==> Begun(periods[r.value], elapsedMs) && LastAt(periods, order, elapsedMs, k, r.value))
    decreases k
  {
    if k > 0 && !Begun(periods[order[k - 1]], elapsedMs) {
      LastBegunIs(periods, order, elapsedMs, k - 1);
    }
  }

  /** The period in force has begun and starts no earlier than any other that has; there is none only before all of
      them. */
  lemma CurrentIs(periods: seq<Period>, elapsedMs: int)
    ensures var r := Current(periods, elapsedMs);
            && (r.None? <==> forall i :: 0 <= i < |periods| ==> !Begun(periods[i], elapsedMs))
            && (r.Some? ==> Begun(periods[r.value], elapsedMs))
            && (forall i :: 0 <= i < |periods| && Begun(periods[i], elapsedMs)
                 ==> r.Some? && periods[i].startS <= periods[r.value].startS)
  {
    var order, r := ByStart(periods), Current(periods, elapsedMs);
    SortIsPermutation(StartKeys(periods), |periods|);
    SortBySorts(StartKeys(periods), Upto(|periods|));
    LastBegunIs(periods, order, elapsedMs, |order|);
    forall i | 0 <= i < |periods| && Begun(periods[i], elapsedMs)
      ensures r.Some? && periods[i].startS <= periods[r.value].startS
    {
      assert (i as nat) in order;
      var n :| 0 <= n < |order| && order[n] == i;
      var m :| 0 <= m < |order| && order[m] == r.value
        && forall u :: m < u < |order| ==> !Begun(periods[order[u]], elapsedMs);
      if n < m {
        assert Before(StartKeys(periods)[order[n]], StartKeys(periods)[order[m]]);
      }
    }
  }

  lemma QuotientNonneg(e: nat, d: int)
    requires d > 0
    ensures e / d >= 0
  {
  }

  function WholeSlots(elapsedMs: nat, dtMs: int): (q: nat)
    requires dtMs > 0
  {
    QuotientNonneg(elapsedMs, dtMs);
    elapsedMs / dtMs
  }

  /** The slot of the horizon an instant falls into; instants before the start read slot 0, those past the end the last
      slot. */
  function SlotAt(startMs: int, dtMs: int, horizon: nat, atMs: int): (slot: nat)
    requires dtMs > 0 && horizon > 0
    ensures slot < horizon
  {
    var q := WholeSlots(ElapsedMs(startMs, atMs), dtMs);
    if q < horizon then q else horizon - 1
  }

  lemma SlotStartsBefore(i: int, q: int, d: int)
    requires d > 0 && i <= q
    ensures i * d <= q * d
  {
  }

  /** Slot i has begun exactly when i is at most the number of whole slots elapsed. */
  lemma BegunIff(i: nat, dtMin: int, limitW: int, elapsedMs: nat)
    requires dtMin > 0
    ensures Begun(Period(i * (dtMin * 60), limitW), elapsedMs) <==> i <= WholeSlots(elapsedMs, dtMin * 60000)
  {
    var d := dtMin * 60000;
    var q := WholeSlots(elapsedMs, d);
    assert i * (dtMin * 60) * 1000 == i * d;
    assert q * d <= elapsedMs < (q + 1) * d;
    if i <= q {
      SlotStartsBefore(i, q, d);
    } else {
      SlotStartsBefore(q + 1, i, d);
    }
  }

  lemma WattsExact(limitW: int)
    ensures ToFixed4(limitW as real / 1000.0) == limitW as real / 1000.0
  {
    var r := limitW as real / 1000.0 * 10000.0;
    assert r == (limitW * 10) as real;
    RoundWhole(limitW * 10);
    RoundWhole(-(limitW * 10));
    assert -r == (-(limitW * 10)) as real;
  }

  /** Periods in starting order of which the first q + 1 have begun: the last of those is in force. */
  lemma GridCurrent(periods: seq<Period>, q: nat, elapsedMs: int)
    requires |periods| > 0 && BegunUpTo(periods, elapsedMs, q) && Ascending(periods)
    ensures Current(periods, elapsedMs) == Some(if q < |periods| then q else |periods| - 1)
  {
    CurrentIs(periods, elapsedMs);
    var slot := if q < |periods| then q else |periods| - 1;
    assert Begun(periods[slot], elapsedMs);
  }

  ghost predicate Ascending(periods: seq<Period>) {
    forall i, j :: 0 <= i < j < |periods| ==> periods[i].startS < periods[j].startS
  }

  ghost predicate BegunUpTo(periods: seq<Period>, elapsedMs: int, q: nat) {
    forall i :: 0 <= i < |periods| ==> (Begun(periods[i], elapsedMs) <==> i <= q)
  }

  lemma CompiledAscending(kwh: seq<real>, dtMin: int, capKw: Option<real>)
    requires dtMin > 0
    ensures Ascending(PeriodsOf(kwh, dtMin, capKw))
  {
    var periods := PeriodsOf(kwh, dtMin, capKw);
    forall i, j | 0 <= i < j < |periods| ensures periods[i].startS < periods[j].startS {
      LaterStart(i, j, dtMin);
    }
  }

  lemma CompiledBegun(kwh: seq<real>, dtMin: int, capKw: Option<real>, elapsedMs: nat)
    requires dtMin > 0
    ensures BegunUpTo(PeriodsOf(kwh, dtMin, capKw), elapsedMs, WholeSlots(elapsedMs, dtMin * 60000))
  {
    var periods := PeriodsOf(kwh, dtMin, capKw);
    forall i | 0 <= i < |periods| ensures Begun(periods[i], elapsedMs) <==> i <= WholeSlots(elapsedMs, dtMin * 60000) {
      BegunIff(i, dtMin, periods[i].limitW, elapsedMs);
    }
  }

  /** The slot of the period in force on a compiled profile. */
  lemma CompiledCurrent(kwh: seq<real>, dtMin: int, capKw: Option<real>, elapsedMs: nat)
    requires dtMin > 0 && |kwh| > 0
    ensures var q := WholeSlots(elapsedMs, dtMin * 60000);
            Current(PeriodsOf(kwh, dtMin, capKw), elapsedMs) == Some(if q < |kwh| then q else |kwh| - 1)
  {
    CompiledAscending(kwh, dtMin, capKw);
    CompiledBegun(kwh, dtMin, capKw, elapsedMs);
    GridCurrent(PeriodsOf(kwh, dtMin, capKw), WholeSlots(elapsedMs, dtMin * 60000), elapsedMs);
  }

  lemma LaterStart(i: int, j: int, dtMin: int)
    requires i < j && dtMin > 0
    ensures i * (dtMin * 60) < j * (dtMin * 60)
  {
  }

  /** At every instant the power read back is exactly the compiled limit of the slot the instant falls into. */
  lemma CompileReadsBack(rows: seq<PushRow>, line: Line, decisionId: int, startMs: int, dtMin: int, capKw: Option<real>,
                         atMs: int, now: int)
    requires dtMin > 0 && |line.kwh| > 0
    requires Active(rows, line.cp).Some?
    requires rows[Active(rows, line.cp).value].payload == Some(PushOf(line, decisionId, startMs, dtMin, capKw).profile)
    ensures var slot := SlotAt(startMs, dtMin * 60000, |line.kwh|, Instant(atMs, now));
            ScheduledKw(rows, line.cp, atMs, now) == Some(LimitW(line.kwh[slot], Hours(dtMin), capKw) as real / 1000.0)
  {
    var slot := SlotAt(startMs, dtMin * 60000, |line.kwh|, Instant(atMs, now));
    CompiledCurrent(line.kwh, dtMin, capKw, ElapsedMs(startMs, Instant(atMs, now)));
    WattsExact(LimitW(line.kwh[slot], Hours(dtMin), capKw));
  }

  /** An instant inside slot i of the horizon falls into slot i. */
  lemma InsideSlot(startMs: int, dtMs: int, horizon: nat, atMs: int, i: nat)
    requires dtMs > 0 && i < horizon && startMs + i * dtMs <= atMs < startMs + (i + 1) * dtMs
    ensures SlotAt(startMs, dtMs, horizon, atMs) == i
  {
    var e := atMs - startMs;
    SlotStartsBefore(0, i, dtMs);
    var q := e / dtMs;
    assert q * dtMs <= e < (q + 1) * dtMs;
    if q < i {
      SlotStartsBefore(q + 1, i, dtMs);
    } else if q > i {
      SlotStartsBefore(i + 1, q, dtMs);
    }
  }

  // ---- the answer from the rows alone ----

  /** The charge point follows this row: it was sent, and not answered otherwise than with acceptance. */
  ghost predicate Follows(row: PushRow, cpId: int) {
    row.cpId == cpId && row.sent && row.ack in {None, Some("Accepted")}
  }

  ghost predicate Newest(rows: seq<PushRow>, cpId: int, j: nat) {
    && j < |rows| && Follows(rows[j], cpId)
    && forall i :: j < i < |rows| ==> !Follows(rows[i], cpId)
  }

  lemma ActiveIs(rows: seq<PushRow>, cpId: int)
    ensures forall j: nat :: Active(rows, cpId) == Some(j) <==> Newest(rows, cpId, j)
  {
    var r := Active(rows, cpId);
    forall j: nat ensures r == Some(j) <==> Newest(rows, cpId, j) {
      if Newest(rows, cpId, j) {
        assert Obeyed(rows[j], cpId);
      }
      if r.Some? && r.value < j < |rows| {
        assert !Obeyed(rows[j], cpId);
      }
    }
  }

  /** Period n has begun, and none that has begun starts later, nor at the same second further down. */
  ghost predicate RunsNow(periods: seq<Period>, elapsedMs: int, n: nat) {
    && n < |periods| && periods[n].startS * 1000 <= elapsedMs
    && forall i :: 0 <= i < |periods| && periods[i].startS * 1000 <= elapsedMs ==>
      periods[i].startS < periods[n].startS || (periods[i].startS == periods[n].startS && i <= n)
  }

  lemma CurrentRuns(periods: seq<Period>, elapsedMs: int)
    ensures forall n: nat :: Current(periods, elapsedMs) == Some(n) <==> RunsNow(periods, elapsedMs, n)
  {
    var order, r := ByStart(periods), Current(periods, elapsedMs);
    SortIsPermutation(StartKeys(periods), |periods|);
    SortBySorts(StartKeys(periods), Upto(|periods|));
    LastBegunIs(periods, order, elapsedMs, |order|);
    CurrentIs(periods, elapsedMs);
    if r.Some? {
      var m :| 0 <= m < |order| && order[m] == r.value
        && forall u :: m < u < |order| ==> !Begun(periods[order[u]], elapsedMs);
      forall i: nat | i < |periods| && Begun(periods[i], elapsedMs) && i != r.value
        ensures Before(StartKeys(periods)[i], StartKeys(periods)[r.value])
      {
        assert i in order;
        var q :| 0 <= q < |order| && order[q] == i;
        assert q < m;
      }
      assert RunsNow(periods, elapsedMs, r.value);
    }
  }

  /** Milliseconds since a pushed profile started: at the instant asked about (now, if none is given), from where the
      profile says it starts (its push, if it does not say; now, if what it says is no instant). */
  ghost function SinceStart(row: PushRow, profile: Profile, atMs: int, now: int): int {
    var at := if atMs == 0 then now else atMs;
    var start := if profile.start == Missing then row.pushAt else if profile.start == Unreadable then now
                 else profile.start.ms;
    if at > start then at - start else 0
  }

  /** Row j is followed, and its period n is running, in watts. */
  ghost predicate Schedules(rows: seq<PushRow>, cpId: int, atMs: int, now: int, j: nat, n: nat) {
    && Newest(rows, cpId, j) && rows[j].payload.Some? && !rows[j].payload.value.inAmps
    && RunsNow(rows[j].payload.value.periods, SinceStart(rows[j], rows[j].payload.value, atMs, now), n)
  }

  /** scheduledKwAt answers the limit of that period, in kW, and nothing when there is none. */
  lemma ScheduledIs(rows: seq<PushRow>, cpId: int, atMs: int, now: int)
    ensures forall j: nat, n: nat :: Schedules(rows, cpId, atMs, now, j, n) ==>
              ScheduledKw(rows, cpId, atMs, now) == Some(rows[j].payload.value.periods[n].limitW as real / 1000.0)
    ensures ScheduledKw(rows, cpId, atMs, now).Some? ==> exists j: nat, n: nat :: Schedules(rows, cpId, atMs, now, j, n)
  {
    ActiveIs(rows, cpId);
    var j := Active(rows, cpId);
    if j.Some? && rows[j.value].payload.Some? {
      var profile := rows[j.value].payload.value;
      var since := SinceStart(rows[j.value], profile, atMs, now);
      CurrentRuns(profile.periods, since);
      var n := Current(profile.periods, since);
      if n.Some? {
        WattsExact(profile.periods[n.value].limitW);
        assert Newest(rows, cpId, j.value) && RunsNow(profile.periods, since, n.value);
        assert profile.inAmps || Schedules(rows, cpId, atMs, now, j.value, n.value);
      }
    }
  }

  ghost predicate Pushed(rows: seq<PushRow>, cpId: int, decisionId: int) {
    exists i :: 0 <= i < |rows| && rows[i].cpId == cpId && rows[i].decisionId == decisionId
  }

  /** A push is written down once per charge point and decision, unsent and unanswered. */
  lemma RecordedIs(rows: seq<PushRow>, cpId: int, decisionId: int, payload: Option<Profile>, now: int)
    ensures Recorded(rows, cpId, decisionId, payload, now)
            == if Pushed(rows, cpId, decisionId) then rows
               else rows + [PushRow(decisionId, cpId, payload, now, false, None)]
  {
    var j := Find(rows, cpId, decisionId);
    if Pushed(rows, cpId, decisionId) {
      var i :| 0 <= i < |rows| && rows[i].cpId == cpId && rows[i].decisionId == decisionId;
      assert Same(rows[i], cpId, decisionId);
    }
    assert j < |rows| ==> rows[j].cpId == cpId && rows[j].decisionId == decisionId;
  }

  /** Answers are kept to twenty characters, and acceptance is kept whole. */
  lemma AckKept(ack: string)
    ensures var text := if |ack| == 0 then "UNKNOWN" else ack;
            AckText(ack) <= text && |AckText(ack)| == if |text| < 20 then |text| else 20
    ensures AckText("Accepted") == "Accepted"
  {
  }
}
