/** Meter readings: a lazy index and two lazy caches beside the plain log. */
module Readings {
  import opened Reals

  datatype Reading = Reading(session: int, seqNo: int, meter: real)

  /** `seen` and `peak` are built for a session the first time they are needed. */
  datatype State = State(readings: seq<Reading>, seen: map<int, set<int>>, peak: map<int, real>)

  datatype Reply = Accepted | Deduped | TickRejected | MeterRegression

  const TOLERANCE: real := 0.001

  // ---- the plain log ----

  function Filter(readings: seq<Reading>, session: int): seq<Reading> {
    if readings == [] then []
    else if readings[|readings| - 1].session == session then
      Filter(readings[..|readings| - 1], session) + [readings[|readings| - 1]]
    else Filter(readings[..|readings| - 1], session)
  }

  function SeqNos(readings: seq<Reading>, session: int): set<int> {
    set i | 0 <= i < |readings| && readings[i].session == session :: readings[i].seqNo
  }

  /** Highest register of a session's readings, at least `least`. */
  function Peak(readings: seq<Reading>, session: int, least: real): real {
    if readings == [] then least
    else
      var m := Peak(readings[..|readings| - 1], session, least);
      if readings[|readings| - 1].session == session then Max(m, readings[|readings| - 1].meter) else m
  }

  lemma {:induction false} PeakBounds(readings: seq<Reading>, session: int, least: real)
    ensures Peak(readings, session, least) >= least
    ensures forall i ::
      0 <= i < |readings| && readings[i].session == session ==> readings[i].meter <= Peak(readings, session, least)
  {
    if readings != [] {
      PeakBounds(readings[..|readings| - 1], session, least);
    }
  }

  // ---- operations ----

  function Seen(st: State, session: int): set<int> {
    if session in st.seen then st.seen[session] else SeqNos(st.readings, session)
  }

  function Last(st: State, session: int): real {
    if session in st.peak then st.peak[session] else Peak(st.readings, session, -1.0)
  }

  /** `active`: the session takes ticks; `meter` is `None` for a register that is not a finite number. */
  function TickReply(st: State, session: int, seqNo: int, meter: Option<real>, active: bool): Reply {
    if !active || meter.None? then TickRejected
    else if seqNo in Seen(st, session) then Deduped
    else if meter.value < Last(st, session) - TOLERANCE then MeterRegression
    else Accepted
  }

  /** Even a refused tick builds the caches it consulted. */
  function Ticked(st: State, session: int, seqNo: int, meter: Option<real>, active: bool): State {
    match TickReply(st, session, seqNo, meter, active)
    case TickRejected => st
    case Deduped => st.(seen := st.seen[session := Seen(st, session)])
    case MeterRegression =>
      st.(seen := st.seen[session := Seen(st, session)], peak := st.peak[session := Last(st, session)])
    case Accepted =>
      State(st.readings + [Reading(session, seqNo, meter.value)],
            st.seen[session := Seen(st, session) + {seqNo}],
            st.peak[session := Max(Last(st, session), meter.value)])
  }

  /** The register a stop records: the one the charger sends, or the highest one known. */
  function StopMeter(st: State, session: int, sent: Option<real>): real {
    if sent.Some? && sent.value >= 0.0 then sent.value
    else if session in st.peak then Max(st.peak[session], 0.0)
    else Peak(st.readings, session, 0.0)
  }

  predicate StopRefused(st: State, session: int, startMeter: real, sent: Option<real>) {
    StopMeter(st, session, sent) + TOLERANCE < startMeter
  }

  function Stopped(st: State, session: int, startMeter: real, sent: Option<real>): State {
    if StopRefused(st, session, startMeter, sent) then st
    else
      var end := StopMeter(st, session, sent);
      if session !in st.peak || end > st.peak[session] then st.(peak := st.peak[session := end]) else st
  }

  // ---- the store ----

  class Log {
    var readings: seq<Reading>
    var indexed: nat
    var bySession: map<int, seq<Reading>>
    var seen: map<int, set<int>>
    var peak: map<int, real>

    ghost function Now(): State
      reads this
    {
      State(readings, seen, peak)
    }

    /** The index groups the readings it has visited; rows appended behind it are not indexed yet. */
    ghost predicate Valid()
      reads this
    {
      && indexed <= |readings|
      && forall s :: Group(s) == Filter(readings[..indexed], s)
    }

    function Group(session: int): seq<Reading>
      reads this
    {
      if session in bySession then bySession[session] else []
    }

    /** A store that already holds these readings and has built nothing. */
    constructor (initial: seq<Reading>)
      ensures Valid() && Now() == State(initial, map[], map[])
    {
      readings, indexed, bySession, seen, peak := initial, 0, map[], map[], map[];
    }

    /** A row pushed onto the log behind the store's back. */
    method Append(r: Reading)
      requires Valid()
      modifies this`readings
      ensures Valid() && Now() == Appended(old(Now()), r)
    {
      assert (readings + [r])[..indexed] == readings[..indexed];
      readings := readings + [r];
    }

    /** However the log grew, the index answers what a filter of the whole log would. */
    method ReadingsFor(session: int) returns (rows: seq<Reading>)
      requires Valid()
      modifies this`indexed, this`bySession
      ensures Valid() && rows == Filter(readings, session)
    {
      while indexed < |readings|
        invariant Valid()
      {
        var r := readings[indexed];
        assert readings[..indexed + 1][..indexed] == readings[..indexed];
        assert readings[..indexed + 1][indexed] == r;
        bySession := bySession[r.session := Group(r.session) + [r]];
        indexed := indexed + 1;
      }
      assert readings[..indexed] == readings;
      rows := Group(session);
    }

    method CollectSeqNos(session: int) returns (nos: set<int>)
      ensures nos == SeqNos(readings, session)
    {
      nos := {};
      for i := 0 to |readings|
        invariant nos == set j | 0 <= j < i && readings[j].session == session :: readings[j].seqNo
      {
        if readings[i].session == session {
          nos := nos + {readings[i].seqNo};
        }
      }
    }

    method HighestMeter(session: int, least: real) returns (m: real)
      ensures m == Peak(readings, session, least)
    {
      m := least;
      for i := 0 to |readings|
        invariant m == Peak(readings[..i], session, least)
      {
        assert readings[..i + 1][..i] == readings[..i];
        if readings[i].session == session {
          m := Max(m, readings[i].meter);
        }
      }
      assert readings[..|readings|] == readings;
    }

    /** The session's sequence numbers, collected on first use. */
    method SeenNos(session: int) returns (nos: set<int>)
      modifies this`seen
      ensures nos == Seen(old(Now()), session) && seen == old(seen)[session := nos]
    {
      if session in seen {
        nos := seen[session];
      } else {
        nos := CollectSeqNos(session);
      }
      seen := seen[session := nos];
    }

    /** The session's highest register, searched on first use. */
    method LastMeter(session: int) returns (last: real)
      modifies this`peak
      ensures last == Last(old(Now()), session) && peak == old(peak)[session := last]
    {
      if session in peak {
        last := peak[session];
      } else {
        last := HighestMeter(session, -1.0);
      }
      peak := peak[session := last];
    }

    method RecordTick(session: int, seqNo: int, meter: Option<real>, active: bool) returns (reply: Reply)
      requires Valid()
      modifies this`readings, this`seen, this`peak
      ensures Valid()
      ensures reply == TickReply(old(Now()), session, seqNo, meter, active)
      ensures Now() == Ticked(old(Now()), session, seqNo, meter, active)
    {
      if !active || meter.None? {
        return TickRejected;
      }
      var nos := SeenNos(session);
      if seqNo in nos {
        return Deduped;
      }
      var last := LastMeter(session);
      if meter.value < last - TOLERANCE {
        return MeterRegression;
      }
      Accept(Reading(session, seqNo, meter.value), nos, last);
      reply := Accepted;
    }

    /** Appends a reading that passed the checks, and keeps its caches up to date. */
    method Accept(r: Reading, nos: set<int>, last: real)
      requires Valid() && r.session in peak && peak[r.session] == last
      modifies this`readings, this`seen, this`peak
      ensures Valid() && readings == old(readings) + [r]
      ensures seen == old(seen)[r.session := nos + {r.seqNo}]
      ensures peak == old(peak)[r.session := Max(last, r.meter)]
    {
      assert (readings + [r])[..indexed] == readings[..indexed];
      readings := readings + [r];
      seen := seen[r.session := nos + {r.seqNo}];
      if r.meter > last {
        peak := peak[r.session := r.meter];
      }
      assert peak == old(peak)[r.session := Max(last, r.meter)];
    }

    method StopSession(session: int, startMeter: real, sent: Option<real>) returns (refused: bool, end: real)
      requires Valid()
      modifies this`peak
      ensures Valid() && end == StopMeter(old(Now()), session, sent)
      ensures refused == StopRefused(old(Now()), session, startMeter, sent)
      ensures Now() == Stopped(old(Now()), session, startMeter, sent)
    {
      if sent.Some? && sent.value >= 0.0 {
        end := sent.value;
      } else if session in peak {
        end := Max(peak[session], 0.0);
      } else {
        end := HighestMeter(session, 0.0);
      }
      refused := end + TOLERANCE < startMeter;
      if !refused && (session !in peak || end > peak[session]) {
        peak := peak[session := end];
      }
    }
  }

  // ---- the caches against the log ----

  /** Once built, the sequence numbers are exactly those of the session's readings. */
  ghost predicate SeenExact(st: State, session: int) {
    session in st.seen ==> st.seen[session] == SeqNos(st.readings, session)
  }

  /** Once built, the peak bounds all of the session's readings. */
  ghost predicate PeakHolds(st: State, session: int) {
    session in st.peak ==> forall i ::
      0 <= i < |st.readings| && st.readings[i].session == session ==> st.readings[i].meter <= st.peak[session]
  }

  ghost predicate NoDuplicates(readings: seq<Reading>) {
    forall i, j :: 0 <= i < j < |readings| && readings[i].session == readings[j].session
      ==> readings[i].seqNo != readings[j].seqNo
  }

  /** No reading falls more than the tolerance below an earlier one of its session. */
  ghost predicate NoRegression(readings: seq<Reading>) {
    forall i, j :: 0 <= i < j < |readings| && readings[i].session == readings[j].session ==>
      readings[j].meter >= readings[i].meter - TOLERANCE
  }

  ghost predicate Agrees(st: State) {
    && (forall s :: SeenExact(st, s))
    && (forall s :: PeakHolds(st, s))
    && NoDuplicates(st.readings) && NoRegression(st.readings)
  }

  lemma SeqNosPush(readings: seq<Reading>, r: Reading, session: int)
    ensures SeqNos(readings + [r], session) == SeqNos(readings, session) + if r.session == session
      then {r.seqNo} else {}
  {
    var rs := readings + [r];
    forall n | n in SeqNos(readings, session) ensures n in SeqNos(rs, session) {
      var i :| 0 <= i < |readings| && readings[i].session == session && readings[i].seqNo == n;
      assert rs[i].session == session && rs[i].seqNo == n;
    }
    if r.session == session {
      assert rs[|readings|].seqNo == r.seqNo;
    }
  }

  lemma TickAgrees(st: State, session: int, seqNo: int, meter: Option<real>, active: bool)
    requires Agrees(st)
    ensures Agrees(Ticked(st, session, seqNo, meter, active))
  {
    var r := Ticked(st, session, seqNo, meter, active);
    assert SeenExact(st, session) && PeakHolds(st, session);
    PeakBounds(st.readings, session, -1.0);
    if TickReply(st, session, seqNo, meter, active) == Accepted {
      var row := Reading(session, seqNo, meter.value);
      forall i | 0 <= i < |st.readings| && st.readings[i].session == session
        ensures st.readings[i].seqNo != seqNo && meter.value >= st.readings[i].meter - TOLERANCE
      {
        assert st.readings[i].seqNo in SeqNos(st.readings, session);
      }
      forall s ensures SeenExact(r, s) {
        assert SeenExact(st, s);
        SeqNosPush(st.readings, row, s);
      }
    } else {
      forall s ensures SeenExact(r, s) {
        assert SeenExact(st, s);
      }
    }
    forall s ensures PeakHolds(r, s) {
      assert PeakHolds(st, s);
    }
  }

  /** The stop register covers every reading the store has of the session. */
  ghost predicate Covers(st: State, session: int, end: real) {
    forall i :: 0 <= i < |st.readings| && st.readings[i].session == session ==> st.readings[i].meter <= end
  }

  /** A stop keeps the peak a bound exactly when the session already had one, or the register it records covers its
      readings (or it is refused). */
  lemma StopKeepsIff(st: State, session: int, startMeter: real, sent: Option<real>)
    requires Agrees(st)
    ensures Agrees(Stopped(st, session, startMeter, sent)) <==> StopCovered(st, session, startMeter, sent)
  {
    var r := Stopped(st, session, startMeter, sent);
    assert PeakHolds(st, session);
    forall s ensures SeenExact(r, s) && (s != session ==> PeakHolds(r, s)) {
      assert SeenExact(st, s) && PeakHolds(st, s);
    }
    if StopCovered(st, session, startMeter, sent) {
      forall s ensures PeakHolds(r, s) {
      }
    } else {
      assert !PeakHolds(r, session);
    }
  }

  ghost predicate StopCovered(st: State, session: int, startMeter: real, sent: Option<real>) {
    session in st.peak || StopRefused(st, session, startMeter, sent)
      || Covers(st, session, StopMeter(st, session, sent))
  }

  /** Without a register from the charger a stop always keeps the bound. */
  lemma UnsentStopCovers(st: State, session: int, startMeter: real)
    ensures StopCovered(st, session, startMeter, None)
  {
    PeakBounds(st.readings, session, 0.0);
  }

  /** A row pushed onto the log behind the store's back. */
  function Appended(st: State, r: Reading): State {
    st.(readings := st.readings + [r])
  }

  /** No reading of the session has this number, and none is more than the tolerance above this register. */
  ghost predicate Admissible(readings: seq<Reading>, r: Reading) {
    forall i :: 0 <= i < |readings| && readings[i].session == r.session ==>
      readings[i].seqNo != r.seqNo && r.meter >= readings[i].meter - TOLERANCE
  }

  /** The session's numbers are not built yet, its peak (if built) covers the row, and the row itself is one the store
      could have accepted. */
  ghost predicate AppendCovered(st: State, r: Reading) {
    && r.session !in st.seen
    && (r.session in st.peak ==> r.meter <= st.peak[r.session])
    && Admissible(st.readings, r)
  }

  lemma AppendKeepsSeenIff(st: State, r: Reading)
    requires forall s :: SeenExact(st, s)
    ensures (forall s :: SeenExact(Appended(st, r), s)) <==> (r.session in st.seen ==> r.seqNo in st.seen[r.session])
  {
    forall s ensures SeenExact(Appended(st, r), s) <==> (s == r.session && s in st.seen ==> r.seqNo in st.seen[s]) {
      assert SeenExact(st, s);
      SeqNosPush(st.readings, r, s);
    }
  }

  lemma AppendKeepsPeakIff(st: State, r: Reading)
    requires forall s :: PeakHolds(st, s)
    ensures (forall s :: PeakHolds(Appended(st, r), s)) <==> (r.session in st.peak ==> r.meter <= st.peak[r.session])
  {
    var after := Appended(st, r);
    if r.session in st.peak ==> r.meter <= st.peak[r.session] {
      forall s ensures PeakHolds(after, s) {
        assert PeakHolds(st, s);
      }
    } else {
      assert after.readings[|st.readings|] == r;
      assert !PeakHolds(after, r.session);
    }
  }

  lemma AppendKeepsLogIff(readings: seq<Reading>, r: Reading)
    requires NoDuplicates(readings) && NoRegression(readings)
    ensures NoDuplicates(readings + [r]) && NoRegression(readings + [r]) <==> Admissible(readings, r)
  {
    var rs := readings + [r];
    assert rs[|readings|] == r;
    if NoDuplicates(rs) && NoRegression(rs) {
      forall i | 0 <= i < |readings| && readings[i].session == r.session
        ensures readings[i].seqNo != r.seqNo && r.meter >= readings[i].meter - TOLERANCE
      {
        assert rs[i] == readings[i];
      }
    }
  }

  /** A row pushed onto the log keeps caches and log sound exactly when the session's numbers are not built yet, its
      peak covers the row, and the row neither repeats a number nor falls below an earlier register. */
  lemma AppendAgreesIff(st: State, r: Reading)
    requires Agrees(st)
    ensures Agrees(Appended(st, r)) <==> AppendCovered(st, r)
  {
    AppendKeepsSeenIff(st, r);
    AppendKeepsPeakIff(st, r);
    AppendKeepsLogIff(st.readings, r);
    if r.session in st.seen && r.seqNo in st.seen[r.session] {
      assert SeenExact(st, r.session);
      var i :| 0 <= i < |st.readings| && st.readings[i].session == r.session && st.readings[i].seqNo == r.seqNo;
      assert !Admissible(st.readings, r);
    }
  }

  // ---- runs ----

  datatype Step =
    | Tick(session: int, seqNo: int, meter: Option<real>, active: bool)
    | Stop(session: int, startMeter: real, sent: Option<real>)
    | Append(r: Reading)

  function Next(st: State, step: Step): State {
    match step
    case Tick(session, seqNo, meter, active) => Ticked(st, session, seqNo, meter, active)
    case Stop(session, startMeter, sent) => Stopped(st, session, startMeter, sent)
    case Append(r) => Appended(st, r)
  }

  ghost predicate Run(states: seq<State>, steps: seq<Step>) {
    && |states| == |steps| + 1 && states[0].seen == map[] && states[0].peak == map[]
    && forall k :: 0 <= k < |steps| ==> states[k + 1] == Next(states[k], steps[k])
  }

  ghost predicate StepCovered(st: State, step: Step) {
    match step
    case Tick(_, _, _, _) => true
    case Stop(session, startMeter, sent) => StopCovered(st, session, startMeter, sent)
    case Append(r) => AppendCovered(st, r)
  }

  lemma {:induction false} RunAgrees(states: seq<State>, steps: seq<Step>, k: nat)
    requires Run(states, steps) && k <= |steps|
    requires NoDuplicates(states[0].readings) && NoRegression(states[0].readings)
    requires forall i :: 0 <= i < k ==> StepCovered(states[i], steps[i])
    ensures Agrees(states[k])
  {
    if k > 0 {
      RunAgrees(states, steps, k - 1);
      StepAgreesIff(states[k - 1], steps[k - 1]);
    }
  }

  lemma StepAgreesIff(st: State, step: Step)
    requires Agrees(st)
    ensures Agrees(Next(st, step)) <==> StepCovered(st, step)
  {
    match step {
      case Tick(session, seqNo, meter, active) => TickAgrees(st, session, seqNo, meter, active);
      case Stop(session, startMeter, sent) => StopKeepsIff(st, session, startMeter, sent);
      case Append(r) => AppendAgreesIff(st, r);
    }
  }

  /** From a sound log with nothing built, the caches agree with the log throughout a run of ticks, stops and appends
      exactly when every stop that recorded a register without a cached peak covered the session's readings, and every
      appended row was admissible and came before the session's numbers were built and within its peak. */
  lemma AgreesIff(states: seq<State>, steps: seq<Step>)
    requires Run(states, steps) && NoDuplicates(states[0].readings) && NoRegression(states[0].readings)
    ensures (forall k :: 0 <= k < |states| ==> Agrees(states[k]))
      <==> forall i :: 0 <= i < |steps| ==> StepCovered(states[i], steps[i])
  {
    if forall i :: 0 <= i < |steps| ==> StepCovered(states[i], steps[i]) {
      forall k | 0 <= k < |states| ensures Agrees(states[k]) {
        RunAgrees(states, steps, k);
      }
    }
    if forall k :: 0 <= k < |states| ==> Agrees(states[k]) {
      forall i | 0 <= i < |steps| ensures StepCovered(states[i], steps[i]) {
        assert Agrees(states[i]) && Agrees(states[i + 1]);
        StepAgreesIff(states[i], steps[i]);
      }
    }
  }

  /** A session the store has readings of has a peak. */
  ghost predicate PeaksKnown(st: State) {
    forall i :: 0 <= i < |st.readings| ==> st.readings[i].session in st.peak
  }

  lemma {:induction false} EmptyStartAgrees(states: seq<State>, steps: seq<Step>, k: nat)
    requires Run(states, steps) && k <= |steps| && states[0].readings == []
    requires forall i :: 0 <= i < |steps| ==> !steps[i].Append?
    ensures PeaksKnown(states[k]) && Agrees(states[k])
  {
    if k > 0 {
      EmptyStartAgrees(states, steps, k - 1);
      var st, step := states[k - 1], steps[k - 1];
      assert StepCovered(st, step);
      StepAgreesIff(st, step);
    }
  }

  /** A store that started empty and grew only through its own methods never accepts a duplicate, or a reading more than
      the tolerance below an earlier one. */
  lemma OwnReadingsSound(states: seq<State>, steps: seq<Step>, k: nat)
    requires Run(states, steps) && k <= |steps| && states[0].readings == []
    requires forall i :: 0 <= i < |steps| ==> !steps[i].Append?
    ensures NoDuplicates(states[k].readings) && NoRegression(states[k].readings)
  {
    EmptyStartAgrees(states, steps, k);
  }
}
