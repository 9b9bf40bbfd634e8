/** What ticks and stops answer, read from the log of readings and the registers the store remembers. */
module Meters {
  import opened Reals
  import opened Ordering
  import opened Readings

  ghost function Belonging(readings: seq<Reading>, session: int): seq<bool> {
    seq(|readings|, i requires 0 <= i < |readings| => readings[i].session == session)
  }

  /** rows is the session's part of the first n readings, in their order. */
  ghost predicate Selects(readings: seq<Reading>, session: int, n: nat, rows: seq<Reading>, pos: seq<nat>) {
    && n <= |readings| && |pos| == |rows| && Picks(pos, Belonging(readings, session), n)
    && forall k :: 0 <= k < |rows| ==> rows[k] == readings[pos[k]]
  }

  lemma SelectsNext(readings: seq<Reading>, session: int, n: nat, rows: seq<Reading>, pos: seq<nat>)
    requires n < |readings| && Selects(readings, session, n, rows, pos)
    ensures if readings[n].session == session then Selects(readings, session, n + 1, rows + [readings[n]], pos + [n])
            else Selects(readings, session, n + 1, rows, pos)
  {
    PicksNext(pos, Belonging(readings, session), n);
  }

  /** readingsFor returns every reading of the session once, in the order of the log, and nothing else. */
  lemma {:induction false} FilterSelects(readings: seq<Reading>, session: int, n: nat) returns (pos: seq<nat>)
    requires n <= |readings|
    ensures Selects(readings, session, n, Filter(readings[..n], session), pos)
  {
    if n == 0 {
      pos := [];
    } else {
      pos := FilterSelects(readings, session, n - 1);
      SelectsNext(readings, session, n - 1, Filter(readings[..n - 1], session), pos);
      assert readings[..n][..n - 1] == readings[..n - 1];
      pos := if readings[n - 1].session == session then pos + [n - 1] else pos;
    }
  }

  /** `high` is the highest register of the session's readings, or `least` if that is higher. */
  ghost predicate Highest(readings: seq<Reading>, session: int, least: real, high: real) {
    && high >= least
    && (forall i :: 0 <= i < |readings| && readings[i].session == session ==> readings[i].meter <= high)
    && (high == least || SomeReads(readings, session, high))
  }

  ghost predicate SomeReads(readings: seq<Reading>, session: int, meter: real) {
    exists i :: 0 <= i < |readings| && readings[i].session == session && readings[i].meter == meter
  }

  lemma ReadsStay(a: seq<Reading>, b: seq<Reading>, session: int, meter: real)
    requires a <= b && SomeReads(a, session, meter)
    ensures SomeReads(b, session, meter)
  {
    var i :| 0 <= i < |a| && a[i].session == session && a[i].meter == meter;
    assert b[i] == a[i];
  }

  lemma {:induction false} PeakIsHighest(readings: seq<Reading>, session: int, least: real)
    ensures Highest(readings, session, least, Peak(readings, session, least))
  {
    PeakBounds(readings, session, least);
    if readings != [] {
      var n := |readings| - 1;
      PeakIsHighest(readings[..n], session, least);
      var m := Peak(readings[..n], session, least);
      if m != least {
        ReadsStay(readings[..n], readings, session, m);
      }
      assert readings[n].session == session ==> SomeReads(readings, session, readings[n].meter);
    }
  }

  lemma OneHighest(readings: seq<Reading>, session: int, least: real, a: real, b: real)
    requires Highest(readings, session, least, a) && Highest(readings, session, least, b)
    ensures a == b
  {
  }

  ghost predicate Numbered(readings: seq<Reading>, session: int, seqNo: int) {
    exists i :: 0 <= i < |readings| && readings[i].session == session && readings[i].seqNo == seqNo
  }

  lemma SeenIsNumbered(st: State, session: int, seqNo: int)
    requires SeenExact(st, session)
    ensures seqNo in Seen(st, session) <==> Numbered(st.readings, session, seqNo)
  {
  }

  /** The register a tick of the session is held against: the one remembered, else the highest of its readings (-1 if it
      has none). */
  ghost predicate HeldAgainst(st: State, session: int, high: real) {
    if session in st.peak then high == st.peak[session] else Highest(st.readings, session, -1.0, high)
  }

  /** A tick is refused for an inactive session or a register that is no finite number; answered as a repeat when the
      log has its number; refused when it falls more than a thousandth below the register it is held against; and
      otherwise appended as it is. Only then does the log grow. */
  lemma TickIs(st: State, session: int, seqNo: int, meter: Option<real>, active: bool, high: real)
    requires SeenExact(st, session) && HeldAgainst(st, session, high)
    ensures var reply, taken := TickReply(st, session, seqNo, meter, active), active && meter.Some?;
            && (reply == TickRejected <==> !taken)
            && (reply == Deduped <==> taken && Numbered(st.readings, session, seqNo))
            && (reply == MeterRegression <==>
                 taken && !Numbered(st.readings, session, seqNo) && meter.value < high - 0.001)
            && (reply == Accepted <==>
                 taken && !Numbered(st.readings, session, seqNo) && meter.value >= high - 0.001)
            && Ticked(st, session, seqNo, meter, active).readings
                 == if reply == Accepted then st.readings + [Reading(session, seqNo, meter.value)] else st.readings
  {
    SeenIsNumbered(st, session, seqNo);
    PeakIsHighest(st.readings, session, -1.0);
    if session !in st.peak {
      OneHighest(st.readings, session, -1.0, high, Peak(st.readings, session, -1.0));
    }
  }

  /** The register a stop records: the one sent, unless it is missing or negative; else the remembered one; else the
      highest of its readings; and never less than nothing. */
  ghost predicate Recorded(st: State, session: int, sent: Option<real>, end: real) {
    if sent.Some? && sent.value >= 0.0 then end == sent.value
    else if session in st.peak then end == if st.peak[session] > 0.0 then st.peak[session] else 0.0
    else Highest(st.readings, session, 0.0, end)
  }

  /** The higher of a register and the remembered one. */
  ghost function AtLeast(peak: map<int, real>, session: int, end: real): real {
    if session in peak && peak[session] >= end then peak[session] else end
  }

  /** A stop records that register, is refused when it lies more than a thousandth below the start register, and
      otherwise raises what the store remembers to it; the log is untouched. */
  lemma StopIs(st: State, session: int, startMeter: real, sent: Option<real>, end: real)
    requires Recorded(st, session, sent, end)
    ensures StopMeter(st, session, sent) == end
    ensures StopRefused(st, session, startMeter, sent) <==> end < startMeter - 0.001
    ensures var r := Stopped(st, session, startMeter, sent);
            && r.readings == st.readings && r.seen == st.seen
            && (end < startMeter - 0.001 ==> r.peak == st.peak)
            && (end >= startMeter - 0.001 ==> r.peak == st.peak[session := AtLeast(st.peak, session, end)])
  {
    PeakIsHighest(st.readings, session, 0.0);
    if session !in st.peak && !(sent.Some? && sent.value >= 0.0) {
      OneHighest(st.readings, session, 0.0, end, Peak(st.readings, session, 0.0));
    }
  }

  // ---- where a remembered register comes from ----

  /** An earlier stop of the session was sent this register. */
  ghost predicate SentBefore(steps: seq<Step>, k: nat, session: int, meter: real) {
    exists j :: 0 <= j < k && j < |steps|
      && steps[j].Stop? && steps[j].session == session && steps[j].sent == Some(meter)
  }

  ghost predicate Sourced(st: State, steps: seq<Step>, k: nat, session: int) {
    session in st.peak ==>
      || st.peak[session] == -1.0 || st.peak[session] == 0.0
      || SomeReads(st.readings, session, st.peak[session])
      || SentBefore(steps, k, session, st.peak[session])
  }

  lemma StepSourced(st: State, steps: seq<Step>, k: nat, session: int)
    requires k < |steps| && Sourced(st, steps, k, session)
    ensures Sourced(Next(st, steps[k]), steps, k + 1, session)
  {
    var r := Next(st, steps[k]);
    PeakIsHighest(st.readings, session, -1.0);
    PeakIsHighest(st.readings, session, 0.0);
    if session in r.peak {
      assert st.readings <= r.readings;
      if SomeReads(st.readings, session, r.peak[session]) {
        ReadsStay(st.readings, r.readings, session, r.peak[session]);
      }
      if |r.readings| > |st.readings| {
        assert r.readings[|st.readings|] in r.readings;
      }
      if SentBefore(steps, k, session, r.peak[session]) {
        assert SentBefore(steps, k + 1, session, r.peak[session]);
      }
      if steps[k].Stop? && steps[k].session == session && steps[k].sent == Some(r.peak[session]) {
        assert SentBefore(steps, k + 1, session, r.peak[session]);
      }
    }
  }

  /** In every run the register remembered for a session is one of its readings or one a stop was sent, unless it is the
      value for no reading at all: so a refused tick really falls below a register somebody reported. */
  lemma {:induction false} PeakReported(states: seq<State>, steps: seq<Step>, k: nat, session: int)
    requires Run(states, steps) && k <= |steps|
    ensures Sourced(states[k], steps, k, session)
  {
    if k > 0 {
      PeakReported(states, steps, k - 1, session);
      StepSourced(states[k - 1], steps, k - 1, session);
    }
  }
}
