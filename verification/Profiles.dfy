/** From a plan to charging profiles, and from the profile in force back to the scheduled power. */
module Profiles {
  import opened Reals
  import opened Ordering
  import opened Charging
  import opened Allocator
  import opened Invariants

  /** One row of a solved schedule; `cp` is the charge point of its session, or `None` when the store no longer knows
      it. */
  datatype Entry = Entry(cp: Option<int>, row: seq<real>)

  /** Energy per slot on one charge point. */
  datatype Line = Line(cp: int, kwh: seq<real>)

  datatype Period = Period(startS: int, limitW: int)

  /** When a schedule starts: at an instant, nowhere stated, or in text that is no instant. */
  datatype Start = At(ms: int) | Missing | Unreadable

  datatype Profile = Profile(decisionId: int, start: Start, inAmps: bool, periods: seq<Period>)

  datatype Push = Push(cp: int, profile: Profile, clamped: bool)

  // ---- totals per charge point ----

  ghost predicate Wide(entries: seq<Entry>, w: nat) {
    forall k :: 0 <= k < |entries| ==> |entries[k].row| == w
  }

  ghost predicate Even(lines: seq<Line>, w: nat) {
    forall j :: 0 <= j < |lines| ==> |lines[j].kwh| == w
  }

  function Plus(a: seq<real>, b: seq<real>): (c: seq<real>)
    requires |a| == |b|
    ensures |c| == |a|
  {
    seq(|a|, t requires 0 <= t < |a| => a[t] + b[t])
  }

  /** A row joins the line of its charge point, or starts a new line behind the others. */
  function AddTo(lines: seq<Line>, w: nat, cp: int, row: seq<real>): (r: seq<Line>)
    requires Even(lines, w) && |row| == w
    ensures Even(r, w)
  {
    if lines == [] then [Line(cp, row)]
    else if lines[0].cp == cp then [Line(cp, Plus(lines[0].kwh, row))] + lines[1..]
    else [lines[0]] + AddTo(lines[1..], w, cp, row)
  }

  function Lines(entries: seq<Entry>, w: nat, k: nat): (r: seq<Line>)
    requires Wide(entries, w) && k <= |entries|
    ensures Even(r, w)
  {
    if k == 0 then []
    else
      var r := Lines(entries, w, k - 1);
      if entries[k - 1].cp.None? then r else AddTo(r, w, entries[k - 1].cp.value, entries[k - 1].row)
  }

  lemma {:induction false} AddToAt(lines: seq<Line>, w: nat, cp: int, row: seq<real>, j: nat)
    requires Even(lines, w) && |row| == w && j <= |lines|
    requires forall i :: 0 <= i < j ==> lines[i].cp != cp
    requires j < |lines| ==> lines[j].cp == cp
    ensures AddTo(lines, w, cp, row)
            == if j < |lines| then lines[j := Line(cp, Plus(lines[j].kwh, row))] else lines + [Line(cp, row)]
  {
    if j > 0 {
      AddToAt(lines[1..], w, cp, row, j - 1);
      assert lines == [lines[0]] + lines[1..];
    }
  }

  /** The accumulation loop over the schedule's rows. */
  method Collect(entries: seq<Entry>, w: nat) returns (lines: seq<Line>)
    requires Wide(entries, w)
    ensures lines == Lines(entries, w, |entries|)
  {
    lines := [];
    for k := 0 to |entries|
      invariant lines == Lines(entries, w, k)
    {
      if entries[k].cp.Some? {
        var cp, row := entries[k].cp.value, entries[k].row;
        var j := 0;
        while j < |lines| && lines[j].cp != cp
          invariant 0 <= j <= |lines|
          invariant forall i :: 0 <= i < j ==> lines[i].cp != cp
        {
          j := j + 1;
        }
        AddToAt(lines, w, cp, row, j);
        if j < |lines| {
          lines := lines[j := Line(cp, Plus(lines[j].kwh, row))];
        } else {
          lines := lines + [Line(cp, row)];
        }
      }
    }
  }

  function LineCol(lines: seq<Line>, w: nat, t: nat): seq<real>
    requires Even(lines, w) && t < w
  {
    seq(|lines|, j requires 0 <= j < |lines| => lines[j].kwh[t])
  }

  /** What entry k puts on the wire in slot t. */
  function EntryAt(e: Entry, t: nat): real
    requires t < |e.row|
  {
    if e.cp.Some? then e.row[t] else 0.0
  }

  function EntryCol(entries: seq<Entry>, w: nat, t: nat, k: nat): seq<real>
    requires Wide(entries, w) && t < w && k <= |entries|
  {
    seq(k, i requires 0 <= i < k => EntryAt(entries[i], t))
  }

  function PointCol(entries: seq<Entry>, w: nat, cp: int, t: nat, k: nat): seq<real>
    requires Wide(entries, w) && t < w && k <= |entries|
  {
    seq(k, i requires 0 <= i < k => if entries[i].cp == Some(cp) then entries[i].row[t] else 0.0)
  }

  ghost predicate OneLineEach(lines: seq<Line>) {
    forall i, j :: 0 <= i < j < |lines| ==> lines[i].cp != lines[j].cp
  }

  lemma {:induction false} AddToSum(lines: seq<Line>, w: nat, cp: int, row: seq<real>, t: nat)
    requires Even(lines, w) && |row| == w && t < w
    ensures Sum(LineCol(AddTo(lines, w, cp, row), w, t)) == Sum(LineCol(lines, w, t)) + row[t]
  {
    var r := AddTo(lines, w, cp, row);
    if lines == [] {
      assert LineCol(r, w, t) == [] + [row[t]];
      SumPush([], row[t]);
    } else {
      LineColHead(lines, w, t);
      LineColHead(r, w, t);
      if lines[0].cp == cp {
        assert r[1..] == lines[1..];
      } else {
        AddToSum(lines[1..], w, cp, row, t);
        assert r[1..] == AddTo(lines[1..], w, cp, row);
      }
    }
  }

  lemma LineColHead(lines: seq<Line>, w: nat, t: nat)
    requires Even(lines, w) && t < w && lines != []
    ensures Sum(LineCol(lines, w, t)) == lines[0].kwh[t] + Sum(LineCol(lines[1..], w, t))
  {
    var rest := LineCol(lines[1..], w, t);
    assert LineCol(lines, w, t) == [lines[0].kwh[t]] + rest;
    SumConcat([lines[0].kwh[t]], rest);
    SumPush([], lines[0].kwh[t]);
    assert [] + [lines[0].kwh[t]] == [lines[0].kwh[t]];
  }

  /** Nothing is lost or invented on the way to the charge points. */
  lemma {:induction false} LinesConserve(entries: seq<Entry>, w: nat, t: nat, k: nat)
    requires Wide(entries, w) && t < w && k <= |entries|
    ensures Sum(LineCol(Lines(entries, w, k), w, t)) == Sum(EntryCol(entries, w, t, k))
  {
    if k > 0 {
      LinesConserve(entries, w, t, k - 1);
      assert EntryCol(entries, w, t, k)[..k - 1] == EntryCol(entries, w, t, k - 1);
      if entries[k - 1].cp.Some? {
        AddToSum(Lines(entries, w, k - 1), w, entries[k - 1].cp.value, entries[k - 1].row, t);
      }
    } else {
      assert LineCol(Lines(entries, w, 0), w, t) == EntryCol(entries, w, t, 0) == [];
    }
  }

  /** Every charge point has one line, and it carries exactly the rows of that charge point. */
  ghost predicate LinesMean(entries: seq<Entry>, w: nat, lines: seq<Line>, k: nat)
    requires Wide(entries, w) && Even(lines, w) && k <= |entries|
  {
    && OneLineEach(lines)
    && (forall j, t :: 0 <= j < |lines| && 0 <= t < w
         ==> lines[j].kwh[t] == Sum(PointCol(entries, w, lines[j].cp, t, k)))
    && (forall i :: 0 <= i < k && entries[i].cp.Some? ==> HasLine(lines, entries[i].cp.value))
    && (forall j :: 0 <= j < |lines| ==> exists i :: 0 <= i < k && entries[i].cp == Some(lines[j].cp))
  }

  ghost predicate HasLine(lines: seq<Line>, cp: int) {
    exists j :: 0 <= j < |lines| && lines[j].cp == cp
  }

  lemma PointColGrows(entries: seq<Entry>, w: nat, cp: int, t: nat, k: nat)
    requires Wide(entries, w) && t < w && 0 < k <= |entries|
    ensures Sum(PointCol(entries, w, cp, t, k))
            == Sum(PointCol(entries, w, cp, t, k - 1)) + if entries[k - 1].cp == Some(cp)
              then entries[k - 1].row[t] else 0.0
  {
    assert PointCol(entries, w, cp, t, k)[..k - 1] == PointCol(entries, w, cp, t, k - 1);
  }

  lemma {:induction false} NoRowsNoEnergy(entries: seq<Entry>, w: nat, cp: int, t: nat, k: nat)
    requires Wide(entries, w) && t < w && k <= |entries|
    requires forall i :: 0 <= i < k ==> entries[i].cp != Some(cp)
    ensures Sum(PointCol(entries, w, cp, t, k)) == 0.0
  {
    SumZero(PointCol(entries, w, cp, t, k));
  }

  lemma FindCp(lines: seq<Line>, cp: int) returns (j: nat)
    requires OneLineEach(lines)
    ensures j <= |lines| && (forall i :: 0 <= i < |lines| && i != j ==> lines[i].cp != cp)
    ensures j < |lines| ==> lines[j].cp == cp
  {
    if HasLine(lines, cp) {
      j :| 0 <= j < |lines| && lines[j].cp == cp;
    } else {
      j := |lines|;
    }
  }

  lemma {:induction false} LinesAre(entries: seq<Entry>, w: nat, k: nat)
    requires Wide(entries, w) && k <= |entries|
    ensures LinesMean(entries, w, Lines(entries, w, k), k)
  {
    if k > 0 {
      LinesAre(entries, w, k - 1);
      LinesStep(entries, w, Lines(entries, w, k - 1), k);
    }
  }

  lemma LinesStep(entries: seq<Entry>, w: nat, m: seq<Line>, k: nat)
    requires Wide(entries, w) && 0 < k <= |entries| && Even(m, w) && LinesMean(entries, w, m, k - 1)
    ensures entries[k - 1].cp.None? ==> LinesMean(entries, w, m, k)
    ensures entries[k - 1].cp.Some?
      ==> LinesMean(entries, w, AddTo(m, w, entries[k - 1].cp.value, entries[k - 1].row), k)
  {
    var e := entries[k - 1];
    if e.cp.None? {
      forall j, t | 0 <= j < |m| && 0 <= t < w ensures m[j].kwh[t] == Sum(PointCol(entries, w, m[j].cp, t, k)) {
        PointColGrows(entries, w, m[j].cp, t, k);
      }
    } else {
      var q := FindCp(m, e.cp.value);
      AddToAt(m, w, e.cp.value, e.row, q);
      var r := AddTo(m, w, e.cp.value, e.row);
      assert r[q].cp == e.cp.value;
      forall j, t | 0 <= j < |r| && 0 <= t < w ensures r[j].kwh[t] == Sum(PointCol(entries, w, r[j].cp, t, k)) {
        PointColGrows(entries, w, r[j].cp, t, k);
        if j == |m| {
          NoRowsNoEnergy(entries, w, e.cp.value, t, k - 1);
        }
      }
      forall i | 0 <= i < k && entries[i].cp.Some? ensures HasLine(r, entries[i].cp.value) {
        if i < k - 1 {
          var j :| 0 <= j < |m| && m[j].cp == entries[i].cp.value;
          assert r[j].cp == entries[i].cp.value;
        }
      }
      forall j | 0 <= j < |r| ensures exists i :: 0 <= i < k && entries[i].cp == Some(r[j].cp) {
        if j == q {
          assert entries[k - 1].cp == Some(r[j].cp);
        } else {
          var i :| 0 <= i < k - 1 && entries[i].cp == Some(m[j].cp);
          assert entries[i].cp == Some(r[j].cp);
        }
      }
    }
  }

  // ---- periods ----

  function KwRaw(kwh: real, dtH: real): real
    requires dtH > 0.0
  {
    kwh / dtH
  }

  /** The commanded power of a slot: the planned power, never above the site cap, in whole watts. */
  function LimitW(kwh: real, dtH: real, capKw: Option<real>): int
    requires dtH > 0.0
  {
    RoundHalfUp(Limit(KwRaw(kwh, dtH), capKw) * 1000.0)
  }

  function Hours(dtMin: int): real {
    dtMin as real / 60.0
  }

  function PeriodsOf(kwh: seq<real>, dtMin: int, capKw: Option<real>): (r: seq<Period>)
    requires dtMin > 0
    ensures |r| == |kwh|
  {
    seq(|kwh|, i requires 0 <= i < |kwh| => Period(i * (dtMin * 60), LimitW(kwh[i], Hours(dtMin), capKw)))
  }

  predicate Clamped(kwh: real, dtH: real, capKw: Option<real>)
    requires dtH > 0.0
  {
    Limit(KwRaw(kwh, dtH), capKw) < KwRaw(kwh, dtH) - 0.000000001
  }

  function PushOf(line: Line, decisionId: int, startMs: int, dtMin: int, capKw: Option<real>): Push
    requires dtMin > 0
  {
    Push(line.cp, Profile(decisionId, At(startMs), false, PeriodsOf(line.kwh, dtMin, capKw)),
         exists i :: 0 <= i < |line.kwh| && Clamped(line.kwh[i], Hours(dtMin), capKw))
  }

  /** A profile is marked clamped exactly when some slot was planned above the cap. */
  lemma ClampedIs(line: Line, decisionId: int, startMs: int, dtMin: int, capKw: Option<real>)
    requires dtMin > 0
    ensures PushOf(line, decisionId, startMs, dtMin, capKw).clamped <==>
            capKw.Some? && exists i :: 0 <= i < |line.kwh| && line.kwh[i] > (capKw.value + 0.000000001) * Hours(dtMin)
  {
    var dtH := Hours(dtMin);
    forall i | 0 <= i < |line.kwh| && capKw.Some?
      ensures Clamped(line.kwh[i], dtH, capKw) <==> line.kwh[i] > (capKw.value + 0.000000001) * dtH
    {
      PowerAbove(line.kwh[i], capKw.value + 0.000000001, dtH);
    }
  }

  lemma PowerAbove(kwh: real, kw: real, dtH: real)
    requires dtH > 0.0
    ensures KwRaw(kwh, dtH) > kw <==> kwh > kw * dtH
  {
    assert KwRaw(kwh, dtH) * dtH == kwh;
    if KwRaw(kwh, dtH) > kw {
      DearerBy(kw, KwRaw(kwh, dtH), dtH);
    } else {
      PowerAtMost(KwRaw(kwh, dtH), kw, dtH);
    }
  }

  lemma DearerBy(a: real, b: real, dtH: real)
    requires dtH > 0.0 && a < b
    ensures a * dtH < b * dtH
  {
  }

  lemma PowerAtMost(a: real, b: real, dtH: real)
    requires dtH > 0.0 && a <= b
    ensures a * dtH <= b * dtH
  {
  }

  method CompileLine(line: Line, decisionId: int, startMs: int, dtMin: int, capKw: Option<real>) returns (push: Push)
    requires dtMin > 0
    ensures push == PushOf(line, decisionId, startMs, dtMin, capKw)
    ensures push.cp == line.cp && push.profile.decisionId == decisionId
    ensures push.profile.start == At(startMs) && !push.profile.inAmps && |push.profile.periods| == |line.kwh|
    ensures forall i :: 0 <= i < |line.kwh| ==> push.profile.periods[i].startS == i * dtMin * 60
  {
    var dtH := Hours(dtMin);
    var clamped := false;
    var periods := [];
    for i := 0 to |line.kwh|
      invariant periods == PeriodsOf(line.kwh, dtMin, capKw)[..i]
      invariant clamped <==> exists u :: 0 <= u < i && Clamped(line.kwh[u], dtH, capKw)
    {
      var kwRaw := KwRaw(line.kwh[i], dtH);
      var kw := Limit(kwRaw, capKw);
      if kw < kwRaw - 0.000000001 {
        assert Clamped(line.kwh[i], dtH, capKw);
        clamped := true;
      }
      periods := periods + [Period(i * (dtMin * 60), RoundHalfUp(kw * 1000.0))];
    }
    push := Push(line.cp, Profile(decisionId, At(startMs), false, periods), clamped);
  }

  method CompileToProfiles(entries: seq<Entry>, decisionId: int, startMs: int, dtMin: int, horizon: nat,
      capKw: Option<real>)
    returns (pushes: seq<Push>)
    requires dtMin > 0 && Wide(entries, horizon)
    ensures var lines := Lines(entries, horizon, |entries|);
            && |pushes| == |lines|
            && forall j :: 0 <= j < |lines| ==> pushes[j] == PushOf(lines[j], decisionId, startMs, dtMin, capKw)
  {
    var lines := Collect(entries, horizon);
    pushes := [];
    for j := 0 to |lines|
      invariant |pushes| == j
      invariant forall i :: 0 <= i < j ==> pushes[i] == PushOf(lines[i], decisionId, startMs, dtMin, capKw)
    {
      var push := CompileLine(lines[j], decisionId, startMs, dtMin, capKw);
      pushes := pushes + [push];
    }
  }

  // ---- the rounding bound ----

  /** The rows of a finished plan, in the four decimals they are published with. */
  function PlanEntries(p: Problem, s: State, known: set<int>): (entries: seq<Entry>)
    requires Shaped(p, s)
    ensures Wide(entries, p.horizon)
  {
    seq(|p.loads|, i requires 0 <= i < |p.loads| =>
      Entry(if p.loads[i].sessionId in known then Some(p.loads[i].cpId) else None,
            seq(p.horizon, t requires 0 <= t < p.horizon => ToFixed4(s.x[i][t]))))
  }

  /** Four decimals add at most half a ten-thousandth per vehicle. */
  lemma PublishedSlot(p: Problem, s: State, known: set<int>, t: nat)
    requires Good(p, s) && t < p.horizon
    ensures Sum(EntryCol(PlanEntries(p, s, known), p.horizon, t, |p.loads|))
      <= SumSite(p, s, t) + Times(0.00005, |p.loads|)
  {
    var n := |p.loads|;
    var slack := seq(n, _ => 0.00005);
    var col := Col(s.x, p.horizon, t);
    var above := seq(n, i requires 0 <= i < n => col[i] + slack[i]);
    SumPlus(col, slack, above);
    TimesSum(0.00005, n);
    forall i | 0 <= i < n ensures EntryCol(PlanEntries(p, s, known), p.horizon, t, n)[i] <= above[i] {
      assert RowGood(p, s, i);
      ToFixed4Near(s.x[i][t]);
    }
    SumMono(EntryCol(PlanEntries(p, s, known), p.horizon, t, n), above);
  }

  function LimitCol(lines: seq<Line>, w: nat, dtMin: int, capKw: Option<real>, t: nat): seq<real>
    requires Even(lines, w) && dtMin > 0 && t < w
  {
    seq(|lines|, j requires 0 <= j < |lines| => PeriodsOf(lines[j].kwh, dtMin, capKw)[t].limitW as real)
  }

  lemma PowerPlus(a: real, b: real, dtH: real)
    requires dtH > 0.0
    ensures KwRaw(a + b, dtH) == KwRaw(a, dtH) + KwRaw(b, dtH)
  {
  }

  lemma PowerMono(a: real, b: real, dtH: real)
    requires dtH > 0.0 && a <= b
    ensures KwRaw(a, dtH) <= KwRaw(b, dtH)
  {
  }

  /** A commanded limit is within half a watt of the planned power, or of the cap where the cap is lower. */
  lemma LimitBound(kwh: real, dtH: real, capKw: Option<real>)
    requires dtH > 0.0
    ensures LimitW(kwh, dtH, capKw) as real <= 1000.0 * KwRaw(kwh, dtH) + 0.5
    ensures 1000.0 * Limit(KwRaw(kwh, dtH), capKw) - 0.5 <= LimitW(kwh, dtH, capKw) as real
      <= 1000.0 * Limit(KwRaw(kwh, dtH), capKw) + 0.5
    ensures capKw.Some? ==> LimitW(kwh, dtH, capKw) <= RoundHalfUp(capKw.value * 1000.0)
  {
  }

  /** Half a watt per charge point on top of the power of the energy they share. */
  lemma {:induction false} LimitsBound(lines: seq<Line>, w: nat, dtMin: int, capKw: Option<real>, t: nat)
    requires Even(lines, w) && dtMin > 0 && t < w
    ensures Sum(LimitCol(lines, w, dtMin, capKw, t))
            <= 1000.0 * KwRaw(Sum(LineCol(lines, w, t)), Hours(dtMin)) + Times(0.5, |lines|)
  {
    var n := |lines| - 1;
    if n >= 0 {
      LimitsBound(lines[..n], w, dtMin, capKw, t);
      assert LimitCol(lines, w, dtMin, capKw, t)[..n] == LimitCol(lines[..n], w, dtMin, capKw, t);
      assert LineCol(lines, w, t)[..n] == LineCol(lines[..n], w, t);
      PowerPlus(Sum(LineCol(lines[..n], w, t)), lines[n].kwh[t], Hours(dtMin));
      LimitBound(lines[n].kwh[t], Hours(dtMin), capKw);
    }
  }

  lemma PowerOfBudget(usableKw: real, slack: real, dtH: real)
    requires dtH > 0.0
    ensures KwRaw(usableKw * dtH + slack, dtH) == usableKw + slack / dtH
  {
  }

  lemma CommandedEnergy(p: Problem, s: State, known: set<int>, dtMin: int, capKw: Option<real>, t: nat)
    requires p.siteKwh.Some? && Good(p, s) && t < p.horizon && dtMin > 0
    ensures var lines := Lines(PlanEntries(p, s, known), p.horizon, |p.loads|);
            Sum(LimitCol(lines, p.horizon, dtMin, capKw, t))
              <= 1000.0 * KwRaw(p.siteKwh.value + Times(0.00005, |p.loads|), Hours(dtMin)) + Times(0.5, |lines|)
  {
    var lines := Lines(PlanEntries(p, s, known), p.horizon, |p.loads|);
    LimitsBound(lines, p.horizon, dtMin, capKw, t);
    LinesConserve(PlanEntries(p, s, known), p.horizon, t, |p.loads|);
    PublishedSlot(p, s, known, t);
    assert Fits(p, s, t);
    PowerMono(Sum(LineCol(lines, p.horizon, t)), p.siteKwh.value + Times(0.00005, |p.loads|), Hours(dtMin));
  }

  lemma BudgetPower(r: Request, slack: real)
    requires r.dtMin > 0 && r.siteCapKw.Some?
    ensures Prepare(r).siteKwh.Some?
    ensures KwRaw(Prepare(r).siteKwh.value + slack, Hours(r.dtMin)) == r.siteCapKw.value + slack / Hours(r.dtMin)
  {
    SiteBudget(r);
    PowerOfBudget(r.siteCapKw.value, slack, Hours(r.dtMin));
  }

  /** In every period the commanded limits of all charge points together exceed the usable cap by at most half a watt
      per charge point and the published rounding of each vehicle. */
  lemma CommandedBound(r: Request, s: State, known: set<int>, capKw: Option<real>, t: nat)
    requires r.Valid() && r.siteCapKw.Some? && Good(Prepare(r), s) && t < r.horizon
    ensures var p := Prepare(r);
            var lines := Lines(PlanEntries(p, s, known), r.horizon, |p.loads|);
            Sum(LimitCol(lines, r.horizon, r.dtMin, capKw, t))
              <= 1000.0 * (r.siteCapKw.value + Times(0.00005, |p.loads|) / Hours(r.dtMin)) + Times(0.5, |lines|)
  {
    BudgetPower(r, Times(0.00005, |Prepare(r).loads|));
    CommandedEnergy(Prepare(r), s, known, r.dtMin, capKw, t);
  }

  // ---- the envelope ----

  /** The gateway's cap check on an outgoing profile; nothing is certified on an uncapped site. */
  predicate EnvelopeOk(profile: Profile, capKw: Option<real>) {
    capKw.None? || forall i ::
      0 <= i < |profile.periods| ==> profile.periods[i].limitW as real <= capKw.value * 1000.0 + 0.000001
  }

  method EnvelopeCheck(profile: Profile, capKw: Option<real>) returns (ok: bool)
    ensures ok == EnvelopeOk(profile, capKw)
  {
    if capKw.None? {
      return true;
    }
    for i := 0 to |profile.periods|
      invariant forall u :: 0 <= u < i ==> profile.periods[u].limitW as real <= capKw.value * 1000.0 + 0.000001
    {
      if profile.periods[i].limitW as real > capKw.value * 1000.0 + 0.000001 {
        return false;
      }
    }
    return true;
  }

  /** The cap check's tolerance covers the rounding of this cap. */
  predicate CapRounds(capKw: real) {
    RoundHalfUp(capKw * 1000.0) as real <= capKw * 1000.0 + 0.000001
  }

  /** The caps for which no compiled profile can fail its own envelope are exactly those whose watts round within the
      tolerance. */
  lemma EnvelopeIff(capKw: real, decisionId: int, startMs: int, dtMin: int)
    requires dtMin > 0
    ensures CapRounds(capKw)
            <==> forall line :: EnvelopeOk(PushOf(line, decisionId, startMs, dtMin, Some(capKw)).profile, Some(capKw))
  {
    if CapRounds(capKw) {
      forall line ensures EnvelopeOk(PushOf(line, decisionId, startMs, dtMin, Some(capKw)).profile, Some(capKw)) {
        LinePasses(line, capKw, decisionId, startMs, dtMin);
      }
    } else {
      var line := Line(0, [capKw * Hours(dtMin)]);
      var profile := PushOf(line, decisionId, startMs, dtMin, Some(capKw)).profile;
      PowerOfBudget(capKw, 0.0, Hours(dtMin));
      assert profile.periods[0].limitW == RoundHalfUp(capKw * 1000.0);
      assert !EnvelopeOk(profile, Some(capKw));
    }
  }

  lemma LinePasses(line: Line, capKw: real, decisionId: int, startMs: int, dtMin: int)
    requires dtMin > 0 && CapRounds(capKw)
    ensures EnvelopeOk(PushOf(line, decisionId, startMs, dtMin, Some(capKw)).profile, Some(capKw))
  {
    var periods := PeriodsOf(line.kwh, dtMin, Some(capKw));
    forall i | 0 <= i < |periods| ensures periods[i].limitW as real <= capKw * 1000.0 + 0.000001 {
      LimitBound(line.kwh[i], Hours(dtMin), Some(capKw));
    }
  }

  /** A cap in whole watts is one of them. */
  lemma WholeCapRounds(watts: int)
    ensures CapRounds(watts as real / 1000.0)
  {
    assert watts as real / 1000.0 * 1000.0 == watts as real;
    RoundWhole(watts);
  }
}
