/** What one certification run does for one session, from the log it starts with: a promise that holds or was eroded
    is left alone, a refusal is repeated silently, and everybody else is judged once, on the floors the others hold
    then. */
module Reuse {
  import opened Reals
  import opened Ordering
  import opened Charging
  import opened Certifier
  import opened Controller
  import opened PlanCycle

  // ---- rows and lines of one session ----

  /** Row k is the session's latest certificate. */
  ghost predicate LastRow(certs: seq<Cert>, sid: int, k: nat) {
    && k < |certs| && certs[k].sessionId == sid
    && forall j :: k < j < |certs| ==> certs[j].sessionId != sid
  }

  ghost predicate LatestStatus(certs: seq<Cert>, sid: int, status: Status) {
    exists k: nat :: LastRow(certs, sid, k) && certs[k].status == status
  }

  ghost predicate NoRowFrom(certs: seq<Cert>, from: nat, sid: int) {
    forall j :: from <= j < |certs| ==> certs[j].sessionId != sid
  }

  /** From row `from` on the session has one row, and it is this one. */
  ghost predicate OneRowFrom(certs: seq<Cert>, from: nat, row: Cert) {
    exists k :: from <= k < |certs| && certs[k] == row
      && forall j :: from <= j < |certs| && j != k ==> certs[j].sessionId != row.sessionId
  }

  ghost predicate NoLineFrom(issued: seq<Issued>, from: nat, sid: int) {
    forall j :: from <= j < |issued| ==> issued[j].sessionId != sid
  }

  /** The report has one line about the session, and it is this one. */
  ghost predicate OneLine(issued: seq<Issued>, line: Issued) {
    exists k :: 0 <= k < |issued| && issued[k] == line
      && forall j :: 0 <= j < |issued| && j != k ==> issued[j].sessionId != line.sessionId
  }

  lemma {:induction false} LatestIs(certs: seq<Cert>, sid: int)
    ensures Latest(certs, sid).None? <==> NoRowFrom(certs, 0, sid)
    ensures Latest(certs, sid).Some? ==> exists k: nat :: LastRow(certs, sid, k) && certs[k] == Latest(certs, sid).value
  {
    if certs != [] {
      var n := |certs| - 1;
      if certs[n].sessionId == sid {
        assert LastRow(certs, sid, n);
      } else {
        LatestIs(certs[..n], sid);
        if Latest(certs[..n], sid).Some? {
          var k: nat :| LastRow(certs[..n], sid, k) && certs[..n][k] == Latest(certs[..n], sid).value;
          assert LastRow(certs, sid, k) && certs[k] == Latest(certs, sid).value;
        }
      }
    }
  }

  lemma OneLastRow(certs: seq<Cert>, sid: int, j: nat, k: nat)
    requires LastRow(certs, sid, j) && LastRow(certs, sid, k)
    ensures j == k
  {
  }

  lemma LatestStatusIs(certs: seq<Cert>, sid: int, status: Status)
    ensures LatestStatus(certs, sid, status) <==> Latest(certs, sid).Some? && Latest(certs, sid).value.status == status
  {
    LatestIs(certs, sid);
    if LatestStatus(certs, sid, status) {
      var k: nat :| LastRow(certs, sid, k) && certs[k].status == status;
      assert !NoRowFrom(certs, 0, sid);
      var j: nat :| LastRow(certs, sid, j) && certs[j] == Latest(certs, sid).value;
      OneLastRow(certs, sid, j, k);
    }
  }

  // ---- what a run leaves alone ----

  /** b follows from a without a turn of vehicle i: nothing about it changes, and logs only grow. */
  ghost predicate Passed(a: Site, b: Site, i: nat) {
    && i < |a.vehicles| == |b.vehicles|
    && b.vehicles[i] == a.vehicles[i]
    && a.certs <= b.certs && NoRowFrom(b.certs, |a.certs|, a.vehicles[i].sessionId)
    && a.issued <= b.issued && NoLineFrom(b.issued, |a.issued|, a.vehicles[i].sessionId)
  }

  lemma PassedChain(a: Site, b: Site, c: Site, i: nat)
    requires Passed(a, b, i) && Passed(b, c, i)
    ensures Passed(a, c, i)
  {
    forall j | |a.certs| <= j < |c.certs| ensures c.certs[j].sessionId != a.vehicles[i].sessionId {
      assert j < |b.certs| ==> c.certs[j] == b.certs[j];
    }
    forall j | |a.issued| <= j < |c.issued| ensures c.issued[j].sessionId != a.vehicles[i].sessionId {
      assert j < |b.issued| ==> c.issued[j] == b.issued[j];
    }
  }

  lemma OtherTurnPasses(s: Site, i: nat, o: nat, judge: Judge)
    requires i < |s.vehicles| && o < |s.vehicles| && s.vehicles[i].sessionId != s.vehicles[o].sessionId
    ensures Passed(s, CertifyOne(s, o, judge), i)
  {
  }

  lemma {:induction false} TurnsPass(s: Site, order: seq<nat>, judge: Judge, j: nat, k: nat, i: nat)
    requires InSite(s, order) && DistinctIds(s.vehicles) && i < |s.vehicles| && j <= k <= |order|
    requires forall l :: j <= l < k ==> order[l] != i
    ensures Passed(CertifyPass(s, order, judge, j), CertifyPass(s, order, judge, k), i)
    decreases k
  {
    if j < k {
      TurnsPass(s, order, judge, j, k - 1, i);
      var m := CertifyPass(s, order, judge, k - 1);
      CertifyPassFleet(s, order, judge, k - 1);
      assert s.vehicles[i].sessionId != s.vehicles[order[k - 1]].sessionId;
      OtherTurnPasses(m, i, order[k - 1], judge);
      PassedChain(CertifyPass(s, order, judge, j), m, CertifyPass(s, order, judge, k), i);
    }
  }

  /** Growing the log by other sessions' rows does not change the session's latest one. */
  lemma {:induction false} LatestStays(a: seq<Cert>, b: seq<Cert>, sid: int)
    requires a <= b && NoRowFrom(b, |a|, sid)
    ensures Latest(b, sid) == Latest(a, sid)
    decreases |b|
  {
    if |a| < |b| {
      LatestStays(a, b[..|b| - 1], sid);
    } else {
      assert a == b;
    }
  }

  // ---- the outcome of a run for one session ----

  /** What the others hold at vehicle i's turn: their new floor if they come earlier, the old one if later. */
  function OtherFloors(before: seq<Vehicle>, after: seq<Vehicle>, i: nat): seq<real>
    requires i < |before| == |after|
  {
    seq(|before|, o requires 0 <= o < |before| =>
      if o == i then 0.0
      else if before[o].sessionId < before[i].sessionId then after[o].certifiedFloorKw
      else before[o].certifiedFloorKw)
  }

  /** What becomes of vehicle i when the judge, asked or not, would say `verdict`. */
  ghost predicate Outcome(s: Site, r: Site, i: nat, verdict: Verdict)
    requires i < |s.vehicles| == |r.vehicles|
  {
    var v, n := s.vehicles[i], |s.certs|;
    var sid := v.sessionId;
    if LatestStatus(s.certs, sid, ACTIVE) || LatestStatus(s.certs, sid, ERODED) then
      && NoRowFrom(r.certs, n, sid) && r.vehicles[i] == v
      && OneLine(r.issued, Issued(sid, if LatestStatus(s.certs, sid, ACTIVE) then ACTIVE else ERODED, true))
    else if verdict.admitted then
      && OneRowFrom(r.certs, n, Cert(sid, verdict.floorKw, ACTIVE))
      && r.vehicles[i] == v.(certifiedFloorKw := verdict.floorKw)
      && OneLine(r.issued, Issued(sid, ACTIVE, false))
    else if LatestStatus(s.certs, sid, FAILED) then
      NoRowFrom(r.certs, n, sid) && r.vehicles[i] == v && OneLine(r.issued, Issued(sid, FAILED, true))
    else
      && OneRowFrom(r.certs, n, Cert(sid, verdict.floorKw, FAILED)) && r.vehicles[i] == v
      && OneLine(r.issued, Issued(sid, FAILED, false))
  }

  /** A turn of its own settles the outcome. */
  lemma TurnOutcome(s: Site, m: Site, i: nat, judge: Judge)
    requires Passed(s, m, i) && NoLineFrom(m.issued, 0, s.vehicles[i].sessionId)
    ensures Outcome(s, CertifyOne(m, i, judge), i, judge(m.vehicles[i], OthersKw(m.vehicles, i)))
  {
    var r, sid := CertifyOne(m, i, judge), s.vehicles[i].sessionId;
    LatestStays(s.certs, m.certs, sid);
    LatestStatusIs(s.certs, sid, ACTIVE);
    LatestStatusIs(s.certs, sid, ERODED);
    LatestStatusIs(s.certs, sid, FAILED);
    assert r.issued[|m.issued|].sessionId == sid;
    assert |r.certs| > |m.certs| ==> r.certs[|m.certs|].sessionId == sid;
  }

  lemma RowStays(a: seq<Cert>, b: seq<Cert>, from: nat, row: Cert)
    requires a <= b && from <= |a| && OneRowFrom(a, from, row) && NoRowFrom(b, |a|, row.sessionId)
    ensures OneRowFrom(b, from, row)
  {
    var k :| from <= k < |a| && a[k] == row
      && forall j :: from <= j < |a| && j != k ==> a[j].sessionId != row.sessionId;
    assert b[k] == row;
    forall j | from <= j < |b| && j != k ensures b[j].sessionId != row.sessionId {
      assert j < |a| ==> b[j] == a[j];
    }
  }

  lemma LineStays(a: seq<Issued>, b: seq<Issued>, line: Issued)
    requires a <= b && OneLine(a, line) && NoLineFrom(b, |a|, line.sessionId)
    ensures OneLine(b, line)
  {
    var k :| 0 <= k < |a| && a[k] == line && forall j :: 0 <= j < |a| && j != k ==> a[j].sessionId != line.sessionId;
    assert b[k] == line;
    forall j | 0 <= j < |b| && j != k ensures b[j].sessionId != line.sessionId {
      assert j < |a| ==> b[j] == a[j];
    }
  }

  lemma NoRowStays(a: seq<Cert>, b: seq<Cert>, from: nat, sid: int)
    requires a <= b && NoRowFrom(a, from, sid) && NoRowFrom(b, |a|, sid)
    ensures NoRowFrom(b, from, sid)
  {
    forall j | from <= j < |b| ensures b[j].sessionId != sid {
      assert j < |a| ==> b[j] == a[j];
    }
  }

  /** Later turns of others do not change it. */
  lemma OutcomeStays(s: Site, t: Site, r: Site, i: nat, verdict: Verdict)
    requires i < |s.vehicles| == |t.vehicles| && Passed(t, r, i) && Outcome(s, t, i, verdict)
    requires s.certs <= t.certs && t.vehicles[i].sessionId == s.vehicles[i].sessionId
    ensures Outcome(s, r, i, verdict)
  {
    var sid, n := s.vehicles[i].sessionId, |s.certs|;
    if NoRowFrom(t.certs, n, sid) {
      NoRowStays(t.certs, r.certs, n, sid);
    }
    forall row: Cert | row.sessionId == sid && OneRowFrom(t.certs, n, row) ensures OneRowFrom(r.certs, n, row) {
      RowStays(t.certs, r.certs, n, row);
    }
    forall line: Issued | line.sessionId == sid && OneLine(t.issued, line) ensures OneLine(r.issued, line) {
      LineStays(t.issued, r.issued, line);
    }
  }

  /** Where the turns of two vehicles lie. */
  lemma TurnsById(vehicles: seq<Vehicle>, i: nat, o: nat) returns (j: nat, q: nat)
    requires DistinctIds(vehicles) && i < |vehicles| && o < |vehicles| && i != o
    ensures j < |IdOrder(vehicles)| && q < |IdOrder(vehicles)|
    ensures IdOrder(vehicles)[j] == i && IdOrder(vehicles)[q] == o
    ensures q < j <==> vehicles[o].sessionId < vehicles[i].sessionId
  {
    j := IdOrderVisits(vehicles, i);
    q := IdOrderVisits(vehicles, o);
    SortBySorts(IdKeys(vehicles), Upto(|vehicles|));
    assert Sorted(IdKeys(vehicles), IdOrder(vehicles));
    assert vehicles[i].sessionId != vehicles[o].sessionId;
    if q < j {
      assert Before(IdKeys(vehicles)[o], IdKeys(vehicles)[i]);
    } else {
      assert Before(IdKeys(vehicles)[i], IdKeys(vehicles)[o]);
    }
  }

  lemma OtherAtTurn(s: Site, judge: Judge, i: nat, j: nat, o: nat)
    requires DistinctIds(s.vehicles) && i < |s.vehicles| && o < |s.vehicles| && i != o
    requires j < |IdOrder(s.vehicles)| && IdOrder(s.vehicles)[j] == i
    ensures CertifyPass(s, IdOrder(s.vehicles), judge, j).vehicles[o].certifiedFloorKw
            == OtherFloors(s.vehicles, CertifySite(s, judge).vehicles, i)[o]
  {
    var order := IdOrder(s.vehicles);
    var k, q := TurnsById(s.vehicles, i, o);
    var d := IdOrderVisits(s.vehicles, i);
    assert k == j;
    if q < j {
      SettledAfterTurn(s, order, judge, q, j);
      SettledAfterTurn(s, order, judge, q, |order|);
    } else {
      forall l | 0 <= l < j ensures order[l] != o {
        assert l < q;
      }
      TurnsPass(s, order, judge, 0, j, o);
    }
  }

  lemma OthersAtTurn(s: Site, judge: Judge, i: nat, j: nat)
    requires DistinctIds(s.vehicles) && i < |s.vehicles|
    requires j < |IdOrder(s.vehicles)| && IdOrder(s.vehicles)[j] == i
    ensures OthersKw(CertifyPass(s, IdOrder(s.vehicles), judge, j).vehicles, i)
            == Sum(OtherFloors(s.vehicles, CertifySite(s, judge).vehicles, i))
  {
    var m := CertifyPass(s, IdOrder(s.vehicles), judge, j);
    var floors := OtherFloors(s.vehicles, CertifySite(s, judge).vehicles, i);
    forall o | 0 <= o < |s.vehicles| ensures Floors(m.vehicles)[i := 0.0][o] == floors[o] {
      if o != i {
        OtherAtTurn(s, judge, i, j, o);
      }
    }
    assert Floors(m.vehicles)[i := 0.0] == floors;
  }

  /** The sites just before and just after vehicle i's turn. */
  ghost predicate Around(s: Site, m: Site, t: Site, r: Site, i: nat) {
    && Passed(s, m, i) && NoLineFrom(m.issued, 0, s.vehicles[i].sessionId)
    && Passed(t, r, i) && s.certs <= t.certs && |t.vehicles| == |s.vehicles|
    && t.vehicles[i].sessionId == s.vehicles[i].sessionId
  }

  lemma TurnIs(s: Site, judge: Judge, i: nat) returns (m: Site)
    requires s.issued == [] && DistinctIds(s.vehicles) && i < |s.vehicles|
    ensures i < |m.vehicles| && Around(s, m, CertifyOne(m, i, judge), CertifySite(s, judge), i)
    ensures OthersKw(m.vehicles, i) == Sum(OtherFloors(s.vehicles, CertifySite(s, judge).vehicles, i))
  {
    var order := IdOrder(s.vehicles);
    var j := IdOrderVisits(s.vehicles, i);
    m := CertifyPass(s, order, judge, j);
    assert CertifyPass(s, order, judge, j + 1) == CertifyOne(m, i, judge);
    TurnsPass(s, order, judge, 0, j, i);
    TurnsPass(s, order, judge, j + 1, |order|, i);
    OthersAtTurn(s, judge, i, j);
  }

  lemma AroundOutcome(s: Site, m: Site, r: Site, i: nat, judge: Judge)
    requires i < |m.vehicles| && Around(s, m, CertifyOne(m, i, judge), r, i)
    ensures i < |s.vehicles| == |r.vehicles| && s.certs <= r.certs
    ensures Outcome(s, r, i, judge(s.vehicles[i], OthersKw(m.vehicles, i)))
  {
    TurnOutcome(s, m, i, judge);
    OutcomeStays(s, CertifyOne(m, i, judge), r, i, judge(m.vehicles[i], OthersKw(m.vehicles, i)));
  }

  /** certifySite for one of its vehicles. Promises that hold, and eroded ones, are kept as they are; a vehicle that had
      none, or one that was met or refused, is judged once, on its own record and on what the others hold by then; and a
      refusal is written down again only if the last word was not a refusal. */
  lemma CertifySiteIs(s: Site, judge: Judge, i: nat)
    requires s.issued == [] && DistinctIds(s.vehicles) && i < |s.vehicles|
    ensures var r := CertifySite(s, judge);
            && s.certs <= r.certs
            && Outcome(s, r, i, judge(s.vehicles[i], Sum(OtherFloors(s.vehicles, r.vehicles, i))))
  {
    var m := TurnIs(s, judge, i);
    AroundOutcome(s, m, CertifySite(s, judge), i, judge);
  }
}
