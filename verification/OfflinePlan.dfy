/** The schedule that follows overlap-aware admission: what it pays every admitted guest. */
module OfflinePlan {
  import opened Reals
  import opened Ordering
  import opened Charging
  import opened Allocator
  import opened Invariants
  import opened Promise
  import opened Certifier
  import opened Controller
  import opened Offline

  /** Energy of one slot of some power. */
  function Kwh(kw: real, dtH: real): real {
    kw * dtH
  }

  // ---- the request ----

  /** Every vehicle may use its own charge point up to its nameplate. */
  function PointCaps(sc: Scenario, k: nat): map<int, real>
    requires k <= |sc.guests|
  {
    if k == 0 then map[] else PointCaps(sc, k - 1)[sc.guests[k - 1].v.cpId := sc.guests[k - 1].v.maxKw]
  }

  lemma {:induction false} PointCapsAre(sc: Scenario, k: nat)
    requires k <= |sc.guests|
    ensures forall c :: c in PointCaps(sc, k) ==>
              exists o :: 0 <= o < k && sc.guests[o].v.cpId == c && PointCaps(sc, k)[c] == sc.guests[o].v.maxKw
    ensures forall o :: 0 <= o < k ==> sc.guests[o].v.cpId in PointCaps(sc, k)
  {
    if k > 0 {
      PointCapsAre(sc, k - 1);
    }
  }

  /** The power-based request of certifyAndSchedule. */
  function ScheduleRequest(sc: Scenario, floors: seq<real>, usableKw: real, eps: real, tiny: real): Request
    requires |floors| == |sc.guests|
  {
    Request(seq(|floors|, o requires 0 <= o < |floors| => sc.guests[o].v.(certifiedFloorKw := floors[o])),
            Some(usableKw), PointCaps(sc, |sc.guests|), sc.prices, ClampDtMin(sc.dtMin), ClampHorizon(sc.horizon),
              sc.gridStart, false, eps, tiny)
  }

  /** Guest o with a floor, as the allocator reads it. */
  ghost predicate Reads(sc: Scenario, l: Load, floorKw: real, dtH: real, o: nat)
    requires o < |sc.guests|
  {
    var g := sc.guests[o];
    && l.sessionId == g.v.sessionId && l.cpId == g.v.cpId && l.av == g.arrivalSlot <= l.dl == g.deadlineSlot
    && l.capKwh == Kwh(g.v.maxKw, dtH) && l.floorKwh == Kwh(Min(floorKw, g.v.maxKw), dtH)
    && l.floored == (floorKw > 0.0)
    && l.need0 == Max(0.0, g.v.remainingKwh)
  }

  lemma GuestWindow(sc: Scenario, r: Request, o: nat)
    requires sc.Valid() && o < |sc.guests| && r.dtMin == sc.dtMin && r.now == sc.gridStart && r.horizon == sc.horizon
    ensures ArrivalSlot(r, sc.guests[o].v) == sc.guests[o].arrivalSlot <= sc.guests[o].deadlineSlot
    ensures DeadlineSlot(r, sc.guests[o].v) == sc.guests[o].deadlineSlot
  {
    assert sc.GuestSound(sc.guests[o]) && sc.GuestTimed(sc.guests[o]);
    GridSlot(sc.gridStart, sc.DtMs(), sc.guests[o].arrivalSlot);
    GridSlot(sc.gridStart, sc.DtMs(), sc.guests[o].deadlineSlot);
  }

  lemma PlannedLoad(sc: Scenario, v: Vehicle, dtH: real, o: nat)
    requires o < |sc.guests| && v == sc.guests[o].v.(certifiedFloorKw := v.certifiedFloorKw)
    requires sc.guests[o].arrivalSlot <= sc.guests[o].deadlineSlot
    ensures Reads(sc, LoadOf(v, dtH, sc.guests[o].arrivalSlot, sc.guests[o].deadlineSlot), v.certifiedFloorKw, dtH, o)
  {
  }

  lemma LoadReads(sc: Scenario, floors: seq<real>, usableKw: real, eps: real, tiny: real, o: nat)
    requires sc.Valid() && |floors| == |sc.guests| && o < |floors|
    ensures Reads(sc, Prepare(ScheduleRequest(sc, floors, usableKw, eps, tiny)).loads[o], floors[o], sc.DtH(), o)
  {
    var r := ScheduleRequest(sc, floors, usableKw, eps, tiny);
    GuestWindow(sc, r, o);
    PlannedLoad(sc, r.vehicles[o], r.DtH(), o);
  }

  /** The allocator's problem is the scenario with these floors: power-based, within the usable energy and, on every
      charge point, the nameplate of the one guest there. */
  ghost predicate Poses(sc: Scenario, p: Problem, floors: seq<real>, usableKw: real, dtH: real)
    requires |floors| == |sc.guests|
  {
    && p.Valid() && |p.loads| == |floors| && p.siteKwh == Some(Kwh(usableKw, dtH)) && !p.aware
    && p.horizon == sc.horizon
    && (forall o :: 0 <= o < |floors| ==> Reads(sc, p.loads[o], floors[o], dtH, o) && p.loads[o].cpId in p.cpKwh)
    && (forall c :: c in p.cpKwh ==> exists o ::
         0 <= o < |floors| && p.loads[o].cpId == c && p.loads[o].capKwh == p.cpKwh[c])
  }

  lemma RequestValid(sc: Scenario, floors: seq<real>, usableKw: real, eps: real, tiny: real)
    requires sc.Valid() && |floors| == |sc.guests| && 0.0 <= usableKw && 0.0 <= tiny <= eps
    ensures ScheduleRequest(sc, floors, usableKw, eps, tiny).Valid()
  {
    PointCapsAre(sc, |sc.guests|);
    forall i | 0 <= i < |sc.guests| ensures sc.guests[i].v.maxKw >= 0.0 {
      assert sc.GuestSound(sc.guests[i]);
    }
  }

  lemma CapEnergy(r: Request, c: int)
    requires r.dtMin > 0 && c in Prepare(r).cpKwh
    ensures c in r.cpCaps && Prepare(r).cpKwh[c] == r.cpCaps[c] * r.DtH()
  {
  }

  lemma PointCapIsGuest(sc: Scenario, floors: seq<real>, usableKw: real, eps: real, tiny: real, c: int) returns (o: nat)
    requires |floors| == |sc.guests| && ClampDtMin(sc.dtMin) == sc.dtMin
    requires c in Prepare(ScheduleRequest(sc, floors, usableKw, eps, tiny)).cpKwh
    ensures o < |sc.guests| && sc.guests[o].v.cpId == c
    ensures Prepare(ScheduleRequest(sc, floors, usableKw, eps, tiny)).cpKwh[c] == Kwh(sc.guests[o].v.maxKw, sc.DtH())
  {
    CapEnergy(ScheduleRequest(sc, floors, usableKw, eps, tiny), c);
    PointCapsAre(sc, |sc.guests|);
    o :| 0 <= o < |sc.guests| && sc.guests[o].v.cpId == c && PointCaps(sc, |sc.guests|)[c] == sc.guests[o].v.maxKw;
  }

  lemma RequestPoses(sc: Scenario, floors: seq<real>, usableKw: real, eps: real, tiny: real)
    requires sc.Valid() && |floors| == |sc.guests| && 0.0 <= usableKw && 0.0 <= tiny <= eps
    ensures Poses(sc, Prepare(ScheduleRequest(sc, floors, usableKw, eps, tiny)), floors, usableKw, sc.DtH())
  {
    var p := Prepare(ScheduleRequest(sc, floors, usableKw, eps, tiny));
    RequestValid(sc, floors, usableKw, eps, tiny);
    PrepareValid(ScheduleRequest(sc, floors, usableKw, eps, tiny));
    PointCapsAre(sc, |sc.guests|);
    forall i | 0 <= i < |floors| ensures Reads(sc, p.loads[i], floors[i], sc.DtH(), i) && p.loads[i].cpId in p.cpKwh {
      LoadReads(sc, floors, usableKw, eps, tiny, i);
    }
    forall c | c in p.cpKwh ensures exists o ::
      0 <= o < |floors| && p.loads[o].cpId == c && p.loads[o].capKwh == p.cpKwh[c] {
      var o := PointCapIsGuest(sc, floors, usableKw, eps, tiny, c);
      assert Reads(sc, p.loads[o], floors[o], sc.DtH(), o);
    }
    SiteBudget(ScheduleRequest(sc, floors, usableKw, eps, tiny));
  }

  // ---- what earlier sessions leave ----

  /** What a guest holds on its turn, beside the final floors: nothing negative, and earlier sessions as they end up. */
  ghost predicate Held(sc: Scenario, floors: seq<real>, held: seq<real>, i: nat) {
    && |floors| == |held| == |sc.guests| && i < |held|
    && (forall o :: 0 <= o < |held| ==> held[o] >= 0.0 && floors[o] >= 0.0)
    && (forall o :: 0 <= o < |held| && sc.guests[o].v.sessionId < sc.guests[i].v.sessionId ==> floors[o] == held[o])
  }

  function Scaled(a: seq<real>, k: real): seq<real> {
    seq(|a|, o requires 0 <= o < |a| => Kwh(a[o], k))
  }

  lemma ScaledSum(a: seq<real>, k: real)
    ensures Sum(Scaled(a, k)) == Kwh(Sum(a), k)
  {
    SumScaled(a, Scaled(a, k), k);
  }

  lemma FloorEnergy(floorKw: real, maxKw: real, dtH: real)
    requires 0.0 <= floorKw && 0.0 <= maxKw && dtH > 0.0
    ensures 0.0 <= Kwh(Min(floorKw, maxKw), dtH) <= Kwh(floorKw, dtH)
    ensures Kwh(Min(floorKw, maxKw), dtH) <= Kwh(maxKw, dtH)
  {
    TimesMono(Min(floorKw, maxKw), floorKw, dtH);
    TimesMono(Min(floorKw, maxKw), maxKw, dtH);
  }

  /** An earlier session that charges together with guest i asks for at most what competed with guest i on its turn. */
  lemma CompetesOne(sc: Scenario, p: Problem, floors: seq<real>, held: seq<real>, i: nat, o: nat, t: nat, dtH: real)
    requires Held(sc, floors, held, i) && o < |held| == |p.loads| && dtH > 0.0 && Covers(sc.guests[i], t)
    requires sc.guests[o].v.maxKw >= 0.0
    requires Reads(sc, p.loads[o], floors[o], dtH, o) && p.loads[i].sessionId == sc.guests[i].v.sessionId
    ensures EarlierCol(p, i, t)[o] <= Scaled(OverlapTerms(sc, held, i), dtH)[o]
  {
    TimesMono(0.0, OverlapTerms(sc, held, i)[o], dtH);
    FloorEnergy(floors[o], sc.guests[o].v.maxKw, dtH);
  }

  /** While guest i charges, earlier sessions ask for at most what competed with it on its turn. */
  lemma EarlierCompete(sc: Scenario, p: Problem, floors: seq<real>, held: seq<real>, i: nat, t: nat, dtH: real)
    requires sc.Sound() && Held(sc, floors, held, i) && |p.loads| == |held| && dtH > 0.0 && Covers(sc.guests[i], t)
    requires forall o :: 0 <= o < |floors| ==> Reads(sc, p.loads[o], floors[o], dtH, o)
    ensures Sum(EarlierCol(p, i, t)) <= Kwh(OverlapKw(sc, held, i), dtH)
  {
    var terms := OverlapTerms(sc, held, i);
    assert Reads(sc, p.loads[i], floors[i], dtH, i);
    forall o | 0 <= o < |held| ensures EarlierCol(p, i, t)[o] <= Scaled(terms, dtH)[o] {
      assert Reads(sc, p.loads[o], floors[o], dtH, o) && sc.GuestSound(sc.guests[o]);
      CompetesOne(sc, p, floors, held, i, o, t, dtH);
    }
    SumMono(EarlierCol(p, i, t), Scaled(terms, dtH));
    ScaledSum(terms, dtH);
  }

  /** A charge point serves one guest, so nobody else asks for it. */
  lemma PointFree(sc: Scenario, p: Problem, floors: seq<real>, usableKw: real, dtH: real, i: nat, t: nat)
    requires sc.Sound() && |floors| == |sc.guests| && i < |floors| && Poses(sc, p, floors, usableKw, dtH)
    ensures Sum(EarlierCpCol(p, i, t)) == 0.0
    ensures p.loads[i].cpId in p.cpKwh ==> p.cpKwh[p.loads[i].cpId] == p.loads[i].capKwh
  {
    assert Reads(sc, p.loads[i], floors[i], dtH, i);
    forall o | 0 <= o < |floors| ensures EarlierCpCol(p, i, t)[o] == 0.0 {
      assert Reads(sc, p.loads[o], floors[o], dtH, o);
    }
    SumZero(EarlierCpCol(p, i, t));
    if p.loads[i].cpId in p.cpKwh {
      var o :| 0 <= o < |floors| && p.loads[o].cpId == p.loads[i].cpId && p.loads[o].capKwh == p.cpKwh[p.loads[i].cpId];
      assert Reads(sc, p.loads[o], floors[o], dtH, o);
    }
  }

  /** The power a guest is sure of: its floor on its own nameplate, but no more than what competing floors leave of the
      cap. */
  function SureKw(sc: Scenario, floors: seq<real>, held: seq<real>, usableKw: real, i: nat): real
    requires |floors| == |held| == |sc.guests| && i < |floors|
  {
    Min(Min(floors[i], sc.guests[i].v.maxKw), Max(0.0, usableKw - OverlapKw(sc, held, i)))
  }

  /** It as slot energy. */
  lemma SureEnergy(kw: real, floorKw: real, maxKw: real, usableKw: real, othersKw: real, dtH: real)
    requires kw == Min(Min(floorKw, maxKw), Max(0.0, usableKw - othersKw)) && dtH > 0.0
    ensures Kwh(kw, dtH) <= Kwh(Min(floorKw, maxKw), dtH) <= Kwh(maxKw, dtH)
    ensures kw > 0.0 ==> Kwh(kw, dtH) <= Kwh(usableKw, dtH) - Kwh(othersKw, dtH)
    ensures kw <= 0.0 ==> Kwh(kw, dtH) <= 0.0
  {
    TimesMono(kw, Min(floorKw, maxKw), dtH);
    TimesMono(Min(floorKw, maxKw), maxKw, dtH);
    if kw > 0.0 {
      TimesMono(kw, usableKw - othersKw, dtH);
      SplitTimes(usableKw, othersKw, dtH);
    } else {
      TimesMono(kw, 0.0, dtH);
    }
  }

  lemma SplitTimes(a: real, b: real, k: real)
    ensures Kwh(a - b, k) == Kwh(a, k) - Kwh(b, k)
  {
  }

  lemma LeavesBy(p: Problem, i: nat, t: nat, g: real, usableKwh: real, asked: real)
    requires i < |p.loads| && p.siteKwh == Some(usableKwh) && Sum(EarlierCol(p, i, t)) <= asked
      && g <= usableKwh - asked
    requires Sum(EarlierCpCol(p, i, t)) == 0.0 && g <= p.loads[i].capKwh
    requires p.loads[i].cpId in p.cpKwh ==> p.cpKwh[p.loads[i].cpId] == p.loads[i].capKwh
    ensures Leaves(p, i, t, g)
  {
  }

  /** The power admission secured is left to the guest in every slot of its window. */
  lemma SureLeft(sc: Scenario, p: Problem, floors: seq<real>, held: seq<real>, usableKw: real, dtH: real,
      i: nat, t: nat)
    requires sc.Sound() && Held(sc, floors, held, i) && dtH > 0.0 && Covers(sc.guests[i], t)
    requires Poses(sc, p, floors, usableKw, dtH) && SureKw(sc, floors, held, usableKw, i) > 0.0
    ensures Leaves(p, i, t, Kwh(SureKw(sc, floors, held, usableKw, i), dtH))
  {
    var kw := SureKw(sc, floors, held, usableKw, i);
    assert Reads(sc, p.loads[i], floors[i], dtH, i);
    EarlierCompete(sc, p, floors, held, i, t, dtH);
    PointFree(sc, p, floors, usableKw, dtH, i, t);
    SureEnergy(kw, floors[i], sc.guests[i].v.maxKw, usableKw, OverlapKw(sc, held, i), dtH);
    LeavesBy(p, i, t, Kwh(kw, dtH), Kwh(usableKw, dtH), Kwh(OverlapKw(sc, held, i), dtH));
  }

  // ---- what an admission is paid ----

  /** The finished plan gives guest i at least its need (to within the cut-off), or g in every slot of its window,
      whichever is less; a g at or below the cut-off is never paid. */
  ghost predicate Pays(p: Problem, i: nat, g: real)
    requires p.Prepared() && i < |p.loads|
  {
    Sum(Solve(p).x[i]) >= Min(p.loads[i].need0 - p.eps, Times(Kept(g, p.eps), p.loads[i].dl - p.loads[i].av))
  }

  /** Guest i of a power-based problem, with a floor of at least g. */
  ghost predicate Payable(p: Problem, i: nat, g: real) {
    && p.Valid() && !p.aware && FloorsNonneg(p) && i < |p.loads| && p.loads[i].av <= p.loads[i].dl
    && (p.loads[i].floorKwh > 0.0 ==> p.loads[i].floored) && g <= p.loads[i].floorKwh
  }

  lemma PaysLeft(p: Problem, i: nat, g: real)
    requires Payable(p, i, g) && (g > p.eps ==> LeavesIn(p, i, p.loads[i].dl - p.loads[i].av, g))
    ensures Pays(p, i, g)
  {
    var owed := WindowPaid(p, i, p.loads[i].dl - p.loads[i].av, g);
    var paid := RowPaid(p, i, owed);
    PaysBy(p, i, g, paid, owed);
  }

  lemma PaysBy(p: Problem, i: nat, g: real, paid: real, owed: real)
    requires p.Prepared() && i < |p.loads| && p.loads[i].av <= p.loads[i].dl
    requires paid == Sum(Solve(p).x[i]) && owed == Times(Kept(g, p.eps), p.loads[i].dl - p.loads[i].av)
    requires paid >= Min(p.loads[i].need0 - p.eps, owed)
    ensures Pays(p, i, g)
  {
  }

  lemma RowPaid(p: Problem, i: nat, owed: real) returns (paid: real)
    requires p.Valid() && i < |p.loads| && Solve(p).need[i] <= Max(p.eps, p.loads[i].need0 - owed)
    ensures paid == Sum(Solve(p).x[i]) && paid >= Min(p.loads[i].need0 - p.eps, owed)
  {
    NeedAccounts(p, i);
    paid := Sum(Solve(p).x[i]);
  }

  lemma WindowPaid(p: Problem, i: nat, k: nat, g: real) returns (owed: real)
    requires Payable(p, i, g) && k == p.loads[i].dl - p.loads[i].av && (g > p.eps ==> LeavesIn(p, i, k, g))
    ensures owed == Times(Kept(g, p.eps), p.loads[i].dl - p.loads[i].av)
    ensures Solve(p).need[i] <= Max(p.eps, p.loads[i].need0 - owed)
  {
    NameplateTakes(p, i, k);
    owed := Times(Kept(g, p.eps), k);
    LeftIsPaid(p, i, k, g, owed);
  }

  lemma PosedFloors(sc: Scenario, p: Problem, floors: seq<real>, usableKw: real, dtH: real)
    requires sc.Sound() && |floors| == |sc.guests| && dtH > 0.0 && Poses(sc, p, floors, usableKw, dtH)
    requires forall o :: 0 <= o < |floors| ==> floors[o] >= 0.0
    ensures FloorsNonneg(p)
  {
    forall o | 0 <= o < |p.loads| ensures p.loads[o].floorKwh >= 0.0 {
      assert Reads(sc, p.loads[o], floors[o], dtH, o) && sc.GuestSound(sc.guests[o]);
      FloorEnergy(floors[o], sc.guests[o].v.maxKw, dtH);
    }
  }

  /** A guest is paid the power it is sure of. */
  lemma SurePaid(sc: Scenario, p: Problem, floors: seq<real>, held: seq<real>, usableKw: real, dtH: real, i: nat)
    requires sc.Sound() && Held(sc, floors, held, i) && dtH > 0.0 && Poses(sc, p, floors, usableKw, dtH)
    ensures Pays(p, i, Kwh(SureKw(sc, floors, held, usableKw, i), dtH))
  {
    var kw := SureKw(sc, floors, held, usableKw, i);
    var g := Kwh(kw, dtH);
    assert Reads(sc, p.loads[i], floors[i], dtH, i) && sc.GuestSound(sc.guests[i]);
    SureEnergy(kw, floors[i], sc.guests[i].v.maxKw, usableKw, OverlapKw(sc, held, i), dtH);
    PosedFloors(sc, p, floors, usableKw, dtH);
    SureFloored(sc, p.loads[i], floors[i], dtH, i);
    if kw > 0.0 {
      forall t | p.loads[i].av <= t < p.loads[i].dl ensures Leaves(p, i, t, g) {
        SureLeft(sc, p, floors, held, usableKw, dtH, i, t);
      }
    }
    PaysLeft(p, i, g);
  }

  lemma SureFloored(sc: Scenario, l: Load, floorKw: real, dtH: real, i: nat)
    requires i < |sc.guests| && Reads(sc, l, floorKw, dtH, i) && floorKw >= 0.0 && sc.guests[i].v.maxKw >= 0.0
      && dtH > 0.0
    ensures l.floorKwh > 0.0 ==> l.floored
  {
    FloorEnergy(floorKw, sc.guests[i].v.maxKw, dtH);
  }

  /** A verdict's floor is within half a watt of what the nameplate and the residual leave of it. */
  lemma VerdictNear(v: Vehicle, usableKw: real, othersKw: real, now: int, marginKwh: real)
    requires SoundVehicle(v)
    ensures var floorKw := CertifierFor(Some(usableKw), now, marginKwh)(v, othersKw).floorKw;
            floorKw - 0.0005 <= Min(Min(floorKw, v.maxKw), Max(0.0, usableKw - othersKw))
  {
    var u, residual := SubjectOf(v), Residual(Some(usableKw), othersKw);
    SubjectSound(v);
    var k := JudgedMeans(u, residual, Intervals(now, v.deadlineAt), marginKwh);
    RateBounds(u, residual, k - 1);
    NearRate(CertRate(u, residual, k - 1));
  }

  lemma NearRate(rate: real)
    requires rate >= 0.0
    ensures ToFixed3(rate) <= rate + 0.0005
  {
    ToFixedWatts(rate);
  }

  lemma FloorsOf(sc: Scenario, usableKw: real, marginKwh: real)
    requires sc.Sound()
    ensures forall o :: 0 <= o < |sc.guests| ==> ScenarioFloors(sc, usableKw, marginKwh)[o] >= 0.0
  {
    CertifierWhole(Some(usableKw), sc.gridStart, marginKwh);
    AdmitWhole(sc, GuestOrder(sc), CertifierFor(Some(usableKw), sc.gridStart, marginKwh), |GuestOrder(sc)|);
  }

  lemma TurnHeld(sc: Scenario, usableKw: real, marginKwh: real, i: nat) returns (held: seq<real>)
    requires sc.Sound() && i < |sc.guests|
    ensures Held(sc, ScenarioFloors(sc, usableKw, marginKwh), held, i) && WholeFloors(held)
    ensures ScenarioFloors(sc, usableKw, marginKwh)[i]
            == Granted(CertifierFor(Some(usableKw), sc.gridStart, marginKwh)(sc.guests[i].v, OverlapKw(sc, held, i)))
  {
    CertifierWhole(Some(usableKw), sc.gridStart, marginKwh);
    held := GuestTurn(sc, i, CertifierFor(Some(usableKw), sc.gridStart, marginKwh));
    FloorsOf(sc, usableKw, marginKwh);
  }

  /** Three decimals round neither this nameplate nor the cap up, as far as a floor can reach them. */
  predicate NeverRoundsUp(usableKw: real, maxKw: real) {
    && (RoundsDown(usableKw) || maxKw < 0.0005)
    && (RoundsDown(maxKw) || usableKw < maxKw)
  }

  lemma TinyRate(rate: real)
    requires 0.0 <= rate < 0.0005
    ensures ToFixed3(rate) == 0.0
  {
    assert RoundHalfUp(rate * 1000.0) == 0;
  }

  /** Then a verdict's floor is within the nameplate and the residual. */
  lemma VerdictWithin(v: Vehicle, usableKw: real, othersKw: real, now: int, marginKwh: real)
    requires SoundVehicle(v) && usableKw >= 0.0 && othersKw >= 0.0 && WholeWatts(othersKw)
    requires NeverRoundsUp(usableKw, v.maxKw)
    ensures CertifierFor(Some(usableKw), now, marginKwh)(v, othersKw).floorKw
            <= Min(v.maxKw, Max(0.0, usableKw - othersKw))
  {
    var u, residual := SubjectOf(v), Residual(Some(usableKw), othersKw);
    SubjectSound(v);
    var k := JudgedMeans(u, residual, Intervals(now, v.deadlineAt), marginKwh);
    RateBounds(u, residual, k - 1);
    if v.maxKw < 0.0005 {
      TinyRate(CertRate(u, residual, k - 1));
    } else {
      GrantFits(v, Some(usableKw), othersKw, now, marginKwh);
      if RoundsDown(v.maxKw) {
        RoundedPower(CertRate(u, residual, k - 1), v.maxKw);
      }
    }
  }

  /** Rounding takes at most half a watt of a guest's floor, and nothing when neither nameplate nor cap rounds up. */
  lemma SureNearFloor(sc: Scenario, usableKw: real, marginKwh: real, i: nat) returns (held: seq<real>)
    requires sc.Sound() && usableKw >= 0.0 && i < |sc.guests|
    ensures Held(sc, ScenarioFloors(sc, usableKw, marginKwh), held, i)
    ensures var floors := ScenarioFloors(sc, usableKw, marginKwh);
            var kw := SureKw(sc, floors, held, usableKw, i);
            && floors[i] - 0.0005 <= kw <= floors[i]
            && (NeverRoundsUp(usableKw, sc.guests[i].v.maxKw) ==> kw == floors[i])
  {
    var v := sc.guests[i].v;
    assert sc.GuestSound(sc.guests[i]);
    held := TurnHeld(sc, usableKw, marginKwh, i);
    VerdictNear(v, usableKw, OverlapKw(sc, held, i), sc.gridStart, marginKwh);
    if NeverRoundsUp(usableKw, v.maxKw) {
      OverlapWhole(sc, held, i);
      SumNonneg(OverlapTerms(sc, held, i));
      VerdictWithin(v, usableKw, OverlapKw(sc, held, i), sc.gridStart, marginKwh);
    }
  }

  /** What certifyAndSchedule hands to the allocator. */
  function Scheduled(sc: Scenario, usableKw: real, marginKwh: real, eps: real, tiny: real): (p: Problem)
    ensures p.Prepared() && |p.loads| == |sc.guests|
  {
    Prepare(ScheduleRequest(sc, ScenarioFloors(sc, usableKw, marginKwh), usableKw, eps, tiny))
  }

  lemma ScheduledPoses(sc: Scenario, usableKw: real, marginKwh: real, eps: real, tiny: real)
    requires sc.Valid() && 0.0 <= usableKw && 0.0 <= tiny <= eps
    ensures sc.Sound() && sc.DtH() > 0.0
    ensures Poses(sc, Scheduled(sc, usableKw, marginKwh, eps, tiny), ScenarioFloors(sc, usableKw, marginKwh),
      usableKw, sc.DtH())
  {
    RequestPoses(sc, ScenarioFloors(sc, usableKw, marginKwh), usableKw, eps, tiny);
  }

  /** Overlap-aware admission under any cap: the scheduler pays every granted floor, short of at most half a watt; and
      in full when three decimals round neither the guest's nameplate nor the cap up. */
  lemma AdmittedServed(sc: Scenario, usableKw: real, marginKwh: real, eps: real, tiny: real, i: nat) returns (kw: real)
    requires sc.Valid() && usableKw >= 0.0 && 0.0 <= tiny <= eps && i < |sc.guests|
    ensures var floorKw := ScenarioFloors(sc, usableKw, marginKwh)[i];
            floorKw - 0.0005 <= kw <= floorKw && (NeverRoundsUp(usableKw, sc.guests[i].v.maxKw) ==> kw == floorKw)
    ensures var p := Scheduled(sc, usableKw, marginKwh, eps, tiny);
            p.Valid() && Good(p, Solve(p)) && Pays(p, i, Kwh(kw, sc.DtH()))
  {
    ScheduledPoses(sc, usableKw, marginKwh, eps, tiny);
    kw := PosedServed(sc, Scheduled(sc, usableKw, marginKwh, eps, tiny), usableKw, marginKwh, sc.DtH(), i);
  }

  lemma PosedServed(sc: Scenario, p: Problem, usableKw: real, marginKwh: real, dtH: real, i: nat) returns (kw: real)
    requires sc.Sound() && usableKw >= 0.0 && i < |sc.guests| && dtH > 0.0
    requires Poses(sc, p, ScenarioFloors(sc, usableKw, marginKwh), usableKw, dtH)
    ensures var floorKw := ScenarioFloors(sc, usableKw, marginKwh)[i];
            floorKw - 0.0005 <= kw <= floorKw && (NeverRoundsUp(usableKw, sc.guests[i].v.maxKw) ==> kw == floorKw)
    ensures Good(p, Solve(p)) && Pays(p, i, Kwh(kw, dtH))
  {
    var held := SureNearFloor(sc, usableKw, marginKwh, i);
    kw := SureKw(sc, ScenarioFloors(sc, usableKw, marginKwh), held, usableKw, i);
    SurePaid(sc, p, ScenarioFloors(sc, usableKw, marginKwh), held, usableKw, dtH, i);
    SolveGood(p);
  }
}
