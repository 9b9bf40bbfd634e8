/** When an admission with a known battery is served in full, and the site that leaves it short otherwise. */
module TaperServed {
  import opened Reals
  import opened Ordering
  import opened Charging
  import opened Allocator
  import opened Invariants
  import opened Promise
  import opened Certifier
  import opened TaperFloor
  import opened Controller
  import opened PlanCycle
  import opened EndToEnd
  import opened Shortfall

  // ---- what a vehicle gets out of its floor alone ----

  /** State of charge and remaining need on the way. */
  datatype Course = Course(soc: real, need: real)

  /** One slot in which the vehicle asks for its floor and nobody is in the way. */
  function CourseStep(l: Load, eps: real, c: Course): Course
    requires l.pack.Some?
  {
    var kwh := Min(Min(l.floorKwh, l.pack.value.cell.accepts(c.soc)), c.need);
    if c.need <= eps || kwh <= eps then c
    else Course(Min(1.0, c.soc + l.pack.value.cell.rise(kwh)), c.need - kwh)
  }

  function FloorCourse(l: Load, eps: real, j: nat): Course
    requires l.pack.Some?
  {
    if j == 0 then Course(l.pack.value.soc, l.need0) else CourseStep(l, eps, FloorCourse(l, eps, j - 1))
  }

  /** The turn has followed the course: need and replayed state of charge are the course's. */
  ghost predicate OnCourse(p: Problem, r: State, i: nat, t: nat, c: Course)
    requires Shaped(p, r) && i < |p.loads| && p.loads[i].pack.Some? && t <= p.horizon
  {
    r.need[i] == c.need && Replay(p.loads[i].pack.value.cell, p.tiny, r.x[i], p.loads[i].pack.value.soc, t) == c.soc
  }

  lemma CourseGives(p: Problem, m: State, i: nat, t: nat, c: Course)
    requires p.Valid() && p.aware && Good(p, m) && i < |p.loads| && Tapered(p.loads[i]) && p.InWindow(i, t)
    requires OnCourse(p, m, i, t, c) && Spare(p, m, i, t, p.loads[i].floorKwh)
    ensures GiveAmount(p, m, i, t, p.loads[i].floorKwh)
            == Min(Min(p.loads[i].floorKwh, p.loads[i].pack.value.cell.accepts(c.soc)), c.need)
  {
    assert RowGood(p, m, i);
  }

  lemma CourseSlot(p: Problem, m: State, i: nat, t: nat, c: Course) returns (r: State)
    requires p.Valid() && p.aware && Good(p, m) && i < |p.loads| && Tapered(p.loads[i]) && p.InWindow(i, t)
    requires OnCourse(p, m, i, t, c) && Spare(p, m, i, t, p.loads[i].floorKwh) && RowEmptyFrom(p, m, i, t)
    ensures r == FloorStep(p, m, i, t) && Shaped(p, r) && OnCourse(p, r, i, t + 1, CourseStep(p.loads[i], p.eps, c))
  {
    CourseGives(p, m, i, t, c);
    r := FloorStep(p, m, i, t);
    var pack := p.loads[i].pack.value;
    ReplayPrefix(pack.cell, p.tiny, m.x[i], r.x[i], pack.soc, t);
  }

  /** Vehicle i is about to take its turn, with its floor to spare in every slot of its window. */
  ghost predicate Ready(p: Problem, s: State, i: nat) {
    && p.Valid() && p.aware && Good(p, s) && FloorsNonneg(p) && WithinFloors(p, s) && i < |p.loads|
    && Tapered(p.loads[i]) && p.loads[i].floored && Untouched(p, s, i)
    && forall u :: p.loads[i].av <= u < p.loads[i].dl ==> Spare(p, s, i, u, p.loads[i].floorKwh)
  }

  /** After j slots of its turn, which bring it to slot t, the vehicle is where its course is. */
  ghost predicate Follows(p: Problem, s: State, i: nat, t: nat, j: nat, r: State)
    requires Shaped(p, s) && i < |p.loads| && p.loads[i].pack.Some? && t <= p.horizon
  {
    r == FloorRow(p, s, i, t) && OnCourse(p, r, i, t, FloorCourse(p.loads[i], p.eps, j))
  }

  lemma FollowStart(p: Problem, s: State, i: nat)
    requires Ready(p, s, i) && p.loads[i].av <= p.loads[i].dl
    ensures Follows(p, s, i, p.loads[i].av, 0, s)
  {
    var l := p.loads[i];
    NoneBefore(l.pack.value.cell, p.tiny, s.x[i], l.pack.value.soc, l.av);
  }

  lemma FollowNext(p: Problem, s: State, i: nat, t: nat, j: nat, m: State, next: nat, k: nat) returns (r: State)
    requires Ready(p, s, i) && p.loads[i].av <= t < next == t + 1 <= p.loads[i].dl && k == j + 1
    requires Follows(p, s, i, t, j, m)
    ensures Follows(p, s, i, next, k, r)
  {
    FloorTurn(p, s, i, t);
    FloorRowGood(p, s, i, t);
    SpareStays(p, s, m, i, t, p.loads[i].floorKwh);
    r := CourseSlot(p, m, i, t, FloorCourse(p.loads[i], p.eps, j));
    FloorRowStep(p, s, m, i, t);
  }

  /** With its floor to spare in every slot, a turn of pass 1 follows the course. */
  lemma {:induction false} TurnFollows(p: Problem, s: State, i: nat, t: nat, j: nat) returns (r: State)
    requires Ready(p, s, i) && t == p.loads[i].av + j <= p.loads[i].dl
    ensures Follows(p, s, i, t, j, r)
    decreases j
  {
    if j == 0 {
      FollowStart(p, s, i);
      r := s;
    } else {
      r := TurnFollows(p, s, i, t - 1, j - 1);
      r := FollowNext(p, s, i, t - 1, j - 1, r, t, j);
    }
  }

  /** Without a floor the course leads nowhere. */
  lemma {:induction false} NoFloorNoCourse(l: Load, eps: real, j: nat)
    requires Tapered(l) && l.floorKwh <= eps
    ensures FloorCourse(l, eps, j).need == l.need0
    decreases j
  {
    if j > 0 {
      NoFloorNoCourse(l, eps, j - 1);
    }
  }

  // ---- in the plan ----

  /** A vehicle without a floor is not touched by pass 1. */
  lemma UnflooredUntouched(p: Problem, i: nat)
    requires p.Valid() && FloorsNonneg(p) && i < |p.loads| && !p.loads[i].floored
    ensures AfterFloors(p).need[i] == p.loads[i].need0
  {
    var order := ById(p);
    var k := IdPosition(p, i);
    FloorsWithin(p, order, k);
    InitialGood(p);
    assert Untouched(p, FloorPass(p, Initial(p), order, k), order[k]);
    TurnLasts(p, Initial(p), order, k, |order|);
  }

  lemma LeftToSpare(p: Problem, i: nat) returns (m: State)
    requires p.Valid() && p.aware && FloorsNonneg(p) && i < |p.loads| && p.loads[i].floored && Tapered(p.loads[i])
    requires p.loads[i].av <= p.loads[i].dl
    requires LeavesIn(p, i, p.loads[i].dl - p.loads[i].av, p.loads[i].floorKwh)
    ensures Ready(p, m, i) && AfterFloors(p).need[i] == FloorRow(p, m, i, p.loads[i].dl).need[i]
  {
    m := BeforeTurn(p, i);
    forall u | p.loads[i].av <= u < p.loads[i].dl ensures Spare(p, m, i, u, p.loads[i].floorKwh) {
      assert Leaves(p, i, u, p.loads[i].floorKwh);
      LeavesSpare(p, m, i, u, p.loads[i].floorKwh);
    }
  }

  /** A vehicle of known battery whose floor earlier sessions leave comes out of pass 1 exactly where its course
      ends. */
  lemma FloorsFollow(p: Problem, i: nat, n: nat)
    requires p.Valid() && p.aware && FloorsNonneg(p) && i < |p.loads| && Tapered(p.loads[i])
    requires (p.loads[i].floorKwh > 0.0 ==> p.loads[i].floored) && p.loads[i].av + n == p.loads[i].dl
    requires LeavesIn(p, i, n, p.loads[i].floorKwh)
    ensures AfterFloors(p).need[i] == FloorCourse(p.loads[i], p.eps, n).need
  {
    if p.loads[i].floored {
      var m := LeftToSpare(p, i);
      var r := TurnFollows(p, m, i, p.loads[i].dl, n);
    } else {
      UnflooredUntouched(p, i);
      NoFloorNoCourse(p.loads[i], p.eps, n);
    }
  }

  /** The load of a vehicle that is present, as the plan reads it. */
  function StayingLoad(v: Vehicle, floorKw: real, slots: int): Load {
    LoadOf(v.(certifiedFloorKw := floorKw), CERT_DTH, 0, slots)
  }

  /** The course of its floor covers the vehicle's need (up to the cut-off) in the slots before its deadline. */
  ghost predicate CourseCovers(v: Vehicle, floorKw: real, slots: nat, eps: real)
    requires KnownState(v)
  {
    FloorCourse(StayingLoad(v, floorKw, slots), eps, slots).need <= eps
  }

  lemma StayingReads(r: Request, i: nat) returns (n: nat)
    requires r.Valid() && r.dtMin == DEFAULT_INTERVAL_MIN && i < |r.vehicles|
    requires KnownState(r.vehicles[i]) && r.vehicles[i].certifiedFloorKw >= 0.0 && Staying(r.vehicles[i], r.now)
    ensures n == SlotsFor(r.vehicles[i], r.now, r.horizon)
    ensures Prepare(r).loads[i] == StayingLoad(r.vehicles[i], r.vehicles[i].certifiedFloorKw, n)
    ensures Tapered(Prepare(r).loads[i]) && Prepare(r).loads[i].av + n == Prepare(r).loads[i].dl
    ensures Prepare(r).loads[i].floorKwh > 0.0 ==> Prepare(r).loads[i].floored
  {
    assert r.DtH() == CERT_DTH;
    TaperFacts(r, i);
    StayingSlots(r.vehicles[i], r.now, r.horizon);
    n := SlotsFor(r.vehicles[i], r.now, r.horizon);
  }

  lemma StayingSlots(v: Vehicle, now: int, horizon: nat)
    requires Staying(v, now)
    ensures SlotsFor(v, now, horizon) >= 0
  {
  }

  lemma CourseServed(r: Request, i: nat, n: nat)
    requires r.Valid() && r.dtMin == DEFAULT_INTERVAL_MIN && r.aware && i < |r.vehicles| && NonnegFleet(r.vehicles)
    requires KnownState(r.vehicles[i]) && Staying(r.vehicles[i], r.now)
      && n == SlotsFor(r.vehicles[i], r.now, r.horizon)
    requires LeavesAlways(Prepare(r), i, FloorKwh(r.vehicles[i]))
    ensures AfterFloors(Prepare(r)).need[i]
            == FloorCourse(StayingLoad(r.vehicles[i], r.vehicles[i].certifiedFloorKw, n), r.eps, n).need
    ensures Solve(Prepare(r)).need[i] <= AfterFloors(Prepare(r)).need[i]
  {
    PrepareValid(r);
    RequestFloorsNonneg(r);
    var slots := StayingReads(r, i);
    TaperFacts(r, i);
    FloorsFollow(Prepare(r), i, n);
    NeedOnlyDrops(Prepare(r), i);
  }

  /** The floor the verdict grants. */
  function GrantedKw(v: Vehicle, capKw: Option<real>, othersKw: real, now: int, marginKwh: real): real {
    CertifierFor(capKw, now, marginKwh)(v, othersKw).floorKw
  }

  /** A newly admitted vehicle of known battery, if the others leave it its floor, is served in full (up to the cut-off)
      inside its window by the acceptance-aware plan, whatever the prices are and whatever had been promised before, as
      soon as the course of its floor covers its need. */
  lemma KnownServed(y: Cycle, i: nat, othersKw: real, n: nat)
    requires y.Ok() && i < |y.site.vehicles| && y.Admits(i) && y.OthersHold(i, othersKw) && y.settings.aware
    requires KnownState(y.site.vehicles[i]) && Staying(y.site.vehicles[i], y.now) && FloorLeft(y, i, othersKw)
    requires n == CycleSlots(y, i)
    requires CourseCovers(y.site.vehicles[i], GrantedKw(y.site.vehicles[i], y.CapKw(), othersKw, y.now, y.marginKwh), n,
                          y.settings.eps)
    ensures y.Plan().Valid() && ServesInTime(y.Plan(), i)
  {
    VerdictInPlan(y, i, othersKw);
    CycleRequest(y.site, y.capRaw, y.reserve, y.now, y.marginKwh, y.settings);
    var plan := FloorStaysLeft(y, i, othersKw);
    CourseServed(y.Plan(), i, n);
    NeedServes(y.Plan(), i);
  }

  // ---- the site that leaves it short ----

  /** Beside a neighbour that takes whatever it is not promised, the vehicle gets the course of its floor and no
      more. */
  lemma CrowdedFollows(p: Problem, n: nat)
    requires Crowded(p) && p.aware && FloorsNonneg(p) && Tapered(p.loads[1]) && p.loads[1].dl == n
    requires (p.loads[1].floorKwh > 0.0 ==> p.loads[1].floored)
      && p.loads[1].floorKwh <= p.siteKwh.value - FirstFloor(p)
    ensures Solve(p).need[1] == FloorCourse(p.loads[1], p.eps, n).need
  {
    forall t: nat | t < p.loads[1].dl ensures Leaves(p, 1, t, p.loads[1].floorKwh) {
      FirstLeaves(p, t);
    }
    FloorsFollow(p, 1, n);
    CrowdedOrders(p);
    SolveGood(p);
    FillGivesNothing(p, AfterFloors(p), p.horizon);
  }

  lemma FirstLeaves(p: Problem, t: nat)
    requires Crowded(p) && FloorsNonneg(p) && p.loads[1].floorKwh <= p.siteKwh.value - FirstFloor(p)
    ensures Leaves(p, 1, t, p.loads[1].floorKwh)
  {
    assert EarlierCol(p, 1, t) == [FloorPay(p, 0, t), 0.0];
    PairSum(FloorPay(p, 0, t), 0.0);
    var point := if p.loads[0].cpId == p.loads[1].cpId then FloorPay(p, 0, t) else 0.0;
    assert EarlierCpCol(p, 1, t) == [point, 0.0];
    PairSum(point, 0.0);
  }

  lemma SharedFollows(r: Request, v: Vehicle, capKw: real, othersKw: real, n: nat)
    requires SharedPlan(r, v, capKw, othersKw) && KnownState(v) && r.aware && n == SlotsFor(v, r.now, r.horizon)
    requires Min(r.vehicles[1].certifiedFloorKw, v.maxKw) <= capKw - HeldKw(othersKw, r.eps)
    ensures Solve(Prepare(r)).need[1]
            == FloorCourse(StayingLoad(v, r.vehicles[1].certifiedFloorKw, n), r.eps, n).need
  {
    SharedReads(r, v, capKw, othersKw);
    var slots := StayingReads(r, 1);
    CrowdedFollows(Prepare(r), n);
  }

  /** If the course does not cover the need, the shared site admits the vehicle and leaves it short. */
  lemma KnownLeftShort(v: Vehicle, othersKw: real, capRaw: real, reserve: real, now: int, marginKwh: real, c: Settings,
      n: nat)
    requires KnownOffer(v, othersKw, capRaw, reserve, now, marginKwh, c) && n == SlotsFor(v, now, c.horizon)
    requires !CourseCovers(v, GrantedKw(v, UsableCap(Some(capRaw), reserve), othersKw, now, marginKwh), n, c.eps)
    ensures var y := SharedCycle(v, othersKw, capRaw, reserve, now, marginKwh, c);
            y.Plan().Valid() && Solve(Prepare(y.Plan())).need[1] > c.eps
  {
    var y := SharedCycle(v, othersKw, capRaw, reserve, now, marginKwh, c);
    SharedAdmits(v, othersKw, capRaw, reserve, now, marginKwh, c);
    CycleRequest(y.site, y.capRaw, y.reserve, y.now, y.marginKwh, y.settings);
    SharedFollows(y.Plan(), v, y.CapKw().value, othersKw, n);
  }

  /** A vehicle of known battery that is offered the terms of an acceptance-aware cycle, and whose floor three decimals
      do not round up past what the others left. */
  ghost predicate KnownOffer(v: Vehicle, othersKw: real, capRaw: real, reserve: real, now: int, marginKwh: real,
      c: Settings) {
    var capKw := UsableCap(Some(capRaw), reserve);
    && Terms(v, othersKw, capRaw, reserve, now, marginKwh, c) && KnownState(v) && c.aware
    && Min(GrantedKw(v, capKw, othersKw, now, marginKwh), v.maxKw) <= capKw.value - HeldKw(othersKw, c.eps)
  }

  /** On a capped site, an admission with a known battery is always served in full exactly when the course of the
      granted floor, slot by slot what the battery takes of it, covers the need before the deadline. */
  lemma KnownServedIff(v: Vehicle, othersKw: real, capRaw: real, reserve: real, now: int, marginKwh: real, c: Settings,
      n: nat)
    requires KnownOffer(v, othersKw, capRaw, reserve, now, marginKwh, c) && n == SlotsFor(v, now, c.horizon)
    ensures CourseCovers(v, GrantedKw(v, UsableCap(Some(capRaw), reserve), othersKw, now, marginKwh), n, c.eps)
            <==> AlwaysServed(v, othersKw, capRaw, reserve, now, marginKwh, c)
  {
    var capKw := UsableCap(Some(capRaw), reserve);
    if CourseCovers(v, GrantedKw(v, capKw, othersKw, now, marginKwh), n, c.eps) {
      forall s, i | OnTerms(Cycle(s, Some(capRaw), reserve, now, marginKwh, c), i, v, othersKw)
        ensures InTime(Cycle(s, Some(capRaw), reserve, now, marginKwh, c), i)
      {
        var y := Cycle(s, Some(capRaw), reserve, now, marginKwh, c);
        VerdictInPlan(y, i, othersKw);
        KnownServed(y, i, othersKw, n);
      }
    } else {
      var y := SharedCycle(v, othersKw, capRaw, reserve, now, marginKwh, c);
      SharedAdmits(v, othersKw, capRaw, reserve, now, marginKwh, c);
      KnownLeftShort(v, othersKw, capRaw, reserve, now, marginKwh, c, n);
      assert OnTerms(Cycle(y.site, Some(capRaw), reserve, now, marginKwh, c), 1, v, othersKw);
      assert !InTime(y, 1);
    }
  }
}
