/** End to end: what a newly admitted vehicle can rely on when the plan cycle ends. */
module EndToEnd {
  import opened Reals
  import opened Ordering
  import opened Charging
  import opened Allocator
  import opened Invariants
  import opened EdfOptimality
  import opened Promise
  import opened Certifier
  import opened TaperFloor
  import opened Controller
  import opened PlanCycle

  // ---- sites without a cap ----

  /** An uncapped slot pays the nameplate, or the whole need. */
  lemma UncappedSlot(p: Problem, s: State, order: seq<nat>, t: nat, i: nat)
    requires p.Valid() && p.siteKwh.None? && p.cpKwh == map[] && Good(p, s) && t < p.horizon
    requires Indices(p, order) && i < |p.loads| && i in order && p.loads[i].pack.None? && p.InWindow(i, t)
    requires p.loads[i].capKwh > p.eps
    ensures FillSlot(p, s, order, t, |order|).need[i] <= Max(p.eps, s.need[i] - p.loads[i].capKwh)
  {
    var k :| 0 <= k < |order| && order[k] == i;
    FillSlotGood(p, s, order, t, k);
    LaterTurns(p, s, order, t, k + 1, |order|);
    assert FillSlot(p, s, order, t, k + 1).need[i]
      <= Max(p.eps, FillSlot(p, s, order, t, k).need[i] - p.loads[i].capKwh);
  }

  lemma {:induction false} UncappedFill(p: Problem, s: State, order: seq<nat>, i: nat, t: nat)
    requires p.Valid() && p.siteKwh.None? && p.cpKwh == map[] && Good(p, s) && t <= p.horizon
    requires Indices(p, order) && i < |p.loads| && i in order && p.loads[i].pack.None? && p.loads[i].av == 0
    requires p.loads[i].capKwh > p.eps && t <= p.loads[i].dl
    ensures FillPass(p, s, order, t).need[i] <= Max(p.eps, s.need[i] - Times(p.loads[i].capKwh, t))
    decreases t
  {
    if t > 0 {
      UncappedFill(p, s, order, i, t - 1);
      FillPassGood(p, s, order, t - 1);
      UncappedSlot(p, FillPass(p, s, order, t - 1), order, t - 1, i);
    }
  }

  lemma {:induction false} FillOnlyPays(p: Problem, s: State, order: seq<nat>, i: nat, t: nat, w: nat)
    requires p.Valid() && Good(p, s) && Indices(p, order) && i < |p.loads| && t <= w <= p.horizon
    ensures FillPass(p, s, order, w).need[i] <= FillPass(p, s, order, t).need[i]
    decreases w
  {
    if t < w {
      FillOnlyPays(p, s, order, i, t, w - 1);
      FillPassGood(p, s, order, w - 1);
      FillSlotGood(p, FillPass(p, s, order, w - 1), order, w - 1, |order|);
    }
  }

  lemma UncappedPays(p: Problem, i: nat)
    requires p.Valid() && p.siteKwh.None? && p.cpKwh == map[] && i < |p.loads| && p.loads[i].pack.None?
    requires p.loads[i].av == 0 && p.loads[i].dl >= 0 && p.loads[i].capKwh > p.eps
    ensures Solve(p).need[i] <= Max(p.eps, p.loads[i].need0 - Times(p.loads[i].capKwh, p.loads[i].dl))
  {
    SolveGood(p);
    FloorsOnlyPay(p, i);
    var left := UncappedFilled(p, AfterFloors(p), i, Times(p.loads[i].capKwh, p.loads[i].dl));
  }

  /** Pass 2 from any state. */
  lemma UncappedFilled(p: Problem, s: State, i: nat, most: real) returns (left: real)
    requires p.Valid() && p.siteKwh.None? && p.cpKwh == map[] && i < |p.loads| && p.loads[i].pack.None? && Good(p, s)
    requires p.loads[i].av == 0 && p.loads[i].dl >= 0 && p.loads[i].capKwh > p.eps
    requires most == Times(p.loads[i].capKwh, p.loads[i].dl)
    ensures left == FillPass(p, s, Edf(p), p.horizon).need[i] <= Max(p.eps, s.need[i] - most)
  {
    EdfByDeadline(p);
    UncappedFill(p, s, Edf(p), i, p.loads[i].dl);
    FillOnlyPays(p, s, Edf(p), i, p.loads[i].dl, p.horizon);
    left := FillPass(p, s, Edf(p), p.horizon).need[i];
  }

  lemma FloorsOnlyPay(p: Problem, i: nat)
    requires p.Valid() && i < |p.loads|
    ensures AfterFloors(p).need[i] <= p.loads[i].need0
  {
    InitialGood(p);
    FloorPassGood(p, Initial(p), ById(p), |ById(p)|);
  }

  lemma UncappedProblem(p: Problem, i: nat)
    requires p.Valid() && p.siteKwh.None? && p.cpKwh == map[] && i < |p.loads| && p.loads[i].pack.None?
    requires p.loads[i].av == 0 <= p.loads[i].dl
    requires Times(Kept(p.loads[i].capKwh, p.eps), p.loads[i].dl) + p.eps >= p.loads[i].need0
    ensures Solve(p).need[i] <= p.eps
  {
    if p.loads[i].capKwh > p.eps {
      UncappedPays(p, i);
    } else {
      TimesZero(p.loads[i].dl);
      NeedAccounts(p, i);
    }
  }

  lemma UncappedServed(r: Request, i: nat)
    requires r.Valid() && r.dtMin == DEFAULT_INTERVAL_MIN && i < |r.vehicles| && NonnegFleet(r.vehicles)
    requires r.siteCapKw.None? && r.cpCaps == map[] && FlatVehicle(r.vehicles[i], r.now)
    requires Times(PaidKwh(r.vehicles[i].maxKw, r.eps), SlotsFor(r.vehicles[i], r.now, r.horizon)) + r.eps
             >= r.vehicles[i].remainingKwh
    ensures ServesInTime(r, i)
  {
    PrepareValid(r);
    LoadFacts(r, i);
    PaidNonneg(r.vehicles[i].maxKw, r.eps, SlotsFor(r.vehicles[i], r.now, r.horizon));
    UncappedProblem(Prepare(r), i);
    NeedServes(r, i);
  }

  // ---- the promise without battery state ----

  /** One plan cycle: the site it finds, its cap and reserve, the time, the certification margin and the solver's
      settings. */
  datatype Cycle = Cycle(site: Site, capRaw: Option<real>, reserve: real, now: int, marginKwh: real, settings: Settings)
  {
    function CapKw(): Option<real> {
      UsableCap(capRaw, reserve)
    }

    function Rule(): Judge {
      CertifierFor(CapKw(), now, marginKwh)
    }

    /** The site when the k-th session in order is about to be certified. */
    function Before(k: nat): Site
      requires k <= |IdOrder(site.vehicles)|
    {
      CertifyPass(site, IdOrder(site.vehicles), Rule(), k)
    }

    function Plan(): (r: Request)
      ensures |r.vehicles| == |site.vehicles|
    {
      PlanRequest(site, capRaw, reserve, now, marginKwh, settings)
    }

    ghost predicate Ok() {
      CycleOk(site, capRaw, reserve, settings)
    }

    /** Vehicle i is newly admitted in this cycle. */
    predicate Admits(i: nat)
      requires i < |site.vehicles|
    {
      Issued(site.vehicles[i].sessionId, ACTIVE, false) in CertifySite(site, Rule()).issued
    }

    /** On vehicle i's turn, everybody else had been promised othersKw. */
    ghost predicate OthersHold(i: nat, othersKw: real)
      requires i < |site.vehicles|
    {
      exists j :: OwnTurn(i, othersKw, j)
    }

    ghost predicate OwnTurn(i: nat, othersKw: real, j: nat)
      requires i < |site.vehicles|
    {
      && j < |IdOrder(site.vehicles)| && IdOrder(site.vehicles)[j] == i
      && othersKw == OthersKw(Before(j).vehicles, i)
    }
  }

  /** Every vehicle has a turn, and the others hold some promise on it. */
  lemma HasTurn(y: Cycle, i: nat) returns (othersKw: real)
    requires i < |y.site.vehicles|
    ensures y.OthersHold(i, othersKw)
  {
    var j := IdOrderVisits(y.site.vehicles, i);
    othersKw := OthersKw(y.Before(j).vehicles, i);
    assert y.OwnTurn(i, othersKw, j);
  }

  /** A vehicle has one turn. */
  lemma SameTurn(y: Cycle, i: nat, othersKw: real, j: nat)
    requires i < |y.site.vehicles| && y.OthersHold(i, othersKw)
    requires j < |IdOrder(y.site.vehicles)| && IdOrder(y.site.vehicles)[j] == i
    ensures y.OwnTurn(i, othersKw, j)
  {
    var q :| y.OwnTurn(i, othersKw, q);
    SortIsPermutation(IdKeys(y.site.vehicles), |y.site.vehicles|);
    assert q == j;
  }

  /** A verdict does not depend on the floor the vehicle already has. */
  lemma SameVerdict(v: Vehicle, w: Vehicle, capKw: Option<real>, othersKw: real, now: int, marginKwh: real)
    requires w == v.(certifiedFloorKw := w.certifiedFloorKw)
    ensures CertifierFor(capKw, now, marginKwh)(w, othersKw) == CertifierFor(capKw, now, marginKwh)(v, othersKw)
  {
    assert SubjectOf(w) == SubjectOf(v);
  }

  /** A newly admitted vehicle enters the plan with the floor of its verdict, given what the others held. */
  lemma VerdictInPlan(y: Cycle, i: nat, othersKw: real)
    requires y.Ok() && i < |y.site.vehicles| && y.Admits(i) && y.OthersHold(i, othersKw)
    ensures var verdict := y.Rule()(y.site.vehicles[i], othersKw);
            verdict.admitted && y.Plan().vehicles[i] == y.site.vehicles[i].(certifiedFloorKw := verdict.floorKw)
  {
    var order := IdOrder(y.site.vehicles);
    var j := AdmittedAtTurn(y.site, i, y.Rule());
    SameTurn(y, i, othersKw, j);
    CertifyPassFleet(y.site, order, y.Rule(), j);
    CertifyPassFleet(y.site, order, y.Rule(), |order|);
    SameVerdict(y.site.vehicles[i], y.Before(j).vehicles[i], y.CapKw(), othersKw, y.now, y.marginKwh);
  }

  /** On vehicle i's turn: nobody's floor is negative, and every earlier session has its final floor. */
  lemma TurnState(y: Cycle, i: nat, othersKw: real) returns (others: seq<Vehicle>)
    requires y.Ok() && i < |y.site.vehicles| && y.Admits(i) && y.OthersHold(i, othersKw)
    ensures |others| == |y.site.vehicles| && NonnegFleet(others) && othersKw == OthersKw(others, i)
    ensures forall o :: 0 <= o < |others| && y.Plan().vehicles[o].sessionId < y.Plan().vehicles[i].sessionId ==>
              y.Plan().vehicles[o].certifiedFloorKw == others[o].certifiedFloorKw
  {
    var order := IdOrder(y.site.vehicles);
    var j := AdmittedAtTurn(y.site, i, y.Rule());
    SameTurn(y, i, othersKw, j);
    CertifyPassFleet(y.site, order, y.Rule(), |order|);
    CertifierGrants(y.CapKw(), y.now, y.marginKwh);
    CertifyNonneg(y.site, order, y.Rule(), j);
    others := y.Before(j).vehicles;
  }

  /** In the plan, earlier sessions leave vehicle i whatever of the cap the others did not hold on its turn. */
  lemma TurnLeaves(y: Cycle, i: nat, othersKw: real, kw: real)
    requires y.Ok() && i < |y.site.vehicles| && y.Admits(i) && y.OthersHold(i, othersKw)
    requires y.CapKw().Some? ==> kw <= y.CapKw().value - HeldKw(othersKw, y.settings.eps)
    ensures LeavesAlways(Prepare(y.Plan()), i, kw * CERT_DTH)
  {
    var others := TurnState(y, i, othersKw);
    CycleRequest(y.site, y.capRaw, y.reserve, y.now, y.marginKwh, y.settings);
    RequestLeaves(y.Plan(), others, i, kw);
  }

  lemma RequestLeaves(r: Request, others: seq<Vehicle>, i: nat, kw: real)
    requires r.Valid() && r.dtMin == DEFAULT_INTERVAL_MIN && NonnegFleet(r.vehicles) && NonnegFleet(others)
      && PointsOpen(r)
    requires |others| == |r.vehicles| && i < |others|
    requires forall o :: 0 <= o < |others| && r.vehicles[o].sessionId < r.vehicles[i].sessionId ==>
               r.vehicles[o].certifiedFloorKw == others[o].certifiedFloorKw
    requires r.siteCapKw.Some? ==> kw <= r.siteCapKw.value - HeldKw(OthersKw(others, i), r.eps)
    ensures LeavesAlways(Prepare(r), i, kw * CERT_DTH)
  {
    var g := kw * CERT_DTH;
    forall t: nat ensures Leaves(Prepare(r), i, t, g) {
      OthersLeave(r, others, i, t, kw);
    }
  }

  lemma SecuredBelow(maxKw: real, capKw: Option<real>, othersKw: real, eps: real)
    requires capKw.Some? && maxKw >= 0.0
    ensures SecuredKw(maxKw, capKw, othersKw, eps) <= Min(ToFixed3(FlatRate(maxKw, capKw, othersKw)), maxKw)
    ensures SecuredKw(maxKw, capKw, othersKw, eps) <= Max(0.0, capKw.value - HeldKw(othersKw, eps))
  {
  }

  /** The vehicle's slots in this cycle. */
  function CycleSlots(y: Cycle, i: nat): int
    requires i < |y.site.vehicles|
  {
    SlotsFor(y.site.vehicles[i], y.now, y.settings.horizon)
  }

  /** A vehicle without battery state that the cycle newly admits is served in full (up to the cut-off) inside its
      window by the finished plan, whichever allocator runs, whatever the prices are and whatever had been promised
      before, as soon as the power secured for it covers its need. */
  lemma PromiseKept(y: Cycle, i: nat, othersKw: real)
    requires y.Ok() && i < |y.site.vehicles| && y.Admits(i) && y.OthersHold(i, othersKw)
    requires FlatVehicle(y.site.vehicles[i], y.now)
    requires Secured(y.site.vehicles[i], y.CapKw(), othersKw, CycleSlots(y, i), y.settings.eps)
    ensures y.Plan().Valid() && ServesInTime(y.Plan(), i)
  {
    CycleRequest(y.site, y.capRaw, y.reserve, y.now, y.marginKwh, y.settings);
    if y.CapKw().None? {
      UncappedCycle(y, i, othersKw);
    } else {
      CappedServed(y, i, othersKw);
    }
  }

  /** So every new admission comes with what the others held on its turn, and is served once the power secured beside it
      covers its need. */
  lemma EveryAdmission(y: Cycle, i: nat) returns (othersKw: real)
    requires y.Ok() && i < |y.site.vehicles| && y.Admits(i) && FlatVehicle(y.site.vehicles[i], y.now)
    ensures y.OthersHold(i, othersKw) && y.Rule()(y.site.vehicles[i], othersKw).admitted
    ensures Secured(y.site.vehicles[i], y.CapKw(), othersKw, CycleSlots(y, i), y.settings.eps) ==>
              y.Plan().Valid() && ServesInTime(y.Plan(), i)
  {
    othersKw := HasTurn(y, i);
    VerdictInPlan(y, i, othersKw);
    if Secured(y.site.vehicles[i], y.CapKw(), othersKw, CycleSlots(y, i), y.settings.eps) {
      PromiseKept(y, i, othersKw);
    }
  }

  lemma UncappedSecured(v: Vehicle, othersKw: real, slots: int, eps: real)
    requires Secured(v, None, othersKw, slots, eps)
    ensures Times(PaidKwh(v.maxKw, eps), slots) + eps >= v.remainingKwh
  {
  }

  lemma UncappedCycle(y: Cycle, i: nat, othersKw: real)
    requires y.Ok() && i < |y.site.vehicles| && y.Admits(i) && y.OthersHold(i, othersKw) && y.CapKw().None?
    requires FlatVehicle(y.site.vehicles[i], y.now) && y.Plan().Valid() && NonnegFleet(y.Plan().vehicles)
    requires Secured(y.site.vehicles[i], y.CapKw(), othersKw, CycleSlots(y, i), y.settings.eps)
    ensures ServesInTime(y.Plan(), i)
  {
    VerdictInPlan(y, i, othersKw);
    UncappedSecured(y.site.vehicles[i], othersKw, CycleSlots(y, i), y.settings.eps);
    UncappedServed(y.Plan(), i);
  }

  /** The secured power is at most the floor and the nameplate the plan works with. */
  lemma SecuredInPlan(y: Cycle, i: nat, othersKw: real) returns (kw: real)
    requires y.Ok() && i < |y.site.vehicles| && y.Admits(i) && y.OthersHold(i, othersKw) && y.CapKw().Some?
    requires FlatVehicle(y.site.vehicles[i], y.now)
    ensures kw == SecuredKw(y.site.vehicles[i].maxKw, y.CapKw(), othersKw, y.settings.eps)
            <= Max(0.0, y.CapKw().value - HeldKw(othersKw, y.settings.eps))
    ensures kw <= Min(y.Plan().vehicles[i].certifiedFloorKw, y.Plan().vehicles[i].maxKw)
    ensures y.Plan().vehicles[i] == y.site.vehicles[i].(certifiedFloorKw := y.Plan().vehicles[i].certifiedFloorKw)
  {
    var v := y.site.vehicles[i];
    kw := SecuredKw(v.maxKw, y.CapKw(), othersKw, y.settings.eps);
    assert SoundVehicle(v);
    VerdictInPlan(y, i, othersKw);
    var k := FlatFloor(v, y.CapKw(), othersKw, y.now, y.marginKwh);
    SecuredBelow(v.maxKw, y.CapKw(), othersKw, y.settings.eps);
  }

  /** And the others leave it. */
  lemma SecuredLeft(y: Cycle, i: nat, othersKw: real) returns (kw: real)
    requires y.Ok() && i < |y.site.vehicles| && y.Admits(i) && y.OthersHold(i, othersKw) && y.CapKw().Some?
    requires FlatVehicle(y.site.vehicles[i], y.now)
    ensures kw == SecuredKw(y.site.vehicles[i].maxKw, y.CapKw(), othersKw, y.settings.eps)
    ensures kw <= Min(y.Plan().vehicles[i].certifiedFloorKw, y.Plan().vehicles[i].maxKw)
    ensures y.Plan().vehicles[i] == y.site.vehicles[i].(certifiedFloorKw := y.Plan().vehicles[i].certifiedFloorKw)
    ensures kw > 0.0 ==> LeavesAlways(Prepare(y.Plan()), i, kw * CERT_DTH)
  {
    kw := SecuredInPlan(y, i, othersKw);
    if kw > 0.0 {
      TurnLeaves(y, i, othersKw, kw);
    }
  }

  lemma CappedServed(y: Cycle, i: nat, othersKw: real)
    requires y.Ok() && i < |y.site.vehicles| && y.Admits(i) && y.OthersHold(i, othersKw) && y.CapKw().Some?
    requires FlatVehicle(y.site.vehicles[i], y.now) && y.Plan().Valid() && NonnegFleet(y.Plan().vehicles)
    requires Secured(y.site.vehicles[i], y.CapKw(), othersKw, CycleSlots(y, i), y.settings.eps)
    ensures ServesInTime(y.Plan(), i)
  {
    var kw := SecuredLeft(y, i, othersKw);
    PaidByLeft(y.Plan(), i, kw);
  }

  // ---- when a margin is enough ----

  /** Energy that rounding a power down to three decimals can take away in n quarter-hours. */
  function RoundingLoss(n: nat): real {
    Times(0.000125, n)
  }

  /** The margin absorbs the rounding, or the site is uncapped, or there is nothing to round. */
  ghost predicate RoundingCovered(maxKw: real, capKw: Option<real>, othersKw: real, marginKwh: real, n: nat) {
    || marginKwh >= RoundingLoss(n)
    || (marginKwh >= 0.0 && capKw.None?)
    || (marginKwh >= 0.0 && WholeWatts(maxKw) && WholeWatts(othersKw) && (capKw.Some? ==> WholeWatts(capKw.value)))
  }

  /** k quarter-hours at a power close to a rate fall short of k at the rate itself by the rounding loss at most. */
  lemma {:induction false} RoundedTimes(rate: real, kw: real, k: nat)
    requires kw >= rate - 0.0005
    ensures Times(kw * CERT_DTH, k) >= Times(rate * CERT_DTH, k) - RoundingLoss(k)
  {
    if k > 0 {
      RoundedTimes(rate, kw, k - 1);
    }
  }

  /** A rate limited by whole watts alone survives the rounding unchanged. */
  lemma WholeRate(maxKw: real, capKw: Option<real>, othersKw: real)
    requires maxKw >= 0.0 && WholeWatts(maxKw) && WholeWatts(othersKw)
    requires capKw.Some? ==> WholeWatts(capKw.value)
    ensures ToFixed3(FlatRate(maxKw, capKw, othersKw)) == FlatRate(maxKw, capKw, othersKw)
  {
    assert 0.0 == Watts(0);
    if capKw.Some? {
      var m :| capKw.value == Watts(m);
      var n :| othersKw == Watts(n);
      WattsMinus(m, n);
    }
    WholeWattsExact(FlatRate(maxKw, capKw, othersKw));
  }

  lemma SecuredNear(maxKw: real, capKw: Option<real>, othersKw: real, eps: real)
    requires maxKw >= 0.0
    ensures 0.0 <= SecuredKw(maxKw, capKw, othersKw, eps) <= maxKw
    ensures SecuredKw(maxKw, capKw, othersKw, eps) >= FlatRate(maxKw, capKw, othersKw) - 0.0005
  {
    ToFixedWatts(FlatRate(maxKw, capKw, othersKw));
  }

  /** n quarter-hours of the secured power cover what k of the rate do. */
  lemma SecuredCovers(maxKw: real, capKw: Option<real>, othersKw: real, eps: real, need: real, marginKwh: real,
      k: nat, n: nat)
    requires maxKw >= 0.0 && k <= n && RoundingCovered(maxKw, capKw, othersKw, marginKwh, n)
    requires Times(FlatRate(maxKw, capKw, othersKw) * CERT_DTH, k) >= need + marginKwh
    ensures Times(SecuredKw(maxKw, capKw, othersKw, eps) * CERT_DTH, k) >= need
  {
    SecuredNear(maxKw, capKw, othersKw, eps);
    if marginKwh >= RoundingLoss(n) {
      RoundedTimes(FlatRate(maxKw, capKw, othersKw), SecuredKw(maxKw, capKw, othersKw, eps), k);
      TimesMonotone(0.000125, k, n);
    } else if capKw.Some? {
      WholeRate(maxKw, capKw, othersKw);
    }
  }

  /** The deadline leaves at least as many slots as the certificate counted intervals. */
  lemma EnoughSlots(v: Vehicle, now: int, horizon: nat)
    requires v.deadlineAt.Some? ==> v.deadlineAt.value > now
    requires horizon >= Intervals(now, v.deadlineAt)
    ensures SlotsFor(v, now, horizon) >= Intervals(now, v.deadlineAt)
  {
  }

  /** An admission whose margin absorbs the rounding secures the need, if the secured power is above the cut-off. */
  lemma MarginSecures(v: Vehicle, capKw: Option<real>, othersKw: real, now: int, marginKwh: real,
      horizon: nat, eps: real)
    requires FlatVehicle(v, now) && v.maxKw >= 0.0 && horizon >= Intervals(now, v.deadlineAt) && eps >= 0.0
    requires RoundingCovered(v.maxKw, capKw, othersKw, marginKwh, Intervals(now, v.deadlineAt))
    requires SecuredKw(v.maxKw, capKw, othersKw, eps) * CERT_DTH > eps || eps == 0.0
    requires CertifierFor(capKw, now, marginKwh)(v, othersKw).admitted
    ensures Secured(v, capKw, othersKw, SlotsFor(v, now, horizon), eps)
  {
    var n := Intervals(now, v.deadlineAt);
    var kw := SecuredKw(v.maxKw, capKw, othersKw, eps);
    var k := FlatFloor(v, capKw, othersKw, now, marginKwh);
    SecuredCovers(v.maxKw, capKw, othersKw, eps, v.remainingKwh, marginKwh, k, n);
    EnoughSlots(v, now, horizon);
    SecuredNear(v.maxKw, capKw, othersKw, eps);
    TimesMonotone(kw * CERT_DTH, k, SlotsFor(v, now, horizon));
  }

  /** So with such a margin (or whole watts everywhere) every new admission is served in full. */
  lemma PromiseByMargin(y: Cycle, i: nat, othersKw: real)
    requires y.Ok() && i < |y.site.vehicles| && y.Admits(i) && y.OthersHold(i, othersKw)
    requires FlatVehicle(y.site.vehicles[i], y.now)
      && y.settings.horizon >= Intervals(y.now, y.site.vehicles[i].deadlineAt)
    requires RoundingCovered(y.site.vehicles[i].maxKw, y.CapKw(), othersKw, y.marginKwh,
                             Intervals(y.now, y.site.vehicles[i].deadlineAt))
    requires SecuredKw(y.site.vehicles[i].maxKw, y.CapKw(), othersKw, y.settings.eps) * CERT_DTH > y.settings.eps
      || y.settings.eps == 0.0
    ensures y.Plan().Valid() && ServesInTime(y.Plan(), i)
  {
    assert SoundVehicle(y.site.vehicles[i]);
    VerdictInPlan(y, i, othersKw);
    MarginSecures(y.site.vehicles[i], y.CapKw(), othersKw, y.now, y.marginKwh, y.settings.horizon, y.settings.eps);
    PromiseKept(y, i, othersKw);
  }

  // ---- the promise with a known battery ----

  /** The load of a vehicle of known state that is present, on the 15-minute grid. */
  lemma TaperFacts(r: Request, i: nat)
    requires r.Valid() && r.dtMin == DEFAULT_INTERVAL_MIN && i < |r.vehicles|
    requires KnownState(r.vehicles[i]) && r.vehicles[i].certifiedFloorKw >= 0.0 && Staying(r.vehicles[i], r.now)
    ensures var l := Prepare(r).loads[i];
            && Tapered(l) && l.av == 0 && l.dl == SlotsFor(r.vehicles[i], r.now, r.horizon)
            && l.floorKwh == FloorKwh(r.vehicles[i]) && (l.floorKwh > 0.0 ==> l.floored)
            && l.need0 == Max(0.0, r.vehicles[i].remainingKwh)
            && forall k :: k >= 1 ==> (TaperLeaves(r.vehicles[i], k) <==> StillTakes(l, k))
  {
    assert r.DtH() == CERT_DTH;
    var av, dl := ArrivalSlot(r, r.vehicles[i]), DeadlineSlot(r, r.vehicles[i]);
    LoadTapered(r.vehicles[i], av, dl);
    forall k | k >= 1 ensures TaperLeaves(r.vehicles[i], k) <==> StillTakes(Prepare(r).loads[i], k) {
      TaperLeavesIff(r.vehicles[i], av, dl, k);
    }
  }

  /** The floors of vehicle i in a plan that leaves it its floor. */
  lemma TaperedFloors(r: Request, i: nat, k: nat)
    requires r.Valid() && r.dtMin == DEFAULT_INTERVAL_MIN && r.aware && i < |r.vehicles| && NonnegFleet(r.vehicles)
    requires LeavesAlways(Prepare(r), i, FloorKwh(r.vehicles[i])) && FloorKwh(r.vehicles[i]) > r.eps
    requires KnownState(r.vehicles[i]) && Staying(r.vehicles[i], r.now)
    requires 1 <= k <= SlotsFor(r.vehicles[i], r.now, r.horizon)
    ensures Prepare(r).loads[i].pack.Some? && Prepare(r).loads[i].av + k <= Prepare(r).loads[i].dl
    ensures Floored(Prepare(r), i, k)
  {
    PrepareValid(r);
    RequestFloorsNonneg(r);
    TaperFacts(r, i);
    FlooredUnderTaper(Prepare(r), i, k);
  }

  /** The certificate of v simulates k intervals, the last at this rate. */
  ghost predicate Simulates(v: Vehicle, capKw: Option<real>, othersKw: real, now: int, marginKwh: real, k: nat,
      rate: real) {
    var u, residual, intervals := SubjectOf(v), Residual(capKw, othersKw), Intervals(now, v.deadlineAt);
    && k == Simulated(u, residual, v.remainingKwh + marginKwh, intervals, 1) && 1 <= k <= intervals
    && rate == CertRate(u, residual, k - 1)
  }

  lemma VerdictRate(v: Vehicle, capKw: Option<real>, othersKw: real, now: int, marginKwh: real)
      returns (k: nat, rate: real)
    ensures Simulates(v, capKw, othersKw, now, marginKwh, k, rate)
    ensures CertifierFor(capKw, now, marginKwh)(v, othersKw).floorKw == ToFixed3(rate)
  {
    var u, residual := SubjectOf(v), Residual(capKw, othersKw);
    k := JudgedMeans(u, residual, Intervals(now, v.deadlineAt), marginKwh);
    rate := CertRate(u, residual, k - 1);
  }

  /** The certificate behind a vehicle's floor: it simulated k intervals, the last at this rate. */
  ghost predicate IssuedBy(y: Cycle, i: nat, othersKw: real, k: nat, rate: real)
    requires i < |y.site.vehicles|
  {
    && Simulates(y.site.vehicles[i], y.CapKw(), othersKw, y.now, y.marginKwh, k, rate)
    && y.Plan().vehicles[i] == y.site.vehicles[i].(certifiedFloorKw := ToFixed3(rate))
  }

  lemma CertificateOf(y: Cycle, i: nat, othersKw: real) returns (k: nat, rate: real)
    requires y.Ok() && i < |y.site.vehicles| && y.Admits(i) && y.OthersHold(i, othersKw)
    ensures IssuedBy(y, i, othersKw, k, rate)
  {
    VerdictInPlan(y, i, othersKw);
    k, rate := VerdictRate(y.site.vehicles[i], y.CapKw(), othersKw, y.now, y.marginKwh);
  }

  /** What the cycle asks of vehicle i for the taper promise: present, of known state, departing within the horizon. */
  ghost predicate TaperedGuest(y: Cycle, i: nat)
    requires i < |y.site.vehicles|
  {
    var v := y.site.vehicles[i];
    && KnownState(v) && Staying(v, y.now)
    && y.settings.aware && y.settings.horizon >= Intervals(y.now, v.deadlineAt)
  }

  /** The others leave the floor vehicle i is issued (on its nameplate): three decimals did not round it up past what
      was left. */
  predicate FloorLeft(y: Cycle, i: nat, othersKw: real)
    requires i < |y.site.vehicles|
  {
    var v := y.Plan().vehicles[i];
    y.CapKw().Some? ==> Min(v.certifiedFloorKw, v.maxKw) <= y.CapKw().value - HeldKw(othersKw, y.settings.eps)
  }

  /** Which cannot happen on top of whole-watt floors under a cap that does not round up. */
  lemma WholeFloorLeft(y: Cycle, i: nat, othersKw: real)
    requires y.Ok() && i < |y.site.vehicles| && y.Admits(i) && y.OthersHold(i, othersKw) && WholeWatts(othersKw)
    requires y.Plan().vehicles[i].certifiedFloorKw > 0.0 && (y.CapKw().Some? ==> RoundsDown(y.CapKw().value))
    ensures FloorLeft(y, i, othersKw)
  {
    assert SoundVehicle(y.site.vehicles[i]);
    CapSound(y.capRaw, y.reserve);
    VerdictInPlan(y, i, othersKw);
    GrantFits(y.site.vehicles[i], y.CapKw(), othersKw, y.now, y.marginKwh);
  }

  /** The load of vehicle i in the plan. */
  function PlanLoad(y: Cycle, i: nat): Load
    requires y.Ok() && i < |y.site.vehicles|
  {
    Prepare(y.Plan()).loads[i]
  }

  /** A vehicle of known battery state that the cycle newly admits, if the others leave it its floor: in the k slots its
      certificate simulated it gets its full floor until its need is met, if the battery still takes the floor after
      k - 1 floors, and the finished plan gives it at least that; the first j slots are full exactly when it does after
      j - 1 floors. That is so when the tapered nameplate covers the floor there, which it always does unless three
      decimals rounded the last simulated rate up. */
  lemma TaperPromiseKept(y: Cycle, i: nat, othersKw: real) returns (k: nat, rate: real)
    requires y.Ok() && i < |y.site.vehicles| && y.Admits(i) && y.OthersHold(i, othersKw) && TaperedGuest(y, i)
    requires FloorLeft(y, i, othersKw) && FloorKwh(y.Plan().vehicles[i]) > y.settings.eps
    ensures IssuedBy(y, i, othersKw, k, rate) && y.Plan().Valid()
    ensures PlanLoad(y, i).pack.Some? && PlanLoad(y, i).av + k <= PlanLoad(y, i).dl && Floored(Prepare(y.Plan()), i, k)
    ensures forall j :: j >= 1 ==> (StillTakes(PlanLoad(y, i), j) <==> TaperLeaves(y.Plan().vehicles[i], j))
    ensures RoundsDown(rate) ==> TaperLeaves(y.Plan().vehicles[i], k)
  {
    k, rate := CertificateOf(y, i, othersKw);
    CycleRequest(y.site, y.capRaw, y.reserve, y.now, y.marginKwh, y.settings);
    EnoughSlots(y.site.vehicles[i], y.now, y.settings.horizon);
    TaperFacts(y.Plan(), i);
    var plan := FloorStaysLeft(y, i, othersKw);
    TaperedFloors(y.Plan(), i, k);
    if RoundsDown(rate) {
      RoundedDownTakes(y, i, othersKw, k, rate);
    }
  }

  lemma SameLeaves(r: Request, i: nat, v: Vehicle, kw: real)
    requires r.dtMin > 0 && i < |r.vehicles| && kw == Min(v.certifiedFloorKw, v.maxKw)
    requires LeavesAlways(Prepare(r), i, kw * CERT_DTH)
    ensures LeavesAlways(Prepare(r), i, FloorKwh(v))
  {
  }

  lemma FloorStaysLeft(y: Cycle, i: nat, othersKw: real) returns (r: Request)
    requires y.Ok() && i < |y.site.vehicles| && y.Admits(i) && y.OthersHold(i, othersKw) && FloorLeft(y, i, othersKw)
    ensures r == y.Plan() && LeavesAlways(Prepare(r), i, FloorKwh(r.vehicles[i]))
  {
    r := y.Plan();
    var v := r.vehicles[i];
    TurnLeaves(y, i, othersKw, Min(v.certifiedFloorKw, v.maxKw));
    SameLeaves(r, i, v, Min(v.certifiedFloorKw, v.maxKw));
  }

  lemma RoundedDownTakes(y: Cycle, i: nat, othersKw: real, k: nat, rate: real)
    requires y.Ok() && i < |y.site.vehicles| && IssuedBy(y, i, othersKw, k, rate) && RoundsDown(rate)
    requires KnownState(y.site.vehicles[i]) && NonnegFleet(y.Plan().vehicles)
    ensures TaperLeaves(y.Plan().vehicles[i], k)
  {
    var v := y.Plan().vehicles[i];
    assert SubjectOf(v) == SubjectOf(y.site.vehicles[i]);
    IssuedFloorTakes(v, Residual(y.CapKw(), othersKw), k);
  }

  // ---- a floor that three decimals round up past its rate ----

  /** A full battery on a 7.437 kW connector of an uncapped site: its rate is 1.11555 kW, its floor 1.116 kW. */
  function FullBattery(): Vehicle {
    Vehicle(1, 1, 7.437, 0.279, 0.0, None, None, Some(60.0), Some(1.0), None)
  }

  function FullBatteryCycle(eps: real): Cycle {
    Cycle(Site([FullBattery()], [], []), None, 0.0, 0, 0.0,
      Settings([], DEFAULT_INTERVAL_MIN, DEFAULT_HORIZON, true, eps, 0.0))
  }

  lemma FullBatteryRate(j: nat)
    ensures CertSoc(SubjectOf(FullBattery()), None, j) == 1.0 && CertRate(SubjectOf(FullBattery()), None, j) == 1.11555
  {
    var u := SubjectOf(FullBattery());
    if j > 0 {
      FullBatteryRate(j - 1);
    }
  }

  lemma FullBatteryVerdict()
    ensures var verdict := CertifierFor(None, 0, 0.0)(FullBattery(), 0.0);
            verdict.admitted && verdict.floorKw == 1.116
  {
    var v := FullBattery();
    var k := JudgedMeans(SubjectOf(v), None, Intervals(0, None), 0.0);
    FullBatteryRate(0);
    FullBatteryRate(1);
    FullBatteryRate(k - 1);
    SubjectSound(v);
    EnergyMonotone(SubjectOf(v), None, 2, Intervals(0, None));
    AdmittedIff(v, None, 0.0, 0, None, 0.0);
  }

  lemma FullBatteryAdmitted(eps: real)
    requires eps >= 0.0
    ensures var y := FullBatteryCycle(eps);
            && y.Ok() && y.Admits(0) && y.OthersHold(0, 0.0)
            && y.Plan().vehicles == [FullBattery().(certifiedFloorKw := 1.116)]
  {
    var y := FullBatteryCycle(eps);
    FullBatteryVerdict();
    LoneCertified(FullBattery(), y.Rule());
    assert y.Before(0) == y.site;
    assert y.OwnTurn(0, 0.0, 0);
  }

  /** Its very first slot falls short of the floor, although it still needs that much. */
  lemma RoundedUpFloorFails(eps: real)
    requires 0.0 <= eps < 0.279
    ensures var y := FullBatteryCycle(eps);
            && y.Ok() && y.Admits(0) && y.OthersHold(0, 0.0) && TaperedGuest(y, 0) && FloorLeft(y, 0, 0.0)
            && y.Plan().vehicles[0].remainingKwh >= FloorKwh(y.Plan().vehicles[0]) > eps
            && Prepare(y.Plan()).loads[0].av + 1 <= Prepare(y.Plan()).loads[0].dl && !PaidFlat(Prepare(y.Plan()), 0, 1)
  {
    var y := FullBatteryCycle(eps);
    FullBatteryAdmitted(eps);
    CycleRequest(y.site, y.capRaw, y.reserve, y.now, y.marginKwh, y.settings);
    var plan := FloorStaysLeft(y, 0, 0.0);
    TaperFacts(y.Plan(), 0);
    TaperedFloors(y.Plan(), 0, 1);
    assert SocAfterFloors(y.Plan().vehicles[0], 1) == 1.0;
    assert Times(FloorKwh(y.Plan().vehicles[0]), 1) == FloorKwh(y.Plan().vehicles[0]);
  }
}
