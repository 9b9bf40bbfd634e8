/** The other half of the promise: when the secured power does not cover the need, some site leaves the vehicle
    short. */
module Shortfall {
  import opened Reals
  import opened Ordering
  import opened Charging
  import opened Allocator
  import opened Invariants
  import opened EdfOptimality
  import opened Promise
  import opened Certifier
  import opened Controller
  import opened PlanCycle
  import opened EndToEnd

  // ---- a vehicle whose neighbour takes whatever it is not promised ----

  ghost predicate Roommates(p: Problem) {
    && |p.loads| == 2 && p.loads[0].sessionId < p.loads[1].sessionId
    && p.loads[0].av == 0 == p.loads[1].av && 0 <= p.loads[0].dl == p.loads[1].dl && p.loads[0].pack.None?
  }

  /** Vehicle 0 comes first in every order, could use the whole site and never has enough. */
  ghost predicate Crowded(p: Problem) {
    && p.Valid() && Roommates(p) && p.siteKwh.Some?
    && (forall c :: c in p.cpKwh ==> p.cpKwh[c] >= p.siteKwh.value)
    && p.loads[0].capKwh >= p.siteKwh.value && p.loads[0].need0 >= Times(p.siteKwh.value, p.horizon + 1)
  }

  lemma CrowdedOrders(p: Problem)
    requires p.Prepared() && Roommates(p)
    ensures ById(p) == [0, 1] && Edf(p) == [0, 1]
  {
    PairOrder(seq(|p.loads|, i requires 0 <= i < |p.loads| => (0.0, p.loads[i].sessionId)));
    PairOrder(EdfKeys(p));
  }

  lemma PairSum(a: real, b: real)
    ensures Sum([a, b]) == a + b
  {
    SumPush([], a);
    SumPush([a], b);
    assert [a] + [b] == [a, b] && [] + [a] == [a];
  }

  lemma CrowdedSum(p: Problem, s: State, t: nat)
    requires |p.loads| == 2 && Shaped(p, s) && t < p.horizon
    ensures SumSite(p, s, t) == s.x[0][t] + s.x[1][t]
  {
    assert Col(s.x, p.horizon, t) == [s.x[0][t], s.x[1][t]];
    PairSum(s.x[0][t], s.x[1][t]);
  }

  /** In a crowded problem the room is exactly what the site leaves. */
  lemma CrowdedRoom(p: Problem, s: State, i: nat, t: nat)
    requires Crowded(p) && Good(p, s) && i < 2 && t < p.horizon
    ensures RoomAt(p, s, t, p.loads[i].cpId) == Some(p.siteKwh.value - s.x[0][t] - s.x[1][t])
    ensures p.siteKwh.value - s.x[0][t] - s.x[1][t] >= 0.0
  {
    CpWithinSite(p, s, p.loads[i].cpId, t);
    CrowdedSum(p, s, t);
    assert Fits(p, s, t);
  }

  lemma {:induction false} SumAtMost(row: seq<real>, most: real)
    requires most >= 0.0 && forall t :: 0 <= t < |row| ==> row[t] <= most
    ensures Sum(row) <= Times(most, |row|)
  {
    if row != [] {
      SumAtMost(row[..|row| - 1], most);
    }
  }

  /** Vehicle 0 always needs another slot of the whole site. */
  lemma StillHungry(p: Problem, s: State)
    requires Crowded(p) && Good(p, s)
    ensures s.need[0] >= p.siteKwh.value
  {
    forall t | 0 <= t < p.horizon ensures s.x[0][t] <= p.siteKwh.value {
      CrowdedRoom(p, s, 0, t);
      assert RowGood(p, s, 1);
    }
    SumAtMost(s.x[0], p.siteKwh.value);
    assert RowGood(p, s, 0);
  }

  // ---- pass 2 leaves nothing to vehicle 1 ----

  lemma FirstTakesAll(p: Problem, s: State, t: nat)
    requires Crowded(p) && Good(p, s) && t < p.horizon && p.InWindow(0, t)
    ensures var r := Give(p, s, 0, t, p.loads[0].capKwh);
            Good(p, r) && r.need[1] == s.need[1] && p.siteKwh.value - r.x[0][t] - r.x[1][t] <= p.eps
  {
    StillHungry(p, s);
    CrowdedRoom(p, s, 0, t);
    assert RowGood(p, s, 0) && RowGood(p, s, 1);
    GiveGood(p, s, 0, t, p.loads[0].capKwh);
  }

  lemma NothingLeft(p: Problem, s: State, t: nat)
    requires Crowded(p) && Good(p, s) && t < p.horizon && p.siteKwh.value - s.x[0][t] - s.x[1][t] <= p.eps
    ensures Give(p, s, 1, t, p.loads[1].capKwh) == s
  {
    CrowdedRoom(p, s, 1, t);
  }

  lemma SlotGivesNothing(p: Problem, s: State, t: nat)
    requires Crowded(p) && Good(p, s) && t < p.horizon
    ensures Good(p, FillSlot(p, s, [0, 1], t, 2)) && FillSlot(p, s, [0, 1], t, 2).need[1] == s.need[1]
  {
    FillSlotGood(p, s, [0, 1], t, 2);
    var m := FillSlot(p, s, [0, 1], t, 1);
    assert FillSlot(p, s, [0, 1], t, 0) == s;
    if p.InWindow(0, t) && p.InWindow(1, t) {
      StillHungry(p, s);
      FirstTakesAll(p, s, t);
      if s.need[0] > p.eps {
        NothingLeft(p, m, t);
      } else {
        CrowdedRoom(p, s, 0, t);
        assert RowGood(p, s, 0) && RowGood(p, s, 1);
        NothingLeft(p, s, t);
      }
    }
  }

  lemma {:induction false} FillGivesNothing(p: Problem, s: State, t: nat)
    requires Crowded(p) && Good(p, s) && t <= p.horizon
    ensures Good(p, FillPass(p, s, [0, 1], t)) && FillPass(p, s, [0, 1], t).need[1] == s.need[1]
    decreases t
  {
    if t > 0 {
      FillGivesNothing(p, s, t - 1);
      SlotGivesNothing(p, FillPass(p, s, [0, 1], t - 1), t - 1);
    }
  }

  // ---- pass 1 pays vehicle 1 no more than vehicle 0's floor leaves ----

  /** Vehicle 0's floor as pass 1 pays it. */
  function FirstFloor(p: Problem): real
    requires |p.loads| == 2
  {
    if p.loads[0].floored then Kept(p.loads[0].floorKwh, p.eps) else 0.0
  }

  /** After its own turn vehicle 0 holds its floor in every slot of its window. */
  lemma FirstHolds(p: Problem)
    requires Crowded(p) && FloorsNonneg(p) && FirstFloor(p) <= p.siteKwh.value
    ensures var m := FloorPass(p, Initial(p), [0, 1], 1);
            Good(p, m) && WithinFloors(p, m) && Untouched(p, m, 1)
    ensures forall t :: 0 <= t < p.loads[0].dl ==> FloorPass(p, Initial(p), [0, 1], 1).x[0][t] == FirstFloor(p)
  {
    InitialGood(p);
    assert FloorPass(p, Initial(p), [0, 1], 0) == Initial(p);
    if p.loads[0].floored {
      FloorTurn(p, Initial(p), 0, p.loads[0].dl);
      FloorRowGood(p, Initial(p), 0, p.loads[0].dl);
      if FirstFloor(p) > p.eps {
        FirstPaid(p);
      } else {
        assert forall t :: 0 <= t < p.horizon ==> Initial(p).x[0][t] == 0.0;
        FaintFloor(p, Initial(p), 0, p.loads[0].dl);
      }
    }
  }

  /** A floor within the cut-off is never paid. */
  lemma {:induction false} FaintFloor(p: Problem, s: State, i: nat, t: int)
    requires p.Valid() && Shaped(p, s) && i < |p.loads| && p.loads[i].floorKwh <= p.eps && t <= p.horizon
    ensures FloorRow(p, s, i, t) == s
    decreases t
  {
    if t > p.loads[i].av {
      FaintFloor(p, s, i, t - 1);
    }
  }

  lemma FirstPaid(p: Problem)
    requires Crowded(p) && FloorsNonneg(p) && p.loads[0].floored && p.eps < p.loads[0].floorKwh <= p.siteKwh.value
    ensures forall t :: 0 <= t < p.loads[0].dl ==>
      FloorRow(p, Initial(p), 0, p.loads[0].dl).x[0][t] == p.loads[0].floorKwh
  {
    var s := Initial(p);
    InitialGood(p);
    NameplateTakes(p, 0, p.loads[0].dl);
    forall u | 0 <= u < p.loads[0].dl ensures Spare(p, s, 0, u, p.loads[0].floorKwh) {
      CrowdedRoom(p, s, 0, u);
    }
    TurnFlat(p, s, 0, p.loads[0].dl);
    FloorRowGood(p, s, 0, p.loads[0].dl);
    StillHungry(p, FloorRow(p, s, 0, p.loads[0].dl));
  }

  /** A turn whose slots leave room for at most g pays at most g a slot, and nothing when g is below the cut-off. */
  lemma {:induction false} TurnAtMost(p: Problem, s: State, i: nat, t: int, g: real, paid: real)
    requires p.Valid() && Good(p, s) && FloorsNonneg(p) && WithinFloors(p, s) && i < |p.loads| && Untouched(p, s, i)
    requires p.loads[i].floored && p.loads[i].av == 0 <= t <= p.loads[i].dl
    requires paid == Kept(g, p.eps) && forall u :: 0 <= u < t ==> Cramped(p, s, i, u, g)
    ensures FloorRow(p, s, i, t).need[i] >= s.need[i] - Times(paid, t)
    decreases t
  {
    if t > 0 {
      TurnAtMost(p, s, i, t - 1, g, paid);
      TurnSlotAtMost(p, s, i, t - 1, g);
    }
  }

  /** The floor and the room of slot t together allow at most g. */
  ghost predicate Cramped(p: Problem, s: State, i: nat, t: nat, g: real)
    requires Shaped(p, s) && i < |p.loads| && t < p.horizon
  {
    Limit(p.loads[i].floorKwh, RoomAt(p, s, t, p.loads[i].cpId)) <= g
  }

  lemma TurnSlotAtMost(p: Problem, s: State, i: nat, t: nat, g: real)
    requires p.Valid() && Good(p, s) && FloorsNonneg(p) && WithinFloors(p, s) && i < |p.loads| && Untouched(p, s, i)
    requires p.loads[i].floored && p.loads[i].av == 0 && t < p.loads[i].dl && Cramped(p, s, i, t, g)
    ensures FloorRow(p, s, i, t + 1).need[i] >= FloorRow(p, s, i, t).need[i] - Kept(g, p.eps)
  {
    var m := FloorRow(p, s, i, t);
    FloorTurn(p, s, i, t);
    FloorRowGood(p, s, i, t);
    CrampedStays(p, s, m, i, t, g);
    CrampedGives(p, m, i, t, g);
  }

  lemma CrampedStays(p: Problem, s: State, m: State, i: nat, t: nat, g: real)
    requires Shaped(p, s) && Shaped(p, m) && i < |p.loads| && t < p.horizon && Cramped(p, s, i, t, g)
    requires forall o :: 0 <= o < |p.loads| ==> m.x[o][t] == s.x[o][t]
    ensures Cramped(p, m, i, t, g)
  {
    assert Col(m.x, p.horizon, t) == Col(s.x, p.horizon, t);
    assert CpCol(p, m, p.loads[i].cpId, t) == CpCol(p, s, p.loads[i].cpId, t);
  }

  lemma CrampedGives(p: Problem, m: State, i: nat, t: nat, g: real)
    requires p.Valid() && Shaped(p, m) && i < |p.loads| && t < p.horizon && Cramped(p, m, i, t, g)
    ensures Give(p, m, i, t, p.loads[i].floorKwh).need[i] >= m.need[i] - Kept(g, p.eps)
  {
  }

  /** What vehicle 0's floor leaves of vehicle 1's own. */
  function SecondLimit(p: Problem): real
    requires |p.loads| == 2 && p.siteKwh.Some?
  {
    Min(p.loads[1].floorKwh, p.siteKwh.value - FirstFloor(p))
  }

  /** A crowded problem in which vehicle 0's floor fits. */
  ghost predicate Contended(p: Problem) {
    Crowded(p) && FloorsNonneg(p) && FirstFloor(p) <= p.siteKwh.value
  }

  /** So the finished plan pays vehicle 1 at most what vehicle 0's floor leaves of its own. */
  lemma CrowdedOut(p: Problem) returns (paid: real)
    requires Contended(p)
    ensures paid == Kept(SecondLimit(p), p.eps)
    ensures Solve(p).need[1] >= p.loads[1].need0 - Times(paid, p.loads[1].dl)
  {
    paid := Kept(SecondLimit(p), p.eps);
    CrowdedOrders(p);
    FirstHolds(p);
    SecondTurn(p, FloorPass(p, Initial(p), [0, 1], 1), SecondLimit(p));
    SolveGood(p);
    FillGivesNothing(p, AfterFloors(p), p.horizon);
  }

  lemma SecondTurn(p: Problem, m: State, g: real)
    requires Crowded(p) && FloorsNonneg(p) && Good(p, m) && WithinFloors(p, m) && Untouched(p, m, 1)
    requires m == FloorPass(p, Initial(p), [0, 1], 1)
    requires forall t :: 0 <= t < p.loads[0].dl ==> m.x[0][t] == FirstFloor(p)
    requires Min(p.loads[1].floorKwh, p.siteKwh.value - FirstFloor(p)) <= g
    ensures FloorPass(p, Initial(p), [0, 1], 2).need[1] >= p.loads[1].need0 - Times(Kept(g, p.eps), p.loads[1].dl)
  {
    if p.loads[1].floored {
      forall u | 0 <= u < p.loads[1].dl ensures Cramped(p, m, 1, u, g) {
        CrowdedRoom(p, m, 1, u);
      }
      TurnAtMost(p, m, 1, p.loads[1].dl, g, Kept(g, p.eps));
    } else {
      TimesMonotone(Kept(g, p.eps), 0, p.loads[1].dl);
    }
  }

  // ---- the site that leaves a vehicle short ----

  /** A neighbour that was promised othersKw earlier, could use the whole cap and never has enough. */
  function Neighbour(v: Vehicle, capKw: real, othersKw: real, horizon: nat): Vehicle {
    Vehicle(v.sessionId - 1, v.cpId, capKw, Times(capKw * CERT_DTH, horizon + 1), othersKw, None, v.deadlineAt, None,
      None, None)
  }

  function SharedSite(v: Vehicle, capKw: real, othersKw: real, horizon: nat): Site {
    Site([Neighbour(v, capKw, othersKw, horizon), v], [Cert(v.sessionId - 1, othersKw, ACTIVE)], [])
  }

  function SharedCycle(v: Vehicle, othersKw: real, capRaw: real, reserve: real, now: int, marginKwh: real,
      c: Settings): Cycle {
    Cycle(SharedSite(v, UsableCap(Some(capRaw), reserve).value, othersKw, c.horizon), Some(capRaw), reserve, now,
      marginKwh, c)
  }

  /** A vehicle that is there, what the others hold, and the cycle's terms, on which it is admitted. */
  ghost predicate Terms(v: Vehicle, othersKw: real, capRaw: real, reserve: real, now: int, marginKwh: real,
      c: Settings) {
    && Staying(v, now) && SoundVehicle(v) && v.certifiedFloorKw >= 0.0
    && capRaw >= 0.0 && 0.0 <= reserve <= 1.0 && 0.0 <= c.tiny <= c.eps && c.dtMin == DEFAULT_INTERVAL_MIN
    && 0.0 <= othersKw <= UsableCap(Some(capRaw), reserve).value
    && CertifierFor(UsableCap(Some(capRaw), reserve), now, marginKwh)(v, othersKw).admitted
  }

  /** The same for a vehicle of unknown battery state. */
  ghost predicate Offer(v: Vehicle, othersKw: real, capRaw: real, reserve: real, now: int, marginKwh: real,
      c: Settings) {
    Terms(v, othersKw, capRaw, reserve, now, marginKwh, c) && !v.KnownBattery()
  }

  /** The neighbour keeps its certificate; then the vehicle is judged. */
  lemma SharedRun(v: Vehicle, capKw: real, othersKw: real, horizon: nat, judge: Judge)
    requires judge(v, othersKw).admitted
    ensures var s := SharedSite(v, capKw, othersKw, horizon);
            && IdOrder(s.vehicles) == [0, 1] && OthersKw(CertifyPass(s, [0, 1], judge, 1).vehicles, 1) == othersKw
            && CertifySite(s, judge).vehicles == [s.vehicles[0], v.(certifiedFloorKw := judge(v, othersKw).floorKw)]
            && Issued(v.sessionId, ACTIVE, false) in CertifySite(s, judge).issued
  {
    var s := SharedSite(v, capKw, othersKw, horizon);
    PairOrder(IdKeys(s.vehicles));
    var m := CertifyPass(s, [0, 1], judge, 1);
    assert CertifyPass(s, [0, 1], judge, 0) == s;
    assert m == CertifyOne(s, 0, judge) && m.vehicles == s.vehicles && m.certs == s.certs;
    assert Floors(m.vehicles)[1 := 0.0] == [othersKw, 0.0];
    PairSum(othersKw, 0.0);
    assert OthersKw(m.vehicles, 1) == othersKw;
    assert s.certs[..0] == [];
    assert Latest(s.certs, v.sessionId - 1) == Some(s.certs[0])
      && Latest(s.certs, v.sessionId) == Latest([], v.sessionId);
    var r := CertifyOne(m, 1, judge);
    assert r.issued[1] == Issued(v.sessionId, ACTIVE, false);
    assert CertifySite(s, judge) == r;
  }

  lemma SharedAdmits(v: Vehicle, othersKw: real, capRaw: real, reserve: real, now: int, marginKwh: real, c: Settings)
    requires Terms(v, othersKw, capRaw, reserve, now, marginKwh, c)
    ensures var y := SharedCycle(v, othersKw, capRaw, reserve, now, marginKwh, c);
            && y.Ok() && y.Admits(1) && y.OthersHold(1, othersKw) && y.site.vehicles[1] == v
            && y.Plan().vehicles == [y.site.vehicles[0], v.(certifiedFloorKw := y.Rule()(v, othersKw).floorKw)]
  {
    var y := SharedCycle(v, othersKw, capRaw, reserve, now, marginKwh, c);
    SharedRun(v, y.CapKw().value, othersKw, c.horizon, y.Rule());
    assert y.OwnTurn(1, othersKw, 1);
  }

  /** The plan of a shared site: two vehicles, the neighbour with its old promise. */
  ghost predicate SharedPlan(r: Request, v: Vehicle, capKw: real, othersKw: real) {
    && r.Valid() && r.dtMin == DEFAULT_INTERVAL_MIN && r.siteCapKw == Some(capKw) && PointsOpen(r)
    && |r.vehicles| == 2 && r.vehicles[0] == Neighbour(v, capKw, othersKw, r.horizon)
    && r.vehicles[1] == v.(certifiedFloorKw := r.vehicles[1].certifiedFloorKw) && NonnegFleet(r.vehicles)
    && Staying(v, r.now) && 0.0 <= othersKw <= capKw
  }

  lemma MinQuarter(a: real, b: real, c: real)
    ensures Min(a * CERT_DTH, b * CERT_DTH - c * CERT_DTH) == Min(a, b - c) * CERT_DTH
  {
  }

  /** The shared plan as the allocator reads it. */
  lemma SharedReads(r: Request, v: Vehicle, capKw: real, othersKw: real)
    requires SharedPlan(r, v, capKw, othersKw)
    ensures var p := Prepare(r);
            && Contended(p) && p.loads[1].dl == SlotsFor(v, r.now, r.horizon) && p.loads[1].need0 >= v.remainingKwh
            && SecondLimit(p)
                 == Min(Min(r.vehicles[1].certifiedFloorKw, v.maxKw), capKw - HeldKw(othersKw, r.eps)) * CERT_DTH
  {
    assert r.DtH() == CERT_DTH;
    PrepareValid(r);
    LoadFacts(r, 0);
    LoadFacts(r, 1);
    RequestFloorsNonneg(r);
    SiteBudget(r);
    TimesMonotone(capKw * CERT_DTH, 0, r.horizon + 1);
    MinQuarter(Min(r.vehicles[1].certifiedFloorKw, v.maxKw), capKw, HeldKw(othersKw, r.eps));
    forall cp | cp in Prepare(r).cpKwh ensures Prepare(r).cpKwh[cp] >= capKw * CERT_DTH {
      TimesQuarter(capKw, r.cpCaps[cp]);
    }
  }

  /** What the shared plan pays: at most the floor, the nameplate and what the neighbour's promise leaves. */
  lemma SharedPays(r: Request, v: Vehicle, capKw: real, othersKw: real, kw: real)
    requires SharedPlan(r, v, capKw, othersKw)
    requires kw == Min(Min(r.vehicles[1].certifiedFloorKw, v.maxKw), capKw - HeldKw(othersKw, r.eps))
    ensures Solve(Prepare(r)).need[1] >= v.remainingKwh - Times(PaidKwh(kw, r.eps), SlotsFor(v, r.now, r.horizon))
  {
    SharedReads(r, v, capKw, othersKw);
    var paid := CrowdedOut(Prepare(r));
    assert paid == PaidKwh(kw, r.eps);
  }

  lemma SecuredIs(v: Vehicle, capKw: Option<real>, othersKw: real, now: int, marginKwh: real, eps: real)
    returns (kw: real)
    requires !v.KnownBattery() && v.maxKw >= 0.0 && capKw.Some? && 0.0 <= othersKw <= capKw.value
    ensures kw == SecuredKw(v.maxKw, capKw, othersKw, eps)
            == Min(Min(CertifierFor(capKw, now, marginKwh)(v, othersKw).floorKw, v.maxKw),
                   capKw.value - HeldKw(othersKw, eps))
  {
    kw := SecuredKw(v.maxKw, capKw, othersKw, eps);
    var k := FlatFloor(v, capKw, othersKw, now, marginKwh);
  }

  /** If the secured power does not cover the need, the shared site admits the vehicle and leaves it short. */
  lemma LeftShort(v: Vehicle, othersKw: real, capRaw: real, reserve: real, now: int, marginKwh: real, c: Settings)
    requires Offer(v, othersKw, capRaw, reserve, now, marginKwh, c)
    requires !Secured(v, UsableCap(Some(capRaw), reserve), othersKw, SlotsFor(v, now, c.horizon), c.eps)
    ensures var y := SharedCycle(v, othersKw, capRaw, reserve, now, marginKwh, c);
            y.Plan().Valid() && Solve(Prepare(y.Plan())).need[1] > c.eps
  {
    var y := SharedCycle(v, othersKw, capRaw, reserve, now, marginKwh, c);
    SharedAdmits(v, othersKw, capRaw, reserve, now, marginKwh, c);
    CycleRequest(y.site, y.capRaw, y.reserve, y.now, y.marginKwh, y.settings);
    var kw := SecuredIs(v, y.CapKw(), othersKw, now, marginKwh, c.eps);
    SharedPays(y.Plan(), v, y.CapKw().value, othersKw, kw);
  }

  // ---- both halves ----

  /** Every site in which v is newly admitted on these terms, while the others hold othersKw, serves it in full. */
  ghost predicate AlwaysServed(v: Vehicle, othersKw: real, capRaw: real, reserve: real, now: int, marginKwh: real,
      c: Settings) {
    forall s, i :: OnTerms(Cycle(s, Some(capRaw), reserve, now, marginKwh, c), i, v, othersKw) ==>
      InTime(Cycle(s, Some(capRaw), reserve, now, marginKwh, c), i)
  }

  ghost predicate OnTerms(y: Cycle, i: nat, v: Vehicle, othersKw: real) {
    y.Ok() && i < |y.site.vehicles| && y.site.vehicles[i] == v && y.Admits(i) && y.OthersHold(i, othersKw)
  }

  ghost predicate InTime(y: Cycle, i: nat) {
    y.Plan().Valid() && i < |y.site.vehicles| && ServesInTime(y.Plan(), i)
  }

  /** On a capped site, an admission is always served in full exactly when the secured power (the floor, but no more
      than the guaranteed rate) covers the need in the slots before the deadline. */
  lemma PromiseKeptIff(v: Vehicle, othersKw: real, capRaw: real, reserve: real, now: int, marginKwh: real, c: Settings)
    requires Offer(v, othersKw, capRaw, reserve, now, marginKwh, c)
    ensures Secured(v, UsableCap(Some(capRaw), reserve), othersKw, SlotsFor(v, now, c.horizon), c.eps)
            <==> AlwaysServed(v, othersKw, capRaw, reserve, now, marginKwh, c)
  {
    if Secured(v, UsableCap(Some(capRaw), reserve), othersKw, SlotsFor(v, now, c.horizon), c.eps) {
      forall s, i | OnTerms(Cycle(s, Some(capRaw), reserve, now, marginKwh, c), i, v, othersKw)
        ensures InTime(Cycle(s, Some(capRaw), reserve, now, marginKwh, c), i)
      {
        PromiseKept(Cycle(s, Some(capRaw), reserve, now, marginKwh, c), i, othersKw);
      }
    } else {
      var y := SharedCycle(v, othersKw, capRaw, reserve, now, marginKwh, c);
      SharedAdmits(v, othersKw, capRaw, reserve, now, marginKwh, c);
      LeftShort(v, othersKw, capRaw, reserve, now, marginKwh, c);
      assert OnTerms(Cycle(y.site, Some(capRaw), reserve, now, marginKwh, c), 1, v, othersKw);
      assert !InTime(y, 1);
    }
  }

  // ---- without a margin ----

  /** 1.1114 kW for a quarter of an hour is exactly what it needs, and 1.111 kW is what it is promised. */
  function TightVehicle(): Vehicle {
    Vehicle(2, 2, 1.1114, 0.27785, 0.0, None, Some(CERT_DT_MS), None, None, None)
  }

  /** Admitted with no margin on a 10 kW site, and left short although it is the only promise there. */
  lemma ZeroMarginFails(eps: real)
    requires 0.0 <= eps < 0.0001
    ensures var c := Settings([], DEFAULT_INTERVAL_MIN, 1, false, eps, 0.0);
            var y := SharedCycle(TightVehicle(), 0.0, 10.0, 0.0, 0, 0.0, c);
            && y.Ok() && y.Admits(1) && y.OthersHold(1, 0.0) && y.site.vehicles[1] == TightVehicle()
            && y.Plan().Valid() && Solve(Prepare(y.Plan())).need[1] > eps
  {
    var c := Settings([], DEFAULT_INTERVAL_MIN, 1, false, eps, 0.0);
    var v := TightVehicle();
    var k := FlatFloor(v, Some(10.0), 0.0, 0, 0.0);
    assert UsableCap(Some(10.0), 0.0) == Some(10.0);
    assert SecuredKw(v.maxKw, Some(10.0), 0.0, eps) == 1.111;
    assert SlotsFor(v, 0, 1) == 1;
    assert Times(0.27785, 1) == 0.27785 && Times(PaidKwh(1.111, eps), 1) == PaidKwh(1.111, eps);
    SharedAdmits(v, 0.0, 10.0, 0.0, 0, 0.0, c);
    LeftShort(v, 0.0, 10.0, 0.0, 0, 0.0, c);
  }
}
