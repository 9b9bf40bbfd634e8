/** The plan cycle between certification and allocation: whose turn said what, and what the request guarantees. */
module PlanCycle {
  import opened Reals
  import opened Ordering
  import opened Charging
  import opened Allocator
  import opened Invariants
  import opened Promise
  import opened Certifier
  import opened Controller

  // ---- what a newly issued certificate says ----

  lemma IdOrderVisits(vehicles: seq<Vehicle>, i: nat) returns (k: nat)
    requires i < |vehicles|
    ensures Distinct(IdOrder(vehicles)) && k < |IdOrder(vehicles)| && IdOrder(vehicles)[k] == i
  {
    SortIsPermutation(IdKeys(vehicles), |vehicles|);
    assert i in IdOrder(vehicles);
    k :| 0 <= k < |IdOrder(vehicles)| && IdOrder(vehicles)[k] == i;
  }

  ghost predicate DistinctIds(vehicles: seq<Vehicle>) {
    forall i, j :: 0 <= i < j < |vehicles| ==> vehicles[i].sessionId != vehicles[j].sessionId
  }

  /** What one turn does to everything but the vehicle's own floor. */
  ghost predicate Turn(a: Site, b: Site, i: nat) {
    && i < |a.vehicles| == |b.vehicles|
    && |b.issued| == |a.issued| + 1
    && b.issued[..|a.issued|] == a.issued
    && b.issued[|a.issued|].sessionId == a.vehicles[i].sessionId
    && (forall j :: 0 <= j < |a.vehicles| && j != i ==> b.vehicles[j] == a.vehicles[j])
    && b.vehicles[i].sessionId == a.vehicles[i].sessionId
  }

  lemma OneTurn(s: Site, i: nat, judge: Judge)
    requires i < |s.vehicles|
    ensures Turn(s, CertifyOne(s, i, judge), i)
    ensures var r := CertifyOne(s, i, judge);
            var verdict := judge(s.vehicles[i], OthersKw(s.vehicles, i));
            r.issued[|s.issued|].status == ACTIVE && !r.issued[|s.issued|].reused ==>
              verdict.admitted && r.vehicles[i].certifiedFloorKw == verdict.floorKw
  {
  }

  /** A run as its intermediate sites: each is the previous one after one turn. */
  ghost predicate Run(sites: seq<Site>, order: seq<nat>) {
    |sites| == |order| + 1 && forall k :: 0 <= k < |order| ==> Turn(sites[k], sites[k + 1], order[k])
  }

  function CertifyRun(s: Site, order: seq<nat>, judge: Judge): seq<Site>
    requires InSite(s, order)
  {
    seq(|order| + 1, k requires 0 <= k < |order| + 1 => CertifyPass(s, order, judge, k))
  }

  lemma CertifyRuns(s: Site, order: seq<nat>, judge: Judge)
    requires InSite(s, order)
    ensures Run(CertifyRun(s, order, judge), order)
  {
    forall k | 0 <= k < |order|
      ensures Turn(CertifyPass(s, order, judge, k), CertifyPass(s, order, judge, k + 1), order[k])
    {
      OneTurn(CertifyPass(s, order, judge, k), order[k], judge);
    }
  }

  /** One line per turn; nobody joins or leaves. */
  lemma {:induction false} ReportLength(sites: seq<Site>, order: seq<nat>, k: nat)
    requires Run(sites, order) && sites[0].issued == [] && k <= |order|
    ensures |sites[k].issued| == k && |sites[k].vehicles| == |sites[0].vehicles|
    ensures forall i ::
      0 <= i < |sites[0].vehicles| ==> sites[k].vehicles[i].sessionId == sites[0].vehicles[i].sessionId
    decreases k
  {
    if k > 0 {
      ReportLength(sites, order, k - 1);
      assert Turn(sites[k - 1], sites[k], order[k - 1]);
    }
  }

  /** The line of turn j names the vehicle whose turn it was, and stays. */
  lemma {:induction false} ReportLine(sites: seq<Site>, order: seq<nat>, j: nat, k: nat)
    requires Run(sites, order) && sites[0].issued == [] && j < k <= |order|
    ensures |sites[k].issued| == k && order[j] < |sites[0].vehicles|
    ensures sites[k].issued[j].sessionId == sites[0].vehicles[order[j]].sessionId
    decreases k
  {
    ReportLength(sites, order, k);
    ReportLength(sites, order, k - 1);
    assert Turn(sites[k - 1], sites[k], order[k - 1]);
    if j < k - 1 {
      ReportLine(sites, order, j, k - 1);
      assert sites[k].issued[..k - 1][j] == sites[k].issued[j];
    }
  }

  /** After its own turn a vehicle's floor and its report line stay as they are. */
  lemma {:induction false} OwnTurnOnly(sites: seq<Site>, order: seq<nat>, j: nat, k: nat)
    requires Run(sites, order) && Distinct(order) && j < k <= |order|
    ensures |sites[j].issued| < |sites[k].issued| && |sites[j + 1].issued| == |sites[j].issued| + 1
    ensures sites[k].issued[|sites[j].issued|] == sites[j + 1].issued[|sites[j].issued|]
    ensures order[j] < |sites[k].vehicles| && order[j] < |sites[j + 1].vehicles|
    ensures sites[k].vehicles[order[j]] == sites[j + 1].vehicles[order[j]]
    decreases k
  {
    assert Turn(sites[j], sites[j + 1], order[j]);
    if j + 1 < k {
      OwnTurnOnly(sites, order, j, k - 1);
      assert Turn(sites[k - 1], sites[k], order[k - 1]);
      assert sites[k].issued[..|sites[k - 1].issued|][|sites[j].issued|] == sites[k].issued[|sites[j].issued|];
    }
  }

  /** If the report says that vehicle i was newly admitted, its own turn said so. */
  lemma OwnLine(sites: seq<Site>, order: seq<nat>, j: nat)
    requires Run(sites, order) && Distinct(order) && j < |order| && sites[0].issued == []
    requires DistinctIds(sites[0].vehicles) && order[j] < |sites[0].vehicles|
    requires Issued(sites[0].vehicles[order[j]].sessionId, ACTIVE, false) in sites[|order|].issued
    ensures |sites[j].issued| < |sites[j + 1].issued|
    ensures sites[j + 1].issued[|sites[j].issued|].status == ACTIVE && !sites[j + 1].issued[|sites[j].issued|].reused
  {
    var n := |order|;
    ReportLength(sites, order, n);
    ReportLength(sites, order, j);
    OwnTurnOnly(sites, order, j, n);
    var line := Issued(sites[0].vehicles[order[j]].sessionId, ACTIVE, false);
    var q :| 0 <= q < |sites[n].issued| && sites[n].issued[q] == line;
    ReportLine(sites, order, q, n);
    assert order[q] == order[j];
    assert q == j;
  }

  /** The run in terms of its turns: the line and the floor vehicle order[j] ends up with are those of its turn. */
  lemma LineOfTurn(s: Site, order: seq<nat>, judge: Judge, j: nat)
    requires InSite(s, order) && Distinct(order) && j < |order| && s.issued == [] && DistinctIds(s.vehicles)
    requires Issued(s.vehicles[order[j]].sessionId, ACTIVE, false) in CertifyPass(s, order, judge, |order|).issued
    ensures var m := CertifyPass(s, order, judge, j);
            var t := CertifyOne(m, order[j], judge);
            && |m.issued| < |t.issued|
            && t.issued[|m.issued|].status == ACTIVE && !t.issued[|m.issued|].reused
            && CertifyPass(s, order, judge, |order|).vehicles[order[j]] == t.vehicles[order[j]]
  {
    var sites := CertifyRun(s, order, judge);
    CertifyRuns(s, order, judge);
    OwnLine(sites, order, j);
    OwnTurnOnly(sites, order, j, |order|);
    assert sites[j + 1] == CertifyOne(sites[j], order[j], judge);
  }

  /** Where vehicle i's turn is when the run admits it: its floor is that of the turn's verdict, and every earlier
      session has its final floor by then. */
  lemma AdmittedAtTurn(s: Site, i: nat, judge: Judge) returns (j: nat)
    requires s.issued == [] && DistinctIds(s.vehicles) && i < |s.vehicles|
    requires Issued(s.vehicles[i].sessionId, ACTIVE, false) in CertifySite(s, judge).issued
    ensures j < |IdOrder(s.vehicles)| && IdOrder(s.vehicles)[j] == i
    ensures var m := CertifyPass(s, IdOrder(s.vehicles), judge, j);
            && judge(m.vehicles[i], OthersKw(m.vehicles, i)).admitted
            && CertifySite(s, judge).vehicles[i].certifiedFloorKw
                 == judge(m.vehicles[i], OthersKw(m.vehicles, i)).floorKw
    ensures forall o :: 0 <= o < |s.vehicles| && s.vehicles[o].sessionId < s.vehicles[i].sessionId ==>
              CertifySite(s, judge).vehicles[o] == CertifyPass(s, IdOrder(s.vehicles), judge, j).vehicles[o]
  {
    var order := IdOrder(s.vehicles);
    j := IdOrderVisits(s.vehicles, i);
    LineOfTurn(s, order, judge, j);
    OneTurn(CertifyPass(s, order, judge, j), i, judge);
    forall o | 0 <= o < |s.vehicles| && s.vehicles[o].sessionId < s.vehicles[i].sessionId
      ensures CertifySite(s, judge).vehicles[o] == CertifyPass(s, order, judge, j).vehicles[o]
    {
      var q := IdOrderVisits(s.vehicles, o);
      SortBySorts(IdKeys(s.vehicles), Upto(|s.vehicles|));
      SortedAfter(IdKeys(s.vehicles), order, j, q);
      SettledAfterTurn(s, order, judge, q, j);
      SettledAfterTurn(s, order, judge, q, |order|);
    }
  }

  lemma {:induction false} SettledAfterTurn(s: Site, order: seq<nat>, judge: Judge, q: nat, k: nat)
    requires InSite(s, order) && Distinct(order) && q < k <= |order|
    ensures CertifyPass(s, order, judge, k).vehicles[order[q]] == CertifyPass(s, order, judge, q + 1).vehicles[order[q]]
    decreases k
  {
    if q + 1 < k {
      SettledAfterTurn(s, order, judge, q, k - 1);
      OneTurn(CertifyPass(s, order, judge, k - 1), order[k - 1], judge);
    }
  }

  // ---- floors under the cap fit in every slot ----

  lemma TimesQuarter(a: real, b: real)
    requires a <= b
    ensures a * CERT_DTH <= b * CERT_DTH
  {
  }

  function QuarterKwh(floors: seq<real>): seq<real> {
    seq(|floors|, j requires 0 <= j < |floors| => CERT_DTH * floors[j])
  }

  /** Asks of at most the floors' quarter-hour energies add up to at most the cap's. */
  lemma AsksFit(asks: seq<real>, floors: seq<real>, capKw: real)
    requires |asks| == |floors| && Sum(floors) <= capKw
    requires forall o :: 0 <= o < |asks| ==> asks[o] <= QuarterKwh(floors)[o]
    ensures Sum(asks) <= capKw * CERT_DTH
  {
    SumScaled(floors, QuarterKwh(floors), CERT_DTH);
    SumMono(asks, QuarterKwh(floors));
  }

  lemma AskBelowFloor(r: Request, o: nat, t: nat)
    requires r.Valid() && r.dtMin == DEFAULT_INTERVAL_MIN && o < |r.vehicles| && r.vehicles[o].certifiedFloorKw >= 0.0
    ensures 0.0 <= FloorAsk(Prepare(r), o, t) <= QuarterKwh(Floors(r.vehicles))[o]
    ensures Prepare(r).loads[o].floorKwh >= 0.0
  {
    assert r.DtH() == CERT_DTH;
  }

  lemma FloorsFitSlot(r: Request, t: nat)
    requires r.Valid() && r.dtMin == DEFAULT_INTERVAL_MIN && UnderCap(r.vehicles, r.siteCapKw)
    requires forall c :: c in r.cpCaps ==> r.siteCapKw.Some? && r.siteCapKw.value <= r.cpCaps[c]
    ensures FloorsFitAt(Prepare(r), t)
  {
    var p := Prepare(r);
    assert r.DtH() == CERT_DTH;
    forall o | 0 <= o < |r.vehicles| ensures 0.0 <= FloorAsk(p, o, t) <= QuarterKwh(Floors(r.vehicles))[o] {
      AskBelowFloor(r, o, t);
    }
    if r.siteCapKw.Some? {
      AsksFit(AskCol(p, t), Floors(r.vehicles), r.siteCapKw.value);
      forall c | c in p.cpKwh ensures Sum(CpAskCol(p, c, t)) <= p.cpKwh[c] {
        AsksFit(CpAskCol(p, c, t), Floors(r.vehicles), r.siteCapKw.value);
        TimesQuarter(r.siteCapKw.value, r.cpCaps[c]);
      }
    }
  }

  lemma FloorsFitRequest(r: Request)
    requires r.Valid() && r.dtMin == DEFAULT_INTERVAL_MIN && UnderCap(r.vehicles, r.siteCapKw)
    requires forall c :: c in r.cpCaps ==> r.siteCapKw.Some? && r.siteCapKw.value <= r.cpCaps[c]
    ensures FloorsFit(Prepare(r))
  {
    assert r.DtH() == CERT_DTH;
    forall t | 0 <= t < r.horizon ensures FloorsFitAt(Prepare(r), t) {
      FloorsFitSlot(r, t);
    }
  }

  // ---- the cycle's request ----

  /** What the cycle assumes of the site it starts from. Nothing is assumed of the prior promises but that none is
      negative. */
  ghost predicate CycleOk(s: Site, capRaw: Option<real>, reserve: real, c: Settings) {
    && DistinctIds(s.vehicles) && SoundFleet(s.vehicles) && NonnegFleet(s.vehicles) && s.issued == []
    && 0.0 <= reserve <= 1.0 && (capRaw.Some? ==> capRaw.value >= 0.0)
    && 0.0 <= c.tiny <= c.eps && c.dtMin == DEFAULT_INTERVAL_MIN
  }

  lemma CapSound(capRaw: Option<real>, reserve: real)
    requires (capRaw.Some? ==> capRaw.value >= 0.0) && 0.0 <= reserve <= 1.0
    ensures capRaw.Some? ==> 0.0 <= UsableCap(capRaw, reserve).value <= capRaw.value
  {
    if capRaw.Some? {
      TimesMono(0.0, 1.0 - reserve, capRaw.value);
      TimesMono(1.0 - reserve, 1.0, capRaw.value);
    }
  }

  lemma RequestValid(vehicles: seq<Vehicle>, r: Request)
    requires DistinctIds(vehicles) && SoundFleet(vehicles) && SameFleet(vehicles, r.vehicles)
    requires r.dtMin > 0 && 0.0 <= r.tiny <= r.eps
    requires r.siteCapKw.Some? ==> r.siteCapKw.value >= 0.0
    requires forall c :: c in r.cpCaps ==> r.cpCaps[c] >= 0.0
    ensures r.Valid()
  {
    forall i | 0 <= i < |vehicles| ensures r.vehicles[i].maxKw >= 0.0 {
      assert SoundVehicle(vehicles[i]);
    }
  }

  /** The request the cycle hands to the allocator is well formed, its floors are not negative, and every charge point
      may use the whole usable cap. */
  lemma CycleRequest(s: Site, capRaw: Option<real>, reserve: real, now: int, marginKwh: real, c: Settings)
    requires CycleOk(s, capRaw, reserve, c)
    ensures var r := PlanRequest(s, capRaw, reserve, now, marginKwh, c);
            && r.Valid() && NonnegFleet(r.vehicles) && SameFleet(s.vehicles, r.vehicles) && PointsOpen(r)
  {
    var order := IdOrder(s.vehicles);
    var judge := CertifierFor(UsableCap(capRaw, reserve), now, marginKwh);
    CapSound(capRaw, reserve);
    CertifierGrants(UsableCap(capRaw, reserve), now, marginKwh);
    CertifyPassFleet(s, order, judge, |order|);
    CertifyNonneg(s, order, judge, |order|);
    RequestValid(s.vehicles, PlanRequest(s, capRaw, reserve, now, marginKwh, c));
  }

  ghost predicate PointsOpen(r: Request) {
    forall cp :: cp in r.cpCaps ==> r.siteCapKw.Some? && r.siteCapKw.value <= r.cpCaps[cp]
  }

  /** If prior promises fit under a usable cap that three decimals do not round up, all floors fit in every slot of the
      plan. */
  lemma CycleFloorsFit(s: Site, capRaw: Option<real>, reserve: real, now: int, marginKwh: real, c: Settings)
    requires CycleOk(s, capRaw, reserve, c) && UnderCap(s.vehicles, UsableCap(capRaw, reserve))
    requires capRaw.Some? ==> RoundsDown(UsableCap(capRaw, reserve).value)
    ensures FloorsFit(Prepare(PlanRequest(s, capRaw, reserve, now, marginKwh, c)))
  {
    var order := IdOrder(s.vehicles);
    var capKw := UsableCap(capRaw, reserve);
    CapSound(capRaw, reserve);
    CertifierPrudent(capKw, now, marginKwh);
    CertifyKeepsCap(s, order, CertifierFor(capKw, now, marginKwh), capKw, |order|);
    CycleRequest(s, capRaw, reserve, now, marginKwh, c);
    FloorsFitRequest(PlanRequest(s, capRaw, reserve, now, marginKwh, c));
  }

  lemma RequestFloorsNonneg(r: Request)
    requires r.Valid() && NonnegFleet(r.vehicles) && r.dtMin == DEFAULT_INTERVAL_MIN
    ensures FloorsNonneg(Prepare(r))
  {
    forall o | 0 <= o < |r.vehicles| ensures Prepare(r).loads[o].floorKwh >= 0.0 {
      AskBelowFloor(r, o, 0);
    }
  }

  // ---- what the others leave ----

  /** The asks of earlier sessions stay within what they had been promised at vehicle i's turn. */
  lemma EarlierBelowOthers(r: Request, others: seq<Vehicle>, i: nat, t: nat)
    requires r.Valid() && r.dtMin == DEFAULT_INTERVAL_MIN && NonnegFleet(r.vehicles) && NonnegFleet(others)
    requires |others| == |r.vehicles| && i < |others|
    requires forall o :: 0 <= o < |others| && r.vehicles[o].sessionId < r.vehicles[i].sessionId ==>
               r.vehicles[o].certifiedFloorKw == others[o].certifiedFloorKw
    ensures Sum(EarlierCpCol(Prepare(r), i, t)) <= Sum(EarlierCol(Prepare(r), i, t)) <= OthersKw(others, i) * CERT_DTH
  {
    var p := Prepare(r);
    var floors := Floors(others)[i := 0.0];
    forall o | 0 <= o < |others| ensures EarlierCpCol(p, i, t)[o] <= EarlierCol(p, i, t)[o] <= QuarterKwh(floors)[o] {
      AskBelowFloor(r, o, t);
    }
    AsksFit(EarlierCol(p, i, t), floors, OthersKw(others, i));
    SumMono(EarlierCpCol(p, i, t), EarlierCol(p, i, t));
  }

  /** Power of what the others hold, which counts for nothing if a slot of all of it is within the cut-off. */
  function HeldKw(othersKw: real, eps: real): real {
    if 0.0 < othersKw && othersKw * CERT_DTH <= eps then 0.0 else othersKw
  }

  /** Then none of it is paid. */
  lemma NothingHeld(r: Request, others: seq<Vehicle>, i: nat, t: nat)
    requires r.Valid() && r.dtMin == DEFAULT_INTERVAL_MIN && NonnegFleet(r.vehicles) && NonnegFleet(others)
    requires |others| == |r.vehicles| && i < |others| && OthersKw(others, i) * CERT_DTH <= r.eps
    requires forall o :: 0 <= o < |others| && r.vehicles[o].sessionId < r.vehicles[i].sessionId ==>
               r.vehicles[o].certifiedFloorKw == others[o].certifiedFloorKw
    ensures Sum(EarlierCpCol(Prepare(r), i, t)) == Sum(EarlierCol(Prepare(r), i, t)) == 0.0
  {
    var p, floors := Prepare(r), Floors(others)[i := 0.0];
    forall o | 0 <= o < |others| ensures EarlierCol(p, i, t)[o] == 0.0 == EarlierCpCol(p, i, t)[o] {
      AskBelowFloor(r, o, t);
      if o != i {
        SumPick(floors, o);
        TimesQuarter(floors[o], OthersKw(others, i));
      }
    }
    SumZero(EarlierCol(p, i, t));
    SumZero(EarlierCpCol(p, i, t));
  }

  ghost predicate LeavesAlways(p: Problem, i: nat, g: real)
    requires i < |p.loads|
  {
    forall t: nat :: Leaves(p, i, t, g)
  }

  lemma EarlierWithinHeld(r: Request, others: seq<Vehicle>, i: nat, t: nat)
    requires r.Valid() && r.dtMin == DEFAULT_INTERVAL_MIN && NonnegFleet(r.vehicles) && NonnegFleet(others)
    requires |others| == |r.vehicles| && i < |others|
    requires forall o :: 0 <= o < |others| && r.vehicles[o].sessionId < r.vehicles[i].sessionId ==>
               r.vehicles[o].certifiedFloorKw == others[o].certifiedFloorKw
    ensures Sum(EarlierCpCol(Prepare(r), i, t)) <= Sum(EarlierCol(Prepare(r), i, t))
            <= HeldKw(OthersKw(others, i), r.eps) * CERT_DTH
  {
    if OthersKw(others, i) > 0.0 && OthersKw(others, i) * CERT_DTH <= r.eps {
      NothingHeld(r, others, i, t);
    } else {
      EarlierBelowOthers(r, others, i, t);
    }
  }

  lemma OthersLeave(r: Request, others: seq<Vehicle>, i: nat, t: nat, kw: real)
    requires r.Valid() && r.dtMin == DEFAULT_INTERVAL_MIN && NonnegFleet(r.vehicles) && NonnegFleet(others)
      && PointsOpen(r)
    requires |others| == |r.vehicles| && i < |others|
    requires forall o :: 0 <= o < |others| && r.vehicles[o].sessionId < r.vehicles[i].sessionId ==>
               r.vehicles[o].certifiedFloorKw == others[o].certifiedFloorKw
    requires r.siteCapKw.Some? ==> kw <= r.siteCapKw.value - HeldKw(OthersKw(others, i), r.eps)
    ensures Leaves(Prepare(r), i, t, kw * CERT_DTH)
  {
    var held := HeldKw(OthersKw(others, i), r.eps);
    EarlierWithinHeld(r, others, i, t);
    assert r.DtH() == CERT_DTH;
    if r.siteCapKw.Some? {
      SiteBudget(r);
      TimesQuarter(held + kw, r.siteCapKw.value);
      var cp := r.vehicles[i].cpId;
      if cp in r.cpCaps {
        TimesQuarter(r.siteCapKw.value, r.cpCaps[cp]);
      }
    }
  }

  // ---- the promise without battery state ----

  /** Present now and departing later. */
  predicate Staying(v: Vehicle, now: int) {
    v.arrivalAt.None? && (v.deadlineAt.Some? ==> v.deadlineAt.value > now)
  }

  /** And of unknown battery state. */
  predicate FlatVehicle(v: Vehicle, now: int) {
    !v.KnownBattery() && Staying(v, now)
  }

  /** Number of 15-minute slots before the deadline, within the horizon. */
  function SlotsFor(v: Vehicle, now: int, horizon: nat): int {
    if v.deadlineAt.None? then horizon
    else
      var slot := CeilDiv(v.deadlineAt.value - GridStart(now, CERT_DT_MS), CERT_DT_MS);
      if slot < horizon then slot else horizon
  }

  /** They are the slots of the horizon that begin before the deadline. */
  lemma SlotsForAre(v: Vehicle, now: int, horizon: nat, start: int, t: nat)
    requires GridPoint(start, now, 900000)
    ensures t < SlotsFor(v, now, horizon) <==>
            t < horizon && (v.deadlineAt.Some? ==> start + t * 900000 < v.deadlineAt.value)
  {
    StartIs(start, now, CERT_DT_MS);
    if v.deadlineAt.Some? {
      CeilAbove(v.deadlineAt.value - start, CERT_DT_MS, t);
    }
  }

  /** The flat rate the certificate guarantees. */
  function FlatRate(maxKw: real, capKw: Option<real>, othersKw: real): real {
    Limit(maxKw, Residual(capKw, othersKw))
  }

  /** The power the plan is sure to pay: the issued floor, but no more than the nameplate and what the others leave when
      three decimals rounded it up; on an uncapped site the nameplate. */
  function SecuredKw(maxKw: real, capKw: Option<real>, othersKw: real, eps: real): real {
    if capKw.None? then maxKw
    else Min(Min(ToFixed3(FlatRate(maxKw, capKw, othersKw)), maxKw), Max(0.0, capKw.value - HeldKw(othersKw, eps)))
  }

  /** Energy per slot that survives the cut-off. */
  function PaidKwh(kw: real, eps: real): real {
    Kept(kw * CERT_DTH, eps)
  }

  /** The secured power covers the need (up to the cut-off) in the slots before the deadline. */
  predicate Secured(v: Vehicle, capKw: Option<real>, othersKw: real, slots: int, eps: real) {
    Times(PaidKwh(SecuredKw(v.maxKw, capKw, othersKw, eps), eps), slots) + eps >= v.remainingKwh
  }

  /** The finished plan meets every constraint and gives vehicle i all but at most a cut-off of the energy it lacks. */
  ghost predicate ServesInTime(r: Request, i: nat)
    requires r.dtMin > 0 && i < |r.vehicles|
  {
    var p := Prepare(r);
    Good(p, Solve(p)) && Solve(p).need[i] <= r.eps && Sum(Solve(p).x[i]) >= r.vehicles[i].remainingKwh - r.eps
  }

  lemma NeedServes(r: Request, i: nat)
    requires r.Valid() && i < |r.vehicles| && Solve(Prepare(r)).need[i] <= r.eps
    ensures ServesInTime(r, i)
  {
    PrepareValid(r);
    NeedAccounts(Prepare(r), i);
  }

  lemma FlatJudged(u: Subject, residual: Option<real>, intervals: nat, marginKwh: real) returns (k: nat)
    requires u.cell.None? && intervals >= 1
    ensures 1 <= k <= intervals
    ensures var verdict := Judged(u, residual, intervals, marginKwh);
            && verdict.floorKw == ToFixed3(Limit(u.maxKw, residual))
            && (verdict.admitted <==> Times(Limit(u.maxKw, residual) * CERT_DTH, k) >= u.need + marginKwh)
  {
    k := JudgedMeans(u, residual, intervals, marginKwh);
    FlatGuarantee(u, residual, k);
    assert CertRate(u, residual, k - 1) == Limit(u.maxKw, residual);
  }

  /** Without battery state the floor is the flat rate in three decimals. */
  lemma FlatFloor(v: Vehicle, capKw: Option<real>, othersKw: real, now: int, marginKwh: real) returns (k: nat)
    requires !v.KnownBattery()
    ensures 1 <= k <= Intervals(now, v.deadlineAt)
    ensures var verdict := CertifierFor(capKw, now, marginKwh)(v, othersKw);
            var rate := FlatRate(v.maxKw, capKw, othersKw);
            && verdict.floorKw == ToFixed3(rate)
            && (verdict.admitted <==> Times(rate * CERT_DTH, k) >= v.remainingKwh + marginKwh)
  {
    k := FlatJudged(SubjectOf(v), Residual(capKw, othersKw), Intervals(now, v.deadlineAt), marginKwh);
  }

  /** The slots and slot energies of a present vehicle without battery state, on the 15-minute grid. */
  lemma LoadFacts(r: Request, i: nat)
    requires r.Valid() && r.dtMin == DEFAULT_INTERVAL_MIN && i < |r.vehicles|
    requires Staying(r.vehicles[i], r.now) && 0.0 <= r.vehicles[i].certifiedFloorKw
    ensures var l := Prepare(r).loads[i];
            && l.av == 0 <= l.dl == SlotsFor(r.vehicles[i], r.now, r.horizon)
            && (!r.vehicles[i].KnownBattery() ==> l.pack.None?)
            && l.floorKwh == Min(r.vehicles[i].certifiedFloorKw, r.vehicles[i].maxKw) * CERT_DTH >= 0.0
            && l.capKwh == r.vehicles[i].maxKw * CERT_DTH
            && (l.floorKwh > 0.0 ==> l.floored)
            && l.need0 == Max(0.0, r.vehicles[i].remainingKwh)
  {
    assert r.DtH() == CERT_DTH;
    LaterThanStart(r.now, r.vehicles[i].deadlineAt);
  }

  lemma LaterThanStart(now: int, deadlineAt: Option<int>)
    requires deadlineAt.Some? ==> deadlineAt.value > now
    ensures deadlineAt.Some? ==> CeilDiv(deadlineAt.value - GridStart(now, CERT_DT_MS), CERT_DT_MS) >= 0
  {
  }

  lemma LeavesFirst(p: Problem, i: nat, k: nat, g: real)
    requires i < |p.loads| && LeavesAlways(p, i, g)
    ensures LeavesIn(p, i, k, g)
  {
  }

  /** A vehicle is served once what the others leave of its floor covers its need in the slots of its window. */
  lemma ServedByLeft(p: Problem, i: nat, g: real)
    requires p.Valid() && FloorsNonneg(p) && i < |p.loads| && p.loads[i].pack.None?
      && p.loads[i].av == 0 <= p.loads[i].dl
    requires (p.loads[i].floorKwh > 0.0 ==> p.loads[i].floored) && g <= p.loads[i].floorKwh
    requires g > p.eps ==> LeavesAlways(p, i, g)
    requires Times(Kept(g, p.eps), p.loads[i].dl) + p.eps >= p.loads[i].need0
    ensures Solve(p).need[i] <= p.eps
  {
    NameplateTakes(p, i, p.loads[i].dl);
    if g > p.eps {
      LeavesFirst(p, i, p.loads[i].dl, g);
    }
    LeftIsPaid(p, i, p.loads[i].dl, g, Times(Kept(g, p.eps), p.loads[i].dl));
  }

  /** A vehicle ends the plan owed at most a cut-off once the others leave it a power that covers its need. */
  lemma PaidByLeft(r: Request, i: nat, kw: real)
    requires r.Valid() && r.dtMin == DEFAULT_INTERVAL_MIN && i < |r.vehicles| && NonnegFleet(r.vehicles)
    requires FlatVehicle(r.vehicles[i], r.now) && kw <= Min(r.vehicles[i].certifiedFloorKw, r.vehicles[i].maxKw)
    requires kw > 0.0 ==> LeavesAlways(Prepare(r), i, kw * CERT_DTH)
    requires Times(PaidKwh(kw, r.eps), SlotsFor(r.vehicles[i], r.now, r.horizon)) + r.eps >= r.vehicles[i].remainingKwh
    ensures ServesInTime(r, i)
  {
    PrepareValid(r);
    RequestFloorsNonneg(r);
    TimesQuarter(kw, Min(r.vehicles[i].certifiedFloorKw, r.vehicles[i].maxKw));
    LeftCovers(r, i, PaidKwh(kw, r.eps), Max(0.0, r.vehicles[i].remainingKwh));
    ServedByLeft(Prepare(r), i, kw * CERT_DTH);
    NeedServes(r, i);
  }

  /** The load of a vehicle whose need n slots of some energy cover. */
  lemma LeftCovers(r: Request, i: nat, kwh: real, need: real)
    requires r.Valid() && r.dtMin == DEFAULT_INTERVAL_MIN && i < |r.vehicles| && r.vehicles[i].certifiedFloorKw >= 0.0
    requires FlatVehicle(r.vehicles[i], r.now) && kwh >= 0.0 && need == Max(0.0, r.vehicles[i].remainingKwh)
    requires Times(kwh, SlotsFor(r.vehicles[i], r.now, r.horizon)) + r.eps >= r.vehicles[i].remainingKwh
    ensures var l := Prepare(r).loads[i];
            && l.pack.None? && l.av == 0 <= l.dl && l.need0 == need && Times(kwh, l.dl) + r.eps >= need
            && l.floorKwh == Min(r.vehicles[i].certifiedFloorKw, r.vehicles[i].maxKw) * CERT_DTH
            && (l.floorKwh > 0.0 ==> l.floored)
  {
    LoadFacts(r, i);
    TimesMonotone(kwh, 0, Prepare(r).loads[i].dl);
  }

  lemma PaidNonneg(kw: real, eps: real, slots: int)
    requires eps >= 0.0
    ensures Times(PaidKwh(kw, eps), slots) >= 0.0
  {
    TimesMonotone(PaidKwh(kw, eps), 0, if slots >= 0 then slots else 0);
  }
}
