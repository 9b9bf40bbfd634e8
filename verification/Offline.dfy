/** The offline experiments: admission that only counts promises whose charging windows overlap. */
module Offline {
  import opened Reals
  import opened Ordering
  import opened Charging
  import opened Allocator
  import opened Invariants
  import opened Promise
  import opened Certifier
  import opened Controller

  /** A twin vehicle: the planner's record plus its slot window. */
  datatype Guest = Guest(v: Vehicle, arrivalSlot: nat, deadlineSlot: nat)

  datatype Scenario = Scenario(guests: seq<Guest>, siteCapKw: real, gridStart: int, dtMin: int, horizon: nat,
    prices: seq<real>)
  {
    function DtMs(): int {
      dtMin * 60000
    }

    function DtH(): real {
      dtMin as real / 60.0
    }

    /** Windows lie within the horizon, no two guests share a session id or a charge point, every nameplate is legal. */
    ghost predicate Sound() {
      && (forall i :: 0 <= i < |guests| ==> GuestSound(guests[i]))
      && (forall i, j :: 0 <= i < j < |guests| ==>
            guests[i].v.sessionId != guests[j].v.sessionId && guests[i].v.cpId != guests[j].v.cpId)
    }

    ghost predicate GuestSound(g: Guest) {
      g.arrivalSlot <= g.deadlineSlot <= horizon && SoundVehicle(g.v)
    }

    /** Cadence and horizon are ones the solver takes, and the windows are on the grid. */
    ghost predicate OnGrid() {
      && ClampDtMin(dtMin) == dtMin && ClampHorizon(horizon) == horizon && gridStart % DtMs() == 0
      && (forall i :: 0 <= i < |guests| ==> GuestTimed(guests[i]))
    }

    ghost predicate GuestTimed(g: Guest) {
      && g.v.arrivalAt == Some(gridStart + g.arrivalSlot * DtMs())
      && g.v.deadlineAt == Some(gridStart + g.deadlineSlot * DtMs())
    }

    ghost predicate Valid() {
      Sound() && OnGrid()
    }
  }

  predicate Overlap(a: Guest, b: Guest) {
    a.arrivalSlot < b.deadlineSlot && a.deadlineSlot > b.arrivalSlot
  }

  predicate Covers(g: Guest, t: nat) {
    g.arrivalSlot <= t < g.deadlineSlot
  }

  /** The granted floors that compete with guest i. */
  function OverlapTerms(sc: Scenario, floors: seq<real>, i: nat): seq<real>
    requires |floors| == |sc.guests| && i < |floors|
  {
    seq(|floors|, o requires 0 <= o < |floors| =>
      if o != i && floors[o] > 0.0 && Overlap(sc.guests[o], sc.guests[i]) then floors[o] else 0.0)
  }

  function OverlapKw(sc: Scenario, floors: seq<real>, i: nat): real
    requires |floors| == |sc.guests| && i < |floors|
  {
    Sum(OverlapTerms(sc, floors, i))
  }

  function Granted(verdict: Verdict): real {
    if verdict.admitted then verdict.floorKw else 0.0
  }

  ghost predicate InFleet(sc: Scenario, order: seq<nat>) {
    forall k :: 0 <= k < |order| ==> order[k] < |sc.guests|
  }

  function Admit(sc: Scenario, order: seq<nat>, judge: Judge, k: nat): (floors: seq<real>)
    requires InFleet(sc, order) && k <= |order|
    ensures |floors| == |sc.guests|
  {
    if k == 0 then seq(|sc.guests|, _ => 0.0)
    else
      var floors := Admit(sc, order, judge, k - 1);
      var i := order[k - 1];
      floors[i := Granted(judge(sc.guests[i].v, OverlapKw(sc, floors, i)))]
  }

  function GuestKeys(sc: Scenario): (keys: seq<Key>)
    ensures |keys| == |sc.guests|
  {
    seq(|sc.guests|, i requires 0 <= i < |sc.guests| => (0.0, sc.guests[i].v.sessionId))
  }

  function GuestOrder(sc: Scenario): (order: seq<nat>)
    ensures InFleet(sc, order)
  {
    SortBy(GuestKeys(sc), Upto(|sc.guests|))
  }

  function AllFloors(sc: Scenario, judge: Judge): (floors: seq<real>)
    ensures |floors| == |sc.guests|
  {
    Admit(sc, GuestOrder(sc), judge, |GuestOrder(sc)|)
  }

  /** Floors granted so far to guests whose windows overlap guest i's. */
  method Contention(sc: Scenario, floors: seq<real>, i: nat) returns (kw: real)
    requires |floors| == |sc.guests| && i < |floors|
    ensures kw == OverlapKw(sc, floors, i)
  {
    kw := 0.0;
    ghost var terms := OverlapTerms(sc, floors, i);
    for o := 0 to |sc.guests|
      invariant kw == Sum(terms[..o])
    {
      assert terms[..o + 1] == terms[..o] + [terms[o]];
      SumPush(terms[..o], terms[o]);
      if o != i && floors[o] > 0.0 && Overlap(sc.guests[o], sc.guests[i]) {
        kw := kw + floors[o];
      }
    }
    assert terms[..|sc.guests|] == terms;
  }

  /** The admission loop of certifyAndSchedule. */
  method GrantFloors(sc: Scenario, usableKw: real, marginKwh: real) returns (floors: seq<real>)
    ensures floors == AllFloors(sc, CertifierFor(Some(usableKw), sc.gridStart, marginKwh))
  {
    ghost var judge := CertifierFor(Some(usableKw), sc.gridStart, marginKwh);
    var order := GuestOrder(sc);
    floors := seq(|sc.guests|, _ => 0.0);
    for k := 0 to |order|
      invariant floors == Admit(sc, order, judge, k)
    {
      var v := sc.guests[order[k]].v;
      var overlappingKw := Contention(sc, floors, order[k]);
      var verdict := CertifyVehicle(v, Some(usableKw), overlappingKw, sc.gridStart, v.deadlineAt, marginKwh);
      assert verdict == judge(v, overlappingKw);
      floors := floors[order[k] := if verdict.admitted then verdict.floorKw else 0.0];
    }
  }

  // ---- who is granted what ----

  /** Two charging windows share a slot exactly when they overlap (windows of no slot share none). */
  lemma OverlapShares(a: Guest, b: Guest)
    requires a.arrivalSlot < a.deadlineSlot && b.arrivalSlot < b.deadlineSlot
    ensures Overlap(a, b) <==> exists t: nat :: InBoth(a, b, t)
  {
    if Overlap(a, b) {
      assert InBoth(a, b, if a.arrivalSlot >= b.arrivalSlot then a.arrivalSlot else b.arrivalSlot);
    }
  }

  ghost predicate InBoth(a: Guest, b: Guest, t: nat) {
    a.arrivalSlot <= t < a.deadlineSlot && b.arrivalSlot <= t < b.deadlineSlot
  }

  /** The floors of the guests of lower session id whose windows meet guest i's. */
  ghost function EarlierFloors(sc: Scenario, floors: seq<real>, i: nat): seq<real>
    requires |floors| == |sc.guests| && i < |floors|
  {
    seq(|floors|, o requires 0 <= o < |floors| =>
      if sc.guests[o].v.sessionId < sc.guests[i].v.sessionId && floors[o] > 0.0
        && sc.guests[o].arrivalSlot < sc.guests[i].deadlineSlot && sc.guests[i].arrivalSlot < sc.guests[o].deadlineSlot
      then floors[o] else 0.0)
  }

  ghost predicate DistinctGuests(sc: Scenario) {
    forall i, j :: 0 <= i < j < |sc.guests| ==> sc.guests[i].v.sessionId != sc.guests[j].v.sessionId
  }

  lemma GuestPosition(sc: Scenario, i: nat) returns (k: nat)
    requires i < |sc.guests|
    ensures k < |GuestOrder(sc)| && GuestOrder(sc)[k] == i && Distinct(GuestOrder(sc))
  {
    SortIsPermutation(GuestKeys(sc), |sc.guests|);
    assert i in GuestOrder(sc);
    k :| 0 <= k < |GuestOrder(sc)| && GuestOrder(sc)[k] == i;
  }

  lemma GuestTurns(sc: Scenario, i: nat, o: nat) returns (j: nat, q: nat)
    requires DistinctGuests(sc) && i < |sc.guests| && o < |sc.guests|
    ensures Distinct(GuestOrder(sc)) && j < |GuestOrder(sc)| && q < |GuestOrder(sc)|
    ensures GuestOrder(sc)[j] == i && GuestOrder(sc)[q] == o
    ensures q < j <==> sc.guests[o].v.sessionId < sc.guests[i].v.sessionId
  {
    var keys := GuestKeys(sc);
    j := GuestPosition(sc, i);
    q := GuestPosition(sc, o);
    SortBySorts(keys, Upto(|sc.guests|));
    if q < j {
      assert Before(keys[o], keys[i]) && sc.guests[o].v.sessionId != sc.guests[i].v.sessionId;
    } else if j < q {
      assert Before(keys[i], keys[o]);
    }
  }

  lemma {:induction false} AdmitSettled(sc: Scenario, order: seq<nat>, judge: Judge, q: nat, k: nat)
    requires InFleet(sc, order) && Distinct(order) && q < k <= |order|
    ensures Admit(sc, order, judge, k)[order[q]] == Admit(sc, order, judge, q + 1)[order[q]]
    decreases k
  {
    if q + 1 < k {
      AdmitSettled(sc, order, judge, q, k - 1);
    }
  }

  lemma FloorAtTurn(sc: Scenario, judge: Judge, i: nat, j: nat, o: nat)
    requires DistinctGuests(sc) && i < |sc.guests| && o < |sc.guests|
    requires Distinct(GuestOrder(sc)) && j < |GuestOrder(sc)| && GuestOrder(sc)[j] == i
    ensures OverlapTerms(sc, Admit(sc, GuestOrder(sc), judge, j), i)[o] == EarlierFloors(sc, AllFloors(sc, judge), i)[o]
  {
    var order := GuestOrder(sc);
    var k, q := GuestTurns(sc, i, o);
    assert k == j;
    if q < j {
      AdmitSettled(sc, order, judge, q, j);
      AdmitSettled(sc, order, judge, q, |order|);
    } else {
      AdmitWaiting(sc, order, judge, j);
    }
  }

  /** Every guest is judged once, on its own record and on what the guests before it whose windows meet its own were
      granted, and gets the floor of that verdict, or nothing. */
  lemma GrantIs(sc: Scenario, judge: Judge, i: nat)
    requires DistinctGuests(sc) && i < |sc.guests|
    ensures var floors := AllFloors(sc, judge);
            var verdict := judge(sc.guests[i].v, Sum(EarlierFloors(sc, floors, i)));
            floors[i] == if verdict.admitted then verdict.floorKw else 0.0
  {
    var order, floors := GuestOrder(sc), AllFloors(sc, judge);
    var j, q := GuestTurns(sc, i, i);
    var m := Admit(sc, order, judge, j);
    AdmitSettled(sc, order, judge, j, |order|);
    forall o | 0 <= o < |floors| ensures OverlapTerms(sc, m, i)[o] == EarlierFloors(sc, floors, i)[o] {
      FloorAtTurn(sc, judge, i, j, o);
    }
    assert OverlapTerms(sc, m, i) == EarlierFloors(sc, floors, i);
  }

  // ---- at every slot the promises fit ----

  function CoverTerms(sc: Scenario, floors: seq<real>, t: nat): seq<real>
    requires |floors| == |sc.guests|
  {
    seq(|floors|, o requires 0 <= o < |floors| => if Covers(sc.guests[o], t) then floors[o] else 0.0)
  }

  /** In every slot the floors of the guests plugged in fit under the cap. */
  ghost predicate Coverable(sc: Scenario, floors: seq<real>, usableKw: real)
    requires |floors| == |sc.guests|
  {
    && (forall o :: 0 <= o < |floors| ==> floors[o] >= 0.0)
    && (forall t: nat :: Sum(CoverTerms(sc, floors, t)) <= usableKw)
  }

  /** One admission keeps every slot coverable: whoever covers a slot together with guest i overlaps guest i. */
  lemma AdmitOne(sc: Scenario, floors: seq<real>, g: seq<real>, i: nat, usableKw: real, t: nat)
    requires |floors| == |sc.guests| && i < |floors| && floors[i] == 0.0 && |g| == |floors| && g == floors[i := g[i]]
    requires (forall o :: 0 <= o < |floors| ==> floors[o] >= 0.0) && Sum(CoverTerms(sc, floors, t)) <= usableKw
    requires 0.0 <= g[i] <= Max(0.0, usableKw - OverlapKw(sc, floors, i))
    ensures Sum(CoverTerms(sc, g, t)) <= usableKw
  {
    var terms := CoverTerms(sc, floors, t);
    if Covers(sc.guests[i], t) {
      assert CoverTerms(sc, g, t) == terms[i := g[i]];
      SumUpdate(terms, i, g[i]);
      SumMono(terms, OverlapTerms(sc, floors, i));
    } else {
      assert CoverTerms(sc, g, t) == terms;
    }
  }

  ghost predicate WholeFloors(floors: seq<real>) {
    forall o :: 0 <= o < |floors| ==> WholeWatts(floors[o])
  }

  lemma OverlapWhole(sc: Scenario, floors: seq<real>, i: nat)
    requires |floors| == |sc.guests| && i < |floors| && WholeFloors(floors)
    ensures WholeWatts(OverlapKw(sc, floors, i))
  {
    assert 0.0 == Watts(0);
    SumWholeWatts(OverlapTerms(sc, floors, i));
  }

  /** Guests from position k on have no floor yet. */
  ghost predicate Waiting(floors: seq<real>, order: seq<nat>, k: nat) {
    forall j :: k <= j < |order| && order[j] < |floors| ==> floors[order[j]] == 0.0
  }

  lemma {:induction false} AdmitWaiting(sc: Scenario, order: seq<nat>, judge: Judge, k: nat)
    requires InFleet(sc, order) && Distinct(order) && k <= |order|
    ensures Waiting(Admit(sc, order, judge, k), order, k)
    decreases k
  {
    if k > 0 {
      AdmitWaiting(sc, order, judge, k - 1);
    }
  }

  /** A judge that grants whole watts, none of them negative. */
  ghost predicate WholeJudge(judge: Judge) {
    forall v, othersKw :: SoundVehicle(v) ==>
      judge(v, othersKw).floorKw >= 0.0 && WholeWatts(judge(v, othersKw).floorKw)
  }

  lemma CertifierWhole(capKw: Option<real>, now: int, marginKwh: real)
    ensures WholeJudge(CertifierFor(capKw, now, marginKwh))
  {
    var judge := CertifierFor(capKw, now, marginKwh);
    forall v, othersKw | SoundVehicle(v)
      ensures judge(v, othersKw).floorKw >= 0.0 && WholeWatts(judge(v, othersKw).floorKw)
    {
      GrantNonneg(v, capKw, othersKw, now, marginKwh);
    }
  }

  /** Whatever the cap is, granted floors are whole watts and not negative. */
  lemma {:induction false} AdmitWhole(sc: Scenario, order: seq<nat>, judge: Judge, k: nat)
    requires sc.Sound() && InFleet(sc, order) && k <= |order| && WholeJudge(judge)
    ensures var floors := Admit(sc, order, judge, k);
            WholeFloors(floors) && forall o :: 0 <= o < |floors| ==> floors[o] >= 0.0
    decreases k
  {
    assert 0.0 == Watts(0);
    if k > 0 {
      AdmitWhole(sc, order, judge, k - 1);
      assert sc.GuestSound(sc.guests[order[k - 1]]);
    }
  }

  /** In slot t the promises fit under the cap. */
  ghost predicate CoveredAt(sc: Scenario, floors: seq<real>, usableKw: real, t: nat)
    requires |floors| == |sc.guests|
  {
    Sum(CoverTerms(sc, floors, t)) <= usableKw
  }

  /** One admission, by a judge that grants no more than what is left. */
  lemma AdmitTurn(sc: Scenario, floors: seq<real>, i: nat, usableKw: real, judge: Judge, t: nat) returns (g: seq<real>)
    requires sc.Sound() && |floors| == |sc.guests| && i < |floors| && floors[i] == 0.0 && WholeFloors(floors)
    requires (forall o :: 0 <= o < |floors| ==> floors[o] >= 0.0) && CoveredAt(sc, floors, usableKw, t)
    requires Prudent(judge, Some(usableKw))
    ensures g == floors[i := Granted(judge(sc.guests[i].v, OverlapKw(sc, floors, i)))]
    ensures WholeFloors(g) && (forall o :: 0 <= o < |g| ==> g[o] >= 0.0) && CoveredAt(sc, g, usableKw, t)
  {
    assert 0.0 == Watts(0);
    OverlapWhole(sc, floors, i);
    assert sc.GuestSound(sc.guests[i]);
    var verdict := judge(sc.guests[i].v, OverlapKw(sc, floors, i));
    assert Affordable(verdict.floorKw, Some(usableKw), OverlapKw(sc, floors, i));
    g := floors[i := Granted(verdict)];
    AdmitOne(sc, floors, g, i, usableKw, t);
  }

  lemma {:induction false} AdmitKeeps(sc: Scenario, order: seq<nat>, usableKw: real, judge: Judge, k: nat, t: nat)
    returns (floors: seq<real>)
    requires sc.Sound() && InFleet(sc, order) && Distinct(order) && k <= |order|
    requires usableKw >= 0.0 && Prudent(judge, Some(usableKw))
    ensures floors == Admit(sc, order, judge, k) && WholeFloors(floors)
      && forall o :: 0 <= o < |floors| ==> floors[o] >= 0.0
    ensures CoveredAt(sc, floors, usableKw, t)
    decreases k
  {
    if k == 0 {
      floors := Admit(sc, order, judge, 0);
      assert 0.0 == Watts(0);
      SumZero(CoverTerms(sc, floors, t));
    } else {
      floors := AdmitKeeps(sc, order, usableKw, judge, k - 1, t);
      AdmitWaiting(sc, order, judge, k - 1);
      floors := AdmitTurn(sc, floors, order[k - 1], usableKw, judge, t);
    }
  }

  /** The floors of a scenario under a usable cap. */
  function ScenarioFloors(sc: Scenario, usableKw: real, marginKwh: real): (floors: seq<real>)
    ensures |floors| == |sc.guests|
  {
    AllFloors(sc, CertifierFor(Some(usableKw), sc.gridStart, marginKwh))
  }

  /** A cap that three decimals do not round up is never oversubscribed. */
  lemma PromisesFitEverySlot(sc: Scenario, usableKw: real, marginKwh: real)
    requires sc.Sound() && usableKw >= 0.0 && RoundsDown(usableKw)
    ensures Coverable(sc, ScenarioFloors(sc, usableKw, marginKwh), usableKw)
  {
    var judge := CertifierFor(Some(usableKw), sc.gridStart, marginKwh);
    var order := GuestOrder(sc);
    CertifierPrudent(Some(usableKw), sc.gridStart, marginKwh);
    CertifierWhole(Some(usableKw), sc.gridStart, marginKwh);
    SortIsPermutation(GuestKeys(sc), |sc.guests|);
    AdmitWhole(sc, order, judge, |order|);
    forall t: nat ensures Sum(CoverTerms(sc, AllFloors(sc, judge), t)) <= usableKw {
      var floors := AdmitKeeps(sc, order, usableKw, judge, |order|, t);
    }
  }

  // ---- a single guest ----

  /** What a lone guest can draw: its nameplate, or the cap. */
  function LoneKw(usableKw: real, maxKw: real): real {
    Min(maxKw, usableKw)
  }

  /** One guest on a 15-minute grid, plugged in for slot `slot`, who needs exactly what it can draw by the end of it. */
  function LoneGuest(usableKw: real, maxKw: real, slot: nat): Scenario {
    Scenario([Guest(Vehicle(1, 1, maxKw, Times(LoneKw(usableKw, maxKw) * CERT_DTH, slot + 1), 0.0,
                            Some(slot * CERT_DT_MS), Some((slot + 1) * CERT_DT_MS), None, None, None), slot, slot + 1)],
             usableKw, 0, DEFAULT_INTERVAL_MIN, 2, [])
  }

  lemma LoneGuestValid(usableKw: real, maxKw: real, slot: nat)
    requires usableKw >= 0.0 && maxKw >= 0.0 && slot <= 1
    ensures LoneGuest(usableKw, maxKw, slot).Valid()
  {
    var sc := LoneGuest(usableKw, maxKw, slot);
    assert sc.DtMs() == CERT_DT_MS;
    assert sc.GuestSound(sc.guests[0]) && sc.GuestTimed(sc.guests[0]);
  }

  /** The certificate counts the intervals from the start of the grid, and the guest is promised all it can draw. */
  lemma LoneGuestFloor(usableKw: real, maxKw: real, slot: nat)
    requires usableKw >= 0.0 && maxKw >= 0.0 && slot <= 1
    ensures ScenarioFloors(LoneGuest(usableKw, maxKw, slot), usableKw, 0.0) == [ToFixed3(LoneKw(usableKw, maxKw))]
  {
    var sc := LoneGuest(usableKw, maxKw, slot);
    var judge := CertifierFor(Some(usableKw), 0, 0.0);
    SortIsPermutation(GuestKeys(sc), 1);
    assert 0 in GuestOrder(sc);
    assert GuestOrder(sc) == [0];
    assert Admit(sc, [0], judge, 0) == [0.0];
    assert OverlapTerms(sc, [0.0], 0) == [0.0];
    assert OverlapKw(sc, [0.0], 0) == Sum([]) + 0.0;
    BriefVerdict(sc.guests[0].v, usableKw, 0.0, slot, LoneKw(usableKw, maxKw));
    assert Admit(sc, [0], judge, 1) == [0.0][0 := Granted(judge(sc.guests[0].v, 0.0))];
  }

  /** The verdict on a vehicle of unknown battery state that needs exactly its guarantee. */
  lemma BriefVerdict(v: Vehicle, usableKw: real, othersKw: real, slot: nat, kw: real)
    requires !v.KnownBattery() && v.deadlineAt == Some((slot + 1) * CERT_DT_MS)
    requires v.remainingKwh == Times(kw * CERT_DTH, slot + 1)
    requires v.maxKw >= 0.0 && kw == Min(v.maxKw, Max(0.0, usableKw - othersKw))
    ensures var verdict := CertifierFor(Some(usableKw), 0, 0.0)(v, othersKw);
            verdict.admitted && verdict.floorKw == ToFixed3(kw)
  {
    var u, residual := SubjectOf(v), Residual(Some(usableKw), othersKw);
    Cancel(slot + 1, CERT_DT_MS);
    assert Intervals(0, v.deadlineAt) == slot + 1;
    var k := JudgedMeans(u, residual, slot + 1, 0.0);
    FlatGuarantee(u, residual, slot + 1);
    AdmittedIff(v, Some(usableKw), othersKw, 0, v.deadlineAt, 0.0);
    assert CertRate(u, residual, k - 1) == kw;
  }

  ghost predicate AlwaysCoverable(usableKw: real) {
    forall sc: Scenario, marginKwh :: sc.Valid() ==> Coverable(sc, ScenarioFloors(sc, usableKw, marginKwh), usableKw)
  }

  /** In every scenario every slot's promises fit under the usable cap exactly when three decimals do not round the cap
      up. */
  lemma PromisesFitIff(usableKw: real)
    requires usableKw >= 0.0
    ensures RoundsDown(usableKw) <==> AlwaysCoverable(usableKw)
  {
    if RoundsDown(usableKw) {
      forall sc: Scenario, marginKwh | sc.Valid()
        ensures Coverable(sc, ScenarioFloors(sc, usableKw, marginKwh), usableKw) {
        PromisesFitEverySlot(sc, usableKw, marginKwh);
      }
    } else {
      var sc := LoneGuest(usableKw, usableKw, 0);
      LoneGuestValid(usableKw, usableKw, 0);
      LoneGuestFloor(usableKw, usableKw, 0);
      var floors := ScenarioFloors(sc, usableKw, 0.0);
      assert CoverTerms(sc, floors, 0) == [ToFixed3(usableKw)];
      assert Sum([ToFixed3(usableKw)]) == Sum([]) + ToFixed3(usableKw);
    }
  }

  // ---- what a guest holds on its turn ----

  /** Guest i's turn: its floor is the verdict's, and every earlier session has its final floor by then. */
  lemma GuestTurn(sc: Scenario, i: nat, judge: Judge) returns (held: seq<real>)
    requires sc.Sound() && i < |sc.guests| && WholeJudge(judge)
    ensures |held| == |sc.guests| && WholeFloors(held) && forall o :: 0 <= o < |held| ==> held[o] >= 0.0
    ensures AllFloors(sc, judge)[i] == Granted(judge(sc.guests[i].v, OverlapKw(sc, held, i)))
    ensures forall o :: 0 <= o < |held| && sc.guests[o].v.sessionId < sc.guests[i].v.sessionId ==>
              AllFloors(sc, judge)[o] == held[o]
  {
    var order := GuestOrder(sc);
    var k := GuestPosition(sc, i);
    held := Admit(sc, order, judge, k);
    AdmitWhole(sc, order, judge, k);
    AdmitSettled(sc, order, judge, k, |order|);
    forall o | 0 <= o < |held| && sc.guests[o].v.sessionId < sc.guests[i].v.sessionId
      ensures AllFloors(sc, judge)[o] == held[o]
    {
      EarlierSettled(sc, i, o, judge, k);
    }
  }

  lemma EarlierSettled(sc: Scenario, i: nat, o: nat, judge: Judge, k: nat)
    requires i < |sc.guests| && o < |sc.guests| && sc.guests[o].v.sessionId < sc.guests[i].v.sessionId
    requires k < |GuestOrder(sc)| && GuestOrder(sc)[k] == i
    ensures AllFloors(sc, judge)[o] == Admit(sc, GuestOrder(sc), judge, k)[o]
  {
    var order := GuestOrder(sc);
    var q := GuestPosition(sc, o);
    SortBySorts(GuestKeys(sc), Upto(|sc.guests|));
    SortedAfter(GuestKeys(sc), order, k, q);
    AdmitSettled(sc, order, judge, q, k);
    AdmitSettled(sc, order, judge, q, |order|);
  }
}
