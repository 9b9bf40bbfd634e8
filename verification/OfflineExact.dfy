/** Exactly when the schedule after overlap-aware admission pays a guest the whole floor it was granted. */
module OfflineExact {
  import opened Reals
  import opened Ordering
  import opened Charging
  import opened Allocator
  import opened Invariants
  import opened Promise
  import opened Certifier
  import opened Controller
  import opened Offline
  import opened OfflinePlan

  /** The schedule pays guest i the floor it was granted in every slot of its window, or its need. */
  ghost predicate PaidInFull(sc: Scenario, usableKw: real, marginKwh: real, eps: real, tiny: real, i: nat)
    requires i < |sc.guests|
  {
    Pays(Scheduled(sc, usableKw, marginKwh, eps, tiny), i,
         Kwh(ScenarioFloors(sc, usableKw, marginKwh)[i], sc.DtH()))
  }

  /** Every guest on this nameplate is, in every scenario under this cap. */
  ghost predicate AlwaysPaidInFull(usableKw: real, maxKw: real, eps: real, tiny: real) {
    forall sc: Scenario, marginKwh, i :: sc.Valid() && 0 <= i < |sc.guests| && sc.guests[i].v.maxKw == maxKw ==>
      PaidInFull(sc, usableKw, marginKwh, eps, tiny, i)
  }

  // ---- a row of two slots whose window is the second ----

  lemma TwoEntries(row: seq<real>)
    requires |row| == 2
    ensures Sum(row) == row[0] + row[1]
  {
    assert row == [row[0]] + [row[1]] && [row[0]] == [] + [row[0]];
    SumPush([], row[0]);
    SumPush([row[0]], row[1]);
  }

  /** The load of a guest that is there for the second slot only, on a charge point of its own. */
  ghost predicate Second(p: Problem, i: nat) {
    && p.Valid() && i < |p.loads| && p.horizon == 2 && p.loads[i].av == 1 && p.loads[i].dl == 2
    && p.loads[i].cpId in p.cpKwh && p.cpKwh[p.loads[i].cpId] == p.loads[i].capKwh
  }

  lemma SecondRow(p: Problem, s: State, i: nat)
    requires Second(p, i) && Good(p, s)
    ensures Sum(s.x[i]) == s.x[i][1] <= p.loads[i].capKwh
  {
    assert RowGood(p, s, i);
    TwoEntries(s.x[i]);
    assert Fits(p, s, 1);
    forall o | 0 <= o < |p.loads| ensures CpCol(p, s, p.loads[i].cpId, 1)[o] >= 0.0 {
      assert RowGood(p, s, o);
    }
    SumPick(CpCol(p, s, p.loads[i].cpId, 1), i);
  }

  /** It needs two slots of a power that one slot cannot raise to its floor. */
  ghost predicate Strained(p: Problem, i: nat, kw: real, floorKw: real) {
    && i < |p.loads| && p.loads[i].need0 == Times(kw * CERT_DTH, 2) && p.eps < 0.000125
    && 0.0005 <= kw < floorKw <= kw + 0.0005
  }

  lemma SlotTooShort(p: Problem, i: nat, kw: real, floorKw: real)
    requires Second(p, i) && Strained(p, i, kw, floorKw) && Solve(p).x[i][1] <= kw * CERT_DTH
    ensures Sum(Solve(p).x[i]) <= kw * CERT_DTH < Min(p.loads[i].need0 - p.eps, floorKw * CERT_DTH)
    ensures !Pays(p, i, Kwh(floorKw, CERT_DTH))
  {
    SolveGood(p);
    SecondRow(p, Solve(p), i);
    assert Times(kw * CERT_DTH, 2) == 2.0 * (kw * CERT_DTH);
  }

  lemma PosedSecond(sc: Scenario, p: Problem, floors: seq<real>, usableKw: real, i: nat)
    requires sc.Sound() && |floors| == |sc.guests| && i < |floors| && Poses(sc, p, floors, usableKw, CERT_DTH)
    requires sc.horizon == 2 && sc.guests[i].arrivalSlot == 1 && sc.guests[i].deadlineSlot == 2
    ensures Second(p, i) && p.loads[i].capKwh == Kwh(sc.guests[i].v.maxKw, CERT_DTH)
    ensures p.loads[i].need0 == Max(0.0, sc.guests[i].v.remainingKwh)
  {
    assert Reads(sc, p.loads[i], floors[i], CERT_DTH, i);
    PointFree(sc, p, floors, usableKw, CERT_DTH, i, 1);
  }

  // ---- one guest ----

  lemma LoneSite(p: Problem, s: State)
    requires p.Valid() && |p.loads| == 1 && p.horizon == 2 && p.siteKwh.Some? && Good(p, s)
    ensures s.x[0][1] <= p.siteKwh.value
  {
    assert Fits(p, s, 1);
    assert Col(s.x, 2, 1) == [] + [s.x[0][1]];
    SumPush([], s.x[0][1]);
  }

  lemma LonePosed(p: Problem, usableKw: real, maxKw: real)
    requires usableKw >= 0.0 && maxKw >= 0.0 && p.eps < 0.000125
    requires var kw := LoneKw(usableKw, maxKw);
             0.0005 <= kw < ToFixed3(kw) <= kw + 0.0005
             && Poses(LoneGuest(usableKw, maxKw, 1), p, [ToFixed3(kw)], usableKw, CERT_DTH)
    ensures !Pays(p, 0, Kwh(ToFixed3(LoneKw(usableKw, maxKw)), CERT_DTH))
    ensures Sum(Solve(p).x[0]) <= LoneKw(usableKw, maxKw) * CERT_DTH
  {
    var kw := LoneKw(usableKw, maxKw);
    var sc := LoneGuest(usableKw, maxKw, 1);
    LoneGuestValid(usableKw, maxKw, 1);
    PosedSecond(sc, p, [ToFixed3(kw)], usableKw, 0);
    TimesMonotone(kw * CERT_DTH, 0, 2);
    SolveGood(p);
    SecondRow(p, Solve(p), 0);
    LoneSite(p, Solve(p));
    SlotTooShort(p, 0, kw, ToFixed3(kw));
  }

  lemma RoundedUp(kw: real)
    requires kw >= 0.0 && !RoundsDown(kw)
    ensures 0.0005 <= kw < ToFixed3(kw) <= kw + 0.0005
  {
    NearRate(kw);
    ToFixedWatts(kw);
    if kw < 0.0005 {
      TinyRate(kw);
    }
  }

  /** A guest alone on the site whose power three decimals round up is left short of its floor. */
  lemma LoneGuestShort(usableKw: real, maxKw: real, eps: real, tiny: real)
    requires usableKw >= 0.0 && maxKw >= 0.0 && !RoundsDown(LoneKw(usableKw, maxKw)) && 0.0 <= tiny <= eps < 0.000125
    ensures !PaidInFull(LoneGuest(usableKw, maxKw, 1), usableKw, 0.0, eps, tiny, 0)
    ensures Sum(Solve(Scheduled(LoneGuest(usableKw, maxKw, 1), usableKw, 0.0, eps, tiny)).x[0])
            <= LoneKw(usableKw, maxKw) * CERT_DTH
  {
    var sc := LoneGuest(usableKw, maxKw, 1);
    LoneGuestValid(usableKw, maxKw, 1);
    LoneGuestFloor(usableKw, maxKw, 1);
    RoundedUp(LoneKw(usableKw, maxKw));
    ScheduledPoses(sc, usableKw, 0.0, eps, tiny);
    LonePosed(Scheduled(sc, usableKw, 0.0, eps, tiny), usableKw, maxKw);
  }

  /** For instance a 7.4375 kW nameplate under a cap of 10 kW: promised 7.438 kW, given 1.859375 kWh of 1.8595. */
  lemma RoundedPlateFails(eps: real, tiny: real)
    requires 0.0 <= tiny <= eps < 0.000125
    ensures RoundsDown(10.0) && ScenarioFloors(LoneGuest(10.0, 7.4375, 1), 10.0, 0.0) == [7.438]
    ensures Sum(Solve(Scheduled(LoneGuest(10.0, 7.4375, 1), 10.0, 0.0, eps, tiny)).x[0]) <= 1.859375
    ensures !PaidInFull(LoneGuest(10.0, 7.4375, 1), 10.0, 0.0, eps, tiny, 0)
  {
    assert RoundHalfUp(7437.5) == 7438 && RoundHalfUp(10000.0) == 10000;
    assert ToFixed3(7.4375) == 7.438 && ToFixed3(10.0) == 10.0;
    LoneGuestFloor(10.0, 7.4375, 1);
    LoneGuestShort(10.0, 7.4375, eps, tiny);
  }

  // ---- two guests ----

  /** A guest there for the second slot of two, who needs two slots of kw. */
  function Dusk(id: int, maxKw: real, kw: real): Guest {
    Guest(Vehicle(id, id, maxKw, Times(kw * CERT_DTH, 2), 0.0, Some(CERT_DT_MS), Some(2 * CERT_DT_MS), None,
      None, None),
          1, 2)
  }

  /** The first is promised whole watts; the second gets the rest of the cap. */
  function Pair(usableKw: real, firstKw: real, maxKw: real): Scenario {
    Scenario([Dusk(1, firstKw, firstKw), Dusk(2, maxKw, usableKw - firstKw)], usableKw, 0, DEFAULT_INTERVAL_MIN, 2, [])
  }

  ghost predicate Pairable(usableKw: real, firstKw: real, maxKw: real) {
    0.0 <= firstKw <= usableKw && WholeWatts(firstKw) && usableKw - firstKw <= maxKw
  }

  lemma PairValid(usableKw: real, firstKw: real, maxKw: real)
    requires Pairable(usableKw, firstKw, maxKw)
    ensures Pair(usableKw, firstKw, maxKw).Valid()
  {
    var sc := Pair(usableKw, firstKw, maxKw);
    assert sc.DtMs() == CERT_DT_MS;
    assert sc.GuestSound(sc.guests[0]) && sc.GuestTimed(sc.guests[0]);
    assert sc.GuestSound(sc.guests[1]) && sc.GuestTimed(sc.guests[1]);
  }

  lemma PairOverlap(sc: Scenario, a: real)
    requires |sc.guests| == 2 && a >= 0.0 && Overlap(sc.guests[0], sc.guests[1])
    ensures OverlapKw(sc, [0.0, 0.0], 0) == 0.0 && OverlapKw(sc, [a, 0.0], 1) == a
  {
    TwoEntries(OverlapTerms(sc, [0.0, 0.0], 0));
    TwoEntries(OverlapTerms(sc, [a, 0.0], 1));
  }

  lemma PairFloors(usableKw: real, firstKw: real, maxKw: real)
    requires Pairable(usableKw, firstKw, maxKw)
    ensures ScenarioFloors(Pair(usableKw, firstKw, maxKw), usableKw, 0.0) == [firstKw, ToFixed3(usableKw - firstKw)]
  {
    var sc := Pair(usableKw, firstKw, maxKw);
    var judge := CertifierFor(Some(usableKw), 0, 0.0);
    PairOrder(GuestKeys(sc));
    PairOverlap(sc, firstKw);
    assert Admit(sc, [0, 1], judge, 0) == [0.0, 0.0];
    BriefVerdict(sc.guests[0].v, usableKw, 0.0, 1, firstKw);
    WholeWattsExact(firstKw);
    assert Admit(sc, [0, 1], judge, 1) == [firstKw, 0.0];
    BriefVerdict(sc.guests[1].v, usableKw, firstKw, 1, usableKw - firstKw);
    assert Admit(sc, [0, 1], judge, 2) == [firstKw, 0.0][1 := ToFixed3(usableKw - firstKw)];
  }

  lemma PairSite(p: Problem, s: State)
    requires p.Valid() && |p.loads| == 2 && p.horizon == 2 && p.siteKwh.Some? && Good(p, s)
    ensures s.x[0][1] + s.x[1][1] <= p.siteKwh.value
  {
    assert Fits(p, s, 1);
    assert Col(s.x, 2, 1) == [s.x[0][1], s.x[1][1]];
    TwoEntries(Col(s.x, 2, 1));
  }

  /** A whole watt for a quarter of an hour is more than the cut-off. */
  lemma SlotOrNothing(kw: real, eps: real)
    requires kw >= 0.0 && WholeWatts(kw) && 0.0 <= eps < 0.000125
    ensures Min(Times(kw * CERT_DTH, 2) - eps, Times(Kept(Kwh(kw, CERT_DTH), eps), 1)) >= kw * CERT_DTH
            || kw == 0.0
  {
    var n :| kw == Watts(n);
    assert Times(kw * CERT_DTH, 2) == 2.0 * (kw * CERT_DTH);
  }

  /** The first guest is sure of its floor. */
  lemma FirstSure(p: Problem, usableKw: real, firstKw: real, maxKw: real, floorKw: real)
    requires Pairable(usableKw, firstKw, maxKw) && floorKw >= 0.0
    requires Poses(Pair(usableKw, firstKw, maxKw), p, [firstKw, floorKw], usableKw, CERT_DTH)
    ensures 0 < |p.loads| && Pays(p, 0, Kwh(firstKw, CERT_DTH))
  {
    var sc, floors, held := Pair(usableKw, firstKw, maxKw), [firstKw, floorKw], [0.0, 0.0];
    PairValid(usableKw, firstKw, maxKw);
    PairOverlap(sc, firstKw);
    SurePaid(sc, p, floors, held, usableKw, CERT_DTH, 0);
    assert SureKw(sc, floors, held, usableKw, 0) == firstKw;
  }

  /** So its slot carries the floor. */
  lemma FirstSlot(p: Problem, kw: real)
    requires Second(p, 0) && p.loads[0].need0 == Times(kw * CERT_DTH, 2) && p.eps < 0.000125
    requires kw >= 0.0 && WholeWatts(kw) && Pays(p, 0, Kwh(kw, CERT_DTH))
    ensures Solve(p).x[0][1] >= kw * CERT_DTH
  {
    SolveGood(p);
    SecondRow(p, Solve(p), 0);
    assert RowGood(p, Solve(p), 0);
    SlotOrNothing(kw, p.eps);
  }

  lemma FirstPaid(p: Problem, usableKw: real, firstKw: real, maxKw: real, floorKw: real)
    requires Pairable(usableKw, firstKw, maxKw) && floorKw >= 0.0 && p.eps < 0.000125
    requires Poses(Pair(usableKw, firstKw, maxKw), p, [firstKw, floorKw], usableKw, CERT_DTH)
    ensures 0 < |p.loads| && p.horizon == 2 && Solve(p).x[0][1] >= firstKw * CERT_DTH
  {
    PairValid(usableKw, firstKw, maxKw);
    FirstSure(p, usableKw, firstKw, maxKw, floorKw);
    PosedSecond(Pair(usableKw, firstKw, maxKw), p, [firstKw, floorKw], usableKw, 0);
    TimesMonotone(firstKw * CERT_DTH, 0, 2);
    FirstSlot(p, firstKw);
  }

  lemma PairShort(usableKw: real, firstKw: real, maxKw: real, eps: real, tiny: real)
    requires Pairable(usableKw, firstKw, maxKw) && !RoundsDown(usableKw - firstKw) && 0.0 <= tiny <= eps < 0.000125
    ensures !PaidInFull(Pair(usableKw, firstKw, maxKw), usableKw, 0.0, eps, tiny, 1)
  {
    var sc, kw := Pair(usableKw, firstKw, maxKw), usableKw - firstKw;
    PairValid(usableKw, firstKw, maxKw);
    PairFloors(usableKw, firstKw, maxKw);
    RoundedUp(kw);
    ScheduledPoses(sc, usableKw, 0.0, eps, tiny);
    PairPosed(Scheduled(sc, usableKw, 0.0, eps, tiny), usableKw, firstKw, maxKw);
  }

  lemma PairPosed(p: Problem, usableKw: real, firstKw: real, maxKw: real)
    requires Pairable(usableKw, firstKw, maxKw) && p.eps < 0.000125
    requires var kw := usableKw - firstKw;
             0.0005 <= kw < ToFixed3(kw) <= kw + 0.0005
             && Poses(Pair(usableKw, firstKw, maxKw), p, [firstKw, ToFixed3(kw)], usableKw, CERT_DTH)
    ensures !Pays(p, 1, Kwh(ToFixed3(usableKw - firstKw), CERT_DTH))
  {
    var kw := usableKw - firstKw;
    FirstPaid(p, usableKw, firstKw, maxKw, ToFixed3(kw));
    PairValid(usableKw, firstKw, maxKw);
    PosedSecond(Pair(usableKw, firstKw, maxKw), p, [firstKw, ToFixed3(kw)], usableKw, 1);
    TimesMonotone(kw * CERT_DTH, 0, 2);
    SolveGood(p);
    PairSite(p, Solve(p));
    SplitTimes(usableKw, firstKw, CERT_DTH);
    SlotTooShort(p, 1, kw, ToFixed3(kw));
  }

  // ---- both halves ----

  /** The part of a power below a whole watt: it rounds up whenever the power does. */
  lemma BelowWatt(kw: real) returns (wholeKw: real)
    requires kw >= 0.0 && !RoundsDown(kw)
    ensures WholeWatts(wholeKw) && 0.0 <= wholeKw <= kw && kw - wholeKw < 0.001 && !RoundsDown(kw - wholeKw)
  {
    var n := (kw * 1000.0).Floor;
    wholeKw := Watts(n);
    if RoundsDown(kw - wholeKw) {
      RoundsDownPlus(kw - wholeKw, n);
    }
  }

  lemma RoundsDownPlus(kw: real, n: nat)
    requires kw >= 0.0 && RoundsDown(kw)
    ensures RoundsDown(kw + Watts(n))
  {
    ToFixedWatts(kw);
    ToFixedWatts(kw + Watts(n));
    assert (kw + Watts(n)) * 1000.0 == kw * 1000.0 + n as real;
    RoundShift(kw * 1000.0 + n as real, n);
  }

  /** A power of at least half a watt that does not round up is a whole watt or more. */
  lemma AWattOrMore(kw: real)
    requires kw >= 0.0005 && RoundsDown(kw)
    ensures kw >= 0.001
  {
    ToFixedWatts(kw);
    assert RoundHalfUp(kw * 1000.0) >= 1;
  }

  /** Any guest on this nameplate is promised more than it can be paid in some scenario. */
  lemma SomebodyShort(usableKw: real, maxKw: real, eps: real, tiny: real)
    requires usableKw >= 0.0 && maxKw >= 0.0 && !NeverRoundsUp(usableKw, maxKw) && 0.0 <= tiny <= eps < 0.000125
    ensures !AlwaysPaidInFull(usableKw, maxKw, eps, tiny)
  {
    if !RoundsDown(LoneKw(usableKw, maxKw)) {
      LoneGuestValid(usableKw, maxKw, 1);
      LoneGuestShort(usableKw, maxKw, eps, tiny);
    } else {
      AWattOrMore(maxKw);
      var firstKw := BelowWatt(usableKw);
      PairValid(usableKw, firstKw, maxKw);
      PairShort(usableKw, firstKw, maxKw, eps, tiny);
    }
  }

  /** A guest on this nameplate is paid its whole granted floor in every scenario under this cap (whoever else is there,
      on whatever nameplates) exactly when three decimals round neither the cap nor the nameplate up. */
  lemma AdmittedServedIff(usableKw: real, maxKw: real, eps: real, tiny: real)
    requires usableKw >= 0.0 && maxKw >= 0.0 && 0.0 <= tiny <= eps < 0.000125
    ensures NeverRoundsUp(usableKw, maxKw) <==> AlwaysPaidInFull(usableKw, maxKw, eps, tiny)
  {
    if NeverRoundsUp(usableKw, maxKw) {
      forall sc: Scenario, marginKwh, i | sc.Valid() && 0 <= i < |sc.guests| && sc.guests[i].v.maxKw == maxKw
        ensures PaidInFull(sc, usableKw, marginKwh, eps, tiny, i)
      {
        var kw := AdmittedServed(sc, usableKw, marginKwh, eps, tiny, i);
      }
    } else {
      SomebodyShort(usableKw, maxKw, eps, tiny);
    }
  }
}
