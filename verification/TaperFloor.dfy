/** A flat floor under the taper: exactly when it can be paid in full, and why a certificate's rate always can. */
module TaperFloor {
  import opened Reals
  import opened Charging
  import opened Allocator
  import opened Invariants
  import opened Promise
  import opened Certifier

  // ---- the condition ----

  /** State of charge after j slots at the flat floor. */
  function FlatSoc(l: Load, j: nat): real
    requires l.pack.Some?
  {
    Min(1.0, l.pack.value.soc + l.pack.value.cell.rise(Times(l.floorKwh, j)))
  }

  /** After k - 1 slots at the flat floor the battery still takes another one. */
  predicate StillTakes(l: Load, k: nat)
    requires l.pack.Some? && k >= 1
  {
    l.pack.value.cell.accepts(FlatSoc(l, k - 1)) >= l.floorKwh
  }

  /** A load with a known battery and a floor. */
  ghost predicate Tapered(l: Load) {
    l.pack.Some? && CellLaw(l.pack.value.cell, l.capKwh) && 0.0 <= l.pack.value.soc <= 1.0
      && 0.0 <= l.floorKwh <= l.capKwh
  }

  lemma FlatSocNext(l: Load, j: nat)
    requires Tapered(l)
    ensures FlatSoc(l, 0) == l.pack.value.soc
    ensures FlatSoc(l, j) <= FlatSoc(l, j + 1) == Min(1.0, FlatSoc(l, j) + l.pack.value.cell.rise(l.floorKwh))
  {
    var c := l.pack.value.cell;
    assert Rises(c, Times(l.floorKwh, j), l.floorKwh);
    assert Climbs(c, 0.0, l.floorKwh);
  }

  lemma {:induction false} FlatSocClimbs(l: Load, i: nat, j: nat)
    requires Tapered(l) && i <= j
    ensures FlatSoc(l, i) <= FlatSoc(l, j)
    decreases j
  {
    if i < j {
      FlatSocClimbs(l, i, j - 1);
      FlatSocNext(l, j - 1);
    }
  }

  /** Slots that have passed since arrival when slot t begins. */
  function Since(av: nat, t: nat): nat {
    if t >= av then t - av else 0
  }

  /** A row within the flat floor never gets ahead of charging at the floor. */
  lemma {:induction false} FlatBound(l: Load, tiny: real, row: seq<real>, t: nat)
    requires Tapered(l) && 0.0 <= tiny && t <= |row|
    requires forall u :: 0 <= u < t ==> 0.0 <= row[u] <= if u < l.av then 0.0 else l.floorKwh
    ensures Replay(l.pack.value.cell, tiny, row, l.pack.value.soc, t) <= FlatSoc(l, Since(l.av, t))
    decreases t
  {
    FlatSocNext(l, Since(l.av, t));
    if t > 0 {
      var c := l.pack.value.cell;
      FlatBound(l, tiny, row, t - 1);
      FlatSocNext(l, Since(l.av, t - 1));
      var soc := Replay(c, tiny, row, l.pack.value.soc, t - 1);
      assert Climbs(c, Min(row[t - 1], c.accepts(soc)), l.floorKwh);
    }
  }

  /** If the last of the first k slots can take the floor, all of them can. */
  lemma TakesAll(p: Problem, i: nat, k: nat)
    requires p.Valid() && i < |p.loads| && Tapered(p.loads[i]) && k >= 1 && StillTakes(p.loads[i], k)
    ensures Takes(p, i, k)
  {
    var l := p.loads[i];
    forall t | l.av <= t < l.av + k ensures Deliverable(p, i, t) {
      forall row | FlatRow(p, i, row, t) ensures AcceptanceKwh(p, i, row, t) >= l.floorKwh {
        FlatBound(l, p.tiny, row, t);
        FlatSocClimbs(l, t - l.av, k - 1);
        AcceptsFloor(l, Replay(l.pack.value.cell, p.tiny, row, l.pack.value.soc, t), k);
      }
    }
  }

  lemma AcceptsFloor(l: Load, soc: real, k: nat)
    requires Tapered(l) && k >= 1 && StillTakes(l, k) && soc <= FlatSoc(l, k - 1)
    ensures Max(0.0, Min(l.capKwh, l.pack.value.cell.accepts(soc))) >= l.floorKwh
  {
    assert Falls(l.pack.value.cell, soc, FlatSoc(l, k - 1));
  }

  // ---- what was paid in full was accepted ----

  /** Every entry of row i before t is at most what the battery accepts there. */
  ghost predicate Accepted(p: Problem, i: nat, row: seq<real>, t: int)
    requires i < |p.loads| && t <= |row|
  {
    forall u :: 0 <= u < t ==> row[u] <= AcceptanceKwh(p, i, row, u)
  }

  lemma {:induction false} ReplayPrefix(c: Cell, tiny: real, a: seq<real>, b: seq<real>, ref: real, t: nat)
    requires |a| == |b| && t <= |a|
    requires forall u :: 0 <= u < t ==> a[u] == b[u]
    ensures Replay(c, tiny, a, ref, t) == Replay(c, tiny, b, ref, t)
  {
    if t > 0 {
      ReplayPrefix(c, tiny, a, b, ref, t - 1);
    }
  }

  lemma AcceptedPrefix(p: Problem, i: nat, a: seq<real>, b: seq<real>, t: nat)
    requires i < |p.loads| && |a| == |b| && t < |a| && Accepted(p, i, a, t)
    requires forall u :: 0 <= u < t ==> a[u] == b[u]
    ensures Accepted(p, i, b, t) && AcceptanceKwh(p, i, b, t) == AcceptanceKwh(p, i, a, t)
  {
    var pack := p.loads[i].pack;
    if pack.Some? {
      forall u | 0 <= u <= t
        ensures Replay(pack.value.cell, p.tiny, a, pack.value.soc, u)
          == Replay(pack.value.cell, p.tiny, b, pack.value.soc, u)
      {
        ReplayPrefix(pack.value.cell, p.tiny, a, b, pack.value.soc, u);
      }
    }
  }

  /** The acceptance-aware turn of pass 1 never asks more of a slot than it accepts. */
  lemma {:induction false} TurnAccepted(p: Problem, s: State, i: nat, t: nat) returns (r: State)
    requires p.Valid() && p.aware && Shaped(p, s) && i < |p.loads| && RowEmptyFrom(p, s, i, 0) && t <= p.loads[i].dl
    ensures r == FloorRow(p, s, i, t) && Shaped(p, r) && Accepted(p, i, r.x[i], t) && RowEmptyFrom(p, r, i, t)
    decreases t
  {
    if t == 0 {
      r := s;
    } else {
      var m := TurnAccepted(p, s, i, t - 1);
      r := NextAccepted(p, m, i, t - 1);
      FloorRowStep(p, s, m, i, t - 1);
    }
  }

  /** What the turn does in slot t. */
  lemma NextAccepted(p: Problem, m: State, i: nat, t: nat) returns (r: State)
    requires p.Valid() && p.aware && Shaped(p, m) && i < |p.loads| && t < p.horizon
    requires Accepted(p, i, m.x[i], t) && RowEmptyFrom(p, m, i, t)
    ensures r == FloorStep(p, m, i, t)
    ensures Shaped(p, r) && Accepted(p, i, r.x[i], t + 1) && RowEmptyFrom(p, r, i, t + 1)
  {
    SlotAccepted(p, m, i, t, p.loads[i].floorKwh);
    r := FloorStep(p, m, i, t);
  }

  lemma SlotAccepted(p: Problem, m: State, i: nat, t: nat, kwh: real)
    requires p.Valid() && p.aware && Shaped(p, m) && i < |p.loads| && t < p.horizon
    requires Accepted(p, i, m.x[i], t) && m.x[i][t] == 0.0
    ensures Accepted(p, i, m.x[i], t + 1) && Accepted(p, i, Give(p, m, i, t, kwh).x[i], t + 1)
  {
    assert p.LoadOk(p.loads[i]);
    AcceptedPrefix(p, i, m.x[i], Give(p, m, i, t, kwh).x[i], t);
  }

  /** A full floor that is accepted takes the flat state of charge one slot further. */
  lemma FlatStep(l: Load, tiny: real, row: seq<real>, t: nat, j: nat)
    requires Tapered(l) && 0.0 <= tiny < l.floorKwh && t < |row| && row[t] == l.floorKwh
    requires Replay(l.pack.value.cell, tiny, row, l.pack.value.soc, t) == FlatSoc(l, j)
    requires l.floorKwh <= l.pack.value.cell.accepts(FlatSoc(l, j))
    ensures Replay(l.pack.value.cell, tiny, row, l.pack.value.soc, t + 1) == FlatSoc(l, j + 1)
  {
    FlatSocNext(l, j);
  }

  /** Nothing is charged before arrival. */
  lemma {:induction false} NoneBefore(c: Cell, tiny: real, row: seq<real>, ref: real, t: nat)
    requires t <= |row| && 0.0 <= tiny && forall u :: 0 <= u < t ==> row[u] == 0.0
    ensures Replay(c, tiny, row, ref, t) == ref
  {
    if t > 0 {
      NoneBefore(c, tiny, row, ref, t - 1);
    }
  }

  lemma AcceptsAt(p: Problem, i: nat, row: seq<real>, t: nat, soc: real)
    requires i < |p.loads| && p.loads[i].pack.Some? && t < |row| && 0.0 < row[t] <= AcceptanceKwh(p, i, row, t)
    requires soc == Replay(p.loads[i].pack.value.cell, p.tiny, row, p.loads[i].pack.value.soc, t)
    ensures row[t] <= p.loads[i].pack.value.cell.accepts(soc)
  {
  }

  /** Row i pays the floor in each of its first j slots, and every one of them is accepted. */
  ghost predicate FlatFrom(p: Problem, i: nat, row: seq<real>, j: nat)
    requires i < |p.loads|
  {
    && p.loads[i].av + j <= |row| && Accepted(p, i, row, p.loads[i].av + j)
    && forall u :: 0 <= u < p.loads[i].av + j ==> row[u] == if u < p.loads[i].av then 0.0 else p.loads[i].floorKwh
  }

  /** State of charge when row i reaches its slot j. */
  function SocAt(p: Problem, i: nat, row: seq<real>, j: nat): real
    requires i < |p.loads| && p.loads[i].pack.Some? && p.loads[i].av + j <= |row|
  {
    Replay(p.loads[i].pack.value.cell, p.tiny, row, p.loads[i].pack.value.soc, p.loads[i].av + j)
  }

  lemma ExactStart(p: Problem, i: nat, row: seq<real>)
    requires 0.0 <= p.tiny && i < |p.loads| && Tapered(p.loads[i]) && FlatFrom(p, i, row, 0)
    ensures SocAt(p, i, row, 0) == FlatSoc(p.loads[i], 0)
  {
    NoneBefore(p.loads[i].pack.value.cell, p.tiny, row, p.loads[i].pack.value.soc, p.loads[i].av);
    FlatSocNext(p.loads[i], 0);
  }

  lemma FlatSlot(p: Problem, i: nat, row: seq<real>, j: nat)
    requires i < |p.loads| && FlatFrom(p, i, row, j + 1)
    ensures FlatFrom(p, i, row, j) && p.loads[i].av + j < |row|
    ensures row[p.loads[i].av + j] == p.loads[i].floorKwh <= AcceptanceKwh(p, i, row, p.loads[i].av + j)
  {
  }

  lemma ExactSlot(p: Problem, i: nat, row: seq<real>, j: nat)
    requires i < |p.loads| && Tapered(p.loads[i]) && p.loads[i].floorKwh > p.tiny >= 0.0 && p.loads[i].av + j < |row|
    requires row[p.loads[i].av + j] == p.loads[i].floorKwh <= AcceptanceKwh(p, i, row, p.loads[i].av + j)
    requires SocAt(p, i, row, j) == FlatSoc(p.loads[i], j)
    ensures SocAt(p, i, row, j + 1) == FlatSoc(p.loads[i], j + 1)
    ensures p.loads[i].pack.value.cell.accepts(FlatSoc(p.loads[i], j)) >= p.loads[i].floorKwh
  {
    AcceptsAt(p, i, row, p.loads[i].av + j, FlatSoc(p.loads[i], j));
    FlatStep(p.loads[i], p.tiny, row, p.loads[i].av + j, j);
  }

  /** Full floors that were all accepted bring the battery exactly to the flat state of charge. */
  lemma {:induction false} FlatExact(p: Problem, i: nat, row: seq<real>, j: nat)
    requires 0.0 <= p.tiny && i < |p.loads| && Tapered(p.loads[i]) && p.loads[i].floorKwh > p.tiny
      && FlatFrom(p, i, row, j)
    ensures SocAt(p, i, row, j) == FlatSoc(p.loads[i], j)
    decreases j
  {
    if j == 0 {
      ExactStart(p, i, row);
    } else {
      FlatSlot(p, i, row, j - 1);
      FlatExact(p, i, row, j - 1);
      ExactSlot(p, i, row, j - 1);
    }
  }

  lemma PaidAccepted(p: Problem, i: nat)
    requires p.Valid() && p.aware && FloorsNonneg(p) && i < |p.loads| && p.loads[i].floored && p.loads[i].dl >= 0
    ensures Accepted(p, i, AfterFloors(p).x[i], p.loads[i].dl)
    ensures forall u :: 0 <= u < p.horizon && u < p.loads[i].av ==> AfterFloors(p).x[i][u] == 0.0
  {
    var m := BeforeTurn(p, i);
    var r := TurnAccepted(p, m, i, p.loads[i].dl);
    SolveGood(p);
    assert RowGood(p, AfterFloors(p), i);
  }

  /** Full floors in the first k slots need a battery that still takes one in the last of them. */
  lemma PaidStillTakes(p: Problem, i: nat, k: nat)
    requires p.Valid() && p.aware && FloorsNonneg(p) && i < |p.loads| && p.loads[i].floored
      && p.loads[i].floorKwh > p.eps
    requires Tapered(p.loads[i]) && k >= 1 && p.loads[i].av + k <= p.loads[i].dl && PaidFlat(p, i, k)
    ensures StillTakes(p.loads[i], k)
  {
    PaidAccepted(p, i);
    FlatRowTakes(p, i, AfterFloors(p).x[i], k);
  }

  lemma FlatRowTakes(p: Problem, i: nat, row: seq<real>, k: nat)
    requires 0.0 <= p.tiny && i < |p.loads| && Tapered(p.loads[i]) && p.loads[i].floorKwh > p.tiny
    requires k >= 1 && FlatFrom(p, i, row, k)
    ensures StillTakes(p.loads[i], k)
  {
    FlatSlot(p, i, row, k - 1);
    FlatExact(p, i, row, k - 1);
    ExactSlot(p, i, row, k - 1);
  }

  // ---- the exact statement ----

  /** As long as the battery still takes the floor after k - 1 slots of it, the acceptance-aware pass 1 pays the full
      floor in each of the first k slots until the need is met, and the later passes leave the vehicle at least that. */
  lemma FloorHonouredUnderTaper(p: Problem, i: nat, k: nat)
    requires p.Valid() && FloorsNonneg(p) && i < |p.loads| && p.loads[i].floored && p.loads[i].floorKwh > p.eps
    requires Tapered(p.loads[i]) && k >= 1 && p.loads[i].av + k <= p.loads[i].dl && StillTakes(p.loads[i], k)
    requires LeavesIn(p, i, k, p.loads[i].floorKwh)
    ensures PaidFlat(p, i, k) || (AfterFloors(p).need[i] <= p.eps && p.loads[i].need0 < Times(p.loads[i].floorKwh, k))
    ensures Solve(p).need[i] <= Max(p.eps, p.loads[i].need0 - Times(p.loads[i].floorKwh, k))
  {
    TakesAll(p, i, k);
    FloorHonoured(p, i, k);
  }

  /** With enough need, the first k slots all carry the full floor exactly when the battery still takes the floor after
      k - 1 slots of it. */
  lemma FlatFloorIff(p: Problem, i: nat, k: nat)
    requires p.Valid() && p.aware && FloorsNonneg(p) && i < |p.loads| && p.loads[i].floored
      && p.loads[i].floorKwh > p.eps
    requires Tapered(p.loads[i]) && k >= 1 && p.loads[i].av + k <= p.loads[i].dl
    requires LeavesIn(p, i, k, p.loads[i].floorKwh) && p.loads[i].need0 >= Times(p.loads[i].floorKwh, k)
    ensures PaidFlat(p, i, k) <==> StillTakes(p.loads[i], k)
  {
    if StillTakes(p.loads[i], k) {
      FloorHonouredUnderTaper(p, i, k);
    }
    if PaidFlat(p, i, k) {
      PaidStillTakes(p, i, k);
    }
  }

  /** What the first k floors of vehicle i come to. */
  ghost predicate Floored(p: Problem, i: nat, k: nat)
    requires p.Prepared() && i < |p.loads| && p.loads[i].pack.Some? && k >= 1 && p.loads[i].av + k <= p.loads[i].dl
  {
    var l := p.loads[i];
    && (StillTakes(l, k) ==> PaidFlat(p, i, k) || AfterFloors(p).need[i] <= p.eps)
    && (StillTakes(l, k) ==> Solve(p).need[i] <= Max(p.eps, l.need0 - Times(l.floorKwh, k)))
    && forall j :: 1 <= j <= k && l.need0 >= Times(l.floorKwh, j) ==> (PaidFlat(p, i, j) <==> StillTakes(l, j))
  }

  lemma FlooredUnderTaper(p: Problem, i: nat, k: nat)
    requires p.Valid() && p.aware && FloorsNonneg(p) && i < |p.loads| && p.loads[i].floored
      && p.loads[i].floorKwh > p.eps
    requires Tapered(p.loads[i]) && k >= 1 && p.loads[i].av + k <= p.loads[i].dl
    requires LeavesIn(p, i, k, p.loads[i].floorKwh)
    ensures Floored(p, i, k)
  {
    if StillTakes(p.loads[i], k) {
      FloorHonouredUnderTaper(p, i, k);
    }
    forall j | 1 <= j <= k && p.loads[i].need0 >= Times(p.loads[i].floorKwh, j)
      ensures PaidFlat(p, i, j) <==> StillTakes(p.loads[i], j)
    {
      FlatFloorIff(p, i, j);
    }
  }

  // ---- the certificate's last rate always meets it ----

  /** `c` is the plan's view (kWh per 15-minute slot) of the battery the certificate sees as `w` (kW). */
  ghost predicate SameBattery(c: Cell, w: Cell) {
    && (forall e :: c.rise(e) == w.rise(e))
    && (forall soc :: c.accepts(soc) == w.accepts(soc) * CERT_DTH)
  }

  lemma QuarterHour(maxKw: real, soc: real)
    ensures TaperedTo(maxKw * CERT_DTH, soc) == TaperedTo(maxKw, soc) * CERT_DTH
  {
  }

  lemma PlanAndCertificateAgree(maxKw: real, kwh: real)
    requires kwh > 0.0
    ensures SameBattery(Battery(maxKw * CERT_DTH, kwh), Battery(maxKw, kwh))
  {
    var c, w := Battery(maxKw * CERT_DTH, kwh), Battery(maxKw, kwh);
    forall soc ensures c.accepts(soc) == w.accepts(soc) * CERT_DTH {
      QuarterHour(maxKw, soc);
    }
  }

  /** The load is planned from the battery and the state of charge that its certificate u simulated for k intervals,
      and its floor is no more than the last simulated rate. */
  ghost predicate Certified(l: Load, u: Subject, residual: Option<real>, k: nat) {
    && Sound(u) && (residual.Some? ==> residual.value >= 0.0) && k >= 1 && Tapered(l)
    && u.cell.Some? && l.pack.value.soc == u.soc0 && SameBattery(l.pack.value.cell, u.cell.value)
    && l.floorKwh <= CertRate(u, residual, k - 1) * CERT_DTH
  }

  lemma IntervalCharge(u: Subject, residual: Option<real>, j: nat) returns (most: real)
    requires u.cell.Some?
    ensures most == CertRate(u, residual, j) * CERT_DTH
    ensures CertSoc(u, residual, j + 1) == Min(1.0, CertSoc(u, residual, j) + u.cell.value.rise(most))
  {
    most := CertRate(u, residual, j) * CERT_DTH;
  }

  /** What the simulation charges in interval j: no less than the floor. */
  lemma SimulatedStep(l: Load, u: Subject, residual: Option<real>, k: nat, j: nat) returns (most: real)
    requires Certified(l, u, residual, k) && j < k
    ensures l.floorKwh <= most
    ensures CertSoc(u, residual, j + 1) == Min(1.0, CertSoc(u, residual, j) + u.cell.value.rise(most))
  {
    RateNonIncreasing(u, residual, j, k - 1);
    most := IntervalCharge(u, residual, j);
  }

  lemma BehindStep(l: Load, u: Subject, residual: Option<real>, k: nat, j: nat)
    requires Certified(l, u, residual, k) && j < k && FlatSoc(l, j) <= CertSoc(u, residual, j)
    ensures FlatSoc(l, j + 1) <= CertSoc(u, residual, j + 1)
  {
    FlatSocNext(l, j);
    var most := SimulatedStep(l, u, residual, k, j);
    assert Climbs(u.cell.value, l.floorKwh, most);
  }

  lemma BehindStart(l: Load, u: Subject, residual: Option<real>, k: nat)
    requires Certified(l, u, residual, k)
    ensures FlatSoc(l, 0) <= CertSoc(u, residual, 0)
  {
    FlatSocNext(l, 0);
  }

  ghost predicate StaysBehind(l: Load, u: Subject, residual: Option<real>, j: nat)
    requires l.pack.Some?
  {
    FlatSoc(l, j) <= CertSoc(u, residual, j) ==> FlatSoc(l, j + 1) <= CertSoc(u, residual, j + 1)
  }

  lemma {:induction false} BehindAlong(l: Load, u: Subject, residual: Option<real>, k: nat, j: nat)
    requires l.pack.Some? && j <= k && FlatSoc(l, 0) <= CertSoc(u, residual, 0)
    requires forall i :: 0 <= i < k ==> StaysBehind(l, u, residual, i)
    ensures FlatSoc(l, j) <= CertSoc(u, residual, j)
    decreases j
  {
    if j > 0 {
      BehindAlong(l, u, residual, k, j - 1);
      assert StaysBehind(l, u, residual, j - 1);
    }
  }

  /** After each of the certificate's k intervals, charging at the flat floor is at or behind the simulation. */
  lemma FlatBehindCertificate(l: Load, u: Subject, residual: Option<real>, k: nat, j: nat)
    requires Certified(l, u, residual, k) && j <= k
    ensures FlatSoc(l, j) <= CertSoc(u, residual, j)
  {
    BehindStart(l, u, residual, k);
    forall i | 0 <= i < k ensures StaysBehind(l, u, residual, i) {
      if FlatSoc(l, i) <= CertSoc(u, residual, i) {
        BehindStep(l, u, residual, k, i);
      }
    }
    BehindAlong(l, u, residual, k, j);
  }

  /** So a floor of at most the last simulated rate is always honourable. */
  lemma CertifiedStillTakes(l: Load, u: Subject, residual: Option<real>, k: nat)
    requires Certified(l, u, residual, k)
    ensures StillTakes(l, k)
  {
    FlatBehindCertificate(l, u, residual, k, k - 1);
    assert Falls(l.pack.value.cell, FlatSoc(l, k - 1), CertSoc(u, residual, k - 1));
  }

  // ---- in the terms of the vehicle ----

  /** A vehicle whose battery and state-of-charge reference are known. */
  ghost predicate KnownState(v: Vehicle) {
    v.maxKw >= 0.0 && v.KnownBattery() && v.socRef.Some? && 0.0 <= v.socRef.value <= 1.0
  }

  /** Slot energy of a vehicle's floor on the 15-minute grid. */
  function FloorKwh(v: Vehicle): real {
    Min(v.certifiedFloorKw, v.maxKw) * CERT_DTH
  }

  /** State of charge after k - 1 quarter-hours of the floor, from the vehicle's record. */
  function SocAfterFloors(v: Vehicle, k: nat): real
    requires v.KnownBattery() && v.socRef.Some? && k >= 1
  {
    Min(1.0, v.socRef.value + Times(FloorKwh(v), k - 1) / v.batteryKwh.value)
  }

  /** The nameplate, tapered at the state of charge k - 1 quarter-hours of the floor lead to, still covers the floor. */
  predicate TaperLeaves(v: Vehicle, k: nat)
    requires v.KnownBattery() && v.socRef.Some? && k >= 1
  {
    TaperedTo(v.maxKw, SocAfterFloors(v, k)) >= Min(v.certifiedFloorKw, v.maxKw)
  }

  lemma QuarterIff(a: real, b: real)
    ensures a * CERT_DTH >= b * CERT_DTH <==> a >= b
  {
  }

  /** The plan's battery takes a quarter-hour of some power exactly when the tapered nameplate covers the power. */
  lemma TakesQuarter(maxKw: real, kwh: real, soc: real, kw: real)
    requires kwh > 0.0
    ensures Battery(maxKw * CERT_DTH, kwh).accepts(soc) >= kw * CERT_DTH <==> TaperedTo(maxKw, soc) >= kw
  {
    QuarterHour(maxKw, soc);
    QuarterIff(TaperedTo(maxKw, soc), kw);
  }

  /** A vehicle of known state as the plan reads it. */
  lemma LoadTapered(v: Vehicle, av: nat, dl: int)
    requires KnownState(v) && v.certifiedFloorKw >= 0.0
    ensures var l := LoadOf(v, CERT_DTH, av, dl);
            && Tapered(l) && l.floorKwh == FloorKwh(v)
            && l.pack == Some(Pack(Battery(v.maxKw * CERT_DTH, v.batteryKwh.value), v.socRef.value))
  {
    SlotEnergy(v.maxKw, v.certifiedFloorKw, CERT_DTH);
    BatteryLaw(v.maxKw * CERT_DTH, v.batteryKwh.value);
  }

  lemma SocMatches(v: Vehicle, l: Load, k: nat)
    requires KnownState(v) && k >= 1 && l.floorKwh == FloorKwh(v)
    requires l.pack == Some(Pack(Battery(v.maxKw * CERT_DTH, v.batteryKwh.value), v.socRef.value))
    ensures FlatSoc(l, k - 1) == SocAfterFloors(v, k)
  {
  }

  lemma TaperLeavesIff(v: Vehicle, av: nat, dl: int, k: nat)
    requires KnownState(v) && v.certifiedFloorKw >= 0.0 && k >= 1
    ensures Tapered(LoadOf(v, CERT_DTH, av, dl))
    ensures TaperLeaves(v, k) <==> StillTakes(LoadOf(v, CERT_DTH, av, dl), k)
  {
    var l := LoadOf(v, CERT_DTH, av, dl);
    LoadTapered(v, av, dl);
    SocMatches(v, l, k);
    LeavesTakes(v, l, k);
  }

  lemma LeavesTakes(v: Vehicle, l: Load, k: nat)
    requires KnownState(v) && k >= 1 && l.floorKwh == FloorKwh(v)
    requires l.pack == Some(Pack(Battery(v.maxKw * CERT_DTH, v.batteryKwh.value), v.socRef.value))
    requires FlatSoc(l, k - 1) == SocAfterFloors(v, k)
    ensures TaperLeaves(v, k) <==> StillTakes(l, k)
  {
    TakesQuarter(v.maxKw, v.batteryKwh.value, SocAfterFloors(v, k), Min(v.certifiedFloorKw, v.maxKw));
  }

  lemma LoadCertified(v: Vehicle, residual: Option<real>, k: nat)
    requires KnownState(v) && k >= 1 && (residual.Some? ==> residual.value >= 0.0)
    requires 0.0 <= v.certifiedFloorKw <= CertRate(SubjectOf(v), residual, k - 1)
    ensures Certified(LoadOf(v, CERT_DTH, 0, 0), SubjectOf(v), residual, k)
  {
    LoadTapered(v, 0, 0);
    SubjectSound(v);
    PlanAndCertificateAgree(v.maxKw, v.batteryKwh.value);
    RateCoversFloor(v.certifiedFloorKw, v.maxKw, CertRate(SubjectOf(v), residual, k - 1));
  }

  /** A floor that the certificate did not round up past its last simulated rate is honourable. */
  lemma IssuedFloorTakes(v: Vehicle, residual: Option<real>, k: nat)
    requires KnownState(v) && k >= 1 && (residual.Some? ==> residual.value >= 0.0)
    requires 0.0 <= v.certifiedFloorKw <= CertRate(SubjectOf(v), residual, k - 1)
    ensures TaperLeaves(v, k)
  {
    LoadCertified(v, residual, k);
    TaperLeavesIff(v, 0, 0, k);
    CertifiedStillTakes(LoadOf(v, CERT_DTH, 0, 0), SubjectOf(v), residual, k);
  }

  lemma RateCoversFloor(floorKw: real, maxKw: real, rate: real)
    requires floorKw <= rate
    ensures Min(floorKw, maxKw) * CERT_DTH <= rate * CERT_DTH
  {
  }
}
