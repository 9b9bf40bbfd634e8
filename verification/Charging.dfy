/** Vocabulary shared by the certifier, the allocator and the twin: the acceptance curve, the slot grid and one planning
    problem. */
module Charging {
  import opened Reals

  const KNEE: real := 0.8
  const TAPER_FLOOR: real := 0.15
  const DEFAULT_INTERVAL_MIN: int := 15
  const DEFAULT_HORIZON: int := 24
  const HORIZON_MAX: int := 168

  /** CC-CV acceptance: full power up to the knee, then a straight decay to the taper floor. */
  function AcceptanceFactor(soc: real): real {
    if soc <= KNEE then 1.0
    else if soc >= 1.0 then TAPER_FLOOR
    else TAPER_FLOOR + (1.0 - TAPER_FLOOR) * (1.0 - (soc - KNEE) / (1.0 - KNEE))
  }

  lemma AcceptanceNonIncreasing(a: real, b: real)
    requires a <= b
    ensures TAPER_FLOOR <= AcceptanceFactor(b) <= AcceptanceFactor(a) <= 1.0
  {
  }

  /** Full power up to 80 %, 15 % of it from a full battery on, and a straight line in between: what one state of charge
      loses against the knee is to the loss at a full battery as its distance from the knee is to the whole distance. */
  lemma TaperIs(soc: real)
    ensures soc <= 0.8 ==> AcceptanceFactor(soc) == 1.0
    ensures soc >= 1.0 ==> AcceptanceFactor(soc) == 0.15
    ensures 0.8 <= soc <= 1.0 ==> (1.0 - AcceptanceFactor(soc)) * 0.2 == 0.85 * (soc - 0.8)
  {
    if 0.8 < soc < 1.0 {
      assert (soc - KNEE) / (1.0 - KNEE) * (1.0 - KNEE) == soc - KNEE;
    }
  }

  // ---- batteries ----

  /** A battery on its connector: the most it takes in one slot that starts at some state of charge, how far some
      energy raises the state of charge, and the energy that still fits. */
  datatype Cell = Cell(accepts: real -> real, rise: real -> real, head: real -> real)

  /** What is left of a nameplate at some state of charge. */
  function TaperedTo(cap: real, soc: real): real {
    cap * AcceptanceFactor(soc)
  }

  /** The CC-CV battery: `capKwh` is the nameplate energy of one slot, `kwh` the battery. */
  function Battery(capKwh: real, kwh: real): Cell
    requires kwh > 0.0
  {
    Cell(soc => TaperedTo(capKwh, soc), e => e / kwh, soc => kwh * (1.0 - soc))
  }

  ghost predicate Charges(c: Cell, soc: real, e: real) {
    c.head(soc + c.rise(e)) == c.head(soc) - e
  }

  ghost predicate Rises(c: Cell, a: real, b: real) {
    c.rise(a + b) == c.rise(a) + c.rise(b)
  }

  ghost predicate Climbs(c: Cell, a: real, b: real) {
    a <= b ==> c.rise(a) <= c.rise(b)
  }

  ghost predicate Falls(c: Cell, a: real, b: real) {
    a <= b ==> c.accepts(b) <= c.accepts(a)
  }

  /** All the physics the planning theorems rest on. */
  ghost predicate CellLaw(c: Cell, capKwh: real) {
    && (forall soc :: 0.0 <= c.accepts(soc) <= capKwh && (soc <= KNEE ==> c.accepts(soc) == capKwh))
    && (forall a, b {:trigger Falls(c, a, b)} :: Falls(c, a, b))
    && (forall a, b {:trigger Rises(c, a, b)} :: Rises(c, a, b))
    && (forall a, b {:trigger Climbs(c, a, b)} :: Climbs(c, a, b))
    && c.rise(0.0) == 0.0
    && StorageLaw(c)
  }

  /** Stored energy comes off the headroom, and headroom runs out at a full battery. */
  ghost predicate StorageLaw(c: Cell) {
    && (forall soc, e {:trigger Charges(c, soc, e)} :: Charges(c, soc, e))
    && (forall soc :: c.head(soc) >= 0.0 ==> soc <= 1.0)
    && (forall soc :: c.accepts(soc) >= 0.0)
  }

  lemma TimesMono(a: real, b: real, k: real)
    requires a <= b && k >= 0.0
    ensures a * k <= b * k
  {
  }

  lemma DivMono(a: real, b: real, k: real)
    requires k > 0.0 && a <= b
    ensures a / k <= b / k
  {
  }

  lemma DivPlus(a: real, b: real, k: real)
    requires k > 0.0
    ensures (a + b) / k == a / k + b / k
  {
  }

  lemma TimesDiv(k: real, soc: real, e: real)
    requires k > 0.0
    ensures k * (1.0 - (soc + e / k)) == k * (1.0 - soc) - e
  {
    assert k * (e / k) == e;
  }

  lemma TimesNegative(k: real, a: real)
    requires k > 0.0 && a < 0.0
    ensures k * a < 0.0
  {
  }

  lemma TaperedBetween(cap: real, soc: real)
    requires cap >= 0.0
    ensures 0.0 <= TaperedTo(cap, soc) <= cap
    ensures soc <= KNEE ==> TaperedTo(cap, soc) == cap
  {
    AcceptanceNonIncreasing(soc, soc);
    TimesMono(0.0, AcceptanceFactor(soc), cap);
    TimesMono(AcceptanceFactor(soc), 1.0, cap);
  }

  lemma TaperedFalls(cap: real, a: real, b: real)
    requires cap >= 0.0 && a <= b
    ensures TaperedTo(cap, b) <= TaperedTo(cap, a)
  {
    AcceptanceNonIncreasing(a, b);
    TimesMono(AcceptanceFactor(b), AcceptanceFactor(a), cap);
  }

  lemma BatteryAccepts(capKwh: real, kwh: real, a: real, b: real)
    requires capKwh >= 0.0 && kwh > 0.0 && a <= b
    ensures var c := Battery(capKwh, kwh);
            0.0 <= c.accepts(b) <= c.accepts(a) <= capKwh && (a <= KNEE ==> c.accepts(a) == capKwh)
  {
    TaperedBetween(capKwh, a);
    TaperedBetween(capKwh, b);
    TaperedFalls(capKwh, a, b);
  }

  lemma BatteryRises(capKwh: real, kwh: real)
    requires capKwh >= 0.0 && kwh > 0.0
    ensures var c := Battery(capKwh, kwh);
            && (forall a, b {:trigger Rises(c, a, b)} :: Rises(c, a, b))
            && (forall a, b {:trigger Climbs(c, a, b)} :: Climbs(c, a, b))
            && c.rise(0.0) == 0.0
  {
    var c := Battery(capKwh, kwh);
    forall a, b ensures Rises(c, a, b) {
      DivPlus(a, b, kwh);
    }
    forall a, b ensures Climbs(c, a, b) {
      if a <= b {
        DivMono(a, b, kwh);
      }
    }
  }

  lemma BatteryFills(capKwh: real, kwh: real)
    requires capKwh >= 0.0 && kwh > 0.0
    ensures var c := Battery(capKwh, kwh);
            StorageLaw(c)
  {
    var c := Battery(capKwh, kwh);
    forall soc, e ensures Charges(c, soc, e) {
      TimesDiv(kwh, soc, e);
    }
    forall soc | c.head(soc) >= 0.0 ensures soc <= 1.0 {
      if soc > 1.0 {
        TimesNegative(kwh, 1.0 - soc);
      }
    }
    forall soc ensures c.accepts(soc) >= 0.0 {
      BatteryAccepts(capKwh, kwh, soc, soc);
    }
  }

  /** The CC-CV battery obeys the physics. */
  lemma BatteryLaw(capKwh: real, kwh: real)
    requires capKwh >= 0.0 && kwh > 0.0
    ensures CellLaw(Battery(capKwh, kwh), capKwh)
  {
    var c := Battery(capKwh, kwh);
    forall soc ensures 0.0 <= c.accepts(soc) <= capKwh && (soc <= KNEE ==> c.accepts(soc) == capKwh) {
      BatteryAccepts(capKwh, kwh, soc, soc);
    }
    forall a, b ensures Falls(c, a, b) {
      if a <= b {
        BatteryAccepts(capKwh, kwh, a, b);
      }
    }
    BatteryRises(capKwh, kwh);
    BatteryFills(capKwh, kwh);
  }

  /** The battery in its own terms: nameplate energy up to 80 %, 15 % of it when full and a straight line in between;
      energy raises the state of charge by its share of the battery; the headroom is what a full battery still lacks. */
  lemma BatteryIs(capKwh: real, kwh: real, soc: real, e: real)
    requires kwh > 0.0
    ensures var c := Battery(capKwh, kwh);
            && (soc <= 0.8 ==> c.accepts(soc) == capKwh)
            && (soc >= 1.0 ==> c.accepts(soc) == capKwh * 0.15)
            && (0.8 <= soc <= 1.0 ==> (capKwh - c.accepts(soc)) * 0.2 == capKwh * (0.85 * (soc - 0.8)))
            && c.rise(e) * kwh == e && c.head(soc) + soc * kwh == kwh
  {
    TaperIs(soc);
    assert capKwh * ((1.0 - AcceptanceFactor(soc)) * 0.2) == (capKwh - capKwh * AcceptanceFactor(soc)) * 0.2;
    assert e / kwh * kwh == e;
    assert kwh * (1.0 - soc) == kwh - soc * kwh;
  }

  // ---- the slot grid (times are epoch milliseconds) ----

  function ClampHorizon(v: int): (h: nat)
    ensures 1 <= h <= 168
    ensures 1 <= v <= 168 ==> h == v
    ensures !(1 <= v <= 168) ==> h == 24
  {
    if 1 <= v <= HORIZON_MAX then v else DEFAULT_HORIZON
  }

  function ClampDtMin(v: int): (dt: int)
    ensures dt in {5, 10, 15, 30, 60}
    ensures v in {5, 10, 15, 30, 60} ==> dt == v
    ensures v !in {5, 10, 15, 30, 60} ==> dt == 15
  {
    if v in {5, 10, 15, 30, 60} then v else DEFAULT_INTERVAL_MIN
  }

  function FloorDiv(a: int, b: int): int
    requires b > 0
  {
    a / b
  }

  function CeilDiv(a: int, b: int): int
    requires b > 0
  {
    -(-a / b)
  }

  /** Start of the wall-clock bucket that holds `now`. */
  function GridStart(now: int, dtMs: int): int
    requires dtMs > 0
  {
    FloorDiv(now, dtMs) * dtMs
  }

  lemma Quotient(q: int, r: int, b: int)
    requires b > 0 && 0 <= r < b
    ensures (q * b + r) / b == q
  {
    var k := (q * b + r) / b;
    var m := (q * b + r) % b;
    assert (k - q) * b == r - m;
    SmallMultiple(k - q, b);
  }

  lemma SmallMultiple(d: int, b: int)
    requires b > 0 && -b < d * b < b
    ensures d == 0
  {
    assert d >= 1 ==> d * b >= b;
    assert d <= -1 ==> -d * b >= b;
  }

  lemma Cancel(a: int, b: int)
    requires b > 0
    ensures a * b / b == a
  {
    Quotient(a, 0, b);
  }

  lemma GridSlot(start: int, dt: int, slot: int)
    requires dt > 0 && start % dt == 0
    ensures GridStart(start, dt) == start
    ensures FloorDiv(start + slot * dt - start, dt) == slot && CeilDiv(start + slot * dt - start, dt) == slot
  {
    Cancel(slot, dt);
    Cancel(-slot, dt);
    assert -(slot * dt) == -slot * dt;
  }

  // ---- vehicles and planning problems ----

  /** `None` stands for a null or zero field of the original record. */
  datatype Vehicle = Vehicle(
    sessionId: int,
    cpId: int,
    maxKw: real,
    remainingKwh: real,
    certifiedFloorKw: real,
    arrivalAt: Option<int>,
    deadlineAt: Option<int>,
    batteryKwh: Option<real>,
    socRef: Option<real>,
    startSoc: Option<real>)
  {
    predicate KnownBattery() {
      batteryKwh.Some? && batteryKwh.value > 0.0
    }
  }

  /** Everything one call of the allocator is given. A `None` cap, and a charge point absent from `cpCaps`,
      are uncapped. `eps` and `tiny` are the two cut-offs below which energy is ignored. */
  datatype Request = Request(
    vehicles: seq<Vehicle>,
    siteCapKw: Option<real>,
    cpCaps: map<int, real>,
    score: seq<real>,
    dtMin: int,
    horizon: nat,
    now: int,
    aware: bool,
    eps: real,
    tiny: real)
  {
    ghost predicate Valid() {
      && dtMin > 0
      && 0.0 <= tiny <= eps
      && (siteCapKw.Some? ==> siteCapKw.value >= 0.0)
      && (forall c :: c in cpCaps ==> cpCaps[c] >= 0.0)
      && (forall i :: 0 <= i < |vehicles| ==> vehicles[i].maxKw >= 0.0)
      && (forall i, j :: 0 <= i < j < |vehicles| ==> vehicles[i].sessionId != vehicles[j].sessionId)
    }

    function DtMs(): int {
      dtMin * 60000
    }

    function DtH(): real {
      dtMin as real / 60.0
    }

    function Start(): int
      requires dtMin > 0
    {
      GridStart(now, DtMs())
    }
  }

  /** First slot a vehicle may use. */
  function ArrivalSlot(r: Request, v: Vehicle): nat
    requires r.dtMin > 0
  {
    if v.arrivalAt.None? then 0
    else
      var slot := FloorDiv(v.arrivalAt.value - r.Start(), r.DtMs());
      if slot >= 0 then slot else 0
  }

  /** First slot at or after the deadline, never past the horizon (negative for a deadline in the past). */
  function DeadlineSlot(r: Request, v: Vehicle): (d: int)
    requires r.dtMin > 0
    ensures d <= r.horizon
  {
    if v.deadlineAt.None? then r.horizon
    else
      var slot := CeilDiv(v.deadlineAt.value - r.Start(), r.DtMs());
      if slot < r.horizon then slot else r.horizon
  }

  /** The state of charge a plan starts from, known only together with the battery. */
  function PlanningSoc(v: Vehicle): Option<real> {
    var ref := if v.socRef.Some? then v.socRef else v.startSoc;
    if !v.KnownBattery() || ref.None? then None else Some(Max(0.0, Min(1.0, ref.value)))
  }

  // ---- the request in slots and kWh per slot, as the passes read it ----

  /** A battery and the state of charge the plan assumes it has on arrival. */
  datatype Pack = Pack(cell: Cell, soc: real)

  /** One vehicle: what its nameplate and its certified floor amount to in one slot, its window [av, dl), and
      its energy need. `pack` is present only when the acceptance curve can be applied. */
  datatype Load = Load(
    sessionId: int,
    cpId: int,
    capKwh: real,
    floored: bool,
    floorKwh: real,
    av: nat,
    dl: int,
    need0: real,
    pack: Option<Pack>)

  datatype Problem = Problem(
    loads: seq<Load>,
    siteKwh: Option<real>,
    cpKwh: map<int, real>,
    score: seq<real>,
    horizon: nat,
    aware: bool,
    eps: real,
    tiny: real)
  {
    /** No window reaches past the horizon. */
    ghost predicate Prepared() {
      forall i :: 0 <= i < |loads| ==> loads[i].dl <= horizon
    }

    ghost predicate Valid() {
      && Prepared()
      && 0.0 <= tiny <= eps
      && (siteKwh.Some? ==> siteKwh.value >= 0.0)
      && (forall c :: c in cpKwh ==> cpKwh[c] >= 0.0)
      && (forall i :: 0 <= i < |loads| ==> LoadOk(loads[i]))
      && (forall i, j :: 0 <= i < j < |loads| ==> loads[i].sessionId != loads[j].sessionId)
    }

    ghost predicate LoadOk(l: Load) {
      && l.capKwh >= 0.0 && l.floorKwh <= l.capKwh && l.need0 >= 0.0
    }

    /** Every known battery obeys the physics and starts between empty and full. */
    ghost predicate Physical() {
      forall i :: 0 <= i < |loads| && loads[i].pack.Some? ==> PackOk(loads[i])
    }

    ghost predicate PackOk(l: Load)
      requires l.pack.Some?
    {
      CellLaw(l.pack.value.cell, l.capKwh) && 0.0 <= l.pack.value.soc <= 1.0
    }

    predicate InWindow(i: nat, t: int)
      requires i < |loads|
    {
      loads[i].av <= t < loads[i].dl
    }

    function Score(t: nat): real {
      if t < |score| then score[t] else 0.0
    }
  }

  function LoadOf(v: Vehicle, dtH: real, av: nat, dl: int): Load {
    Load(v.sessionId, v.cpId, v.maxKw * dtH, v.certifiedFloorKw > 0.0, Min(v.certifiedFloorKw, v.maxKw) * dtH,
         av, dl, Max(0.0, v.remainingKwh), PackOf(v, v.maxKw * dtH))
  }

  function PackOf(v: Vehicle, capKwh: real): Option<Pack> {
    var soc := PlanningSoc(v);
    if soc.None? then None else Some(Pack(Battery(capKwh, v.batteryKwh.value), soc.value))
  }

  function SlotCap(capKw: Option<real>, dtH: real): Option<real> {
    if capKw.None? then None else Some(capKw.value * dtH)
  }

  function Prepare(r: Request): (p: Problem)
    requires r.dtMin > 0
    ensures p.Prepared()
  {
    Problem(
      seq(|r.vehicles|, i requires 0 <= i < |r.vehicles| =>
        LoadOf(r.vehicles[i], r.DtH(), ArrivalSlot(r, r.vehicles[i]), DeadlineSlot(r, r.vehicles[i]))),
      SlotCap(r.siteCapKw, r.DtH()),
      map c | c in r.cpCaps :: r.cpCaps[c] * r.DtH(),
      r.score, r.horizon, r.aware, r.eps, r.tiny)
  }

  lemma SiteBudget(r: Request)
    requires r.dtMin > 0 && r.siteCapKw.Some?
    ensures Prepare(r).siteKwh.Some? && Prepare(r).siteKwh.value == r.siteCapKw.value * r.DtH()
  {
    assert Prepare(r).siteKwh == SlotCap(r.siteCapKw, r.DtH());
  }

  lemma SlotEnergy(maxKw: real, floorKw: real, k: real)
    requires maxKw >= 0.0 && k > 0.0
    ensures maxKw * k >= 0.0 && Min(floorKw, maxKw) * k <= maxKw * k
  {
    TimesMono(Min(floorKw, maxKw), maxKw, k);
  }

  lemma PackValid(v: Vehicle, capKwh: real)
    requires capKwh >= 0.0 && PackOf(v, capKwh).Some?
    ensures CellLaw(PackOf(v, capKwh).value.cell, capKwh) && 0.0 <= PackOf(v, capKwh).value.soc <= 1.0
  {
    BatteryLaw(capKwh, v.batteryKwh.value);
  }

  lemma LoadValid(p: Problem, v: Vehicle, dtH: real, av: nat, dl: int)
    requires v.maxKw >= 0.0 && dtH > 0.0
    ensures var l := LoadOf(v, dtH, av, dl);
            p.LoadOk(l) && (l.pack.Some? ==> p.PackOk(l))
  {
    var l := LoadOf(v, dtH, av, dl);
    SlotEnergy(v.maxKw, v.certifiedFloorKw, dtH);
    assert p.LoadOk(l);
    if l.pack.Some? {
      PackValid(v, l.capKwh);
    }
  }

  lemma PrepareValid(r: Request)
    requires r.Valid()
    ensures Prepare(r).Valid() && Prepare(r).Physical()
  {
    var p := Prepare(r);
    forall i | 0 <= i < |p.loads| ensures p.LoadOk(p.loads[i]) && (p.loads[i].pack.Some? ==> p.PackOk(p.loads[i])) {
      LoadValid(p, r.vehicles[i], r.DtH(), p.loads[i].av, p.loads[i].dl);
    }
    if r.siteCapKw.Some? {
      SlotEnergy(r.siteCapKw.value, 0.0, r.DtH());
    }
    forall c | c in p.cpKwh ensures p.cpKwh[c] >= 0.0 {
      SlotEnergy(r.cpCaps[c], 0.0, r.DtH());
    }
  }

  // ---- what a prepared request says, read from the request alone ----

  lemma QuotientBetween(a: int, b: int)
    requires b > 0
    ensures a / b * b <= a < (a / b + 1) * b
  {
    assert a == a / b * b + a % b;
    assert (a / b + 1) * b == a / b * b + b;
  }

  lemma Multiples(q: int, t: int, b: int)
    requires b > 0
    ensures q <= t <==> q * b <= t * b
  {
    var d := t - q;
    assert d * b == t * b - q * b;
    if d >= 0 {
      MultipleSign(d, b);
    } else {
      MultipleSign(-d - 1, b);
      assert (-d - 1) * b == -(d * b) - b;
    }
  }

  lemma MultipleSign(d: nat, b: int)
    requires b > 0
    ensures d * b >= 0
  {
  }

  lemma FloorBelow(a: int, b: int, t: int)
    requires b > 0
    ensures FloorDiv(a, b) <= t <==> a < (t + 1) * b
  {
    QuotientBetween(a, b);
    Multiples(a / b + 1, t + 1, b);
    Multiples(t + 1, a / b, b);
  }

  lemma CeilAbove(a: int, b: int, t: int)
    requires b > 0
    ensures t < CeilDiv(a, b) <==> t * b < a
  {
    QuotientBetween(-a, b);
    var q := -a / b;
    Multiples(t + 1, -q, b);
    Multiples(-q, t, b);
    assert (t + 1) * b == t * b + b && -q * b == -(q * b) && (q + 1) * b == q * b + b;
  }

  /** `start` is the wall-clock grid point of the slot that holds `now`. */
  ghost predicate GridPoint(start: int, now: int, dtMs: int) {
    dtMs > 0 && start % dtMs == 0 && start <= now < start + dtMs
  }

  /** There is one such point. */
  lemma StartIs(start: int, now: int, dtMs: int)
    requires dtMs > 0
    ensures GridPoint(start, now, dtMs) <==> GridStart(now, dtMs) == start
  {
    QuotientBetween(now, dtMs);
    Cancel(now / dtMs, dtMs);
    if GridPoint(start, now, dtMs) {
      QuotientBetween(start, dtMs);
      Quotient(start / dtMs, now - start, dtMs);
    }
  }

  /** Slot t begins before the deadline and ends after the arrival. */
  ghost predicate DuringStay(v: Vehicle, start: int, dtMs: int, t: int) {
    && (v.deadlineAt.Some? ==> start + t * dtMs < v.deadlineAt.value)
    && (v.arrivalAt.Some? ==> v.arrivalAt.value < start + (t + 1) * dtMs)
  }

  /** A vehicle's window is the slots that overlap its stay, whether or not its instants lie on the grid. */
  lemma WindowIsStay(r: Request, start: int, i: nat, t: nat)
    requires r.dtMin > 0 && GridPoint(start, r.now, r.DtMs()) && i < |r.vehicles| && t < r.horizon
    ensures Prepare(r).InWindow(i, t) <==> DuringStay(r.vehicles[i], start, r.DtMs(), t)
  {
    var v := r.vehicles[i];
    StartIs(start, r.now, r.DtMs());
    if v.deadlineAt.Some? {
      CeilAbove(v.deadlineAt.value - start, r.DtMs(), t);
    }
    if v.arrivalAt.Some? {
      FloorBelow(v.arrivalAt.value - start, r.DtMs(), t);
    }
  }

  /** A power over one slot of dtMin minutes. */
  ghost predicate SlotOf(kwh: real, kw: real, dtMin: int) {
    kwh * 60.0 == kw * dtMin as real
  }

  lemma SlotOfHours(kw: real, dtMin: int, dtH: real)
    requires dtH == dtMin as real / 60.0
    ensures SlotOf(kw * dtH, kw, dtMin)
  {
    assert dtH * 60.0 == dtMin as real;
    assert kw * dtH * 60.0 == kw * (dtH * 60.0);
  }

  /** The battery state a plan may use: a positive capacity and a reference, the conservative one first. */
  ghost predicate ReferenceIs(v: Vehicle, ref: Option<real>) {
    && (ref.Some? <==> v.batteryKwh.Some? && v.batteryKwh.value > 0.0 && (v.socRef.Some? || v.startSoc.Some?))
    && (ref.Some? ==> ref == if v.socRef.Some? then v.socRef else v.startSoc)
  }

  /** The fraction of a full battery nearest to a reference. */
  ghost predicate Nearest(soc: real, ref: real) {
    0.0 <= soc <= 1.0 && (soc > ref ==> soc == 0.0) && (soc < ref ==> soc == 1.0)
  }

  /** Every vehicle, and every cap, in slots and kWh per slot. */
  lemma LoadIs(r: Request, i: nat, ref: Option<real>)
    requires r.dtMin > 0 && i < |r.vehicles| && ReferenceIs(r.vehicles[i], ref)
    ensures var v, l := r.vehicles[i], Prepare(r).loads[i];
            && |Prepare(r).loads| == |r.vehicles| && l.sessionId == v.sessionId && l.cpId == v.cpId
            && SlotOf(l.capKwh, v.maxKw, r.dtMin)
            && (l.floored <==> v.certifiedFloorKw > 0.0)
            && SlotOf(l.floorKwh, if v.certifiedFloorKw <= v.maxKw then v.certifiedFloorKw else v.maxKw, r.dtMin)
            && l.need0 == (if v.remainingKwh > 0.0 then v.remainingKwh else 0.0)
            && (l.pack.Some? <==> ref.Some?)
            && (l.pack.Some? ==> l.pack.value.cell == Battery(l.capKwh, v.batteryKwh.value))
            && (l.pack.Some? ==> Nearest(l.pack.value.soc, ref.value))
  {
    var v := r.vehicles[i];
    SlotOfHours(v.maxKw, r.dtMin, r.DtH());
    SlotOfHours(Min(v.certifiedFloorKw, v.maxKw), r.dtMin, r.DtH());
  }

  lemma CapsAre(r: Request)
    requires r.dtMin > 0
    ensures var p := Prepare(r);
            && (p.siteKwh.Some? <==> r.siteCapKw.Some?)
            && (p.siteKwh.Some? ==> SlotOf(p.siteKwh.value, r.siteCapKw.value, r.dtMin))
            && p.cpKwh.Keys == r.cpCaps.Keys
            && (forall c :: c in r.cpCaps ==> SlotOf(p.cpKwh[c], r.cpCaps[c], r.dtMin))
            && p.score == r.score && p.horizon == r.horizon && p.aware == r.aware && p.eps == r.eps && p.tiny == r.tiny
  {
    if r.siteCapKw.Some? {
      SlotOfHours(r.siteCapKw.value, r.dtMin, r.DtH());
    }
    forall c | c in r.cpCaps ensures SlotOf(Prepare(r).cpKwh[c], r.cpCaps[c], r.dtMin) {
      SlotOfHours(r.cpCaps[c], r.dtMin, r.DtH());
    }
  }
}
