/** The worst-case certificate: what a vehicle is guaranteed out of the power nobody else has been promised. */
module Certifier {
  import opened Reals
  import opened Charging

  /** Hours in one certification interval (15 minutes). */
  const CERT_DTH: real := 0.25
  const CERT_DT_MS: int := 900000

  datatype Verdict = Verdict(
    admitted: bool,
    floorKw: real,
    marginKwh: real,
    worstCaseKwh: real,
    requiredKwh: real,
    slackKwh: real,
    intervals: nat,
    taperAware: bool)

  /** Power left after everybody else's floors; `None` when the site is uncapped. */
  function Residual(siteCapKw: Option<real>, othersKw: real): Option<real> {
    if siteCapKw.None? then None else Some(Max(0.0, siteCapKw.value - othersKw))
  }

  /** Whole intervals before the deadline, at least one; 24 without a deadline. */
  function Intervals(now: int, deadlineAt: Option<int>): (n: nat)
    ensures n >= 1
  {
    var whole := if deadlineAt.None? then DEFAULT_HORIZON
                 else FloorDiv(if deadlineAt.value >= now then deadlineAt.value - now else 0, CERT_DT_MS);
    if whole >= 1 then whole else 1
  }

  /** What the simulation reads of a vehicle; `cell` is its battery with power (kW) in place of slot energy. */
  datatype Subject = Subject(maxKw: real, need: real, cell: Option<Cell>, soc0: real)

  function SubjectOf(v: Vehicle): Subject {
    Subject(v.maxKw, v.remainingKwh, if v.KnownBattery() then Some(Battery(v.maxKw, v.batteryKwh.value)) else None,
            if v.socRef.Some? then v.socRef.value else 0.0)
  }

  ghost predicate Sound(u: Subject) {
    u.maxKw >= 0.0 && (u.cell.Some? ==> CellLaw(u.cell.value, u.maxKw) && u.soc0 <= 1.0)
  }

  /** A state-of-charge reference is a fraction of a full battery. */
  ghost predicate SoundVehicle(v: Vehicle) {
    v.maxKw >= 0.0 && (v.KnownBattery() && v.socRef.Some? ==> v.socRef.value <= 1.0)
  }

  lemma SubjectSound(v: Vehicle)
    requires SoundVehicle(v)
    ensures Sound(SubjectOf(v))
  {
    if v.KnownBattery() {
      BatteryLaw(v.maxKw, v.batteryKwh.value);
    }
  }

  /** Power the vehicle is guaranteed in an interval that starts at `soc`. */
  function RateFrom(u: Subject, residual: Option<real>, soc: real): real {
    Limit(if u.cell.Some? then u.cell.value.accepts(soc) else u.maxKw, residual)
  }

  /** State of charge after an interval that starts at `soc` (unchanged when the battery is unknown). */
  function NextSoc(u: Subject, residual: Option<real>, soc: real): real {
    if u.cell.Some? then Min(1.0, soc + u.cell.value.rise(RateFrom(u, residual, soc) * CERT_DTH)) else soc
  }

  /** Simulated state of charge before interval j (meaningful only for a known battery). */
  function CertSoc(u: Subject, residual: Option<real>, j: nat): real {
    if j == 0 then u.soc0 else NextSoc(u, residual, CertSoc(u, residual, j - 1))
  }

  function CertRate(u: Subject, residual: Option<real>, j: nat): real {
    RateFrom(u, residual, CertSoc(u, residual, j))
  }

  /** Guaranteed energy of the first j intervals. */
  function CertEnergy(u: Subject, residual: Option<real>, j: nat): real {
    if j == 0 then 0.0 else CertEnergy(u, residual, j - 1) + CertRate(u, residual, j - 1) * CERT_DTH
  }

  /** Number of intervals simulated: up to the first one that covers the target. */
  function Simulated(u: Subject, residual: Option<real>, target: real, intervals: nat, j: nat): (k: nat)
    requires 1 <= j <= intervals
    ensures j <= k <= intervals
    decreases intervals - j
  {
    if j == intervals || CertEnergy(u, residual, j) >= target then j
    else Simulated(u, residual, target, intervals, j + 1)
  }

  /** The simulation stops at the first interval that covers the target, or after the last one. */
  lemma {:induction false} SimulatedIs(u: Subject, residual: Option<real>, target: real, intervals: nat, j: nat)
    requires 1 <= j <= intervals
    ensures var k := Simulated(u, residual, target, intervals, j);
            && (k < intervals ==> CertEnergy(u, residual, k) >= target)
            && (forall i :: j <= i < k ==> CertEnergy(u, residual, i) < target)
    decreases intervals - j
  {
    if j < intervals && CertEnergy(u, residual, j) < target {
      SimulatedIs(u, residual, target, intervals, j + 1);
    }
  }

  /** The verdict on a guarantee of `worst` kWh whose last interval ran at `lastRate`, in the three decimals it is
      stored with. */
  function Stored(u: Subject, worst: real, lastRate: real, marginKwh: real, intervals: nat): Verdict {
    var target := u.need + marginKwh;
    Verdict(worst >= target, ToFixed3(lastRate), ToFixed3(marginKwh), ToFixed3(worst),
            ToFixed3(u.need), ToFixed3(worst - target), intervals, u.cell.Some?)
  }

  function VerdictOf(u: Subject, residual: Option<real>, marginKwh: real, intervals: nat, k: nat): Verdict
    requires k >= 1
  {
    Stored(u, CertEnergy(u, residual, k), CertRate(u, residual, k - 1), marginKwh, intervals)
  }

  /** The verdict on a subject: simulate, then store. */
  function Judged(u: Subject, residual: Option<real>, intervals: nat, marginKwh: real): Verdict
    requires intervals >= 1
  {
    VerdictOf(u, residual, marginKwh, intervals, Simulated(u, residual, u.need + marginKwh, intervals, 1))
  }

  function Certify(v: Vehicle, siteCapKw: Option<real>, othersKw: real, now: int, deadlineAt: Option<int>,
      marginKwh: real): Verdict {
    Judged(SubjectOf(v), Residual(siteCapKw, othersKw), Intervals(now, deadlineAt), marginKwh)
  }

  /** The simulation loop: the energy it adds up and the rate of its last interval. */
  method RunIntervals(u: Subject, residual: Option<real>, intervals: nat, target: real)
      returns (worst: real, lastRate: real)
    requires intervals >= 1
    ensures var k := Simulated(u, residual, target, intervals, 1);
            worst == CertEnergy(u, residual, k) && lastRate == CertRate(u, residual, k - 1)
  {
    var soc := u.soc0;
    worst := 0.0;
    lastRate := Limit(u.maxKw, residual);
    var i := 0;
    ghost var k := Simulated(u, residual, target, intervals, 1);
    while i < intervals
      invariant 0 <= i <= intervals
      invariant soc == CertSoc(u, residual, i) && worst == CertEnergy(u, residual, i)
      invariant i > 0 ==> lastRate == CertRate(u, residual, i - 1)
      invariant i > 0 ==> worst < target && k == Simulated(u, residual, target, intervals, i)
    {
      lastRate := RateFrom(u, residual, soc);
      worst := worst + lastRate * CERT_DTH;
      soc := NextSoc(u, residual, soc);
      i := i + 1;
      if worst >= target {
        break;
      }
    }
    assert i == k;
  }

  method Simulate(u: Subject, residual: Option<real>, intervals: nat, marginKwh: real) returns (verdict: Verdict)
    requires intervals >= 1
    ensures verdict == Judged(u, residual, intervals, marginKwh)
  {
    var worst, lastRate := RunIntervals(u, residual, intervals, u.need + marginKwh);
    verdict := Stored(u, worst, lastRate, marginKwh, intervals);
  }

  method CertifyVehicle(v: Vehicle, siteCapKw: Option<real>, othersKw: real, now: int, deadlineAt: Option<int>,
      marginKwh: real)
    returns (verdict: Verdict)
    ensures verdict == Certify(v, siteCapKw, othersKw, now, deadlineAt, marginKwh)
  {
    verdict := Simulate(SubjectOf(v), Residual(siteCapKw, othersKw), Intervals(now, deadlineAt), marginKwh);
  }

  // ---- what the certificate means ----

  lemma RateBounds(u: Subject, residual: Option<real>, j: nat)
    requires Sound(u) && (residual.Some? ==> residual.value >= 0.0)
    ensures 0.0 <= CertRate(u, residual, j) <= u.maxKw
    ensures residual.Some? ==> CertRate(u, residual, j) <= residual.value
  {
  }

  lemma SocRises(u: Subject, residual: Option<real>, j: nat)
    requires Sound(u) && u.cell.Some? && (residual.Some? ==> residual.value >= 0.0)
    ensures CertSoc(u, residual, j) <= CertSoc(u, residual, j + 1) <= 1.0
  {
    RateBounds(u, residual, j);
    var kwh := CertRate(u, residual, j) * CERT_DTH;
    assert Climbs(u.cell.value, 0.0, kwh);
  }

  lemma {:induction false} SocMonotone(u: Subject, residual: Option<real>, i: nat, j: nat)
    requires Sound(u) && u.cell.Some? && (residual.Some? ==> residual.value >= 0.0) && i <= j
    ensures CertSoc(u, residual, i) <= CertSoc(u, residual, j)
    decreases j
  {
    if i < j {
      SocMonotone(u, residual, i, j - 1);
      SocRises(u, residual, j - 1);
    }
  }

  /** The guaranteed power never rises again: the last simulated rate is the smallest. */
  lemma RateNonIncreasing(u: Subject, residual: Option<real>, i: nat, j: nat)
    requires Sound(u) && (residual.Some? ==> residual.value >= 0.0) && i <= j
    ensures CertRate(u, residual, j) <= CertRate(u, residual, i)
  {
    if u.cell.Some? {
      SocMonotone(u, residual, i, j);
      assert Falls(u.cell.value, CertSoc(u, residual, i), CertSoc(u, residual, j));
    }
  }

  lemma {:induction false} EnergyMonotone(u: Subject, residual: Option<real>, i: nat, j: nat)
    requires Sound(u) && (residual.Some? ==> residual.value >= 0.0) && i <= j
    ensures CertEnergy(u, residual, i) <= CertEnergy(u, residual, j)
    decreases j
  {
    if i < j {
      EnergyMonotone(u, residual, i, j - 1);
      RateBounds(u, residual, j - 1);
    }
  }

  /** A verdict in terms of the k intervals it simulated. */
  lemma JudgedMeans(u: Subject, residual: Option<real>, intervals: nat, marginKwh: real) returns (k: nat)
    requires intervals >= 1
    ensures k == Simulated(u, residual, u.need + marginKwh, intervals, 1)
    ensures 1 <= k <= intervals && (k < intervals ==> CertEnergy(u, residual, k) >= u.need + marginKwh)
    ensures var verdict := Judged(u, residual, intervals, marginKwh);
            && (verdict.admitted <==> CertEnergy(u, residual, k) >= u.need + marginKwh)
            && verdict.floorKw == ToFixed3(CertRate(u, residual, k - 1))
  {
    k := Simulated(u, residual, u.need + marginKwh, intervals, 1);
    SimulatedIs(u, residual, u.need + marginKwh, intervals, 1);
  }

  lemma JudgedIff(u: Subject, residual: Option<real>, intervals: nat, marginKwh: real)
    requires Sound(u) && intervals >= 1 && (residual.Some? ==> residual.value >= 0.0)
    ensures Judged(u, residual, intervals, marginKwh).admitted
      <==> CertEnergy(u, residual, intervals) >= u.need + marginKwh
  {
    var k := JudgedMeans(u, residual, intervals, marginKwh);
    EnergyMonotone(u, residual, k, intervals);
  }

  /** A vehicle is admitted exactly when the guarantee over all its intervals covers need and margin. */
  lemma AdmittedIff(v: Vehicle, siteCapKw: Option<real>, othersKw: real, now: int, deadlineAt: Option<int>,
      marginKwh: real)
    requires SoundVehicle(v)
    ensures Certify(v, siteCapKw, othersKw, now, deadlineAt, marginKwh).admitted <==>
      CertEnergy(SubjectOf(v), Residual(siteCapKw, othersKw), Intervals(now, deadlineAt))
        >= v.remainingKwh + marginKwh
  {
    SubjectSound(v);
    JudgedIff(SubjectOf(v), Residual(siteCapKw, othersKw), Intervals(now, deadlineAt), marginKwh);
  }

  /** Without a battery state the guarantee is flat: k intervals at one rate. */
  lemma {:induction false} FlatGuarantee(u: Subject, residual: Option<real>, k: nat)
    requires u.cell.None?
    ensures CertEnergy(u, residual, k) == Times(Limit(u.maxKw, residual) * CERT_DTH, k)
  {
    if k > 0 {
      FlatGuarantee(u, residual, k - 1);
    }
  }

  // ---- the certificate as a course of intervals ----

  /** n quarter-hours fit before the deadline (one, if not even two do); without a deadline there are 24. */
  ghost predicate QuartersTo(now: int, deadlineAt: Option<int>, n: nat) {
    if deadlineAt.None? then n == 24
    else if deadlineAt.value - now < 1800000 then n == 1
    else n * 900000 <= deadlineAt.value - now < (n + 1) * 900000
  }

  lemma IntervalsAre(now: int, deadlineAt: Option<int>)
    ensures QuartersTo(now, deadlineAt, Intervals(now, deadlineAt))
  {
    if deadlineAt.Some? && deadlineAt.value >= now {
      QuotientBetween(deadlineAt.value - now, CERT_DT_MS);
    }
  }

  /** The rate is the lesser of what the vehicle takes and what the others leave. */
  ghost predicate Guaranteed(rate: real, takes: real, capKw: Option<real>, othersKw: real) {
    if capKw.None? then rate == takes
    else
      var left := if capKw.value > othersKw then capKw.value - othersKw else 0.0;
      rate <= takes && rate <= left && rate in {takes, left}
  }

  /** The course of a vehicle whose battery state is known: it starts at the reference (an empty battery without one),
      takes what its battery accepts, and fills by a quarter of an hour of each rate. */
  ghost predicate BatteryCourse(v: Vehicle, capKw: Option<real>, othersKw: real, rates: seq<real>, socs: seq<real>)
    requires v.KnownBattery()
  {
    && |socs| == |rates| + 1 && socs[0] == (if v.socRef.Some? then v.socRef.value else 0.0)
    && forall j :: 0 <= j < |rates| ==>
         Guaranteed(rates[j], Battery(v.maxKw, v.batteryKwh.value).accepts(socs[j]), capKw, othersKw)
           && socs[j + 1] == Min(1.0, socs[j] + rates[j] * 0.25 / v.batteryKwh.value)
  }

  ghost predicate FlatCourse(v: Vehicle, capKw: Option<real>, othersKw: real, rates: seq<real>) {
    forall j :: 0 <= j < |rates| ==> Guaranteed(rates[j], v.maxKw, capKw, othersKw)
  }

  ghost predicate Course(v: Vehicle, capKw: Option<real>, othersKw: real, rates: seq<real>, socs: seq<real>) {
    if v.KnownBattery() then BatteryCourse(v, capKw, othersKw, rates, socs) else FlatCourse(v, capKw, othersKw, rates)
  }

  /** The course ends with the first interval that covers the target, or with the last of n. */
  ghost predicate EndsAt(rates: seq<real>, target: real, n: nat) {
    && 1 <= |rates| <= n && (|rates| < n ==> Sum(rates) * 0.25 >= target)
    && forall m :: 1 <= m < |rates| ==> Sum(rates[..m]) * 0.25 < target
  }

  lemma {:induction false} EnergyIsSum(u: Subject, residual: Option<real>, rates: seq<real>, m: nat)
    requires m <= |rates| && forall j :: 0 <= j < |rates| ==> rates[j] == CertRate(u, residual, j)
    ensures Sum(rates[..m]) * 0.25 == CertEnergy(u, residual, m)
  {
    if m > 0 {
      EnergyIsSum(u, residual, rates, m - 1);
      assert rates[..m][..m - 1] == rates[..m - 1];
    }
  }

  lemma CourseIs(v: Vehicle, capKw: Option<real>, othersKw: real, k: nat) returns (rates: seq<real>, socs: seq<real>)
    ensures |rates| == k && Course(v, capKw, othersKw, rates, socs)
    ensures forall j :: 0 <= j < k ==> rates[j] == CertRate(SubjectOf(v), Residual(capKw, othersKw), j)
  {
    var u, residual := SubjectOf(v), Residual(capKw, othersKw);
    rates := seq(k, j requires 0 <= j < k => CertRate(u, residual, j));
    socs := seq(k + 1, j requires 0 <= j < k + 1 => CertSoc(u, residual, j));
  }

  lemma CourseEnds(u: Subject, residual: Option<real>, rates: seq<real>, target: real, n: nat)
    requires n >= 1 && |rates| == Simulated(u, residual, target, n, 1)
    requires forall j :: 0 <= j < |rates| ==> rates[j] == CertRate(u, residual, j)
    ensures EndsAt(rates, target, n) && Sum(rates) * 0.25 == CertEnergy(u, residual, |rates|)
  {
    SimulatedIs(u, residual, target, n, 1);
    EnergyIsSum(u, residual, rates, |rates|);
    assert rates[..|rates|] == rates;
    forall m | 1 <= m < |rates| ensures Sum(rates[..m]) * 0.25 < target {
      EnergyIsSum(u, residual, rates, m);
    }
  }

  /** The verdict on a course: admitted exactly when its energy covers need and margin, with the last rate as the
      promised floor, in three decimals. */
  ghost predicate VerdictOn(v: Vehicle, rates: seq<real>, n: nat, marginKwh: real, verdict: Verdict) {
    && |rates| > 0 && var worst, target := Sum(rates) * 0.25, v.remainingKwh + marginKwh;
    && (verdict.admitted <==> worst >= target) && verdict.floorKw == ToFixed3(rates[|rates| - 1])
    && verdict.worstCaseKwh == ToFixed3(worst) && verdict.slackKwh == ToFixed3(worst - target)
    && verdict.requiredKwh == ToFixed3(v.remainingKwh) && verdict.marginKwh == ToFixed3(marginKwh)
    && verdict.intervals == n && (verdict.taperAware <==> v.KnownBattery())
  }

  lemma StoredVerdict(v: Vehicle, rates: seq<real>, n: nat, marginKwh: real, worst: real)
    requires |rates| > 0 && worst == Sum(rates) * 0.25
    ensures VerdictOn(v, rates, n, marginKwh, Stored(SubjectOf(v), worst, rates[|rates| - 1], marginKwh, n))
  {
  }

  /** A certificate is the verdict on the vehicle's course over the quarter-hours to its deadline. */
  lemma CertificateIs(v: Vehicle, capKw: Option<real>, othersKw: real, now: int, deadlineAt: Option<int>,
      marginKwh: real)
    returns (n: nat, rates: seq<real>, socs: seq<real>)
    ensures QuartersTo(now, deadlineAt, n) && Course(v, capKw, othersKw, rates, socs)
    ensures EndsAt(rates, v.remainingKwh + marginKwh, n)
    ensures VerdictOn(v, rates, n, marginKwh, Certify(v, capKw, othersKw, now, deadlineAt, marginKwh))
  {
    n := Intervals(now, deadlineAt);
    IntervalsAre(now, deadlineAt);
    var u, residual, target := SubjectOf(v), Residual(capKw, othersKw), v.remainingKwh + marginKwh;
    var k := Simulated(u, residual, target, n, 1);
    rates, socs := CourseIs(v, capKw, othersKw, k);
    CourseEnds(u, residual, rates, target, n);
    StoredVerdict(v, rates, n, marginKwh, CertEnergy(u, residual, k));
  }

  // ---- whole watts ----

  function Watts(n: int): real {
    n as real / 1000.0
  }

  /** A power with no fraction of a watt, so that three decimals of a kW represent it. */
  ghost predicate WholeWatts(kw: real) {
    exists n :: kw == Watts(n)
  }

  /** Three decimals of a kW do not round this power up. */
  predicate RoundsDown(kw: real) {
    ToFixed3(kw) <= kw
  }

  lemma RoundMonotone(a: real, b: real)
    requires a <= b
    ensures RoundHalfUp(a) <= RoundHalfUp(b)
  {
  }

  lemma ToFixedWatts(kw: real)
    requires kw >= 0.0
    ensures ToFixed3(kw) == Watts(RoundHalfUp(kw * 1000.0)) >= 0.0
    ensures kw - 0.0005 <= ToFixed3(kw)
  {
  }

  /** Rounding a power to three decimals stays below every bound that does not itself round up. */
  lemma RoundedPower(kw: real, boundKw: real)
    requires 0.0 <= kw <= boundKw && RoundsDown(boundKw)
    ensures 0.0 <= ToFixed3(kw) <= boundKw && WholeWatts(ToFixed3(kw))
  {
    ToFixedWatts(kw);
    ToFixedWatts(boundKw);
    RoundMonotone(kw * 1000.0, boundKw * 1000.0);
  }

  lemma WholeWattsExact(kw: real)
    requires kw >= 0.0 && WholeWatts(kw)
    ensures ToFixed3(kw) == kw
  {
    ToFixedWatts(kw);
    var n :| kw == Watts(n);
    assert kw * 1000.0 == n as real;
    RoundWhole(n);
  }

  lemma RoundShift(a: real, n: int)
    ensures RoundHalfUp(a - n as real) == RoundHalfUp(a) - n
  {
  }

  /** Taking whole watts away does not change the way a power rounds. */
  lemma RoundsDownMinus(kw: real, n: int)
    requires kw - Watts(n) >= 0.0 && kw >= 0.0 && RoundsDown(kw)
    ensures RoundsDown(kw - Watts(n))
  {
    ToFixedWatts(kw);
    ToFixedWatts(kw - Watts(n));
    assert (kw - Watts(n)) * 1000.0 == kw * 1000.0 - n as real;
    RoundShift(kw * 1000.0, n);
    WattsMinus(RoundHalfUp(kw * 1000.0), n);
  }

  lemma WattsMinus(m: int, n: int)
    ensures Watts(m - n) == Watts(m) - Watts(n)
  {
  }

  lemma WholeWattsPlus(a: real, b: real)
    requires WholeWatts(a) && WholeWatts(b)
    ensures WholeWatts(a + b)
  {
    var m :| a == Watts(m);
    var n :| b == Watts(n);
    assert a + b == Watts(m + n);
  }

  lemma {:induction false} SumWholeWatts(a: seq<real>)
    requires forall j :: 0 <= j < |a| ==> WholeWatts(a[j])
    ensures WholeWatts(Sum(a))
  {
    if a == [] {
      assert 0.0 == Watts(0);
    } else {
      SumWholeWatts(a[..|a| - 1]);
      WholeWattsPlus(Sum(a[..|a| - 1]), a[|a| - 1]);
    }
  }

  /** The rounded floor of a verdict is whole watts and fits into a residual that does not round up. */
  lemma JudgedFits(u: Subject, residual: Option<real>, intervals: nat, marginKwh: real)
    requires Sound(u) && intervals >= 1 && (residual.Some? ==> residual.value >= 0.0 && RoundsDown(residual.value))
    ensures var floorKw := Judged(u, residual, intervals, marginKwh).floorKw;
            0.0 <= floorKw && WholeWatts(floorKw) && (residual.Some? ==> floorKw <= residual.value)
  {
    var k := JudgedMeans(u, residual, intervals, marginKwh);
    RateBounds(u, residual, k - 1);
    ToFixedWatts(CertRate(u, residual, k - 1));
    if residual.Some? {
      RoundedPower(CertRate(u, residual, k - 1), residual.value);
    }
  }

  /** A floor granted on top of whole-watt floors is whole watts and fits into what they leave. */
  lemma GrantFits(v: Vehicle, capKw: Option<real>, othersKw: real, now: int, marginKwh: real)
    requires SoundVehicle(v) && WholeWatts(othersKw)
    requires capKw.Some? ==> 0.0 <= capKw.value && RoundsDown(capKw.value)
    ensures var floorKw := Certify(v, capKw, othersKw, now, v.deadlineAt, marginKwh).floorKw;
            && 0.0 <= floorKw && WholeWatts(floorKw)
            && (capKw.Some? ==> floorKw <= Max(0.0, capKw.value - othersKw))
  {
    SubjectSound(v);
    if capKw.Some? {
      ResidualRounds(capKw.value, othersKw);
    }
    JudgedFits(SubjectOf(v), Residual(capKw, othersKw), Intervals(now, v.deadlineAt), marginKwh);
  }

  /** No floor is negative, and every floor is whole watts. */
  lemma GrantNonneg(v: Vehicle, capKw: Option<real>, othersKw: real, now: int, marginKwh: real)
    requires SoundVehicle(v)
    ensures var floorKw := Certify(v, capKw, othersKw, now, v.deadlineAt, marginKwh).floorKw;
            0.0 <= floorKw && WholeWatts(floorKw)
  {
    SubjectSound(v);
    var residual := Residual(capKw, othersKw);
    var k := JudgedMeans(SubjectOf(v), residual, Intervals(now, v.deadlineAt), marginKwh);
    RateBounds(SubjectOf(v), residual, k - 1);
    ToFixedWatts(CertRate(SubjectOf(v), residual, k - 1));
  }

  lemma ResidualRounds(capKw: real, othersKw: real)
    requires capKw >= 0.0 && RoundsDown(capKw) && WholeWatts(othersKw)
    ensures RoundsDown(Max(0.0, capKw - othersKw))
  {
    if capKw > othersKw {
      var n :| othersKw == Watts(n);
      RoundsDownMinus(capKw, n);
    } else {
      assert 0.0 == Watts(0);
      WholeWattsExact(0.0);
    }
  }
}
