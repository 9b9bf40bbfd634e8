/** The plan cycle: certify every active vehicle, then schedule under the reserved cap. */
module Controller {
  import opened Reals
  import opened Ordering
  import opened Charging
  import opened Allocator
  import opened Invariants
  import opened Promise
  import opened Certifier

  datatype Status = ACTIVE | ERODED | FAILED | MET

  /** A certificate row; its id is its position in the log. */
  datatype Cert = Cert(sessionId: int, floorKw: real, status: Status)

  /** One line of the certification report. */
  datatype Issued = Issued(sessionId: int, status: Status, reused: bool)

  /** What one certification run reads and writes: the vehicles (with their floors), the certificate log, the report. */
  datatype Site = Site(vehicles: seq<Vehicle>, certs: seq<Cert>, issued: seq<Issued>)

  /** The session's certificate with the highest id. */
  function Latest(certs: seq<Cert>, sessionId: int): Option<Cert> {
    if certs == [] then None
    else if certs[|certs| - 1].sessionId == sessionId then Some(certs[|certs| - 1])
    else Latest(certs[..|certs| - 1], sessionId)
  }

  function Floors(vehicles: seq<Vehicle>): seq<real> {
    seq(|vehicles|, j requires 0 <= j < |vehicles| => vehicles[j].certifiedFloorKw)
  }

  /** The floors of everybody but vehicle i. */
  function OthersKw(vehicles: seq<Vehicle>, i: nat): real
    requires i < |vehicles|
  {
    Sum(Floors(vehicles)[i := 0.0])
  }

  /** How a vehicle is judged, given the floors everybody else has been promised. */
  type Judge = (Vehicle, real) -> Verdict

  function CertifierFor(capKw: Option<real>, now: int, marginKwh: real): Judge {
    (v: Vehicle, othersKw: real) => Certify(v, capKw, othersKw, now, v.deadlineAt, marginKwh)
  }

  /** One vehicle's turn. */
  function CertifyOne(s: Site, i: nat, judge: Judge): (r: Site)
    requires i < |s.vehicles|
    ensures |r.vehicles| == |s.vehicles|
  {
    var v := s.vehicles[i];
    var prior := Latest(s.certs, v.sessionId);
    if prior.Some? && prior.value.status in {ACTIVE, ERODED} then
      s.(issued := s.issued + [Issued(v.sessionId, prior.value.status, true)])
    else
      var verdict := judge(v, OthersKw(s.vehicles, i));
      if prior.Some? && prior.value.status == FAILED && !verdict.admitted then
        s.(issued := s.issued + [Issued(v.sessionId, FAILED, true)])
      else
        var status := if verdict.admitted then ACTIVE else FAILED;
        Site(if verdict.admitted then s.vehicles[i := v.(certifiedFloorKw := verdict.floorKw)] else s.vehicles,
             s.certs + [Cert(v.sessionId, verdict.floorKw, status)],
             s.issued + [Issued(v.sessionId, status, false)])
  }

  ghost predicate InSite(s: Site, order: seq<nat>) {
    forall k :: 0 <= k < |order| ==> order[k] < |s.vehicles|
  }

  function CertifyPass(s: Site, order: seq<nat>, judge: Judge, k: nat): (r: Site)
    requires InSite(s, order) && k <= |order|
    ensures |r.vehicles| == |s.vehicles|
  {
    if k == 0 then s else CertifyOne(CertifyPass(s, order, judge, k - 1), order[k - 1], judge)
  }

  function IdKeys(vehicles: seq<Vehicle>): (keys: seq<Key>)
    ensures |keys| == |vehicles|
  {
    seq(|vehicles|, i requires 0 <= i < |vehicles| => (0.0, vehicles[i].sessionId))
  }

  function IdOrder(vehicles: seq<Vehicle>): (order: seq<nat>)
    ensures forall k :: 0 <= k < |order| ==> order[k] < |vehicles|
  {
    SortBy(IdKeys(vehicles), Upto(|vehicles|))
  }

  function CertifySite(s: Site, judge: Judge): (r: Site)
    ensures |r.vehicles| == |s.vehicles|
  {
    CertifyPass(s, IdOrder(s.vehicles), judge, |IdOrder(s.vehicles)|)
  }

  /** The certificate log of the store, and the run over it. */
  class ControlStore {
    var certificates: seq<Cert>

    constructor ()
      ensures certificates == []
    {
      certificates := [];
    }

    method LatestCertFor(sessionId: int) returns (best: Option<Cert>)
      ensures best == Latest(certificates, sessionId)
    {
      best := None;
      for id := 0 to |certificates|
        invariant best == Latest(certificates[..id], sessionId)
      {
        assert certificates[..id + 1][..id] == certificates[..id];
        if certificates[id].sessionId == sessionId {
          best := Some(certificates[id]);
        }
      }
      assert certificates[..|certificates|] == certificates;
    }

    method OthersFloor(vehicles: array<Vehicle>, i: nat) returns (kw: real)
      requires i < vehicles.Length
      ensures kw == OthersKw(vehicles[..], i)
    {
      kw := 0.0;
      ghost var terms := Floors(vehicles[..])[i := 0.0];
      for j := 0 to vehicles.Length
        invariant kw == Sum(terms[..j])
      {
        assert terms[..j + 1] == terms[..j] + [terms[j]];
        SumPush(terms[..j], terms[j]);
        if j != i {
          kw := kw + vehicles[j].certifiedFloorKw;
        }
      }
      assert terms[..vehicles.Length] == terms;
    }

    /** One vehicle's turn, with its own judge looked up only when the log does not settle the matter. */
    method CertifyTurn(vehicles: array<Vehicle>, i: nat, issued: seq<Issued>, capKw: Option<real>, now: int,
        marginKwh: real)
      returns (lines: seq<Issued>)
      requires i < vehicles.Length
      modifies this, vehicles
      ensures Site(vehicles[..], certificates, lines)
              == CertifyOne(Site(old(vehicles[..]), old(certificates), issued), i, CertifierFor(capKw, now, marginKwh))
    {
      ghost var judge := CertifierFor(capKw, now, marginKwh);
      var v := vehicles[i];
      var prior := LatestCertFor(v.sessionId);
      if prior.Some? && (prior.value.status == ACTIVE || prior.value.status == ERODED) {
        lines := issued + [Issued(v.sessionId, prior.value.status, true)];
      } else {
        var others := OthersFloor(vehicles, i);
        var verdict := CertifyVehicle(v, capKw, others, now, v.deadlineAt, marginKwh);
        assert verdict == judge(v, others);
        if prior.Some? && prior.value.status == FAILED && !verdict.admitted {
          lines := issued + [Issued(v.sessionId, FAILED, true)];
        } else {
          var status := if verdict.admitted then ACTIVE else FAILED;
          certificates := certificates + [Cert(v.sessionId, verdict.floorKw, status)];
          if verdict.admitted {
            vehicles[i] := v.(certifiedFloorKw := verdict.floorKw);
          }
          lines := issued + [Issued(v.sessionId, status, false)];
        }
      }
    }

    /** certifySite: every vehicle in session order, the promise written back where the scheduler reads it. */
    method CertifyVehicles(vehicles: array<Vehicle>, capKw: Option<real>, now: int, marginKwh: real)
        returns (issued: seq<Issued>)
      modifies this, vehicles
      ensures Site(vehicles[..], certificates, issued)
              == CertifySite(Site(old(vehicles[..]), old(certificates), []), CertifierFor(capKw, now, marginKwh))
    {
      issued := [];
      var order := IdOrder(vehicles[..]);
      ghost var start := Site(vehicles[..], certificates, []);
      ghost var judge := CertifierFor(capKw, now, marginKwh);
      for k := 0 to |order|
        invariant Site(vehicles[..], certificates, issued) == CertifyPass(start, order, judge, k)
      {
        issued := CertifyTurn(vehicles, order[k], issued, capKw, now, marginKwh);
      }
    }
  }

  // ---- the key invariant: floors never oversubscribe the usable cap ----

  /** Floors are whole watts, not negative, and fit under the cap together. */
  ghost predicate UnderCap(vehicles: seq<Vehicle>, capKw: Option<real>) {
    && (forall j :: 0 <= j < |vehicles| ==>
         vehicles[j].certifiedFloorKw >= 0.0 && WholeWatts(vehicles[j].certifiedFloorKw))
    && (capKw.Some? ==> Sum(Floors(vehicles)) <= capKw.value)
  }

  ghost predicate SoundFleet(vehicles: seq<Vehicle>) {
    forall j :: 0 <= j < |vehicles| ==> SoundVehicle(vehicles[j])
  }

  /** A judge that grants whole watts within what whole-watt promises have left of the cap. */
  ghost predicate Prudent(judge: Judge, capKw: Option<real>) {
    forall v, othersKw :: SoundVehicle(v) && WholeWatts(othersKw)
      ==> Affordable(judge(v, othersKw).floorKw, capKw, othersKw)
  }

  ghost predicate Affordable(floorKw: real, capKw: Option<real>, othersKw: real) {
    floorKw >= 0.0 && WholeWatts(floorKw) && (capKw.Some? ==> floorKw <= Max(0.0, capKw.value - othersKw))
  }

  lemma CertifierPrudent(capKw: Option<real>, now: int, marginKwh: real)
    requires capKw.Some? ==> 0.0 <= capKw.value && RoundsDown(capKw.value)
    ensures Prudent(CertifierFor(capKw, now, marginKwh), capKw)
  {
    var judge := CertifierFor(capKw, now, marginKwh);
    forall v, othersKw | SoundVehicle(v) && WholeWatts(othersKw)
      ensures Affordable(judge(v, othersKw).floorKw, capKw, othersKw) {
      GrantFits(v, capKw, othersKw, now, marginKwh);
    }
  }

  /** The others' floors are whole watts and leave room for vehicle i's own floor. */
  lemma OthersWhole(vehicles: seq<Vehicle>, i: nat, capKw: Option<real>)
    requires UnderCap(vehicles, capKw) && i < |vehicles|
    ensures WholeWatts(OthersKw(vehicles, i)) && (capKw.Some? ==> OthersKw(vehicles, i) <= capKw.value)
  {
    var floors := Floors(vehicles);
    SumUpdate(floors, i, 0.0);
    assert 0.0 == Watts(0);
    SumWholeWatts(floors[i := 0.0]);
  }

  lemma CertifyOneKeeps(s: Site, i: nat, judge: Judge, capKw: Option<real>)
    requires UnderCap(s.vehicles, capKw) && i < |s.vehicles| && SoundVehicle(s.vehicles[i]) && Prudent(judge, capKw)
    ensures UnderCap(CertifyOne(s, i, judge).vehicles, capKw)
  {
    var others := OthersKw(s.vehicles, i);
    var verdict := judge(s.vehicles[i], others);
    OthersWhole(s.vehicles, i, capKw);
    assert Affordable(verdict.floorKw, capKw, others);
    var r := CertifyOne(s, i, judge);
    if r.vehicles != s.vehicles {
      var floors := Floors(s.vehicles);
      assert Floors(r.vehicles) == floors[i := 0.0][i := verdict.floorKw];
      SumUpdate(floors[i := 0.0], i, verdict.floorKw);
    }
  }

  /** The fields of a vehicle other than its floor never change. */
  ghost predicate SameFleet(a: seq<Vehicle>, b: seq<Vehicle>) {
    |a| == |b| && forall j :: 0 <= j < |a| ==> b[j] == a[j].(certifiedFloorKw := b[j].certifiedFloorKw)
  }

  lemma CertifyOneFleet(a: seq<Vehicle>, s: Site, i: nat, judge: Judge)
    requires SameFleet(a, s.vehicles) && i < |a|
    ensures SameFleet(a, CertifyOne(s, i, judge).vehicles)
  {
  }

  lemma {:induction false} CertifyPassFleet(s: Site, order: seq<nat>, judge: Judge, k: nat)
    requires InSite(s, order) && k <= |order|
    ensures SameFleet(s.vehicles, CertifyPass(s, order, judge, k).vehicles)
    decreases k
  {
    if k > 0 {
      CertifyPassFleet(s, order, judge, k - 1);
      CertifyOneFleet(s.vehicles, CertifyPass(s, order, judge, k - 1), order[k - 1], judge);
    }
  }

  ghost predicate NonnegFleet(vehicles: seq<Vehicle>) {
    forall j :: 0 <= j < |vehicles| ==> vehicles[j].certifiedFloorKw >= 0.0
  }

  /** A judge that never grants a negative floor. */
  ghost predicate Granting(judge: Judge) {
    forall v, othersKw :: SoundVehicle(v) ==> judge(v, othersKw).floorKw >= 0.0
  }

  lemma CertifierGrants(capKw: Option<real>, now: int, marginKwh: real)
    ensures Granting(CertifierFor(capKw, now, marginKwh))
  {
    var judge := CertifierFor(capKw, now, marginKwh);
    forall v, othersKw | SoundVehicle(v) ensures judge(v, othersKw).floorKw >= 0.0 {
      GrantNonneg(v, capKw, othersKw, now, marginKwh);
    }
  }

  lemma CertifyOneNonneg(s: Site, i: nat, judge: Judge)
    requires NonnegFleet(s.vehicles) && i < |s.vehicles| && SoundVehicle(s.vehicles[i]) && Granting(judge)
    ensures NonnegFleet(CertifyOne(s, i, judge).vehicles)
  {
    assert judge(s.vehicles[i], OthersKw(s.vehicles, i)).floorKw >= 0.0;
  }

  /** Whatever the cap is, no floor turns negative in a run. */
  lemma {:induction false} CertifyNonneg(s: Site, order: seq<nat>, judge: Judge, k: nat)
    requires NonnegFleet(s.vehicles) && SoundFleet(s.vehicles) && Granting(judge)
    requires InSite(s, order) && k <= |order|
    ensures NonnegFleet(CertifyPass(s, order, judge, k).vehicles)
    decreases k
  {
    if k > 0 {
      CertifyNonneg(s, order, judge, k - 1);
      CertifyPassFleet(s, order, judge, k - 1);
      assert SoundVehicle(s.vehicles[order[k - 1]]);
      CertifyOneNonneg(CertifyPass(s, order, judge, k - 1), order[k - 1], judge);
    }
  }

  /** Certifying a site never promises more power than it may use, at any point of the run. */
  lemma {:induction false} CertifyKeepsCap(s: Site, order: seq<nat>, judge: Judge, capKw: Option<real>, k: nat)
    requires UnderCap(s.vehicles, capKw) && SoundFleet(s.vehicles) && Prudent(judge, capKw)
    requires InSite(s, order) && k <= |order|
    ensures var r := CertifyPass(s, order, judge, k);
            UnderCap(r.vehicles, capKw) && SameFleet(s.vehicles, r.vehicles)
    decreases k
  {
    if k > 0 {
      CertifyKeepsCap(s, order, judge, capKw, k - 1);
      var m := CertifyPass(s, order, judge, k - 1);
      var i := order[k - 1];
      assert SoundVehicle(s.vehicles[i]);
      CertifyOneKeeps(m, i, judge, capKw);
      CertifyOneFleet(s.vehicles, m, i, judge);
    }
  }

  /** A site nobody has been promised anything on yet. */
  ghost predicate Unpromised(s: Site) {
    SoundFleet(s.vehicles) && forall j :: 0 <= j < |s.vehicles| ==> s.vehicles[j].certifiedFloorKw == 0.0
  }

  ghost predicate CapKept(s: Site, capKw: real, now: int, marginKwh: real) {
    Sum(Floors(CertifySite(s, CertifierFor(Some(capKw), now, marginKwh)).vehicles)) <= capKw
  }

  /** The caps that certification can never oversubscribe are exactly those that three decimals do not round up. */
  lemma CapKeptIff(capKw: real, now: int)
    requires capKw >= 0.0
    ensures RoundsDown(capKw) <==> forall s, marginKwh :: Unpromised(s) ==> CapKept(s, capKw, now, marginKwh)
  {
    if RoundsDown(capKw) {
      forall s, marginKwh | Unpromised(s) ensures CapKept(s, capKw, now, marginKwh) {
        FreshSiteKept(s, capKw, now, marginKwh);
      }
    } else {
      var s := LoneVehicle(capKw);
      LoneVehicleBreaks(capKw, now);
      assert Unpromised(s) && !CapKept(s, capKw, now, 0.0);
    }
  }

  lemma FreshSiteKept(s: Site, capKw: real, now: int, marginKwh: real)
    requires capKw >= 0.0 && RoundsDown(capKw) && Unpromised(s)
    ensures CapKept(s, capKw, now, marginKwh)
  {
    CertifierPrudent(Some(capKw), now, marginKwh);
    assert 0.0 == Watts(0);
    SumZero(Floors(s.vehicles));
    CertifyKeepsCap(s, IdOrder(s.vehicles), CertifierFor(Some(capKw), now, marginKwh), Some(capKw),
      |IdOrder(s.vehicles)|);
  }

  /** One vehicle that needs nothing and could take the whole cap. */
  function LoneVehicle(capKw: real): Site {
    Site([Vehicle(1, 1, capKw, 0.0, 0.0, None, None, None, None, None)], [], [])
  }

  /** Certifying a site of one vehicle is that vehicle's turn, with nobody else to consider. */
  lemma LoneCertified(v: Vehicle, judge: Judge)
    ensures var s := Site([v], [], []);
            IdOrder(s.vehicles) == [0] && OthersKw(s.vehicles, 0) == 0.0
              && CertifySite(s, judge) == CertifyOne(s, 0, judge)
  {
    var s := Site([v], [], []);
    assert Floors(s.vehicles)[0 := 0.0] == [0.0];
    assert OthersKw(s.vehicles, 0) == Sum([]) + 0.0;
    SortIsPermutation(IdKeys(s.vehicles), 1);
    assert 0 in IdOrder(s.vehicles);
    assert IdOrder(s.vehicles) == [0];
    assert CertifyPass(s, [0], judge, 1) == CertifyOne(CertifyPass(s, [0], judge, 0), 0, judge);
  }

  lemma LoneVehicleBreaks(capKw: real, now: int)
    requires capKw >= 0.0 && !RoundsDown(capKw)
    ensures !CapKept(LoneVehicle(capKw), capKw, now, 0.0)
  {
    var s := LoneVehicle(capKw);
    var judge := CertifierFor(Some(capKw), now, 0.0);
    var verdict := LoneVerdict(s.vehicles[0], capKw, now);
    LoneCertified(s.vehicles[0], judge);
    var r := CertifySite(s, judge);
    assert Floors(r.vehicles) == [verdict.floorKw];
    assert Sum([verdict.floorKw]) == Sum([]) + verdict.floorKw;
  }

  lemma LoneVerdict(v: Vehicle, capKw: real, now: int) returns (verdict: Verdict)
    requires v == Vehicle(1, 1, capKw, 0.0, 0.0, None, None, None, None, None) && capKw >= 0.0
    ensures verdict == CertifierFor(Some(capKw), now, 0.0)(v, 0.0)
    ensures verdict.admitted && verdict.floorKw == ToFixed3(capKw)
  {
    verdict := Certify(v, Some(capKw), 0.0, now, None, 0.0);
    var residual := Residual(Some(capKw), 0.0);
    var k := JudgedMeans(SubjectOf(v), residual, Intervals(now, None), 0.0);
    EnergyMonotone(SubjectOf(v), residual, 0, k);
    assert CertRate(SubjectOf(v), residual, k - 1) == capKw;
  }

  // ---- planSite ----

  function UsableCap(capRaw: Option<real>, reserve: real): Option<real> {
    if capRaw.None? then None else Some(capRaw.value * (1.0 - reserve))
  }

  /** Every charge point of the site may use the whole (unreserved) site cap. */
  function CpCaps(vehicles: seq<Vehicle>, capRaw: Option<real>, k: nat): (caps: map<int, real>)
    requires k <= |vehicles|
    ensures forall c :: c in caps ==> capRaw == Some(caps[c])
    ensures capRaw.Some? ==> forall j :: 0 <= j < k ==> vehicles[j].cpId in caps
  {
    if k == 0 || capRaw.None? then map[]
    else
      var caps := CpCaps(vehicles, capRaw, k - 1);
      var cp := vehicles[k - 1].cpId;
      if cp in caps then caps else caps[cp := capRaw.value]
  }

  /** The usable cap leaves the reserved share of the site's cap unused. */
  lemma ReserveHeldBack(capRaw: real, reserve: real)
    ensures UsableCap(Some(capRaw), reserve).Some? && UsableCap(None, reserve).None?
    ensures UsableCap(Some(capRaw), reserve).value + capRaw * reserve == capRaw
  {
    assert capRaw * (1.0 - reserve) == capRaw - capRaw * reserve;
  }

  /** How the allocator is configured, apart from the site. */
  datatype Settings = Settings(score: seq<real>, dtMin: int, horizon: nat, aware: bool, eps: real, tiny: real)

  /** Certify, then hand the vehicles with their floors to the allocator. */
  function PlanRequest(s: Site, capRaw: Option<real>, reserve: real, now: int, marginKwh: real, c: Settings): Request {
    var certified := CertifySite(s, CertifierFor(UsableCap(capRaw, reserve), now, marginKwh));
    Request(certified.vehicles, UsableCap(capRaw, reserve), CpCaps(certified.vehicles, capRaw, |certified.vehicles|),
      c.score, c.dtMin, c.horizon, now, c.aware, c.eps, c.tiny)
  }

  /** What the cycle asks the allocator for: the vehicles as certification leaves them, under the reserved cap, every
      charge point of theirs up to the whole unreserved cap, none capped on an uncapped site, on the settings' grid
      and prices. */
  lemma RequestIs(s: Site, capRaw: Option<real>, reserve: real, now: int, marginKwh: real, c: Settings)
    ensures var r := PlanRequest(s, capRaw, reserve, now, marginKwh, c);
            && r.vehicles == CertifySite(s, CertifierFor(r.siteCapKw, now, marginKwh)).vehicles
            && r.siteCapKw == UsableCap(capRaw, reserve)
            && (forall i :: 0 <= i < |r.vehicles| ==> (r.vehicles[i].cpId in r.cpCaps <==> capRaw.Some?))
            && (forall cp :: cp in r.cpCaps ==> capRaw == Some(r.cpCaps[cp]))
            && r.score == c.score && r.dtMin == c.dtMin && r.horizon == c.horizon && r.now == now && r.aware == c.aware
  {
    var vehicles := CertifySite(s, CertifierFor(UsableCap(capRaw, reserve), now, marginKwh)).vehicles;
    if capRaw.None? {
      assert CpCaps(vehicles, capRaw, |vehicles|) == map[];
    }
  }
}
