/** The physics the plan is held to: what a charger really absorbs from an allocation row. */
module Twin {
  import opened Reals
  import opened Charging

  /** Energy absorbed from one ask that starts at `soc`. */
  function Take(c: Cell, soc: real, ask: real): real {
    Max(0.0, Min(ask, c.accepts(soc)))
  }

  /** The planner's state of charge before slot t when the battery absorbs `row` from `soc0` on. */
  function SocAfter(c: Cell, soc0: real, row: seq<real>, t: nat): real
    requires t <= |row|
  {
    if t == 0 then soc0
    else
      var soc := SocAfter(c, soc0, row, t - 1);
      Min(1.0, soc + c.rise(Take(c, soc, row[t - 1])))
  }

  function AbsorbedTo(c: Cell, soc0: real, row: seq<real>, t: nat): real
    requires t <= |row|
  {
    if t == 0 then 0.0
    else AbsorbedTo(c, soc0, row, t - 1) + Take(c, SocAfter(c, soc0, row, t - 1), row[t - 1])
  }

  /** With no battery state every ask counts in full. */
  function Absorbed(c: Cell, soc0: Option<real>, row: seq<real>): real {
    if soc0.None? then Sum(row) else AbsorbedTo(c, soc0.value, row, |row|)
  }

  /** e is the most that none of the three bounds forbids, and never less than nothing. */
  ghost predicate MostWithin(e: real, a: real, b: real, c: real) {
    if a > 0.0 && b > 0.0 && c > 0.0 then e <= a && e <= b && e <= c && e in {a, b, c} else e == 0.0
  }

  /** The battery takes the most that ask and acceptance allow, slot by slot, and fills by it; without battery state it
      takes every ask as it is. */
  ghost predicate Absorption(c: Cell, soc0: Option<real>, row: seq<real>, takes: seq<real>, socs: seq<real>) {
    if soc0.None? then takes == row
    else
      && |takes| == |row| && |socs| == |row| + 1 && socs[0] == soc0.value
      && forall t :: 0 <= t < |row| ==> Absorbs(c, socs[t], row[t], takes[t], socs[t + 1])
  }

  ghost predicate Absorbs(c: Cell, soc: real, ask: real, take: real, next: real) {
    MostWithin(take, ask, c.accepts(soc), c.accepts(soc)) && next == Min(1.0, soc + c.rise(take))
  }

  lemma {:induction false} AbsorbedToSum(c: Cell, soc0: real, row: seq<real>, takes: seq<real>, t: nat)
    requires t <= |row| == |takes|
    requires forall u :: 0 <= u < |row| ==> takes[u] == Take(c, SocAfter(c, soc0, row, u), row[u])
    ensures AbsorbedTo(c, soc0, row, t) == Sum(takes[..t])
  {
    if t > 0 {
      AbsorbedToSum(c, soc0, row, takes, t - 1);
      assert takes[..t][..t - 1] == takes[..t - 1];
    }
  }

  /** What a vehicle absorbs is the sum of what its battery takes. */
  lemma AbsorbedIs(c: Cell, soc0: Option<real>, row: seq<real>) returns (takes: seq<real>, socs: seq<real>)
    ensures Absorption(c, soc0, row, takes, socs) && Absorbed(c, soc0, row) == Sum(takes)
  {
    if soc0.None? {
      takes, socs := row, [];
    } else {
      takes := seq(|row|, t requires 0 <= t < |row| => Take(c, SocAfter(c, soc0.value, row, t), row[t]));
      socs := seq(|row| + 1, t requires 0 <= t < |row| + 1 => SocAfter(c, soc0.value, row, t));
      AbsorbedToSum(c, soc0.value, row, takes, |row|);
      assert takes[..|row|] == takes;
      forall t | 0 <= t < |row| ensures Absorbs(c, socs[t], row[t], takes[t], socs[t + 1]) {
        TakeAbsorbs(c, SocAfter(c, soc0.value, row, t), row[t]);
      }
    }
  }

  lemma TakeAbsorbs(c: Cell, soc: real, ask: real)
    ensures Absorbs(c, soc, ask, Take(c, soc, ask), Min(1.0, soc + c.rise(Take(c, soc, ask))))
  {
  }

  method AbsorbedByVehicle(c: Cell, soc0: Option<real>, row: seq<real>) returns (sum: real)
    ensures sum == Absorbed(c, soc0, row)
  {
    sum := 0.0;
    if soc0.None? {
      for t := 0 to |row|
        invariant sum == Sum(row[..t])
      {
        SumPush(row[..t], row[t]);
        assert row[..t + 1] == row[..t] + [row[t]];
        sum := sum + row[t];
      }
      assert row[..|row|] == row;
    } else {
      var soc := soc0.value;
      for t := 0 to |row|
        invariant soc == SocAfter(c, soc0.value, row, t)
        invariant sum == AbsorbedTo(c, soc0.value, row, t)
      {
        var absorbed := Max(0.0, Min(row[t], c.accepts(soc)));
        sum := sum + absorbed;
        soc := Min(1.0, soc + c.rise(absorbed));
      }
    }
  }

  // ---- applyActuatorReality ----

  /** One vehicle in front of its charger: when it is plugged in, and whether it obeys the profile. */
  datatype Plugged = Plugged(cell: Cell, startSoc: real, av: nat, dl: int, nonCompliant: bool)

  function Ask(row: seq<real>, t: nat): real {
    if t < |row| then row[t] else 0.0
  }

  /** Energy that really flows in slot t when it starts at `soc` (before rounding). */
  function Flow(v: Plugged, soc: real, ask: real, t: nat): real {
    var kwh := if v.nonCompliant then if v.av <= t < v.dl then v.cell.accepts(soc) else 0.0
               else Min(ask, v.cell.accepts(soc));
    Max(0.0, Min(kwh, v.cell.head(soc)))
  }

  /** An obedient charger delivers the most that the ask, the acceptance and the headroom allow; a disobedient one
      ignores the ask, and delivers nothing while it is not plugged in. */
  lemma FlowIs(v: Plugged, soc: real, ask: real, t: nat)
    ensures !v.nonCompliant ==> MostWithin(Flow(v, soc, ask, t), ask, v.cell.accepts(soc), v.cell.head(soc))
    ensures v.nonCompliant && v.av <= t < v.dl ==>
              MostWithin(Flow(v, soc, ask, t), v.cell.accepts(soc), v.cell.accepts(soc), v.cell.head(soc))
    ensures v.nonCompliant && !(v.av <= t < v.dl) ==> Flow(v, soc, ask, t) == 0.0
  {
  }

  /** The charger's state of charge before slot t; unlike the planner's it is never clamped. */
  function ActualSoc(v: Plugged, row: seq<real>, t: nat): real {
    if t == 0 then v.startSoc
    else
      var soc := ActualSoc(v, row, t - 1);
      soc + v.cell.rise(Flow(v, soc, Ask(row, t - 1), t - 1))
  }

  function Delivered(v: Plugged, row: seq<real>, t: nat): real {
    Flow(v, ActualSoc(v, row, t), Ask(row, t), t)
  }

  /** In every slot of an obedient charger's row that is the row's entry, and nothing is asked for past its end. */
  lemma DeliveredIs(v: Plugged, row: seq<real>, t: nat)
    requires !v.nonCompliant
    ensures var soc := ActualSoc(v, row, t);
            MostWithin(Delivered(v, row, t), if t < |row| then row[t] else 0.0, v.cell.accepts(soc), v.cell.head(soc))
  {
    FlowIs(v, ActualSoc(v, row, t), if t < |row| then row[t] else 0.0, t);
  }

  /** The delivered schedule, published in four decimals; the state of charge follows the unrounded energy. */
  method ApplyActuatorReality(v: Plugged, row: seq<real>, horizon: nat) returns (out: seq<real>)
    ensures |out| == horizon
    ensures forall t :: 0 <= t < horizon ==> out[t] == ToFixed4(Delivered(v, row, t))
  {
    out := [];
    var soc := v.startSoc;
    for t := 0 to horizon
      invariant |out| == t && soc == ActualSoc(v, row, t)
      invariant forall u :: 0 <= u < t ==> out[u] == ToFixed4(Delivered(v, row, u))
    {
      var ask := if t < |row| then row[t] else 0.0;
      var acceptance := v.cell.accepts(soc);
      var kwh: real;
      if v.nonCompliant {
        var inWindow := v.av <= t && t < v.dl;
        kwh := if inWindow then acceptance else 0.0;
      } else {
        kwh := Min(ask, acceptance);
      }
      kwh := Max(0.0, Min(kwh, v.cell.head(soc)));
      out := out + [ToFixed4(kwh)];
      soc := soc + v.cell.rise(kwh);
    }
  }

  function DeliveredTo(v: Plugged, row: seq<real>, t: nat): real {
    if t == 0 then 0.0 else DeliveredTo(v, row, t - 1) + Delivered(v, row, t - 1)
  }

  /** What is published adds up to what was delivered, to within half a unit of the last decimal a slot. */
  lemma {:induction false} PublishedDelivery(v: Plugged, row: seq<real>, out: seq<real>, t: nat)
    requires t <= |out| && forall u :: 0 <= u < |out| ==> out[u] == ToFixed4(Delivered(v, row, u))
    ensures DeliveredTo(v, row, t) - Times(0.00005, t) <= Sum(out[..t]) <= DeliveredTo(v, row, t) + Times(0.00005, t)
  {
    if t > 0 {
      PublishedDelivery(v, row, out, t - 1);
      assert out[..t] == out[..t - 1] + [out[t - 1]];
      SumPush(out[..t - 1], out[t - 1]);
      ToFixed4Near(Delivered(v, row, t - 1));
    }
  }

  /** No charger, obedient or not, ever overfills the battery: what was delivered is what came off the headroom. */
  lemma {:induction false} HeadroomTracksEnergy(v: Plugged, row: seq<real>, t: nat)
    requires StorageLaw(v.cell)
    ensures v.cell.head(ActualSoc(v, row, t)) == v.cell.head(v.startSoc) - DeliveredTo(v, row, t)
    ensures v.cell.head(v.startSoc) >= 0.0 ==> DeliveredTo(v, row, t) <= v.cell.head(v.startSoc)
  {
    if t > 0 {
      HeadroomTracksEnergy(v, row, t - 1);
      assert Charges(v.cell, ActualSoc(v, row, t - 1), Delivered(v, row, t - 1));
    }
  }

  ghost predicate Fitting(v: Plugged, row: seq<real>) {
    && StorageLaw(v.cell) && !v.nonCompliant
    && (forall u :: 0 <= u < |row| ==> row[u] >= 0.0)
    && Sum(row) <= v.cell.head(v.startSoc)
  }

  lemma NotOverfull(c: Cell, soc: real)
    requires StorageLaw(c) && c.head(soc) >= 0.0
    ensures soc <= 1.0
  {
  }

  lemma PrefixRoom(row: seq<real>, t: nat)
    requires t <= |row| && forall u :: 0 <= u < |row| ==> row[u] >= 0.0
    ensures Sum(row[..t]) <= Sum(row) && (t < |row| ==> Sum(row[..t]) + row[t] <= Sum(row))
  {
    SumPrefix(row, t);
    if t < |row| {
      assert row[..t + 1] == row[..t] + [row[t]];
      SumPush(row[..t], row[t]);
      SumPrefix(row, t + 1);
    }
  }

  /** While no more than asked was delivered, the next ask still fits, and the battery is not overfull. */
  lemma RoomLeft(v: Plugged, row: seq<real>, t: nat)
    requires Fitting(v, row) && t <= |row| && DeliveredTo(v, row, t) <= Sum(row[..t])
    ensures ActualSoc(v, row, t) <= 1.0
    ensures t < |row| ==> row[t] <= v.cell.head(ActualSoc(v, row, t))
  {
    HeadroomTracksEnergy(v, row, t);
    PrefixRoom(row, t);
    NotOverfull(v.cell, ActualSoc(v, row, t));
  }

  lemma CompliantFlow(v: Plugged, soc: real, ask: real, t: nat)
    requires StorageLaw(v.cell) && !v.nonCompliant && 0.0 <= ask <= v.cell.head(soc)
    ensures Flow(v, soc, ask, t) == Take(v.cell, soc, ask) <= ask
  {
  }

  /** A compliant charger whose row fits into the battery delivers, slot by slot, what the planner says is absorbed. */
  lemma {:induction false} ActualMatchesPlanner(v: Plugged, row: seq<real>, t: nat)
    requires Fitting(v, row) && t <= |row|
    ensures ActualSoc(v, row, t) == SocAfter(v.cell, v.startSoc, row, t)
    ensures DeliveredTo(v, row, t) == AbsorbedTo(v.cell, v.startSoc, row, t) <= Sum(row[..t])
  {
    if t > 0 {
      ActualMatchesPlanner(v, row, t - 1);
      RoomLeft(v, row, t - 1);
      CompliantFlow(v, ActualSoc(v, row, t - 1), row[t - 1], t - 1);
      assert row[..t] == row[..t - 1] + [row[t - 1]];
      SumPush(row[..t - 1], row[t - 1]);
      RoomLeft(v, row, t);
    }
  }
}
