/** A plan made without promises claims exactly the energy the vehicles can absorb. */
module Honesty {
  import opened Reals
  import opened Ordering
  import opened Charging
  import opened Allocator
  import opened Invariants
  import opened EdfOptimality
  import opened Twin

  /** The entry of slot u is nothing, or more than the cut-off and no more than the battery then accepts. */
  ghost predicate Acceptable(p: Problem, s: State, i: nat, u: nat)
    requires Shaped(p, s) && i < |p.loads| && u < p.horizon
  {
    || s.x[i][u] == 0.0
    || (s.x[i][u] > p.eps && s.x[i][u] <= AcceptanceKwh(p, i, s.x[i], u))
  }

  ghost predicate AcceptableTo(p: Problem, s: State, t: nat)
    requires Shaped(p, s) && t <= p.horizon
  {
    forall i, u :: 0 <= i < |p.loads| && 0 <= u < t ==> Acceptable(p, s, i, u)
  }

  lemma {:induction false} ReplayLocal(c: Cell, tiny: real, a: seq<real>, b: seq<real>, ref: real, t: nat)
    requires |a| == |b| && t <= |a|
    requires forall u :: 0 <= u < t ==> a[u] == b[u]
    ensures Replay(c, tiny, a, ref, t) == Replay(c, tiny, b, ref, t)
  {
    if t > 0 {
      ReplayLocal(c, tiny, a, b, ref, t - 1);
    }
  }

  /** What vehicle i accepts in slot u depends only on the slots before u. */
  lemma AcceptanceLocal(p: Problem, i: nat, a: seq<real>, b: seq<real>, u: nat)
    requires i < |p.loads| && |a| == |b| && u <= |a|
    requires forall v :: 0 <= v < u ==> a[v] == b[v]
    ensures AcceptanceKwh(p, i, a, u) == AcceptanceKwh(p, i, b, u)
  {
    var pack := p.loads[i].pack;
    if pack.Some? {
      ReplayLocal(pack.value.cell, p.tiny, a, b, pack.value.soc, u);
    }
  }

  /** One turn into an empty slot adds an acceptable entry and disturbs no earlier one. */
  lemma TurnAcceptable(p: Problem, s: State, i: nat, t: nat)
    requires p.Valid() && p.aware && Shaped(p, s) && i < |p.loads| && t < p.horizon
    requires s.x[i][t] == 0.0 && AcceptableTo(p, s, t)
    ensures var r := Give(p, s, i, t, p.loads[i].capKwh);
            AcceptableTo(p, r, t) && Acceptable(p, r, i, t)
  {
    var r := Give(p, s, i, t, p.loads[i].capKwh);
    forall j, u | 0 <= j < |p.loads| && 0 <= u < t ensures Acceptable(p, r, j, u) {
      assert Acceptable(p, s, j, u);
      AcceptanceLocal(p, j, r.x[j], s.x[j], u);
    }
    AcceptanceLocal(p, i, r.x[i], s.x[i], t);
  }

  lemma {:induction false} SlotAcceptable(p: Problem, s: State, order: seq<nat>, t: nat, k: nat)
    requires p.Valid() && p.aware && Shaped(p, s) && Indices(p, order) && Distinct(order) && k <= |order|
      && t < p.horizon
    requires AcceptableTo(p, s, t) && EmptyFrom(p, s, t)
    ensures var r := FillSlot(p, s, order, t, k);
            && AcceptableTo(p, r, t)
            && (forall i :: 0 <= i < |p.loads| ==> Acceptable(p, r, i, t))
            && (forall j :: k <= j < |order| ==> r.x[order[j]][t] == 0.0)
    decreases k
  {
    if k > 0 {
      SlotAcceptable(p, s, order, t, k - 1);
      var m := FillSlot(p, s, order, t, k - 1);
      var i := order[k - 1];
      TurnAcceptable(p, m, i, t);
      var r := FillSlot(p, s, order, t, k);
      forall j | 0 <= j < |p.loads| ensures Acceptable(p, r, j, t) {
        assert Acceptable(p, m, j, t);
      }
    }
  }

  lemma {:induction false} FillAcceptable(p: Problem, order: seq<nat>, t: nat)
    requires p.Valid() && p.aware && Indices(p, order) && Distinct(order) && t <= p.horizon
    ensures var r := FillPass(p, Initial(p), order, t);
            AcceptableTo(p, r, t) && EmptyFrom(p, r, t)
    decreases t
  {
    if t > 0 {
      FillAcceptable(p, order, t - 1);
      var s := FillPass(p, Initial(p), order, t - 1);
      InitialGood(p);
      FillPassGood(p, Initial(p), order, t - 1);
      SlotAcceptable(p, s, order, t - 1, |order|);
      SlotLeaves(p, s, order, t - 1, |order|);
    }
  }

  /** What is absorbed before slot t is all that was planned, and the planner's replay agrees. */
  ghost predicate Honest(c: Cell, tiny: real, soc0: real, row: seq<real>, t: nat)
    requires t <= |row|
  {
    && SocAfter(c, soc0, row, t) == Replay(c, tiny, row, soc0, t) <= 1.0
    && AbsorbedTo(c, soc0, row, t) == Sum(row[..t])
  }

  lemma HonestStep(c: Cell, tiny: real, soc0: real, row: seq<real>, t: nat)
    requires t < |row| && tiny >= 0.0 && c.rise(0.0) == 0.0 && Honest(c, tiny, soc0, row, t)
    requires row[t] == 0.0 || tiny < row[t] <= c.accepts(Replay(c, tiny, row, soc0, t))
    requires c.accepts(Replay(c, tiny, row, soc0, t)) >= 0.0
    ensures Honest(c, tiny, soc0, row, t + 1)
  {
    assert row[..t + 1] == row[..t] + [row[t]];
    SumPush(row[..t], row[t]);
  }

  lemma AcceptableEntry(p: Problem, s: State, i: nat, t: nat)
    requires p.Valid() && p.Physical() && Shaped(p, s) && i < |p.loads| && p.loads[i].pack.Some? && t < p.horizon
    requires Acceptable(p, s, i, t)
    ensures var pack := p.loads[i].pack.value;
            var most := pack.cell.accepts(Replay(pack.cell, p.tiny, s.x[i], pack.soc, t));
            most >= 0.0 && pack.cell.rise(0.0) == 0.0 && (s.x[i][t] == 0.0 || p.tiny < s.x[i][t] <= most)
  {
    assert p.PackOk(p.loads[i]);
  }

  /** A row of acceptable entries is absorbed to the last bit. */
  lemma {:induction false} AcceptableAbsorbed(p: Problem, s: State, i: nat, t: nat)
    requires p.Valid() && p.Physical() && Shaped(p, s) && i < |p.loads| && p.loads[i].pack.Some? && t <= p.horizon
    requires AcceptableTo(p, s, t)
    ensures Honest(p.loads[i].pack.value.cell, p.tiny, p.loads[i].pack.value.soc, s.x[i], t)
    decreases t
  {
    if t == 0 {
      assert p.PackOk(p.loads[i]);
    } else {
      var pack := p.loads[i].pack.value;
      AcceptableAbsorbed(p, s, i, t - 1);
      AcceptableEntry(p, s, i, t - 1);
      HonestStep(pack.cell, p.tiny, pack.soc, s.x[i], t - 1);
    }
  }

  /** Without certified floors, what the acceptance-aware plan gives a vehicle after pass 2 is what it absorbs. */
  lemma PlanIsHonest(p: Problem, i: nat)
    requires p.Valid() && p.Physical() && p.aware && i < |p.loads| && p.loads[i].pack.Some?
    requires forall j :: 0 <= j < |p.loads| ==> !p.loads[j].floored
    ensures var pack := p.loads[i].pack.value;
            Absorbed(pack.cell, Some(pack.soc), AfterFill(p).x[i]) == Sum(AfterFill(p).x[i])
  {
    NoFloorsNoPass(p, Initial(p), ById(p), |ById(p)|);
    SortIsPermutation(EdfKeys(p), |p.loads|);
    FillAcceptable(p, Edf(p), p.horizon);
    AcceptableAbsorbed(p, AfterFill(p), i, p.horizon);
    assert AfterFill(p).x[i][..p.horizon] == AfterFill(p).x[i];
  }

  /** And a compliant charger that starts where the plan assumed delivers exactly that, whenever it fits into the
      battery. */
  lemma PlanIsDelivered(p: Problem, i: nat, v: Plugged)
    requires p.Valid() && p.Physical() && p.aware && i < |p.loads| && p.loads[i].pack.Some?
    requires forall j :: 0 <= j < |p.loads| ==> !p.loads[j].floored
    requires v.cell == p.loads[i].pack.value.cell && v.startSoc == p.loads[i].pack.value.soc && !v.nonCompliant
    requires Sum(AfterFill(p).x[i]) <= v.cell.head(v.startSoc)
    ensures DeliveredTo(v, AfterFill(p).x[i], p.horizon) == Sum(AfterFill(p).x[i])
  {
    PlanIsHonest(p, i);
    SolveGood(p);
    assert RowGood(p, AfterFill(p), i);
    assert p.PackOk(p.loads[i]);
    ActualMatchesPlanner(v, AfterFill(p).x[i], p.horizon);
  }
}
