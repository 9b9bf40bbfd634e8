/** Below the taper knee the acceptance-aware allocator and the power-based one are the same allocator. */
module Equivalence {
  import opened Reals
  import opened Ordering
  import opened Charging
  import opened Allocator
  import opened Invariants
  import opened EdfOptimality

  /** Vehicle i never has to charge past the knee. */
  ghost predicate BelowKnee(p: Problem, i: nat)
    requires i < |p.loads|
  {
    var l := p.loads[i];
    l.pack.Some? ==> p.PackOk(l) && l.pack.value.soc + l.pack.value.cell.rise(l.need0) <= KNEE
  }

  ghost predicate AllBelowKnee(p: Problem) {
    forall i :: 0 <= i < |p.loads| ==> BelowKnee(p, i)
  }

  /** Its charge point cannot push more than its nameplate. */
  ghost predicate Throttled(p: Problem, i: nat)
    requires i < |p.loads|
  {
    p.loads[i].cpId in p.cpKwh && p.cpKwh[p.loads[i].cpId] <= p.loads[i].capKwh
  }

  ghost predicate AllThrottled(p: Problem) {
    forall i :: 0 <= i < |p.loads| ==> Throttled(p, i)
  }

  function PowerBased(p: Problem): Problem {
    p.(aware := false)
  }

  /** The replayed state of charge has risen by at most the energy scheduled so far. */
  lemma {:induction false} ReplayBound(c: Cell, capKwh: real, tiny: real, row: seq<real>, ref: real, t: nat)
    requires CellLaw(c, capKwh) && t <= |row|
    requires forall u :: 0 <= u < |row| ==> row[u] >= 0.0
    ensures Replay(c, tiny, row, ref, t) <= ref + c.rise(Sum(row[..t]))
  {
    if t > 0 {
      ReplayBound(c, capKwh, tiny, row, ref, t - 1);
      assert row[..t] == row[..t - 1] + [row[t - 1]];
      SumPush(row[..t - 1], row[t - 1]);
      assert Rises(c, Sum(row[..t - 1]), row[t - 1]);
      var soc := Replay(c, tiny, row, ref, t - 1);
      assert Climbs(c, 0.0, row[t - 1]);
      assert Climbs(c, Min(row[t - 1], c.accepts(soc)), row[t - 1]);
    }
  }

  /** Below the knee a vehicle accepts its full nameplate energy in every slot of every legal plan. */
  lemma CalmAccepts(p: Problem, s: State, i: nat, t: nat)
    requires p.Valid() && Good(p, s) && i < |p.loads| && t < p.horizon && BelowKnee(p, i)
    ensures AcceptanceKwh(p, i, s.x[i], t) == p.loads[i].capKwh
  {
    var pack := p.loads[i].pack;
    if pack.Some? {
      var c := pack.value.cell;
      assert RowGood(p, s, i) && p.LoadOk(p.loads[i]);
      ReplayBound(c, p.loads[i].capKwh, p.tiny, s.x[i], pack.value.soc, t);
      SumPrefix(s.x[i], t);
      assert Climbs(c, Sum(s.x[i][..t]), p.loads[i].need0);
    }
  }

  /** The room on a throttled charge point is at most what the vehicle's nameplate leaves free. */
  lemma CalmRoom(p: Problem, s: State, i: nat, t: nat)
    requires p.Valid() && Good(p, s) && i < |p.loads| && t < p.horizon && Throttled(p, i)
    ensures var room := RoomAt(p, s, t, p.loads[i].cpId);
            room.Some? && room.value <= Max(0.0, p.loads[i].capKwh - s.x[i][t])
  {
    var cp := p.loads[i].cpId;
    forall j | 0 <= j < |p.loads| ensures CpCol(p, s, cp, t)[j] >= 0.0 {
      assert RowGood(p, s, j);
    }
    SumPick(CpCol(p, s, cp, t), i);
  }

  lemma RoomSame(p: Problem, s: State, t: nat, cp: int)
    requires Shaped(p, s) && t < p.horizon
    ensures RoomAt(PowerBased(p), s, t, cp) == RoomAt(p, s, t, cp)
  {
    assert CpCol(PowerBased(p), s, cp, t) == CpCol(p, s, cp, t);
  }

  lemma GiveSame(p: Problem, s: State, i: nat, t: nat, kwh: real)
    requires p.Valid() && Good(p, s) && i < |p.loads| && t < p.horizon && BelowKnee(p, i)
    requires kwh <= p.loads[i].capKwh
    ensures Give(PowerBased(p), s, i, t, kwh) == Give(p, s, i, t, kwh)
  {
    CalmAccepts(p, s, i, t);
    RoomSame(p, s, t, p.loads[i].cpId);
  }

  lemma MoveSame(p: Problem, s: State, i: nat, src: nat, dst: nat)
    requires p.Valid() && Good(p, s) && i < |p.loads| && src < p.horizon && dst < p.horizon && BelowKnee(p, i)
      && Throttled(p, i)
    ensures Move(PowerBased(p), s, i, src, dst) == Move(p, s, i, src, dst)
  {
    CalmAccepts(p, s, i, dst);
    CalmRoom(p, s, i, dst);
    RoomSame(p, s, dst, p.loads[i].cpId);
  }

  lemma {:induction false} FloorRowSame(p: Problem, s: State, i: nat, t: int)
    requires p.Valid() && Good(p, s) && AllBelowKnee(p) && i < |p.loads| && t <= p.horizon
    ensures FloorRow(PowerBased(p), s, i, t) == FloorRow(p, s, i, t)
    decreases t
  {
    if t > p.loads[i].av {
      FloorRowSame(p, s, i, t - 1);
      FloorRowGood(p, s, i, t - 1);
      GiveSame(p, FloorRow(p, s, i, t - 1), i, t - 1, p.loads[i].floorKwh);
    }
  }

  lemma {:induction false} FloorPassSame(p: Problem, s: State, order: seq<nat>, k: nat)
    requires p.Valid() && Good(p, s) && AllBelowKnee(p) && Indices(p, order) && k <= |order|
    ensures FloorPass(PowerBased(p), s, order, k) == FloorPass(p, s, order, k)
    decreases k
  {
    if k > 0 {
      FloorPassSame(p, s, order, k - 1);
      FloorPassGood(p, s, order, k - 1);
      FloorRowSame(p, FloorPass(p, s, order, k - 1), order[k - 1], p.loads[order[k - 1]].dl);
    }
  }

  lemma {:induction false} FillSlotSame(p: Problem, s: State, order: seq<nat>, t: nat, k: nat)
    requires p.Valid() && Good(p, s) && AllBelowKnee(p) && Indices(p, order) && k <= |order| && t < p.horizon
    ensures FillSlot(PowerBased(p), s, order, t, k) == FillSlot(p, s, order, t, k)
    decreases k
  {
    if k > 0 {
      FillSlotSame(p, s, order, t, k - 1);
      FillSlotGood(p, s, order, t, k - 1);
      GiveSame(p, FillSlot(p, s, order, t, k - 1), order[k - 1], t, p.loads[order[k - 1]].capKwh);
    }
  }

  lemma {:induction false} FillPassSame(p: Problem, s: State, order: seq<nat>, t: nat)
    requires p.Valid() && Good(p, s) && AllBelowKnee(p) && Indices(p, order) && t <= p.horizon
    ensures FillPass(PowerBased(p), s, order, t) == FillPass(p, s, order, t)
    decreases t
  {
    if t > 0 {
      FillPassSame(p, s, order, t - 1);
      FillPassGood(p, s, order, t - 1);
      FillSlotSame(p, FillPass(p, s, order, t - 1), order, t - 1, |order|);
    }
  }

  lemma {:induction false} ShiftRowSame(p: Problem, s: State, i: nat, src: nat, dsts: seq<nat>, k: nat)
    returns (r: State)
    requires p.Valid() && Good(p, s) && AllBelowKnee(p) && AllThrottled(p) && i < |p.loads| && src < p.horizon
    requires Targets(p, i, src, dsts) && Targets(PowerBased(p), i, src, dsts) && k <= |dsts|
    ensures Good(p, r) && r == ShiftRow(p, s, i, src, dsts, k) == ShiftRow(PowerBased(p), s, i, src, dsts, k)
    decreases k
  {
    if k == 0 {
      r := s;
    } else {
      r := ShiftRowSame(p, s, i, src, dsts, k - 1);
      MoveSame(p, r, i, src, dsts[k - 1]);
      MoveGood(p, r, i, src, dsts[k - 1]);
      r := Move(p, r, i, src, dsts[k - 1]);
    }
  }

  lemma {:induction false} ShiftSlotSame(p: Problem, s: State, holders: seq<nat>, src: nat,
      lists: seq<seq<nat>>, k: nat)
    returns (r: State)
    requires p.Valid() && Good(p, s) && AllBelowKnee(p) && AllThrottled(p) && Indices(p, holders) && src < p.horizon
    requires TargetLists(p, src, lists) && TargetLists(PowerBased(p), src, lists) && k <= |holders|
    ensures Good(p, r)
    ensures r == ShiftSlot(p, s, holders, src, lists, k) == ShiftSlot(PowerBased(p), s, holders, src, lists, k)
    decreases k
  {
    if k == 0 {
      r := s;
    } else {
      var i := holders[k - 1];
      r := ShiftSlotSame(p, s, holders, src, lists, k - 1);
      r := ShiftRowSame(p, r, i, src, lists[i], |lists[i]|);
    }
  }

  lemma {:induction false} HoldersSame(p: Problem, s: State, order: seq<nat>, src: nat, k: nat)
    requires Shaped(p, s) && Indices(p, order) && src < p.horizon && k <= |order|
    ensures Holders(PowerBased(p), s, order, src, k) == Holders(p, s, order, src, k)
  {
    if k > 0 {
      HoldersSame(p, s, order, src, k - 1);
    }
  }

  /** One slot of pass 3. */
  lemma ShiftTurnSame(p: Problem, m: State, order: seq<nat>, src: nat, lists: seq<seq<nat>>) returns (r: State)
    requires p.Valid() && Good(p, m) && AllBelowKnee(p) && AllThrottled(p) && Indices(p, order) && src < p.horizon
    requires TargetLists(p, src, lists) && TargetLists(PowerBased(p), src, lists)
    ensures Good(p, r) && r == Shifted(p, m, order, src, lists) == Shifted(PowerBased(p), m, order, src, lists)
  {
    HoldersSame(p, m, order, src, |order|);
    var holders := Holders(p, m, order, src, |order|);
    r := ShiftSlotSame(p, m, holders, src, lists, |holders|);
  }

  lemma {:induction false} ShiftPassSame(p: Problem, s: State, order: seq<nat>, slots: seq<nat>, menu: Menu, k: nat)
    returns (r: State)
    requires p.Valid() && Good(p, s) && AllBelowKnee(p) && AllThrottled(p) && Indices(p, order) && Slots(p, slots)
    requires MenuOk(p, menu) && MenuOk(PowerBased(p), menu) && k <= |slots|
    ensures Good(p, r) && r == ShiftPass(p, s, order, slots, menu, k)
      == ShiftPass(PowerBased(p), s, order, slots, menu, k)
    decreases k
  {
    if k == 0 {
      r := s;
    } else {
      r := ShiftPassSame(p, s, order, slots, menu, k - 1);
      MenuAt(p, menu, slots[k - 1]);
      MenuAt(PowerBased(p), menu, slots[k - 1]);
      r := ShiftTurnSame(p, r, order, slots[k - 1], menu[slots[k - 1]]);
    }
  }

  // ---- the orders and candidate lists do not depend on the allocator ----

  lemma {:induction false} CheaperFilterSame(p: Problem, i: nat, src: nat, t: nat)
    requires p.Prepared() && i < |p.loads| && src < p.horizon && t <= p.horizon
    ensures CheaperFilter(PowerBased(p), i, src, t) == CheaperFilter(p, i, src, t)
  {
    if t > 0 {
      CheaperFilterSame(p, i, src, t - 1);
    }
  }

  lemma MenuSame(p: Problem)
    requires p.Prepared()
    ensures CheaperMenu(PowerBased(p)) == CheaperMenu(p)
  {
    var q := PowerBased(p);
    assert ScoreKeys(q, 1.0) == ScoreKeys(p, 1.0);
    forall src | 0 <= src < p.horizon ensures CheaperMenu(q)[src] == CheaperMenu(p)[src] {
      forall i | 0 <= i < |p.loads| ensures Cheaper(q, i, src) == Cheaper(p, i, src) {
        CheaperFilterSame(p, i, src, p.horizon);
      }
      assert CheaperLists(q, src) == CheaperLists(p, src);
    }
  }

  lemma OrdersSame(p: Problem)
    requires p.Prepared()
    ensures ById(PowerBased(p)) == ById(p) && Edf(PowerBased(p)) == Edf(p) && PriceOrder(PowerBased(p)) == PriceOrder(p)
    ensures Initial(PowerBased(p)) == Initial(p)
  {
    var q := PowerBased(p);
    assert EdfKeys(q) == EdfKeys(p);
    assert ScoreKeys(q, -1.0) == ScoreKeys(p, -1.0);
    assert Initial(q) == Initial(p);
  }

  /** Below the knee the first two passes of both allocators are the same, whatever the charge points allow. */
  lemma BelowTheKneeFill(p: Problem)
    requires p.Valid() && AllBelowKnee(p)
    ensures AfterFloors(PowerBased(p)) == AfterFloors(p)
    ensures AfterFill(PowerBased(p)) == AfterFill(p)
  {
    OrdersSame(p);
    InitialGood(p);
    FloorPassSame(p, Initial(p), ById(p), |ById(p)|);
    SolveGood(p);
    FillPassSame(p, AfterFloors(p), Edf(p), p.horizon);
  }

  /** If the charge points cannot push more than the nameplates, so is the third, and with it the plan. */
  lemma BelowTheKneeIdentical(p: Problem)
    requires p.Valid() && AllBelowKnee(p) && AllThrottled(p)
    ensures Solve(PowerBased(p)) == Solve(p)
  {
    BelowTheKneeFill(p);
    OrdersSame(p);
    MenuSame(p);
    SolveGood(p);
    var r := ShiftPassSame(p, AfterFill(p), ById(p), PriceOrder(p), CheaperMenu(p), |PriceOrder(p)|);
  }

  // ---- exactly which charge points ----

  /** Every vehicle has slot energy c, and every charge point allows `point` a slot (`None`: anything). */
  ghost predicate Uniform(p: Problem, c: real, point: Option<real>) {
    && (forall i :: 0 <= i < |p.loads| ==> p.loads[i].capKwh == c)
    && (if point.None? then p.cpKwh == map[]
        else forall i :: 0 <= i < |p.loads| ==> p.loads[i].cpId in p.cpKwh && p.cpKwh[p.loads[i].cpId] == point.value)
  }

  /** On such charge points the two allocators agree on every problem below the knee: for all fleets, needs, windows,
      floors, caps of the site and prices. */
  ghost predicate AlwaysIdentical(c: real, point: Option<real>, eps: real, tiny: real) {
    forall p: Problem :: p.Valid() && p.eps == eps && p.tiny == tiny && Uniform(p, c, point) && AllBelowKnee(p) ==>
      Solve(PowerBased(p)) == Solve(p)
  }

  /** One vehicle that needs one and a half slots, and a second slot that is cheaper. */
  function LoneProblem(c: real, point: Option<real>, eps: real, tiny: real): (p: Problem)
    requires c > 0.0
    ensures p.Prepared()
  {
    Problem([Load(1, 1, c, false, 0.0, 0, 2, 1.5 * c, Some(Pack(Battery(c, 10.0 * c), 0.0)))], None,
            if point.None? then map[] else map[1 := point.value], [2.0, 1.0], 2, true, eps, tiny)
  }

  lemma TenthOf(c: real)
    requires c > 0.0
    ensures Battery(c, 10.0 * c).rise(c) == 0.1 && Battery(c, 10.0 * c).rise(1.5 * c) == 0.15
    ensures Battery(c, 10.0 * c).accepts(0.0) == c && Battery(c, 10.0 * c).accepts(0.1) == c
  {
    assert c / (10.0 * c) == 0.1;
    assert (1.5 * c) / (10.0 * c) == 0.15;
    assert AcceptanceFactor(0.0) == 1.0 && AcceptanceFactor(0.1) == 1.0;
    assert c * 1.0 == c;
  }

  lemma LoneValid(c: real, point: Option<real>, eps: real, tiny: real)
    requires c > 0.0 && 0.0 <= tiny <= eps && (point.Some? ==> point.value >= 0.0)
    ensures var p := LoneProblem(c, point, eps, tiny);
            p.Valid() && Uniform(p, c, point) && AllBelowKnee(p)
  {
    BatteryLaw(c, 10.0 * c);
    TenthOf(c);
  }

  lemma LoneRoom(p: Problem, s: State, t: nat, c: real, point: Option<real>)
    requires |p.loads| == 1 && Shaped(p, s) && t < p.horizon && p.siteKwh.None? && p.loads[0].cpId == 1
    requires p.cpKwh == if point.None? then map[] else map[1 := point.value]
    ensures RoomAt(p, s, t, 1) == if point.None? then None else Some(Max(0.0, point.value - s.x[0][t]))
  {
    assert CpCol(p, s, 1, t) == [s.x[0][t]];
    SumPush([], s.x[0][t]);
    assert [] + [s.x[0][t]] == [s.x[0][t]];
  }

  function Holding(a: real, b: real, need: real): State {
    State([[a, b]], [need])
  }

  lemma LoneAccepts(c: real, point: Option<real>, eps: real, tiny: real, row: seq<real>, t: nat)
    requires c > 0.0 && |row| == 2 && t <= 1 && 0.0 <= tiny < c && (t == 1 ==> row[0] == c)
    ensures AcceptanceKwh(LoneProblem(c, point, eps, tiny), 0, row, t) == c
  {
    TenthOf(c);
    assert Replay(Battery(c, 10.0 * c), tiny, row, 0.0, 0) == 0.0;
    if t == 1 {
      assert Replay(Battery(c, 10.0 * c), tiny, row, 0.0, 1) == 0.1;
    }
  }

  lemma LoneGive(c: real, point: Option<real>, eps: real, tiny: real, s: State, t: nat)
    requires 0.0 <= tiny <= eps && 2.0 * eps < c && (point.Some? ==> point.value > c) && t <= 1
    requires Shaped(LoneProblem(c, point, eps, tiny), s) && s.x[0][t] == 0.0 && s.need[0] > eps
    requires t == 1 ==> s.x[0][0] == c
    ensures Give(LoneProblem(c, point, eps, tiny), s, 0, t, c)
            == Add(LoneProblem(c, point, eps, tiny), s, 0, t, Min(c, s.need[0]))
  {
    LoneAccepts(c, point, eps, tiny, s.x[0], t);
    LoneRoom(LoneProblem(c, point, eps, tiny), s, t, c, point);
  }

  lemma LoneStart(c: real, point: Option<real>, eps: real, tiny: real, need: real)
    requires c > 0.0 && need == 1.5 * c
    ensures Initial(LoneProblem(c, point, eps, tiny)) == Holding(0.0, 0.0, need)
  {
    var s := Initial(LoneProblem(c, point, eps, tiny));
    assert s.x[0] == [0.0, 0.0] && s.need == [need];
    assert s.x == [[0.0, 0.0]];
  }

  lemma OneTurn(p: Problem, s: State, t: nat)
    requires Shaped(p, s) && |p.loads| == 1 && t < p.horizon && p.InWindow(0, t) && s.need[0] > p.eps
    ensures FillSlot(p, s, [0], t, 1) == Give(p, s, 0, t, p.loads[0].capKwh)
  {
    assert FillSlot(p, s, [0], t, 0) == s;
  }

  lemma TwoSlots(p: Problem, s: State, m: State, r: State)
    requires Shaped(p, s) && |p.loads| == 1 && p.horizon == 2 && Shaped(p, m)
    requires FillSlot(p, s, [0], 0, 1) == m && FillSlot(p, m, [0], 1, 1) == r
    ensures FillPass(p, s, [0], 2) == r
  {
    assert FillPass(p, s, [0], 0) == s;
    assert FillPass(p, s, [0], 1) == m;
  }

  lemma LoneUnfloored(c: real, point: Option<real>, eps: real, tiny: real)
    requires c > 0.0
    ensures var p := LoneProblem(c, point, eps, tiny);
            AfterFloors(p) == Initial(p)
  {
    var p := LoneProblem(c, point, eps, tiny);
    NoFloorsNoPass(p, Initial(p), ById(p), |ById(p)|);
  }

  lemma TwoSlotFill(p: Problem, s: State, r: State)
    requires p.Prepared() && p.horizon == 2 && AfterFloors(p) == s && Edf(p) == [0] && FillPass(p, s, [0], 2) == r
    ensures AfterFill(p) == r
  {
  }

  /** Both allocators fill the first slot and half of the second. */
  lemma LoneFilled(c: real, point: Option<real>, eps: real, tiny: real, half: real)
    requires 0.0 <= tiny <= eps && 2.0 * eps < c && (point.Some? ==> point.value > c) && half == 0.5 * c
    ensures AfterFill(LoneProblem(c, point, eps, tiny)) == Holding(c, half, 0.0)
  {
    LoneOrders(c, point, eps, tiny);
    LoneUnfloored(c, point, eps, tiny);
    LoneStart(c, point, eps, tiny, c + half);
    LoneFills(c, point, eps, tiny, half);
    TwoSlotFill(LoneProblem(c, point, eps, tiny), Holding(0.0, 0.0, c + half), Holding(c, half, 0.0));
  }

  /** One slot of the fill, from a state with this row and need. */
  lemma LoneFillsSlot(c: real, point: Option<real>, eps: real, tiny: real, a: real, b: real, need: real, t: nat,
      amount: real, r: State)
    requires 0.0 <= tiny <= eps && 2.0 * eps < c && (point.Some? ==> point.value > c) && t <= 1 && need > eps
    requires if t == 0 then a == 0.0 else a == c && b == 0.0
    requires amount == Min(c, need)
    requires r == if t == 0 then Holding(amount, b, need - amount) else Holding(a, amount, need - amount)
    ensures FillSlot(LoneProblem(c, point, eps, tiny), Holding(a, b, need), [0], t, 1) == r
  {
    var p, s := LoneProblem(c, point, eps, tiny), Holding(a, b, need);
    OneTurn(p, s, t);
    LoneGive(c, point, eps, tiny, s, t);
    assert s.x[0][t := s.x[0][t] + amount] == if t == 0 then [amount, b] else [a, amount];
    assert s.x[0 := s.x[0][t := s.x[0][t] + amount]] == [s.x[0][t := s.x[0][t] + amount]];
    assert s.need[0 := need - amount] == [need - amount];
  }

  lemma LoneFills(c: real, point: Option<real>, eps: real, tiny: real, half: real)
    requires 0.0 <= tiny <= eps && 2.0 * eps < c && (point.Some? ==> point.value > c) && half == 0.5 * c
    ensures FillPass(LoneProblem(c, point, eps, tiny), Holding(0.0, 0.0, c + half), [0], 2) == Holding(c, half, 0.0)
  {
    var p, s, m, r := LoneProblem(c, point, eps, tiny), Holding(0.0, 0.0, c + half), Holding(c, 0.0, half),
      Holding(c, half, 0.0);
    LoneFillsSlot(c, point, eps, tiny, 0.0, 0.0, c + half, 0, c, m);
    LoneFillsSlot(c, point, eps, tiny, c, 0.0, half, 1, half, r);
    TwoSlots(p, s, m, r);
  }

  lemma LoneOrders(c: real, point: Option<real>, eps: real, tiny: real)
    requires c > 0.0
    ensures var p := LoneProblem(c, point, eps, tiny);
            && ById(p) == [0] && Edf(p) == [0] && PriceOrder(p) == [0, 1]
            && Cheaper(p, 0, 0) == [1] && Cheaper(p, 0, 1) == []
  {
    var p := LoneProblem(c, point, eps, tiny);
    SortIsPermutation(seq(|p.loads|, i requires 0 <= i < |p.loads| => (0.0, p.loads[i].sessionId)), 1);
    assert 0 in ById(p);
    SortIsPermutation(EdfKeys(p), 1);
    assert 0 in Edf(p);
    PairOrder(ScoreKeys(p, -1.0));
    assert CheaperFilter(p, 0, 0, 0) == [] && CheaperFilter(p, 0, 0, 1) == [] && CheaperFilter(p, 0, 0, 2) == [1];
    assert CheaperFilter(p, 0, 1, 0) == [] && CheaperFilter(p, 0, 1, 1) == [] && CheaperFilter(p, 0, 1, 2) == [];
    SortByMembers(ScoreKeys(p, 1.0), [1]);
    SortBySorts(ScoreKeys(p, 1.0), [1]);
    assert SortBy(ScoreKeys(p, 1.0), []) == [];
  }

  /** Pass 3 comes down to one move into the cheaper slot. */
  lemma LoneShift(p: Problem, s: State)
    requires p.Prepared() && |p.loads| == 1 && p.horizon == 2 && Shaped(p, s) && s.x[0][0] > p.eps
    requires ById(p) == [0] && PriceOrder(p) == [0, 1] && Cheaper(p, 0, 0) == [1] && Cheaper(p, 0, 1) == []
    requires AfterFill(p) == s
    ensures Solve(p) == Move(p, s, 0, 0, 1)
  {
    var menu := CheaperMenu(p);
    assert menu[0][0] == [1] && menu[1][0] == [];
    var r := Move(p, s, 0, 0, 1);
    assert Holders(p, s, [0], 0, 0) == [] && Holders(p, s, [0], 0, 1) == [0];
    assert ShiftRow(p, s, 0, 0, [1], 0) == s && ShiftRow(p, s, 0, 0, [1], 1) == r;
    assert ShiftSlot(p, s, [0], 0, menu[0], 0) == s && ShiftSlot(p, s, [0], 0, menu[0], 1) == r;
    assert ShiftPass(p, s, [0], [0, 1], menu, 0) == s && ShiftPass(p, s, [0], [0, 1], menu, 1) == r;
    var holders := Holders(p, r, [0], 1, 1);
    LoneSecond(p, r, holders, menu, |holders|);
  }

  lemma {:induction false} LoneSecond(p: Problem, r: State, holders: seq<nat>, menu: Menu, k: nat)
    requires p.Prepared() && |p.loads| == 1 && p.horizon == 2 && Shaped(p, r) && Indices(p, holders) && k <= |holders|
    requires MenuOk(p, menu) && menu[1][0] == []
    ensures ShiftSlot(p, r, holders, 1, menu[1], k) == r
  {
    if k > 0 {
      LoneSecond(p, r, holders, menu, k - 1);
    }
  }

  /** That move, in the acceptance-aware and in the power-based allocator. */
  lemma LoneMoves(c: real, point: Option<real>, eps: real, tiny: real)
    requires 0.0 <= tiny <= eps && 2.0 * eps < c && (point.Some? ==> point.value > c)
    ensures var p, s := LoneProblem(c, point, eps, tiny), Holding(c, 0.5 * c, 0.0);
            && Move(p, s, 0, 0, 1).x[0][1] == c
            && Move(PowerBased(p), s, 0, 0, 1).x[0][1] > c
  {
    var p, s := LoneProblem(c, point, eps, tiny), Holding(c, 0.5 * c, 0.0);
    LoneAccepts(c, point, eps, tiny, s.x[0], 1);
    LoneRoom(p, s, 1, c, point);
    LoneRoom(PowerBased(p), s, 1, c, point);
  }

  /** A charge point that can push more than the nameplate: the power-based plan moves more than the vehicle accepts. */
  lemma LoneDiffers(c: real, point: Option<real>, eps: real, tiny: real)
    requires 0.0 <= tiny <= eps && 2.0 * eps < c && (point.Some? ==> point.value > c)
    ensures var p := LoneProblem(c, point, eps, tiny);
            Solve(p).x[0][1] == c && Solve(PowerBased(p)).x[0][1] > c
  {
    var s := Holding(c, 0.5 * c, 0.0);
    LoneSolved(c, point, eps, tiny);
    LoneMoves(c, point, eps, tiny);
  }

  lemma LoneSolved(c: real, point: Option<real>, eps: real, tiny: real)
    requires 0.0 <= tiny <= eps && 2.0 * eps < c && (point.Some? ==> point.value > c)
    ensures var p, s := LoneProblem(c, point, eps, tiny), Holding(c, 0.5 * c, 0.0);
            Solve(p) == Move(p, s, 0, 0, 1) && Solve(PowerBased(p)) == Move(PowerBased(p), s, 0, 0, 1)
  {
    var p, s := LoneProblem(c, point, eps, tiny), Holding(c, 0.5 * c, 0.0);
    LoneValid(c, point, eps, tiny);
    LoneFilled(c, point, eps, tiny, 0.5 * c);
    LoneOrders(c, point, eps, tiny);
    LoneShift(p, s);
    BelowTheKneeFill(p);
    LoneOrdersPower(c, point, eps, tiny);
    LoneShift(PowerBased(p), s);
  }

  lemma LoneOrdersPower(c: real, point: Option<real>, eps: real, tiny: real)
    requires c > 0.0
    ensures var q := PowerBased(LoneProblem(c, point, eps, tiny));
            && ById(q) == [0] && PriceOrder(q) == [0, 1] && Cheaper(q, 0, 0) == [1] && Cheaper(q, 0, 1) == []
  {
    var p := LoneProblem(c, point, eps, tiny);
    LoneOrders(c, point, eps, tiny);
    OrdersSame(p);
    assert ScoreKeys(PowerBased(p), 1.0) == ScoreKeys(p, 1.0);
    CheaperFilterSame(p, 0, 0, 2);
    CheaperFilterSame(p, 0, 1, 2);
  }

  /** Below the knee the two allocators always agree exactly when the charge points cannot push more than the nameplate
      (which is to be worth at least two cut-offs). */
  lemma BelowTheKneeIff(c: real, point: Option<real>, eps: real, tiny: real)
    requires 0.0 <= tiny <= eps && 2.0 * eps < c && (point.Some? ==> point.value >= 0.0)
    ensures (point.Some? && point.value <= c) <==> AlwaysIdentical(c, point, eps, tiny)
  {
    if point.Some? && point.value <= c {
      forall p: Problem | p.Valid() && p.eps == eps && p.tiny == tiny && Uniform(p, c, point) && AllBelowKnee(p)
        ensures Solve(PowerBased(p)) == Solve(p)
      {
        assert AllThrottled(p);
        BelowTheKneeIdentical(p);
      }
    } else {
      LoneValid(c, point, eps, tiny);
      LoneDiffers(c, point, eps, tiny);
    }
  }
}
