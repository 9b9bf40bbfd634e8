/** What every write of the allocator keeps, and what a price move gains. */
module Invariants {
  import opened Reals
  import opened Ordering
  import opened Charging
  import opened Allocator

  /** Slot t is within the site cap and within every charge-point cap. */
  ghost predicate Fits(p: Problem, s: State, t: nat)
    requires Shaped(p, s) && t < p.horizon
  {
    && (p.siteKwh.Some? ==> SumSite(p, s, t) <= p.siteKwh.value)
    && (forall c :: c in p.cpKwh ==> SumCp(p, s, c, t) <= p.cpKwh[c])
  }

  /** Row i is non-negative, stays inside the vehicle's window, and accounts for all the energy served so far. */
  ghost predicate RowGood(p: Problem, s: State, i: nat)
    requires Shaped(p, s) && i < |p.loads|
  {
    && (forall t :: 0 <= t < p.horizon ==> s.x[i][t] >= 0.0)
    && (forall t :: 0 <= t < p.horizon && s.x[i][t] != 0.0 ==> p.InWindow(i, t))
    && s.need[i] >= 0.0
    && s.need[i] + Sum(s.x[i]) == p.loads[i].need0
  }

  ghost predicate Good(p: Problem, s: State) {
    && Shaped(p, s)
    && (forall i :: 0 <= i < |p.loads| ==> RowGood(p, s, i))
    && (forall t :: 0 <= t < p.horizon ==> Fits(p, s, t))
  }

  lemma InitialGood(p: Problem)
    requires p.Valid()
    ensures Good(p, Initial(p))
  {
    var s := Initial(p);
    forall i | 0 <= i < |p.loads| ensures RowGood(p, s, i) {
      SumZero(s.x[i]);
    }
    forall t | 0 <= t < p.horizon ensures Fits(p, s, t) {
      SumZero(Col(s.x, p.horizon, t));
      forall c | c in p.cpKwh ensures SumCp(p, s, c, t) <= p.cpKwh[c] {
        SumZero(CpCol(p, s, c, t));
      }
    }
  }

  /** How the slot totals react to one cell changing by d. */
  lemma CellSums(p: Problem, s: State, r: State, i: nat, t: nat, d: real)
    requires Shaped(p, s) && Shaped(p, r) && i < |p.loads| && t < p.horizon
    requires r.x == s.x[i := s.x[i][t := s.x[i][t] + d]]
    ensures forall u :: 0 <= u < p.horizon ==> SumSite(p, r, u) == SumSite(p, s, u) + if u == t then d else 0.0
    ensures forall c, u :: 0 <= u < p.horizon ==>
              SumCp(p, r, c, u) == SumCp(p, s, c, u) + if u == t && c == p.loads[i].cpId then d else 0.0
    ensures Sum(r.x[i]) == Sum(s.x[i]) + d
  {
    SumUpdate(s.x[i], t, s.x[i][t] + d);
    forall u | 0 <= u < p.horizon
      ensures SumSite(p, r, u) == SumSite(p, s, u) + if u == t then d else 0.0
    {
      if u == t {
        assert Col(r.x, p.horizon, u) == Col(s.x, p.horizon, u)[i := s.x[i][t] + d];
        SumUpdate(Col(s.x, p.horizon, u), i, s.x[i][t] + d);
      } else {
        assert Col(r.x, p.horizon, u) == Col(s.x, p.horizon, u);
      }
    }
    forall c, u | 0 <= u < p.horizon
      ensures SumCp(p, r, c, u) == SumCp(p, s, c, u) + if u == t && c == p.loads[i].cpId then d else 0.0
    {
      if u == t && c == p.loads[i].cpId {
        assert CpCol(p, r, c, u) == CpCol(p, s, c, u)[i := s.x[i][t] + d];
        SumUpdate(CpCol(p, s, c, u), i, s.x[i][t] + d);
      } else {
        assert CpCol(p, r, c, u) == CpCol(p, s, c, u);
      }
    }
  }

  /** An amount that respects RoomAt cannot break a cap. */
  lemma RoomKeepsFit(p: Problem, s: State, r: State, i: nat, t: nat, d: real)
    requires Shaped(p, s) && Shaped(p, r) && i < |p.loads| && t < p.horizon
    requires Fits(p, s, t)
    requires 0.0 < d && Limit(d, RoomAt(p, s, t, p.loads[i].cpId)) == d
    requires r.x == s.x[i := s.x[i][t := s.x[i][t] + d]]
    ensures Fits(p, r, t)
  {
    CellSums(p, s, r, i, t, d);
  }

  /** Passes 1 and 2 write only through Give, and Give keeps the whole invariant. */
  lemma GiveGood(p: Problem, s: State, i: nat, t: nat, kwh: real)
    requires p.Valid() && Good(p, s) && i < |p.loads| && t < p.horizon
    ensures var r := Give(p, s, i, t, kwh);
            && Good(p, r)
            && r.need[i] <= s.need[i]
            && (forall j :: 0 <= j < |p.loads| && j != i ==> r.x[j] == s.x[j] && r.need[j] == s.need[j])
  {
    var r := Give(p, s, i, t, kwh);
    if r != s {
      var d := GiveAmount(p, s, i, t, kwh);
      CellSums(p, s, r, i, t, d);
      RoomKeepsFit(p, s, r, i, t, d);
      forall j | 0 <= j < |p.loads| ensures RowGood(p, r, j) {
        assert RowGood(p, s, j);
      }
      forall u | 0 <= u < p.horizon ensures Fits(p, r, u) {
        assert Fits(p, s, u);
      }
    }
  }

  /** A pass-3 move keeps the invariant and everybody's need. */
  lemma MoveGood(p: Problem, s: State, i: nat, src: nat, dst: nat)
    requires p.Valid() && Good(p, s) && i < |p.loads| && src < p.horizon && dst < p.horizon
    requires src != dst && p.InWindow(i, dst)
    ensures var r := Move(p, s, i, src, dst);
            && Good(p, r)
            && r.need == s.need
            && (forall j :: 0 <= j < |p.loads| && j != i ==> r.x[j] == s.x[j])
  {
    var r := Move(p, s, i, src, dst);
    if r != s {
      var d := MoveAmount(p, s, i, src, dst);
      MoveSums(p, s, i, src, dst, d);
      MoveRow(p, s, i, src, dst, d);
      forall j | 0 <= j < |p.loads| ensures RowGood(p, r, j) {
        assert RowGood(p, s, j);
      }
      forall u | 0 <= u < p.horizon ensures Fits(p, r, u) {
        assert Fits(p, s, u);
      }
    }
  }

  lemma MoveRow(p: Problem, s: State, i: nat, src: nat, dst: nat, d: real)
    requires Shaped(p, s) && i < |p.loads| && src < p.horizon && dst < p.horizon && src != dst
    requires RowGood(p, s, i) && p.InWindow(i, dst) && 0.0 <= d <= s.x[i][src]
    ensures RowGood(p, Transfer(p, s, i, src, dst, d), i)
  {
    MoveSums(p, s, i, src, dst, d);
  }

  lemma MoveSums(p: Problem, s: State, i: nat, src: nat, dst: nat, d: real)
    requires Shaped(p, s) && i < |p.loads| && src < p.horizon && dst < p.horizon && src != dst
    ensures var r := Transfer(p, s, i, src, dst, d);
            && (forall u :: 0 <= u < p.horizon ==>
                  SumSite(p, r, u) == SumSite(p, s, u) - (if u == src then d else 0.0) + if u == dst then d else 0.0)
            && (forall c, u :: 0 <= u < p.horizon ==>
                  SumCp(p, r, c, u) == SumCp(p, s, c, u)
                    + if c != p.loads[i].cpId then 0.0 else if u == src then -d else if u == dst then d else 0.0)
            && Sum(r.x[i]) == Sum(s.x[i])
  {
    var mid := s.(x := s.x[i := s.x[i][src := s.x[i][src] + -d]]);
    var r := Transfer(p, s, i, src, dst, d);
    CellSums(p, s, mid, i, src, -d);
    assert r.x == mid.x[i := mid.x[i][dst := mid.x[i][dst] + d]];
    CellSums(p, mid, r, i, dst, d);
  }

  // ---- the passes ----

  lemma {:induction false} FloorRowGood(p: Problem, s: State, i: nat, t: int)
    requires p.Valid() && Good(p, s) && i < |p.loads| && t <= p.horizon
    ensures var r := FloorRow(p, s, i, t);
            && Good(p, r)
            && r.need[i] <= s.need[i]
            && (forall j :: 0 <= j < |p.loads| && j != i ==> r.x[j] == s.x[j] && r.need[j] == s.need[j])
    decreases t
  {
    if t > p.loads[i].av {
      FloorRowGood(p, s, i, t - 1);
      GiveGood(p, FloorRow(p, s, i, t - 1), i, t - 1, p.loads[i].floorKwh);
    }
  }

  ghost predicate NeedDrops(p: Problem, s: State, r: State)
    requires Shaped(p, s) && Shaped(p, r)
  {
    forall j :: 0 <= j < |p.loads| ==> r.need[j] <= s.need[j]
  }

  lemma {:induction false} FloorPassGood(p: Problem, s: State, order: seq<nat>, k: nat)
    requires p.Valid() && Good(p, s) && Indices(p, order) && k <= |order|
    ensures Good(p, FloorPass(p, s, order, k)) && NeedDrops(p, s, FloorPass(p, s, order, k))
  {
    if k > 0 {
      FloorPassGood(p, s, order, k - 1);
      FloorRowGood(p, FloorPass(p, s, order, k - 1), order[k - 1], p.loads[order[k - 1]].dl);
    }
  }

  lemma {:induction false} FillSlotGood(p: Problem, s: State, order: seq<nat>, t: nat, k: nat)
    requires p.Valid() && Good(p, s) && Indices(p, order) && k <= |order| && t < p.horizon
    ensures Good(p, FillSlot(p, s, order, t, k)) && NeedDrops(p, s, FillSlot(p, s, order, t, k))
  {
    if k > 0 {
      FillSlotGood(p, s, order, t, k - 1);
      var i := order[k - 1];
      GiveGood(p, FillSlot(p, s, order, t, k - 1), i, t, p.loads[i].capKwh);
    }
  }

  lemma {:induction false} FillPassGood(p: Problem, s: State, order: seq<nat>, t: nat)
    requires p.Valid() && Good(p, s) && Indices(p, order) && t <= p.horizon
    ensures Good(p, FillPass(p, s, order, t)) && NeedDrops(p, s, FillPass(p, s, order, t))
  {
    if t > 0 {
      FillPassGood(p, s, order, t - 1);
      FillSlotGood(p, FillPass(p, s, order, t - 1), order, t - 1, |order|);
    }
  }

  // ---- what a move gains ----

  /** What some energy costs in some slot. */
  type Tariff = (nat, real) -> real

  ghost predicate Adds(c: Tariff, u: nat, a: real, b: real) {
    c(u, a + b) == c(u, a) + c(u, b)
  }

  /** A tariff is additive in the energy and orders slots by score. */
  ghost predicate TariffLaw(p: Problem, c: Tariff) {
    && (forall u, a, b {:trigger Adds(c, u, a, b)} :: Adds(c, u, a, b))
    && (forall u, v, e {:trigger c(u, e), c(v, e)} :: p.Score(u) < p.Score(v) && e > 0.0 ==> c(u, e) < c(v, e))
  }

  /** Cost of the slots before t. */
  function CostTo(p: Problem, c: Tariff, s: State, t: nat): real
    requires Shaped(p, s) && t <= p.horizon
  {
    if t == 0 then 0.0 else CostTo(p, c, s, t - 1) + c(t - 1, SumSite(p, s, t - 1))
  }

  /** The cost after d kWh went from src to dst. */
  lemma {:induction false} TransferCost(p: Problem, c: Tariff, s: State, r: State, src: nat, dst: nat, d: real, t: nat)
    requires Shaped(p, s) && Shaped(p, r) && src < p.horizon && dst < p.horizon && src != dst && t <= p.horizon
    requires TariffLaw(p, c)
    requires forall u :: 0 <= u < p.horizon ==>
               SumSite(p, r, u) == SumSite(p, s, u) - (if u == src then d else 0.0) + if u == dst then d else 0.0
    ensures CostTo(p, c, r, t) == CostTo(p, c, s, t)
              - (if src < t then c(src, d) else 0.0) + if dst < t then c(dst, d) else 0.0
    decreases t
  {
    if t > 0 {
      TransferCost(p, c, s, r, src, dst, d, t - 1);
      assert Adds(c, src, SumSite(p, r, src), d);
      assert Adds(c, dst, SumSite(p, s, dst), d);
    }
  }

  /** A move that happens takes a positive amount into a cheaper slot, so it strictly lowers the cost. */
  lemma MoveGain(p: Problem, c: Tariff, s: State, i: nat, src: nat, dst: nat)
    requires p.Valid() && Good(p, s) && i < |p.loads| && src < p.horizon && dst < p.horizon
    requires src != dst && p.Score(dst) < p.Score(src) && TariffLaw(p, c)
    ensures NoDearer(p, c, s, Move(p, s, i, src, dst))
  {
    var d := MoveAmount(p, s, i, src, dst);
    var r := Move(p, s, i, src, dst);
    if r != s {
      MoveSums(p, s, i, src, dst, d);
      TransferCost(p, c, s, r, src, dst, d, p.horizon);
      assert c(dst, d) < c(src, d);
    }
  }

  /** r obeys every constraint and serves every vehicle exactly as much as s does. */
  ghost predicate SameService(p: Problem, s: State, r: State) {
    Good(p, r) && r.need == s.need
  }

  /** r is s itself or strictly cheaper. */
  ghost predicate NoDearer(p: Problem, c: Tariff, s: State, r: State)
    requires Shaped(p, s) && Shaped(p, r)
  {
    r == s || CostTo(p, c, r, p.horizon) < CostTo(p, c, s, p.horizon)
  }

  lemma {:induction false} ShiftRowGood(p: Problem, s: State, i: nat, src: nat, dsts: seq<nat>, k: nat)
    requires p.Valid() && Good(p, s) && i < |p.loads| && src < p.horizon && Targets(p, i, src, dsts) && k <= |dsts|
    ensures SameService(p, s, ShiftRow(p, s, i, src, dsts, k))
  {
    if k > 0 {
      ShiftRowGood(p, s, i, src, dsts, k - 1);
      MoveGood(p, ShiftRow(p, s, i, src, dsts, k - 1), i, src, dsts[k - 1]);
    }
  }

  lemma {:induction false} ShiftRowCost(p: Problem, c: Tariff, s: State, i: nat, src: nat, dsts: seq<nat>, k: nat)
    requires p.Valid() && Good(p, s) && i < |p.loads| && src < p.horizon && Targets(p, i, src, dsts) && k <= |dsts|
    requires TariffLaw(p, c)
    ensures NoDearer(p, c, s, ShiftRow(p, s, i, src, dsts, k))
  {
    if k > 0 {
      ShiftRowGood(p, s, i, src, dsts, k - 1);
      ShiftRowCost(p, c, s, i, src, dsts, k - 1);
      MoveGain(p, c, ShiftRow(p, s, i, src, dsts, k - 1), i, src, dsts[k - 1]);
    }
  }

  lemma {:induction false} ShiftSlotGood(p: Problem, s: State, holders: seq<nat>, src: nat,
      lists: seq<seq<nat>>, k: nat)
    requires p.Valid() && Good(p, s) && Indices(p, holders) && src < p.horizon
    requires TargetLists(p, src, lists) && k <= |holders|
    ensures SameService(p, s, ShiftSlot(p, s, holders, src, lists, k))
    decreases k
  {
    if k > 0 {
      ShiftSlotGood(p, s, holders, src, lists, k - 1);
      var dsts := lists[holders[k - 1]];
      ShiftRowGood(p, ShiftSlot(p, s, holders, src, lists, k - 1), holders[k - 1], src, dsts, |dsts|);
    }
  }

  lemma {:induction false} ShiftSlotCost(p: Problem, c: Tariff, s: State, holders: seq<nat>, src: nat,
      lists: seq<seq<nat>>, k: nat)
    requires p.Valid() && Good(p, s) && Indices(p, holders) && src < p.horizon
    requires TargetLists(p, src, lists) && k <= |holders|
    requires TariffLaw(p, c)
    ensures NoDearer(p, c, s, ShiftSlot(p, s, holders, src, lists, k))
    decreases k
  {
    if k > 0 {
      ShiftSlotGood(p, s, holders, src, lists, k - 1);
      ShiftSlotCost(p, c, s, holders, src, lists, k - 1);
      var dsts := lists[holders[k - 1]];
      ShiftRowCost(p, c, ShiftSlot(p, s, holders, src, lists, k - 1), holders[k - 1], src, dsts, |dsts|);
    }
  }

  /** One dear slot of pass 3. */
  lemma ShiftedGood(p: Problem, m: State, order: seq<nat>, src: nat, lists: seq<seq<nat>>)
    requires p.Valid() && Good(p, m) && Indices(p, order) && src < p.horizon && TargetLists(p, src, lists)
    ensures SameService(p, m, Shifted(p, m, order, src, lists))
  {
    var holders := Holders(p, m, order, src, |order|);
    ShiftSlotGood(p, m, holders, src, lists, |holders|);
  }

  lemma ShiftedCost(p: Problem, c: Tariff, m: State, order: seq<nat>, src: nat, lists: seq<seq<nat>>)
    requires p.Valid() && Good(p, m) && Indices(p, order) && src < p.horizon && TargetLists(p, src, lists)
    requires TariffLaw(p, c)
    ensures NoDearer(p, c, m, Shifted(p, m, order, src, lists))
  {
    var holders := Holders(p, m, order, src, |order|);
    ShiftSlotCost(p, c, m, holders, src, lists, |holders|);
  }

  lemma {:induction false} ShiftPassGood(p: Problem, s: State, order: seq<nat>, slots: seq<nat>, menu: Menu, k: nat)
    requires p.Valid() && Good(p, s) && Indices(p, order) && Slots(p, slots) && MenuOk(p, menu) && k <= |slots|
    ensures SameService(p, s, ShiftPass(p, s, order, slots, menu, k))
    decreases k
  {
    if k > 0 {
      ShiftPassGood(p, s, order, slots, menu, k - 1);
      MenuAt(p, menu, slots[k - 1]);
      ShiftedGood(p, ShiftPass(p, s, order, slots, menu, k - 1), order, slots[k - 1], menu[slots[k - 1]]);
    }
  }

  /** Pass 3 lowers the score-weighted cost whenever it changes the plan at all. */
  lemma {:induction false} ShiftPassCost(p: Problem, c: Tariff, s: State, order: seq<nat>, slots: seq<nat>,
      menu: Menu, k: nat)
    requires p.Valid() && Good(p, s) && Indices(p, order) && Slots(p, slots) && MenuOk(p, menu) && k <= |slots|
    requires TariffLaw(p, c)
    ensures NoDearer(p, c, s, ShiftPass(p, s, order, slots, menu, k))
    decreases k
  {
    if k > 0 {
      ShiftPassGood(p, s, order, slots, menu, k - 1);
      ShiftPassCost(p, c, s, order, slots, menu, k - 1);
      MenuAt(p, menu, slots[k - 1]);
      ShiftedCost(p, c, ShiftPass(p, s, order, slots, menu, k - 1), order, slots[k - 1], menu[slots[k - 1]]);
    }
  }

  /** Score-weighted cost of a plan (the tariff, or tariff plus carbon). */
  function Cost(p: Problem, s: State): real
    requires Shaped(p, s)
  {
    CostTo(p, ByScore(p), s, p.horizon)
  }

  function ByScore(p: Problem): Tariff {
    (u: nat, e: real) => p.Score(u) * e
  }

  lemma ByScoreLaw(p: Problem)
    ensures TariffLaw(p, ByScore(p))
  {
    var c := ByScore(p);
    forall u, a, b ensures Adds(c, u, a, b) {
      assert p.Score(u) * (a + b) == p.Score(u) * a + p.Score(u) * b;
    }
    forall u, v, e | p.Score(u) < p.Score(v) && e > 0.0 ensures c(u, e) < c(v, e) {
      DearerTimes(p.Score(u), p.Score(v), e);
    }
  }

  lemma DearerTimes(a: real, b: real, e: real)
    requires a < b && e > 0.0
    ensures a * e < b * e
  {
  }

  /** The finished plan meets every constraint; passes 2 and 3 never take energy back from a vehicle;
      pass 3 changes nobody's energy and leaves the plan alone or makes it strictly cheaper. */
  lemma SolveGood(p: Problem)
    requires p.Valid()
    ensures Good(p, AfterFloors(p)) && Good(p, AfterFill(p)) && Good(p, Solve(p))
    ensures NeedDrops(p, AfterFloors(p), AfterFill(p))
    ensures Solve(p).need == AfterFill(p).need
    ensures Solve(p) == AfterFill(p) || Cost(p, Solve(p)) < Cost(p, AfterFill(p))
  {
    InitialGood(p);
    FloorPassGood(p, Initial(p), ById(p), |ById(p)|);
    FillPassGood(p, AfterFloors(p), Edf(p), p.horizon);
    ShiftPassGood(p, AfterFill(p), ById(p), PriceOrder(p), CheaperMenu(p), |PriceOrder(p)|);
    ByScoreLaw(p);
    ShiftPassCost(p, ByScore(p), AfterFill(p), ById(p), PriceOrder(p), CheaperMenu(p), |PriceOrder(p)|);
  }

  // ---- what pass 3 leaves behind ----

  /** Slot t has no room for another amount above the cut-off on charge point cp. */
  ghost predicate Full(p: Problem, s: State, t: nat, cp: int)
    requires Shaped(p, s) && t < p.horizon
  {
    RoomAt(p, s, t, cp).Some? && RoomAt(p, s, t, cp).value <= p.eps
  }

  lemma RoomShrinks(p: Problem, s: State, r: State, t: nat, cp: int, d: real)
    requires p.Valid() && Shaped(p, s) && Shaped(p, r) && t < p.horizon && d >= 0.0
    requires SumSite(p, r, t) == SumSite(p, s, t) + d && SumCp(p, r, cp, t) == SumCp(p, s, cp, t) + d
    ensures Full(p, s, t, cp) ==> Full(p, r, t, cp)
    ensures RoomAt(p, s, t, cp) == Some(d) ==> Full(p, r, t, cp)
  {
  }

  /** A move empties the dear slot or fills the cheap one. */
  lemma MoveExhausts(p: Problem, s: State, i: nat, src: nat, dst: nat)
    requires p.Valid() && Good(p, s) && !p.aware && i < |p.loads| && src < p.horizon && dst < p.horizon && src != dst
    ensures var r := Move(p, s, i, src, dst);
            r.x[i][src] <= p.eps || Full(p, r, dst, p.loads[i].cpId)
  {
    var r := Move(p, s, i, src, dst);
    if r != s {
      var d := MoveAmount(p, s, i, src, dst);
      MoveSums(p, s, i, src, dst, d);
      RoomShrinks(p, s, r, dst, p.loads[i].cpId, d);
    }
  }

  lemma MoveKeepsFull(p: Problem, s: State, i: nat, src: nat, dst: nat, t: nat)
    requires p.Valid() && Good(p, s) && i < |p.loads| && src < p.horizon && dst < p.horizon && t < p.horizon
    requires src != dst && t != src && Full(p, s, t, p.loads[i].cpId)
    ensures Full(p, Move(p, s, i, src, dst), t, p.loads[i].cpId)
  {
    var r := Move(p, s, i, src, dst);
    if r != s {
      var d := MoveAmount(p, s, i, src, dst);
      MoveSums(p, s, i, src, dst, d);
      RoomShrinks(p, s, r, t, p.loads[i].cpId, if t == dst then d else 0.0);
    }
  }

  /** The power-based pass 3 leaves a vehicle's energy in a dear slot only when every cheaper slot of its window is full
      by the end of its turn. */
  lemma {:induction false} ShiftExhausts(p: Problem, s: State, i: nat, src: nat, dsts: seq<nat>, k: nat, j: nat)
    requires p.Valid() && Good(p, s) && !p.aware && i < |p.loads| && src < p.horizon && Targets(p, i, src, dsts)
    requires j < k <= |dsts|
    ensures var r := ShiftRow(p, s, i, src, dsts, k);
            r.x[i][src] <= p.eps || Full(p, r, dsts[j], p.loads[i].cpId)
    decreases k
  {
    var m := ShiftRow(p, s, i, src, dsts, k - 1);
    ShiftRowGood(p, s, i, src, dsts, k - 1);
    if j == k - 1 {
      MoveExhausts(p, m, i, src, dsts[j]);
    } else {
      ShiftExhausts(p, s, i, src, dsts, k - 1, j);
      if m.x[i][src] > p.eps {
        MoveKeepsFull(p, m, i, src, dsts[k - 1], dsts[j]);
      }
    }
  }
}
