/** The allocator as it runs: one schedule matrix and one need vector, updated in place by three passes. */
module Planner {
  import opened Reals
  import opened Ordering
  import opened Charging
  import opened Allocator
  import opened Invariants

  /** Nothing is left to ask for, so the rest of the floor loop changes nothing. */
  lemma {:induction false} FloorRowDone(p: Problem, s: State, i: nat, t: int, w: int)
    requires Shaped(p, s) && i < |p.loads| && p.loads[i].av <= t <= w <= p.horizon
    requires FloorRow(p, s, i, t).need[i] <= p.eps
    ensures FloorRow(p, s, i, w) == FloorRow(p, s, i, t)
    decreases w
  {
    if t < w {
      FloorRowDone(p, s, i, t, w - 1);
    }
  }

  /** Nothing is left to move, so the rest of the cheaper slots change nothing. */
  lemma {:induction false} ShiftRowDone(p: Problem, s: State, i: nat, src: nat, dsts: seq<nat>, j: nat, k: nat)
    requires Shaped(p, s) && i < |p.loads| && src < p.horizon && Targets(p, i, src, dsts) && j <= k <= |dsts|
    requires ShiftRow(p, s, i, src, dsts, j).x[i][src] <= p.eps
    ensures ShiftRow(p, s, i, src, dsts, k) == ShiftRow(p, s, i, src, dsts, j)
    decreases k
  {
    if j < k {
      ShiftRowDone(p, s, i, src, dsts, j, k - 1);
    }
  }

  /** The schedule as it is published, in four decimals. */
  function Published(x: seq<seq<real>>): seq<seq<real>> {
    seq(|x|, i requires 0 <= i < |x| => seq(|x[i]|, t requires 0 <= t < |x[i]| => ToFixed4(x[i][t])))
  }

  class Plan {
    const p: Problem
    const x: array2<real>
    const need: array<real>

    ghost predicate Valid() {
      p.Prepared() && x.Length0 == need.Length == |p.loads| && x.Length1 == p.horizon
    }

    ghost function Row(i: nat): (row: seq<real>)
      requires Valid() && i < |p.loads|
      reads x
      ensures |row| == p.horizon
    {
      seq(p.horizon, t requires 0 <= t < p.horizon reads x => x[i, t])
    }

    /** The state the allocator's functions speak of. */
    ghost function Now(): (s: State)
      requires Valid()
      reads x, need
      ensures Shaped(p, s)
    {
      State(seq(|p.loads|, i requires 0 <= i < |p.loads| reads x => Row(i)), need[..])
    }

    constructor (problem: Problem)
      requires problem.Prepared()
      ensures p == problem && Valid() && Now() == Initial(p) && fresh(x) && fresh(need)
    {
      p := problem;
      x := new real[|problem.loads|, problem.horizon]((i, t) => 0.0);
      need := new real[|problem.loads|](i requires 0 <= i < |problem.loads| => problem.loads[i].need0);
      new;
      assert need[..] == Initial(p).need;
      forall i | 0 <= i < |p.loads| ensures Row(i) == Initial(p).x[i] {
      }
      assert Now().x == Initial(p).x;
    }

    method SiteTotal(t: nat) returns (kwh: real)
      requires Valid() && t < p.horizon
      ensures kwh == SumSite(p, Now(), t)
    {
      ghost var col := Col(Now().x, p.horizon, t);
      kwh := 0.0;
      for i := 0 to x.Length0
        invariant kwh == Sum(col[..i])
      {
        assert col[..i + 1] == col[..i] + [x[i, t]];
        SumPush(col[..i], x[i, t]);
        kwh := kwh + x[i, t];
      }
      assert col[..x.Length0] == col;
    }

    method PointTotal(cp: int, t: nat) returns (kwh: real)
      requires Valid() && t < p.horizon
      ensures kwh == SumCp(p, Now(), cp, t)
    {
      ghost var col := CpCol(p, Now(), cp, t);
      kwh := 0.0;
      for i := 0 to x.Length0
        invariant kwh == Sum(col[..i])
      {
        assert col[..i + 1] == col[..i] + [col[i]];
        SumPush(col[..i], col[i]);
        if p.loads[i].cpId == cp {
          kwh := kwh + x[i, t];
        }
      }
      assert col[..x.Length0] == col;
    }

    method Room(t: nat, cp: int) returns (room: Option<real>)
      requires Valid() && t < p.horizon
      ensures room == RoomAt(p, Now(), t, cp)
    {
      var site, point := None, None;
      if p.siteKwh.Some? {
        var used := SiteTotal(t);
        site := Some(p.siteKwh.value - used);
      }
      if cp in p.cpKwh {
        var used := PointTotal(cp, t);
        point := Some(p.cpKwh[cp] - used);
      }
      room := Tighter(site, point);
      if room.Some? {
        room := Some(Max(0.0, room.value));
      }
    }

    /** State of charge just before slot t, replayed from the row. */
    method SocBefore(i: nat, t: nat) returns (soc: real)
      requires Valid() && i < |p.loads| && t <= p.horizon && p.loads[i].pack.Some?
      ensures soc == Replay(p.loads[i].pack.value.cell, p.tiny, Row(i), p.loads[i].pack.value.soc, t)
    {
      var c := p.loads[i].pack.value.cell;
      soc := p.loads[i].pack.value.soc;
      for u := 0 to t
        invariant soc == Replay(c, p.tiny, Row(i), p.loads[i].pack.value.soc, u)
      {
        if x[i, u] > p.tiny {
          soc := Min(1.0, soc + c.rise(Min(x[i, u], c.accepts(soc))));
        }
      }
    }

    method Accepts(i: nat, t: nat) returns (kwh: real)
      requires Valid() && i < |p.loads| && t <= p.horizon
      ensures kwh == AcceptanceKwh(p, i, Row(i), t)
    {
      kwh := p.loads[i].capKwh;
      if p.loads[i].pack.Some? {
        var soc := SocBefore(i, t);
        kwh := Max(0.0, Min(kwh, p.loads[i].pack.value.cell.accepts(soc)));
      }
    }

    /** The amount a give would write. */
    method Offer(i: nat, t: nat, kwh: real) returns (amount: real)
      requires Valid() && i < |p.loads| && t < p.horizon
      ensures amount == GiveAmount(p, Now(), i, t, kwh)
    {
      var deliverable := kwh;
      if p.aware {
        deliverable := Accepts(i, t);
      }
      var room := Room(t, p.loads[i].cpId);
      amount := Max(0.0, Limit(Min(Min(kwh, deliverable), need[i]), room));
    }

    /** Adds to one cell of the schedule. */
    method Credit(i: nat, t: nat, amount: real)
      requires Valid() && i < |p.loads| && t < p.horizon
      modifies x
      ensures Now() == State(old(Now()).x[i := old(Now()).x[i][t := old(Now()).x[i][t] + amount]], old(Now()).need)
    {
      ghost var s := Now();
      x[i, t] := x[i, t] + amount;
      ghost var r := s.x[i := s.x[i][t := s.x[i][t] + amount]];
      forall j | 0 <= j < |p.loads| ensures Now().x[j] == r[j] {
        assert Row(j) == r[j];
      }
      assert Now().x == r;
    }

    /** The only writer of passes 1 and 2. */
    method Give(i: nat, t: nat, kwh: real)
      requires Valid() && i < |p.loads| && t < p.horizon
      modifies x, need
      ensures Now() == Allocator.Give(p, old(Now()), i, t, kwh)
    {
      if p.InWindow(i, t) {
        var amount := Offer(i, t, kwh);
        if amount > p.eps {
          Credit(i, t, amount);
          need[i] := need[i] - amount;
        }
      }
    }

    method MoveOffer(i: nat, src: nat, dst: nat, movable: real) returns (amount: real)
      requires Valid() && i < |p.loads| && src < p.horizon && dst < p.horizon && movable == x[i, src]
      ensures amount == MoveAmount(p, Now(), i, src, dst)
    {
      var accepts := movable;
      if p.aware {
        var kwh := Accepts(i, dst);
        accepts := Max(0.0, kwh - x[i, dst]);
      }
      var room := Room(dst, p.loads[i].cpId);
      amount := Limit(Min(movable, accepts), room);
    }

    /** One move; returns what is left to move. */
    method MoveOne(i: nat, src: nat, dst: nat, movable: real) returns (left: real)
      requires Valid() && i < |p.loads| && src < p.horizon && dst < p.horizon && src != dst
      requires movable == x[i, src] > p.eps
      modifies x
      ensures Now() == Move(p, old(Now()), i, src, dst) && left == x[i, src]
    {
      left := movable;
      var amount := MoveOffer(i, src, dst, movable);
      if amount > p.eps {
        ghost var s := Now();
        Credit(i, src, -amount);
        ghost var m := Now();
        Credit(i, dst, amount);
        left := movable - amount;
        assert m.x[i] == s.x[i][src := s.x[i][src] - amount];
        assert Now().x == Transfer(p, s, i, src, dst, amount).x;
        assert Now().x[i][src] == m.x[i][src];
      }
    }

    /** Pass 3 for one vehicle and one dear slot. */
    method ShiftOut(i: nat, src: nat, cheaper: seq<nat>)
      requires Valid() && i < |p.loads| && src < p.horizon && Targets(p, i, src, cheaper)
      modifies x
      ensures Now() == ShiftRow(p, old(Now()), i, src, cheaper, |cheaper|)
    {
      ghost var start := Now();
      var movable := x[i, src];
      var k := 0;
      while k < |cheaper| && movable > p.eps
        invariant 0 <= k <= |cheaper| && movable == x[i, src]
        invariant Now() == ShiftRow(p, start, i, src, cheaper, k)
      {
        movable := MoveOne(i, src, cheaper[k], movable);
        k := k + 1;
      }
      if k < |cheaper| {
        ShiftRowDone(p, start, i, src, cheaper, k, |cheaper|);
      }
    }

    /** The next slot of vehicle i's floor. */
    method FloorNext(ghost start: State, i: nat, t: nat)
      requires Valid() && i < |p.loads| && t < p.horizon && p.loads[i].av <= t && need[i] > p.eps
      requires Shaped(p, start) && Now() == FloorRow(p, start, i, t)
      modifies x, need
      ensures Now() == FloorRow(p, start, i, t + 1)
    {
      FloorRowStep(p, start, Now(), i, t);
      Give(i, t, p.loads[i].floorKwh);
    }

    /** The slots of vehicle i's floor until it has enough. */
    method FloorSlots(i: nat) returns (t: int)
      requires Valid() && i < |p.loads| && p.loads[i].av < p.loads[i].dl
      modifies x, need
      ensures p.loads[i].av <= t <= p.loads[i].dl && Now() == FloorRow(p, old(Now()), i, t)
      ensures t < p.loads[i].dl ==> need[i] <= p.eps
    {
      ghost var start := Now();
      t := p.loads[i].av;
      while t < p.loads[i].dl && need[i] > p.eps
        invariant p.loads[i].av <= t <= p.loads[i].dl && Now() == FloorRow(p, start, i, t)
      {
        FloorNext(start, i, t);
        t := t + 1;
      }
    }

    /** Pass 1 for one vehicle. */
    method HonourFloor(i: nat)
      requires Valid() && i < |p.loads|
      modifies x, need
      ensures Now() == FloorRow(p, old(Now()), i, p.loads[i].dl)
    {
      if p.loads[i].av < p.loads[i].dl {
        ghost var start := Now();
        var t := FloorSlots(i);
        if t < p.loads[i].dl {
          FloorRowDone(p, start, i, t, p.loads[i].dl);
        }
      }
    }

    method FloorsFirst()
      requires Valid()
      modifies x, need
      ensures Now() == FloorPass(p, old(Now()), ById(p), |ById(p)|)
    {
      var order := ById(p);
      for k := 0 to |order|
        invariant Now() == FloorPass(p, old(Now()), order, k)
      {
        if p.loads[order[k]].floored {
          HonourFloor(order[k]);
        }
      }
    }

    method FillByDeadline()
      requires Valid()
      modifies x, need
      ensures Now() == FillPass(p, old(Now()), Edf(p), p.horizon)
    {
      var order := Edf(p);
      for t := 0 to p.horizon
        invariant Now() == FillPass(p, old(Now()), order, t)
      {
        ghost var s := Now();
        for k := 0 to |order|
          invariant Now() == FillSlot(p, s, order, t, k)
        {
          var i := order[k];
          if p.InWindow(i, t) && need[i] > p.eps {
            Give(i, t, p.loads[i].capKwh);
          }
        }
      }
    }

    /** The vehicles of `order` with energy in slot src. */
    method FindHolders(order: seq<nat>, src: nat) returns (holders: seq<nat>)
      requires Valid() && Indices(p, order) && src < p.horizon
      ensures holders == Holders(p, Now(), order, src, |order|)
    {
      holders := [];
      ghost var s := Now();
      for k := 0 to |order|
        invariant holders == Holders(p, s, order, src, k)
      {
        assert x[order[k], src] == s.x[order[k]][src];
        if x[order[k], src] > p.eps {
          holders := holders + [order[k]];
        }
      }
    }

    method ShiftSlotOut(order: seq<nat>, src: nat, lists: seq<seq<nat>>)
      requires Valid() && Indices(p, order) && src < p.horizon && TargetLists(p, src, lists)
      modifies x
      ensures Now() == Shifted(p, old(Now()), order, src, lists)
    {
      var holders := FindHolders(order, src);
      for k := 0 to |holders|
        invariant Now() == ShiftSlot(p, old(Now()), holders, src, lists, k)
      {
        ShiftOut(holders[k], src, lists[holders[k]]);
      }
    }

    /** The next dearest slot. */
    method ShiftNext(ghost start: State, order: seq<nat>, slots: seq<nat>, menu: Menu, k: nat)
      requires Valid() && Shaped(p, start) && Indices(p, order) && Slots(p, slots) && MenuOk(p, menu) && k < |slots|
      requires Now() == ShiftPass(p, start, order, slots, menu, k)
      modifies x
      ensures Now() == ShiftPass(p, start, order, slots, menu, k + 1)
    {
      MenuAt(p, menu, slots[k]);
      ShiftSlotOut(order, slots[k], menu[slots[k]]);
    }

    method ShiftByPrice(menu: Menu)
      requires Valid() && MenuOk(p, menu)
      modifies x
      ensures Now() == ShiftPass(p, old(Now()), ById(p), PriceOrder(p), menu, |PriceOrder(p)|)
    {
      ghost var start := Now();
      var order, slots := ById(p), PriceOrder(p);
      for k := 0 to |slots|
        invariant Now() == ShiftPass(p, start, order, slots, menu, k)
      {
        ShiftNext(start, order, slots, menu, k);
      }
    }

    method PublishRow(i: nat) returns (row: seq<real>)
      requires Valid() && i < |p.loads|
      ensures |row| == p.horizon && forall t :: 0 <= t < p.horizon ==> row[t] == ToFixed4(x[i, t])
    {
      row := [];
      for t := 0 to p.horizon
        invariant |row| == t && forall u :: 0 <= u < t ==> row[u] == ToFixed4(x[i, u])
      {
        row := row + [ToFixed4(x[i, t])];
      }
    }

    method Publish() returns (schedule: seq<seq<real>>)
      requires Valid()
      ensures schedule == Published(Now().x)
    {
      schedule := [];
      for i := 0 to |p.loads|
        invariant |schedule| == i && forall j :: 0 <= j < i ==> schedule[j] == Published(Now().x)[j]
      {
        var row := PublishRow(i);
        assert row == Published(Now().x)[i];
        schedule := schedule + [row];
      }
    }

    /** The three passes leave the schedule the allocator's functions describe. */
    method Run()
      requires Valid() && Now() == Initial(p)
      modifies x, need
      ensures Now() == Solve(p)
    {
      FloorsFirst();
      FillByDeadline();
      ShiftByPrice(CheaperMenu(p));
    }
  }

  /** The grid a caller gets: an unusable cadence or horizon falls back to its default. */
  function Clamped(r: Request, dtMin: int, horizon: int): (c: Request)
    ensures c.dtMin > 0
  {
    r.(dtMin := ClampDtMin(dtMin), horizon := ClampHorizon(horizon))
  }

  // ---- the plan in the request's own terms ----

  /** What the vehicles of one charge point draw in slot t; all vehicles together, if none is named. */
  ghost function Drawn(r: Request, x: seq<seq<real>>, cp: Option<int>, t: nat): seq<real>
    requires |x| == |r.vehicles| && Rect(x, r.horizon) && t < r.horizon
  {
    seq(|x|, i requires 0 <= i < |x| => if cp.None? || r.vehicles[i].cpId == cp.value then x[i][t] else 0.0)
  }

  /** No more energy in a slot of dtMin minutes than a power allows. */
  ghost predicate AtMost(kwh: real, kw: real, dtMin: int) {
    kwh * 60.0 <= kw * dtMin as real
  }

  ghost predicate CapsHold(r: Request, x: seq<seq<real>>, t: nat)
    requires |x| == |r.vehicles| && Rect(x, r.horizon) && t < r.horizon
  {
    && (r.siteCapKw.Some? ==> AtMost(Sum(Drawn(r, x, None, t)), r.siteCapKw.value, r.dtMin))
    && (forall c :: c in r.cpCaps ==> AtMost(Sum(Drawn(r, x, Some(c), t)), r.cpCaps[c], r.dtMin))
  }

  /** Energy is planned only in slots that begin before the vehicle's deadline and end after its arrival. */
  ghost predicate WithinStays(r: Request, start: int, x: seq<seq<real>>)
    requires |x| == |r.vehicles| && Rect(x, r.horizon)
  {
    forall i, t :: 0 <= i < |x| && 0 <= t < r.horizon && x[i][t] != 0.0 ==>
      DuringStay(r.vehicles[i], start, r.DtMs(), t)
  }

  /** What a vehicle is planned and what it is still owed add up to what it lacked, and neither is negative. */
  ghost predicate Accounted(v: Vehicle, row: seq<real>, need: real) {
    && need >= 0.0 && Sum(row) + need == (if v.remainingKwh > 0.0 then v.remainingKwh else 0.0)
    && forall t :: 0 <= t < |row| ==> row[t] >= 0.0
  }

  ghost predicate Feasible(r: Request, s: State) {
    && |s.x| == |s.need| == |r.vehicles| && Rect(s.x, r.horizon)
    && (forall t :: 0 <= t < r.horizon ==> CapsHold(r, s.x, t))
    && (forall start :: GridPoint(start, r.now, r.DtMs()) ==> WithinStays(r, start, s.x))
    && (forall i :: 0 <= i < |s.x| ==> Accounted(r.vehicles[i], s.x[i], s.need[i]))
  }

  lemma GoodStays(r: Request, start: int, s: State)
    requires r.dtMin > 0 && GridPoint(start, r.now, r.DtMs()) && Good(Prepare(r), s)
    ensures WithinStays(r, start, s.x)
  {
    var p := Prepare(r);
    forall i, t | 0 <= i < |s.x| && 0 <= t < r.horizon && s.x[i][t] != 0.0
      ensures DuringStay(r.vehicles[i], start, r.DtMs(), t)
    {
      assert RowGood(p, s, i);
      WindowIsStay(r, start, i, t);
    }
  }

  lemma GoodCaps(r: Request, s: State, t: nat)
    requires r.dtMin > 0 && Good(Prepare(r), s) && t < r.horizon
    ensures CapsHold(r, s.x, t)
  {
    var p := Prepare(r);
    CapsAre(r);
    assert Fits(p, s, t);
    assert Drawn(r, s.x, None, t) == Col(s.x, p.horizon, t);
    forall c | c in r.cpCaps ensures AtMost(Sum(Drawn(r, s.x, Some(c), t)), r.cpCaps[c], r.dtMin) {
      assert Drawn(r, s.x, Some(c), t) == CpCol(p, s, c, t);
      assert SlotOf(p.cpKwh[c], r.cpCaps[c], r.dtMin);
    }
  }

  /** A plan that keeps the allocator's invariant is feasible for the request. */
  lemma GoodFeasible(r: Request, s: State)
    requires r.dtMin > 0 && Good(Prepare(r), s)
    ensures Feasible(r, s)
  {
    forall t | 0 <= t < r.horizon ensures CapsHold(r, s.x, t) {
      GoodCaps(r, s, t);
    }
    forall start | GridPoint(start, r.now, r.DtMs()) ensures WithinStays(r, start, s.x) {
      GoodStays(r, start, s);
    }
    forall i | 0 <= i < |s.x| ensures Accounted(r.vehicles[i], s.x[i], s.need[i]) {
      assert RowGood(Prepare(r), s, i);
    }
  }

  /** solveSchedule: whatever cadence and horizon it is asked for, a well-formed site gets a plan that keeps its caps in
      every slot, charges nobody outside its stay and accounts for every need, and its schedule in four decimals. */
  method SolveSchedule(r: Request, dtMin: int, horizon: int) returns (plan: Plan, schedule: seq<seq<real>>)
    ensures fresh(plan) && plan.Valid() && plan.p == Prepare(Clamped(r, dtMin, horizon)) && plan.Now() == Solve(plan.p)
    ensures schedule == Published(Solve(plan.p).x)
    ensures |schedule| == |r.vehicles| && forall i, t ::
              0 <= i < |schedule| && 0 <= t < ClampHorizon(horizon) ==>
                |schedule[i]| == ClampHorizon(horizon) && schedule[i][t] == ToFixed4(plan.Now().x[i][t])
    ensures Clamped(r, dtMin, horizon).Valid() ==> Good(plan.p, plan.Now())
    ensures Clamped(r, dtMin, horizon).Valid() ==> Feasible(Clamped(r, dtMin, horizon), plan.Now())
  {
    var c := Clamped(r, dtMin, horizon);
    plan := new Plan(Prepare(c));
    plan.Run();
    schedule := plan.Publish();
    if c.Valid() {
      PrepareValid(c);
      SolveGood(Prepare(c));
      GoodFeasible(c, Solve(Prepare(c)));
    }
  }
}
