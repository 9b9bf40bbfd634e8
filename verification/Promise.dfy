/** Pass 1 honours certified floors: in full wherever earlier sessions leave them, and what is left of them
    elsewhere. */
module Promise {
  import opened Reals
  import opened Ordering
  import opened Charging
  import opened Allocator
  import opened Invariants
  import opened EdfOptimality

  /** What survives the cut-off of a slot. */
  function Kept(kwh: real, eps: real): real {
    if kwh > eps then kwh else 0.0
  }

  /** What vehicle o's floor asks for in slot t. */
  function FloorAsk(p: Problem, o: nat, t: nat): real
    requires o < |p.loads|
  {
    if p.loads[o].floored && p.InWindow(o, t) then p.loads[o].floorKwh else 0.0
  }

  function AskCol(p: Problem, t: nat): seq<real> {
    seq(|p.loads|, o requires 0 <= o < |p.loads| => FloorAsk(p, o, t))
  }

  function CpAskCol(p: Problem, c: int, t: nat): seq<real> {
    seq(|p.loads|, o requires 0 <= o < |p.loads| => if p.loads[o].cpId == c then FloorAsk(p, o, t) else 0.0)
  }

  ghost predicate FloorsNonneg(p: Problem) {
    forall o :: 0 <= o < |p.loads| && p.loads[o].floored ==> p.loads[o].floorKwh >= 0.0
  }

  /** In every slot the floors of the plugged-in vehicles fit under the site cap and under every charge-point cap. */
  ghost predicate FloorsFit(p: Problem) {
    FloorsNonneg(p) && forall t :: 0 <= t < p.horizon ==> FloorsFitAt(p, t)
  }

  ghost predicate FloorsFitAt(p: Problem, t: nat) {
    && (p.siteKwh.Some? ==> Sum(AskCol(p, t)) <= p.siteKwh.value)
    && (forall c :: c in p.cpKwh ==> Sum(CpAskCol(p, c, t)) <= p.cpKwh[c])
  }

  /** What pass 1 can give vehicle o in slot t: its floor, unless that is within the cut-off. */
  function FloorPay(p: Problem, o: nat, t: nat): real
    requires o < |p.loads|
  {
    Kept(FloorAsk(p, o, t), p.eps)
  }

  /** No vehicle has been given more than its floor anywhere. */
  ghost predicate WithinFloors(p: Problem, s: State)
    requires Shaped(p, s)
  {
    forall o, t :: 0 <= o < |p.loads| && 0 <= t < p.horizon ==> s.x[o][t] <= FloorPay(p, o, t)
  }

  ghost predicate RowEmptyFrom(p: Problem, s: State, i: nat, t: int)
    requires Shaped(p, s) && i < |p.loads|
  {
    forall u :: 0 <= u < p.horizon && u >= t ==> s.x[i][u] == 0.0
  }

  /** At least g can still go into slot t of vehicle i. */
  ghost predicate Spare(p: Problem, s: State, i: nat, t: nat, g: real)
    requires Shaped(p, s) && i < |p.loads| && t < p.horizon
  {
    var room := RoomAt(p, s, t, p.loads[i].cpId);
    room.Some? ==> g <= room.value
  }

  /** A row that never exceeds the flat floor and starts at the arrival slot. */
  ghost predicate FlatRow(p: Problem, i: nat, row: seq<real>, t: nat)
    requires i < |p.loads|
  {
    && |row| == p.horizon && t <= p.horizon
    && forall u :: 0 <= u < t ==> 0.0 <= row[u] <= (if u < p.loads[i].av then 0.0 else p.loads[i].floorKwh)
  }

  /** However vehicle i followed its floor so far, slot t can still take the whole floor. */
  ghost predicate Deliverable(p: Problem, i: nat, t: nat)
    requires i < |p.loads|
  {
    p.aware ==> forall row :: FlatRow(p, i, row, t) ==> AcceptanceKwh(p, i, row, t) >= p.loads[i].floorKwh
  }

  /** Vehicle i is done, or every slot since its arrival carries exactly its floor; and it is done only when its need
      ran out before the slots did. */
  ghost predicate Flat(p: Problem, s: State, r: State, i: nat, t: int)
    requires Shaped(p, s) && Shaped(p, r) && i < |p.loads| && t <= p.horizon
  {
    || (r.need[i] <= p.eps && s.need[i] < Times(p.loads[i].floorKwh, t - p.loads[i].av))
    || (&& r.need[i] == s.need[i] - Times(p.loads[i].floorKwh, t - p.loads[i].av)
        && forall u :: p.loads[i].av <= u < t ==> r.x[i][u] == p.loads[i].floorKwh)
  }

  /** One floor slot stays within the floors. */
  lemma FloorSlot(p: Problem, m: State, i: nat, t: nat)
    requires p.Valid() && Shaped(p, m) && FloorsNonneg(p) && WithinFloors(p, m)
    requires i < |p.loads| && t < p.horizon && p.loads[i].floored && RowEmptyFrom(p, m, i, t)
    ensures var r := Give(p, m, i, t, p.loads[i].floorKwh);
            WithinFloors(p, r) && RowEmptyFrom(p, r, i, t + 1)
  {
  }

  /** With g to spare, a slot that accepts the floor pays at least g, or what is still needed, and never more than the
      floor. */
  lemma FloorSlotPays(p: Problem, m: State, i: nat, t: nat, g: real)
    requires p.Valid() && Good(p, m) && WithinFloors(p, m)
    requires i < |p.loads| && t < p.horizon && p.loads[i].floored && p.InWindow(i, t)
    requires RowEmptyFrom(p, m, i, t) && m.need[i] > p.eps
    requires p.eps < g <= p.loads[i].floorKwh && Spare(p, m, i, t, g) && Deliverable(p, i, t)
    ensures var r := Give(p, m, i, t, p.loads[i].floorKwh);
            && Min(g, m.need[i]) <= r.x[i][t] <= p.loads[i].floorKwh
            && r.need[i] == m.need[i] - r.x[i][t]
  {
    if p.aware {
      assert RowGood(p, m, i);
      forall u | 0 <= u < t ensures 0.0 <= m.x[i][u] <= (if u < p.loads[i].av then 0.0 else p.loads[i].floorKwh) {
        assert m.x[i][u] <= FloorPay(p, i, u);
      }
      assert FlatRow(p, i, m.x[i], t);
    }
    assert m.x[i][t] == 0.0;
  }

  /** Vehicle i's turn in pass 1 stays within the floors. */
  lemma {:induction false} FloorTurn(p: Problem, s: State, i: nat, t: int)
    requires p.Valid() && Good(p, s) && FloorsNonneg(p) && WithinFloors(p, s)
    requires i < |p.loads| && p.loads[i].floored && t <= p.loads[i].dl && RowEmptyFrom(p, s, i, 0)
    ensures var r := FloorRow(p, s, i, t);
            WithinFloors(p, r) && RowEmptyFrom(p, r, i, t)
    decreases t
  {
    if t > p.loads[i].av {
      FloorTurn(p, s, i, t - 1);
      FloorSlot(p, FloorRow(p, s, i, t - 1), i, t - 1);
    }
  }

  /** What was to spare in a slot before the turn still is when the turn gets there. */
  lemma SpareStays(p: Problem, s: State, r: State, i: nat, t: nat, g: real)
    requires Shaped(p, s) && Shaped(p, r) && i < |p.loads| && t < p.horizon && Spare(p, s, i, t, g)
    requires forall o :: 0 <= o < |p.loads| ==> r.x[o][t] == s.x[o][t]
    ensures Spare(p, r, i, t, g)
  {
    assert Col(r.x, p.horizon, t) == Col(s.x, p.horizon, t);
    assert CpCol(p, r, p.loads[i].cpId, t) == CpCol(p, s, p.loads[i].cpId, t);
  }

  /** Slots of the window before t can take the floor, and have g to spare. */
  ghost predicate Open(p: Problem, s: State, i: nat, t: int, g: real)
    requires Shaped(p, s) && i < |p.loads| && t <= p.horizon
  {
    && p.eps < g <= p.loads[i].floorKwh
    && forall u :: p.loads[i].av <= u < t ==> Spare(p, s, i, u, g) && Deliverable(p, i, u)
  }

  /** The slot the turn reaches at t. */
  lemma TurnSlot(p: Problem, s: State, i: nat, t: nat, g: real)
    requires p.Valid() && Good(p, s) && FloorsNonneg(p) && WithinFloors(p, s)
    requires i < |p.loads| && Untouched(p, s, i) && p.loads[i].floored && p.loads[i].av <= t < p.loads[i].dl
      && Open(p, s, i, t + 1, g)
    requires FloorRow(p, s, i, t).need[i] > p.eps
    ensures var m, r := FloorRow(p, s, i, t), FloorRow(p, s, i, t + 1);
            && Min(g, m.need[i]) <= r.x[i][t] <= p.loads[i].floorKwh
            && r.need[i] == m.need[i] - r.x[i][t] >= 0.0
            && (forall u :: 0 <= u < t ==> r.x[i][u] == m.x[i][u])
  {
    var m := FloorRow(p, s, i, t);
    FloorTurn(p, s, i, t);
    FloorRowGood(p, s, i, t);
    assert Spare(p, s, i, t, g);
    SpareStays(p, s, m, i, t, g);
    FloorSlotPays(p, m, i, t, g);
    GiveGood(p, m, i, t, p.loads[i].floorKwh);
    assert RowGood(p, FloorRow(p, s, i, t + 1), i);
  }

  /** A turn with g to spare in every slot pays at least g a slot, or the whole need. */
  lemma {:induction false} TurnPays(p: Problem, s: State, i: nat, t: int, g: real)
    requires p.Valid() && Good(p, s) && FloorsNonneg(p) && WithinFloors(p, s)
    requires i < |p.loads| && Untouched(p, s, i) && p.loads[i].floored && p.loads[i].av <= t <= p.loads[i].dl
      && Open(p, s, i, t, g)
    ensures FloorRow(p, s, i, t).need[i] <= Max(p.eps, s.need[i] - Times(g, t - p.loads[i].av))
    decreases t
  {
    if t > p.loads[i].av {
      TurnPays(p, s, i, t - 1, g);
      if FloorRow(p, s, i, t - 1).need[i] > p.eps {
        TurnSlot(p, s, i, t - 1, g);
      }
    }
  }

  /** A turn with the whole floor to spare in every slot pays exactly the floor until the need is met. */
  lemma {:induction false} TurnFlat(p: Problem, s: State, i: nat, t: int)
    requires p.Valid() && Good(p, s) && FloorsNonneg(p) && WithinFloors(p, s)
    requires i < |p.loads| && Untouched(p, s, i) && p.loads[i].floored && p.loads[i].av <= t <= p.loads[i].dl
    requires Open(p, s, i, t, p.loads[i].floorKwh)
    ensures Flat(p, s, FloorRow(p, s, i, t), i, t)
    decreases t
  {
    if t > p.loads[i].av {
      TurnFlat(p, s, i, t - 1);
      if FloorRow(p, s, i, t - 1).need[i] > p.eps {
        TurnSlot(p, s, i, t - 1, p.loads[i].floorKwh);
        FlatNext(p, s, FloorRow(p, s, i, t - 1), FloorRow(p, s, i, t), i, t - 1);
      }
    }
  }

  /** One more slot of the whole floor, or of what was still needed. */
  lemma FlatNext(p: Problem, s: State, m: State, r: State, i: nat, t: nat)
    requires Shaped(p, s) && Shaped(p, m) && Shaped(p, r) && i < |p.loads| && p.loads[i].av <= t < p.horizon
    requires Flat(p, s, m, i, t) && m.need[i] > p.eps && p.eps >= 0.0
    requires Min(p.loads[i].floorKwh, m.need[i]) <= r.x[i][t] <= p.loads[i].floorKwh
    requires r.need[i] == m.need[i] - r.x[i][t] && r.need[i] >= 0.0
    requires forall u :: 0 <= u < t ==> r.x[i][u] == m.x[i][u]
    ensures Flat(p, s, r, i, t + 1)
  {
  }

  ghost predicate Untouched(p: Problem, s: State, i: nat)
    requires Shaped(p, s) && i < |p.loads|
  {
    RowEmptyFrom(p, s, i, 0) && s.need[i] == p.loads[i].need0
  }

  /** Pass 1 up to position k: within the floors, and nobody later in the order has been touched. */
  lemma {:induction false} FloorsWithin(p: Problem, order: seq<nat>, k: nat)
    requires p.Valid() && FloorsNonneg(p) && Indices(p, order) && Distinct(order) && k <= |order|
    ensures var r := FloorPass(p, Initial(p), order, k);
            && Good(p, r) && WithinFloors(p, r)
            && forall j :: k <= j < |order| ==> Untouched(p, r, order[j])
    decreases k
  {
    InitialGood(p);
    if k > 0 {
      FloorsWithin(p, order, k - 1);
      var m := FloorPass(p, Initial(p), order, k - 1);
      var i := order[k - 1];
      FloorPassGood(p, Initial(p), order, k);
      FloorRowGood(p, m, i, p.loads[i].dl);
      assert Untouched(p, m, i);
      if p.loads[i].floored {
        FloorTurn(p, m, i, p.loads[i].dl);
      }
      forall j | k <= j < |order| ensures Untouched(p, FloorPass(p, Initial(p), order, k), order[j]) {
        assert Untouched(p, m, order[j]) && order[j] != i;
      }
    }
  }

  /** After its own turn a vehicle's row does not change for the rest of pass 1. */
  lemma {:induction false} TurnLasts(p: Problem, s: State, order: seq<nat>, j: nat, k: nat)
    requires p.Valid() && Good(p, s) && Indices(p, order) && Distinct(order) && j < k <= |order|
    ensures var a := FloorPass(p, s, order, j + 1);
            var b := FloorPass(p, s, order, k);
            b.x[order[j]] == a.x[order[j]] && b.need[order[j]] == a.need[order[j]]
    decreases k
  {
    if j + 1 < k {
      TurnLasts(p, s, order, j, k - 1);
      FloorPassGood(p, s, order, k - 1);
      FloorRowGood(p, FloorPass(p, s, order, k - 1), order[k - 1], p.loads[order[k - 1]].dl);
    }
  }

  /** A vehicle's position in session order, and who comes after it. */
  lemma IdPosition(p: Problem, i: nat) returns (k: nat)
    requires i < |p.loads|
    ensures k < |ById(p)| && ById(p)[k] == i && Distinct(ById(p))
    ensures forall o :: 0 <= o < |p.loads| && p.loads[o].sessionId > p.loads[i].sessionId ==>
              exists j :: k < j < |ById(p)| && ById(p)[j] == o
  {
    var keys := seq(|p.loads|, i requires 0 <= i < |p.loads| => (0.0, p.loads[i].sessionId));
    SortIsPermutation(keys, |p.loads|);
    SortBySorts(keys, Upto(|p.loads|));
    assert i in ById(p);
    k :| 0 <= k < |ById(p)| && ById(p)[k] == i;
    forall o | 0 <= o < |p.loads| && p.loads[o].sessionId > p.loads[i].sessionId
      ensures exists j :: k < j < |ById(p)| && ById(p)[j] == o
    {
      assert o in ById(p);
      var j :| 0 <= j < |ById(p)| && ById(p)[j] == o;
      SortedAfter(keys, ById(p), j, k);
    }
  }

  /** The state before vehicle i's turn: later sessions have not been touched. Its turn settles its row for all of pass
      1. */
  lemma BeforeTurn(p: Problem, i: nat) returns (m: State)
    requires p.Valid() && FloorsNonneg(p) && i < |p.loads| && p.loads[i].floored
    ensures Good(p, m) && WithinFloors(p, m) && Untouched(p, m, i)
    ensures forall o :: 0 <= o < |p.loads| && p.loads[o].sessionId > p.loads[i].sessionId ==> Untouched(p, m, o)
    ensures AfterFloors(p).x[i] == FloorRow(p, m, i, p.loads[i].dl).x[i]
    ensures AfterFloors(p).need[i] == FloorRow(p, m, i, p.loads[i].dl).need[i]
  {
    var k := IdPosition(p, i);
    FloorsWithin(p, ById(p), k);
    InitialGood(p);
    TurnLasts(p, Initial(p), ById(p), k, |ById(p)|);
    m := FloorPass(p, Initial(p), ById(p), k);
    forall o | 0 <= o < |p.loads| && p.loads[o].sessionId > p.loads[i].sessionId ensures Untouched(p, m, o) {
      var j :| k < j < |ById(p)| && ById(p)[j] == o;
      assert Untouched(p, m, ById(p)[j]);
    }
    assert Untouched(p, m, ById(p)[k]);
  }

  /** Slots a turn has already passed keep their energy. */
  lemma {:induction false} TurnKeepsSlots(p: Problem, s: State, i: nat, t: int, w: int)
    requires p.Valid() && Good(p, s) && i < |p.loads| && t <= w <= p.horizon
    ensures var a := FloorRow(p, s, i, t);
            var b := FloorRow(p, s, i, w);
            forall u :: 0 <= u < p.horizon && u < t ==> b.x[i][u] == a.x[i][u]
    decreases w
  {
    if t < w && w > p.loads[i].av {
      TurnKeepsSlots(p, s, i, t, w - 1);
    }
  }

  lemma {:induction false} TurnOnlyPays(p: Problem, s: State, i: nat, t: int, w: int)
    requires p.Valid() && Good(p, s) && i < |p.loads| && t <= w <= p.horizon
    ensures FloorRow(p, s, i, w).need[i] <= FloorRow(p, s, i, t).need[i]
    decreases w
  {
    if t < w && w > p.loads[i].av {
      TurnOnlyPays(p, s, i, t, w - 1);
      FloorRowGood(p, s, i, w - 1);
      GiveGood(p, FloorRow(p, s, i, w - 1), i, w - 1, p.loads[i].floorKwh);
    }
  }

  // ---- floors that all fit are paid exactly ----

  /** The floor of vehicle i in each of its first k slots. */
  ghost predicate PaidFlat(p: Problem, i: nat, k: nat)
    requires p.Prepared() && i < |p.loads| && p.loads[i].av + k <= p.loads[i].dl
  {
    forall u :: p.loads[i].av <= u < p.loads[i].av + k ==> AfterFloors(p).x[i][u] == p.loads[i].floorKwh
  }

  ghost predicate Takes(p: Problem, i: nat, k: nat)
    requires i < |p.loads|
  {
    forall u :: p.loads[i].av <= u < p.loads[i].av + k ==> Deliverable(p, i, u)
  }

  lemma WholeTurnFlat(p: Problem, m: State, i: nat, k: nat)
    requires p.Valid() && Good(p, m) && FloorsNonneg(p) && WithinFloors(p, m)
    requires i < |p.loads| && Untouched(p, m, i) && p.loads[i].floored && p.loads[i].av + k <= p.loads[i].dl
    requires Open(p, m, i, p.loads[i].av + k, p.loads[i].floorKwh)
    ensures var r := FloorRow(p, m, i, p.loads[i].dl);
            || (r.need[i] <= p.eps && p.loads[i].need0 < Times(p.loads[i].floorKwh, k))
            || (&& r.need[i] <= p.loads[i].need0 - Times(p.loads[i].floorKwh, k)
                && forall u :: p.loads[i].av <= u < p.loads[i].av + k ==> r.x[i][u] == p.loads[i].floorKwh)
  {
    var t := p.loads[i].av + k;
    TurnFlat(p, m, i, t);
    TurnKeepsSlots(p, m, i, t, p.loads[i].dl);
    TurnOnlyPays(p, m, i, t, p.loads[i].dl);
  }

  lemma NeedOnlyDrops(p: Problem, i: nat)
    requires p.Valid() && i < |p.loads|
    ensures Solve(p).need[i] <= AfterFloors(p).need[i]
  {
    SolveGood(p);
    assert AfterFill(p).need[i] <= AfterFloors(p).need[i];
  }

  // ---- floors that may not all fit: whoever comes later in session order gives way ----

  predicate Earlier(p: Problem, i: nat, o: nat)
    requires i < |p.loads| && o < |p.loads|
  {
    p.loads[o].sessionId < p.loads[i].sessionId
  }

  /** What the floors of earlier sessions can take in slot t. */
  function EarlierCol(p: Problem, i: nat, t: nat): seq<real>
    requires i < |p.loads|
  {
    seq(|p.loads|, o requires 0 <= o < |p.loads| => if Earlier(p, i, o) then FloorPay(p, o, t) else 0.0)
  }

  function EarlierCpCol(p: Problem, i: nat, t: nat): seq<real>
    requires i < |p.loads|
  {
    seq(|p.loads|, o requires 0 <= o < |p.loads| =>
      if Earlier(p, i, o) && p.loads[o].cpId == p.loads[i].cpId then FloorPay(p, o, t) else 0.0)
  }

  /** The floors of earlier sessions leave at least g of both caps in slot t. */
  ghost predicate Leaves(p: Problem, i: nat, t: nat, g: real)
    requires i < |p.loads|
  {
    && (p.siteKwh.Some? ==> Sum(EarlierCol(p, i, t)) + g <= p.siteKwh.value)
    && (p.loads[i].cpId in p.cpKwh ==> Sum(EarlierCpCol(p, i, t)) + g <= p.cpKwh[p.loads[i].cpId])
  }

  /** In each of vehicle i's first k slots. */
  ghost predicate LeavesIn(p: Problem, i: nat, k: nat, g: real)
    requires i < |p.loads|
  {
    forall u :: p.loads[i].av <= u < p.loads[i].av + k ==> Leaves(p, i, u, g)
  }

  lemma LeavesSpare(p: Problem, m: State, i: nat, t: nat, g: real)
    requires p.Valid() && Shaped(p, m) && WithinFloors(p, m) && i < |p.loads| && t < p.horizon && Untouched(p, m, i)
    requires forall o :: 0 <= o < |p.loads| && p.loads[o].sessionId > p.loads[i].sessionId ==> Untouched(p, m, o)
    requires FloorsNonneg(p) && Leaves(p, i, t, g)
    ensures Spare(p, m, i, t, g)
  {
    forall o | 0 <= o < |p.loads| ensures m.x[o][t] <= EarlierCol(p, i, t)[o] {
      assert m.x[o][t] <= FloorPay(p, o, t);
      if !Earlier(p, i, o) {
        assert Untouched(p, m, o);
      }
    }
    SumMono(Col(m.x, p.horizon, t), EarlierCol(p, i, t));
    forall o | 0 <= o < |p.loads| ensures CpCol(p, m, p.loads[i].cpId, t)[o] <= EarlierCpCol(p, i, t)[o] {
      assert m.x[o][t] <= EarlierCol(p, i, t)[o];
    }
    SumMono(CpCol(p, m, p.loads[i].cpId, t), EarlierCpCol(p, i, t));
  }

  lemma WholeTurnPays(p: Problem, m: State, i: nat, k: nat, g: real)
    requires p.Valid() && Good(p, m) && FloorsNonneg(p) && WithinFloors(p, m)
    requires i < |p.loads| && Untouched(p, m, i) && p.loads[i].floored && p.loads[i].av + k <= p.loads[i].dl
    requires Open(p, m, i, p.loads[i].av + k, g)
    ensures FloorRow(p, m, i, p.loads[i].dl).need[i] <= Max(p.eps, p.loads[i].need0 - Times(g, k))
  {
    TurnPays(p, m, i, p.loads[i].av + k, g);
    TurnOnlyPays(p, m, i, p.loads[i].av + k, p.loads[i].dl);
  }

  lemma LeavesOpen(p: Problem, m: State, i: nat, k: nat, g: real)
    requires p.Valid() && FloorsNonneg(p) && i < |p.loads| && p.eps < g <= p.loads[i].floorKwh
    requires p.loads[i].av + k <= p.loads[i].dl && Takes(p, i, k)
    requires LeavesIn(p, i, k, g)
    requires Shaped(p, m) && WithinFloors(p, m) && Untouched(p, m, i)
    requires forall o :: 0 <= o < |p.loads| && p.loads[o].sessionId > p.loads[i].sessionId ==> Untouched(p, m, o)
    ensures Open(p, m, i, p.loads[i].av + k, g)
  {
    forall u | p.loads[i].av <= u < p.loads[i].av + k ensures Spare(p, m, i, u, g) {
      assert Leaves(p, i, u, g);
      LeavesSpare(p, m, i, u, g);
    }
  }

  /** A floor above the cut-off that earlier sessions leave and that stays deliverable in its first slots is paid in
      full in each of them until the need is met; passes 2 and 3 never take the energy back. */
  lemma FloorHonoured(p: Problem, i: nat, k: nat)
    requires p.Valid() && FloorsNonneg(p) && i < |p.loads| && p.loads[i].floored && p.loads[i].floorKwh > p.eps
    requires p.loads[i].av + k <= p.loads[i].dl && Takes(p, i, k) && LeavesIn(p, i, k, p.loads[i].floorKwh)
    ensures PaidFlat(p, i, k) || (AfterFloors(p).need[i] <= p.eps && p.loads[i].need0 < Times(p.loads[i].floorKwh, k))
    ensures AfterFloors(p).need[i] <= Max(p.eps, p.loads[i].need0 - Times(p.loads[i].floorKwh, k))
    ensures Solve(p).need[i] <= AfterFloors(p).need[i]
  {
    var m := BeforeTurn(p, i);
    LeavesOpen(p, m, i, k, p.loads[i].floorKwh);
    WholeTurnFlat(p, m, i, k);
    NeedOnlyDrops(p, i);
  }

  /** If one of the columns is an ask of its own, the asks of the earlier ones leave it. */
  lemma AskLeft(earlier: seq<real>, asks: seq<real>, i: nat, cap: real)
    requires |earlier| == |asks| && i < |asks| && earlier[i] == 0.0 && Sum(asks) <= cap
    requires forall o :: 0 <= o < |asks| && o != i ==> earlier[o] <= asks[o]
    ensures Sum(earlier) + asks[i] <= cap
  {
    SumUpdate(asks, i, 0.0);
    SumMono(earlier, asks[i := 0.0]);
  }

  /** When the floors all fit under the caps, earlier sessions leave every vehicle its own. */
  lemma FittingLeaves(p: Problem, i: nat, t: nat)
    requires p.Valid() && FloorsFit(p) && i < |p.loads| && p.loads[i].floored && p.InWindow(i, t)
    ensures Leaves(p, i, t, p.loads[i].floorKwh)
  {
    assert FloorsFitAt(p, t);
    var cp := p.loads[i].cpId;
    if p.siteKwh.Some? {
      AskLeft(EarlierCol(p, i, t), AskCol(p, t), i, p.siteKwh.value);
    }
    if cp in p.cpKwh {
      AskLeft(EarlierCpCol(p, i, t), CpAskCol(p, cp, t), i, p.cpKwh[cp]);
    }
  }

  /** A vehicle whose floor stays deliverable is paid at least whatever earlier sessions leave of it, slot by slot,
      until its need is met. */
  lemma FloorAtLeast(p: Problem, i: nat, k: nat, g: real)
    requires p.Valid() && FloorsNonneg(p) && i < |p.loads| && p.loads[i].floored && p.eps < g <= p.loads[i].floorKwh
    requires p.loads[i].av + k <= p.loads[i].dl && Takes(p, i, k)
    requires LeavesIn(p, i, k, g)
    ensures Solve(p).need[i] <= Max(p.eps, p.loads[i].need0 - Times(g, k))
  {
    var m := BeforeTurn(p, i);
    LeavesOpen(p, m, i, k, g);
    WholeTurnPays(p, m, i, k, g);
    NeedOnlyDrops(p, i);
  }

  /** The same with the cut-off: what is left of the floor in each of the first k slots is paid, or nothing below the
      cut-off. */
  lemma LeftIsPaid(p: Problem, i: nat, k: nat, g: real, paid: real)
    requires p.Valid() && FloorsNonneg(p) && i < |p.loads| && (p.loads[i].floorKwh > 0.0 ==> p.loads[i].floored)
    requires g <= p.loads[i].floorKwh && p.loads[i].av + k <= p.loads[i].dl && Takes(p, i, k)
    requires g > p.eps ==> LeavesIn(p, i, k, g)
    requires paid == Times(Kept(g, p.eps), k)
    ensures Solve(p).need[i] <= Max(p.eps, p.loads[i].need0 - paid)
  {
    if g > p.eps {
      KeptPaid(p, i, k, g, paid);
    } else {
      NothingPaid(p, i, k, g, paid);
    }
  }

  lemma KeptPaid(p: Problem, i: nat, k: nat, g: real, paid: real)
    requires p.Valid() && FloorsNonneg(p) && i < |p.loads| && p.loads[i].floored && p.eps < g <= p.loads[i].floorKwh
    requires p.loads[i].av + k <= p.loads[i].dl && Takes(p, i, k) && LeavesIn(p, i, k, g)
    requires paid == Times(Kept(g, p.eps), k)
    ensures Solve(p).need[i] <= Max(p.eps, p.loads[i].need0 - paid)
  {
    assert Kept(g, p.eps) == g;
    FloorAtLeast(p, i, k, g);
  }

  lemma {:induction false} TimesZero(k: int)
    ensures Times(0.0, k) == 0.0
    decreases k
  {
    if k > 0 {
      TimesZero(k - 1);
    }
  }

  lemma NeedAccounts(p: Problem, i: nat)
    requires p.Valid() && i < |p.loads|
    ensures Good(p, Solve(p)) && Solve(p).need[i] + Sum(Solve(p).x[i]) == p.loads[i].need0
    ensures Solve(p).need[i] <= p.loads[i].need0
  {
    SolveGood(p);
    assert RowGood(p, Solve(p), i);
    SumNonneg(Solve(p).x[i]);
  }

  lemma NothingPaid(p: Problem, i: nat, k: nat, g: real, paid: real)
    requires p.Valid() && i < |p.loads| && g <= p.eps
    requires paid == Times(Kept(g, p.eps), k)
    ensures Solve(p).need[i] <= Max(p.eps, p.loads[i].need0 - paid)
  {
    TimesZero(k);
    NeedAccounts(p, i);
  }

  /** With nameplate acceptance every slot of the window stays deliverable. */
  lemma NameplateDeliverable(p: Problem, i: nat, t: nat)
    requires p.Valid() && i < |p.loads| && (!p.aware || p.loads[i].pack.None?)
    ensures Deliverable(p, i, t)
  {
    assert p.LoadOk(p.loads[i]);
  }

  lemma NameplateTakes(p: Problem, i: nat, k: nat)
    requires p.Valid() && i < |p.loads| && (!p.aware || p.loads[i].pack.None?)
    ensures Takes(p, i, k)
  {
    forall u | p.loads[i].av <= u < p.loads[i].av + k ensures Deliverable(p, i, u) {
      NameplateDeliverable(p, i, u);
    }
  }
}
