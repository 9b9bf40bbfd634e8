/** Prices against physics: when the price pass keeps a plan absorbable. A move into an earlier slot raises the state of
    charge of every slot up to where the energy came from; a move into a later one only lowers it. */
module Shifting {
  import opened Reals
  import opened Ordering
  import opened Charging
  import opened Allocator
  import opened Invariants
  import opened EdfOptimality
  import opened TaperFloor
  import opened Twin
  import opened Honesty

  // ---- a row that is absorbed in full only remembers how much came before ----

  /** Energy of the entries before t that the replay counts. */
  function Counted(row: seq<real>, tiny: real, t: nat): real
    requires t <= |row|
  {
    if t == 0 then 0.0 else Counted(row, tiny, t - 1) + if row[t - 1] > tiny then row[t - 1] else 0.0
  }

  /** Row i asks for nothing negative, and of no slot before t for more than the battery takes there. */
  ghost predicate Absorbable(p: Problem, i: nat, row: seq<real>, t: nat)
    requires i < |p.loads| && t <= |row|
  {
    forall u :: 0 <= u < t ==> AbsorbableAt(p, i, row, u)
  }

  ghost predicate AbsorbableAt(p: Problem, i: nat, row: seq<real>, u: nat)
    requires i < |p.loads| && u < |row|
  {
    0.0 <= row[u] <= AcceptanceKwh(p, i, row, u)
  }

  lemma CountStep(c: Cell, cap: real, soc0: real, counted: real, e: real)
    requires CellLaw(c, cap) && e >= 0.0
    ensures Min(1.0, Min(1.0, soc0 + c.rise(counted)) + c.rise(e)) == Min(1.0, soc0 + c.rise(counted + e))
  {
    assert Rises(c, counted, e) && Climbs(c, 0.0, e);
  }

  /** The battery takes every entry before t that the replay counts. */
  ghost predicate Taken(c: Cell, tiny: real, row: seq<real>, soc0: real, t: nat)
    requires t <= |row|
  {
    forall u :: 0 <= u < t ==> TakenAt(c, tiny, row, soc0, u)
  }

  ghost predicate TakenAt(c: Cell, tiny: real, row: seq<real>, soc0: real, u: nat)
    requires u < |row|
  {
    0.0 <= row[u] <= c.accepts(Replay(c, tiny, row, soc0, u))
  }

  lemma ReplayNext(c: Cell, cap: real, tiny: real, row: seq<real>, soc0: real, t: nat, soc: real, counted: real)
    requires CellLaw(c, cap) && t < |row| && soc == Replay(c, tiny, row, soc0, t) && 0.0 <= row[t] <= c.accepts(soc)
    requires soc == Min(1.0, soc0 + c.rise(counted))
    ensures Replay(c, tiny, row, soc0, t + 1)
            == Min(1.0, soc0 + c.rise(counted + if row[t] > tiny then row[t] else 0.0))
  {
    CountStep(c, cap, soc0, counted, row[t]);
  }

  lemma {:induction false} ReplayCounts(c: Cell, cap: real, tiny: real, row: seq<real>, soc0: real, t: nat)
    returns (soc: real)
    requires CellLaw(c, cap) && soc0 <= 1.0 && t <= |row| && Taken(c, tiny, row, soc0, t)
    ensures soc == Replay(c, tiny, row, soc0, t) == Min(1.0, soc0 + c.rise(Counted(row, tiny, t)))
    decreases t
  {
    if t == 0 {
      soc := soc0;
    } else {
      soc := ReplayCounts(c, cap, tiny, row, soc0, t - 1);
      assert TakenAt(c, tiny, row, soc0, t - 1);
      ReplayNext(c, cap, tiny, row, soc0, t - 1, soc, Counted(row, tiny, t - 1));
      soc := Replay(c, tiny, row, soc0, t);
    }
  }

  lemma AbsorbableTaken(p: Problem, i: nat, row: seq<real>, t: nat)
    requires p.Physical() && i < |p.loads| && p.loads[i].pack.Some? && t <= |row| && Absorbable(p, i, row, t)
    ensures var pack := p.loads[i].pack.value;
            Taken(pack.cell, p.tiny, row, pack.soc, t)
  {
    var pack := p.loads[i].pack.value;
    assert p.PackOk(p.loads[i]);
    forall u | 0 <= u < t ensures TakenAt(pack.cell, p.tiny, row, pack.soc, u) {
      assert AbsorbableAt(p, i, row, u);
    }
  }

  /** What a slot takes, from the energy counted before it. */
  lemma AcceptsCounted(p: Problem, i: nat, row: seq<real>, t: nat)
    requires p.Physical() && i < |p.loads| && p.loads[i].pack.Some? && t <= |row| && Absorbable(p, i, row, t)
    ensures var pack := p.loads[i].pack.value;
            && CellLaw(pack.cell, p.loads[i].capKwh)
            && AcceptanceKwh(p, i, row, t)
                 == pack.cell.accepts(Min(1.0, pack.soc + pack.cell.rise(Counted(row, p.tiny, t))))
  {
    var pack := p.loads[i].pack.value;
    assert p.PackOk(p.loads[i]);
    AbsorbableTaken(p, i, row, t);
    var soc := ReplayCounts(pack.cell, p.loads[i].capKwh, p.tiny, row, pack.soc, t);
  }

  lemma CountedFalls(c: Cell, cap: real, soc0: real, a: real, b: real)
    requires CellLaw(c, cap) && b <= a
    ensures c.accepts(Min(1.0, soc0 + c.rise(a))) <= c.accepts(Min(1.0, soc0 + c.rise(b)))
  {
    assert Climbs(c, b, a);
    assert Falls(c, Min(1.0, soc0 + c.rise(b)), Min(1.0, soc0 + c.rise(a)));
  }

  /** The less has come before, the more a slot takes. */
  lemma LessTakesMore(p: Problem, i: nat, a: seq<real>, b: seq<real>, t: nat)
    requires p.Valid() && p.Physical() && i < |p.loads| && t <= |a| == |b|
    requires Absorbable(p, i, a, t) && Absorbable(p, i, b, t) && Counted(b, p.tiny, t) <= Counted(a, p.tiny, t)
    ensures AcceptanceKwh(p, i, a, t) <= AcceptanceKwh(p, i, b, t)
  {
    if p.loads[i].pack.Some? {
      var pack := p.loads[i].pack.value;
      AcceptsCounted(p, i, a, t);
      AcceptsCounted(p, i, b, t);
      CountedFalls(pack.cell, p.loads[i].capKwh, pack.soc, Counted(a, p.tiny, t), Counted(b, p.tiny, t));
    }
  }

  // ---- moving energy to a later slot ----

  /** b is a with m moved from src to a later slot dst, which was empty or holds more than the cut-off. */
  ghost predicate MovedLater(p: Problem, a: seq<real>, b: seq<real>, src: nat, dst: nat, m: real) {
    && src < dst < |a| && p.eps < m <= a[src] && (a[dst] == 0.0 || a[dst] > p.eps)
    && b == a[src := a[src] - m][dst := a[dst] + m]
  }

  lemma {:induction false} CountsLess(p: Problem, a: seq<real>, b: seq<real>, src: nat, dst: nat, m: real, t: nat)
    requires 0.0 <= p.tiny <= p.eps && MovedLater(p, a, b, src, dst, m) && t <= |a|
    ensures Counted(b, p.tiny, t) <= Counted(a, p.tiny, t) - if src < t <= dst then m else 0.0
    decreases t
  {
    if t > 0 {
      CountsLess(p, a, b, src, dst, m, t - 1);
    }
  }

  lemma {:induction false} LaterStaysAbsorbable(p: Problem, i: nat, a: seq<real>, b: seq<real>, src: nat, dst: nat,
      m: real, t: nat)
    requires p.Valid() && p.Physical() && i < |p.loads| && t <= |a| == |b| && MovedLater(p, a, b, src, dst, m)
    requires Absorbable(p, i, a, |a|) && a[dst] + m <= AcceptanceKwh(p, i, a, dst)
    ensures Absorbable(p, i, b, t)
    decreases t
  {
    if t > 0 {
      LaterStaysAbsorbable(p, i, a, b, src, dst, m, t - 1);
      CountsLess(p, a, b, src, dst, m, t - 1);
      LessTakesMore(p, i, a, b, t - 1);
      assert AbsorbableAt(p, i, a, t - 1);
    }
  }

  // ---- what the price pass keeps ----

  /** Before a slot that is cheaper than a later one, no slot is as dear as that later one. */
  ghost predicate NoValley(p: Problem) {
    forall e, a, b :: 0 <= e < a < b < p.horizon && p.Score(a) < p.Score(b) ==> p.Score(e) < p.Score(b)
  }

  /** What slot a of vehicle i could still be given. */
  function Slack(p: Problem, s: State, i: nat, a: nat): real
    requires Shaped(p, s) && i < |p.loads| && a < p.horizon
  {
    Limit(Max(0.0, AcceptanceKwh(p, i, s.x[i], a) - s.x[i][a]), RoomAt(p, s, a, p.loads[i].cpId))
  }

  /** Whoever holds energy in a slot of score at most `most` finds the earlier cheaper slots of its window taken. */
  ghost predicate Jammed(p: Problem, s: State, most: real)
    requires Shaped(p, s)
  {
    forall i, a, b :: 0 <= i < |p.loads| && 0 <= a < b < p.horizon ==> JammedAt(p, s, most, i, a, b)
  }

  ghost predicate JammedAt(p: Problem, s: State, most: real, i: nat, a: nat, b: nat)
    requires Shaped(p, s) && i < |p.loads| && a < b < p.horizon
  {
    p.InWindow(i, a) && p.Score(a) < p.Score(b) <= most && s.x[i][b] > p.eps ==> Slack(p, s, i, a) <= p.eps
  }

  /** Slots cheaper than `most` hold nothing or more than the cut-off. */
  ghost predicate Clean(p: Problem, s: State, most: real)
    requires Shaped(p, s)
  {
    forall i, u :: 0 <= i < |p.loads| && 0 <= u < p.horizon && p.Score(u) < most ==>
      s.x[i][u] == 0.0 || s.x[i][u] > p.eps
  }

  ghost predicate AllAbsorbable(p: Problem, s: State)
    requires Shaped(p, s)
  {
    forall i :: 0 <= i < |p.loads| ==> Absorbable(p, i, s.x[i], p.horizon)
  }

  ghost predicate Settled(p: Problem, s: State, most: real) {
    Good(p, s) && AllAbsorbable(p, s) && Clean(p, s, most) && Jammed(p, s, most)
  }

  lemma SettledBelow(p: Problem, s: State, most: real, less: real)
    requires Settled(p, s, most) && less <= most
    ensures Settled(p, s, less)
  {
    forall i, a, b | 0 <= i < |p.loads| && 0 <= a < b < p.horizon ensures JammedAt(p, s, less, i, a, b) {
      assert JammedAt(p, s, most, i, a, b);
    }
  }

  /** Nothing moves into an earlier slot. */
  lemma NeverEarlier(p: Problem, s: State, i: nat, src: nat, dst: nat)
    requires p.Valid() && p.aware && i < |p.loads| && dst < src < p.horizon
    requires Settled(p, s, p.Score(src)) && p.InWindow(i, dst) && p.Score(dst) < p.Score(src)
    ensures Move(p, s, i, src, dst) == s
  {
    assert JammedAt(p, s, p.Score(src), i, dst, src);
  }

  /** A move into a later slot. */
  lemma MovedRow(p: Problem, s: State, i: nat, src: nat, dst: nat) returns (m: real, row: seq<real>)
    requires p.Valid() && p.aware && i < |p.loads| && src < dst < p.horizon && Shaped(p, s)
    requires (s.x[i][dst] == 0.0 || s.x[i][dst] > p.eps) && Move(p, s, i, src, dst) != s
    ensures m == MoveAmount(p, s, i, src, dst) && Move(p, s, i, src, dst) == Transfer(p, s, i, src, dst, m)
    ensures row == Transfer(p, s, i, src, dst, m).x[i] && MovedLater(p, s.x[i], row, src, dst, m)
    ensures s.x[i][dst] + m <= AcceptanceKwh(p, i, s.x[i], dst)
  {
    m := MoveAmount(p, s, i, src, dst);
    row := Transfer(p, s, i, src, dst, m).x[i];
  }

  lemma MoveStaysAbsorbable(p: Problem, s: State, i: nat, src: nat, dst: nat)
    requires p.Valid() && p.Physical() && p.aware && i < |p.loads| && src < dst < p.horizon
    requires Settled(p, s, p.Score(src)) && p.Score(dst) < p.Score(src) && Move(p, s, i, src, dst) != s
    ensures AllAbsorbable(p, Move(p, s, i, src, dst)) && Clean(p, Move(p, s, i, src, dst), p.Score(src))
  {
    var m, row := MovedRow(p, s, i, src, dst);
    LaterStaysAbsorbable(p, i, s.x[i], row, src, dst, m, p.horizon);
  }

  lemma RoomFalls(p: Problem, s: State, i: nat, src: nat, dst: nat, m: real, t: nat, cp: int)
    requires Shaped(p, s) && i < |p.loads| && src < p.horizon && dst < p.horizon && src != dst && m >= 0.0
    requires t < p.horizon && t != src
    ensures var a, b := RoomAt(p, s, t, cp), RoomAt(p, Transfer(p, s, i, src, dst, m), t, cp);
            (a.Some? <==> b.Some?) && (a.Some? ==> b.value <= a.value)
  {
    MoveSums(p, s, i, src, dst, m);
  }

  lemma SlackFalls(p: Problem, s: State, r: State, j: nat, a: nat)
    requires Shaped(p, s) && Shaped(p, r) && j < |p.loads| && a < p.horizon
    requires forall u :: 0 <= u <= a ==> r.x[j][u] == s.x[j][u]
    requires var before, after := RoomAt(p, s, a, p.loads[j].cpId), RoomAt(p, r, a, p.loads[j].cpId);
             (before.Some? <==> after.Some?) && (before.Some? ==> after.value <= before.value)
    ensures Slack(p, r, j, a) <= Slack(p, s, j, a)
  {
    AcceptanceLocal(p, j, r.x[j], s.x[j], a);
  }

  /** A slot cheaper than a later one that is no dearer than src lies before src. */
  lemma CheaperComesFirst(p: Problem, src: nat, a: nat, b: nat)
    requires NoValley(p) && a < b < p.horizon && src < p.horizon && p.Score(a) < p.Score(b) <= p.Score(src)
    ensures a < src
  {
  }

  lemma JamStays(p: Problem, s: State, i: nat, src: nat, dst: nat, j: nat, a: nat, b: nat)
    requires p.Valid() && p.aware && NoValley(p) && i < |p.loads| && src < dst < p.horizon
    requires Settled(p, s, p.Score(src)) && p.Score(dst) < p.Score(src) && Move(p, s, i, src, dst) != s
    requires j < |p.loads| && a < b < p.horizon
    ensures JammedAt(p, Move(p, s, i, src, dst), p.Score(src), j, a, b)
  {
    var r := Move(p, s, i, src, dst);
    if p.InWindow(j, a) && p.Score(a) < p.Score(b) <= p.Score(src) && r.x[j][b] > p.eps {
      var m, row := MovedRow(p, s, i, src, dst);
      CheaperComesFirst(p, src, a, b);
      assert JammedAt(p, s, p.Score(src), j, a, if j == i && b == dst then src else b);
      RoomFalls(p, s, i, src, dst, m, a, p.loads[j].cpId);
      SlackFalls(p, s, r, j, a);
    }
  }

  /** Every move of pass 3 keeps the plan settled. */
  lemma MoveSettled(p: Problem, s: State, i: nat, src: nat, dst: nat)
    requires p.Valid() && p.Physical() && p.aware && NoValley(p) && i < |p.loads| && src < p.horizon && dst < p.horizon
    requires src != dst && Settled(p, s, p.Score(src)) && p.InWindow(i, dst) && p.Score(dst) < p.Score(src)
    ensures Settled(p, Move(p, s, i, src, dst), p.Score(src))
  {
    MoveGood(p, s, i, src, dst);
    if dst < src {
      NeverEarlier(p, s, i, src, dst);
    } else if Move(p, s, i, src, dst) != s {
      MoveStaysAbsorbable(p, s, i, src, dst);
      forall j, a, b | 0 <= j < |p.loads| && 0 <= a < b < p.horizon
        ensures JammedAt(p, Move(p, s, i, src, dst), p.Score(src), j, a, b)
      {
        JamStays(p, s, i, src, dst, j, a, b);
      }
    }
  }

  lemma {:induction false} RowSettled(p: Problem, s: State, i: nat, src: nat, dsts: seq<nat>, k: nat) returns (r: State)
    requires p.Valid() && p.Physical() && p.aware && NoValley(p) && i < |p.loads| && src < p.horizon
    requires Settled(p, s, p.Score(src)) && Targets(p, i, src, dsts) && k <= |dsts|
    ensures r == ShiftRow(p, s, i, src, dsts, k) && Settled(p, r, p.Score(src))
    decreases k
  {
    if k == 0 {
      r := s;
    } else {
      r := RowSettled(p, s, i, src, dsts, k - 1);
      MoveSettled(p, r, i, src, dsts[k - 1]);
      r := Move(p, r, i, src, dsts[k - 1]);
    }
  }

  lemma {:induction false} SlotSettled(p: Problem, s: State, holders: seq<nat>, src: nat, lists: seq<seq<nat>>, k: nat)
    returns (r: State)
    requires p.Valid() && p.Physical() && p.aware && NoValley(p) && Indices(p, holders) && src < p.horizon
    requires Settled(p, s, p.Score(src)) && TargetLists(p, src, lists) && k <= |holders|
    ensures r == ShiftSlot(p, s, holders, src, lists, k) && Settled(p, r, p.Score(src))
    decreases k
  {
    if k == 0 {
      r := s;
    } else {
      r := SlotSettled(p, s, holders, src, lists, k - 1);
      r := RowSettled(p, r, holders[k - 1], src, lists[holders[k - 1]], |lists[holders[k - 1]]|);
    }
  }

  /** Slots come dearest first. */
  ghost predicate Falling(p: Problem, slots: seq<nat>) {
    forall j, k :: 0 <= j < k < |slots| ==> p.Score(slots[k]) <= p.Score(slots[j])
  }

  lemma PriceOrderFalls(p: Problem)
    ensures Falling(p, PriceOrder(p))
  {
    var keys, slots := ScoreKeys(p, -1.0), PriceOrder(p);
    SortBySorts(keys, Upto(p.horizon));
    forall j, k | 0 <= j < k < |slots| ensures p.Score(slots[k]) <= p.Score(slots[j]) {
      assert Before(keys[slots[j]], keys[slots[k]]);
    }
  }

  lemma {:induction false} PassSettled(p: Problem, s: State, order: seq<nat>, slots: seq<nat>, menu: Menu, k: nat,
      most: real)
    returns (r: State)
    requires p.Valid() && p.Physical() && p.aware && NoValley(p) && Indices(p, order) && Slots(p, slots)
    requires MenuOk(p, menu) && k <= |slots| && Falling(p, slots) && (forall score :: Settled(p, s, score))
    requires k > 0 ==> most <= p.Score(slots[k - 1])
    ensures r == ShiftPass(p, s, order, slots, menu, k) && Settled(p, r, most)
    decreases k
  {
    if k == 0 {
      r := s;
    } else {
      var src := slots[k - 1];
      r := PassSettled(p, s, order, slots, menu, k - 1, p.Score(src));
      MenuAt(p, menu, src);
      var holders := Holders(p, r, order, src, |order|);
      r := SlotSettled(p, r, holders, src, menu[src], |holders|);
      SettledBelow(p, r, p.Score(src), most);
    }
  }

  // ---- what pass 2 leaves ----

  /** The vehicle needs no more, and has nothing after slot a. */
  ghost predicate Finished(p: Problem, s: State, i: nat, a: nat)
    requires Shaped(p, s) && i < |p.loads| && a < p.horizon
  {
    s.need[i] <= p.eps && forall b :: a < b < p.horizon ==> s.x[i][b] == 0.0
  }

  /** Slot a is taken up for vehicle i: nothing more fits, or nothing more is needed. */
  ghost predicate TakenUp(p: Problem, s: State, i: nat, a: nat)
    requires Shaped(p, s) && i < |p.loads| && a < p.horizon
  {
    p.InWindow(i, a) ==> Slack(p, s, i, a) <= p.eps || Finished(p, s, i, a)
  }

  lemma AddRoomFalls(p: Problem, m: State, i: nat, t: nat, d: real, a: nat, cp: int)
    requires Shaped(p, m) && i < |p.loads| && t < p.horizon && a < p.horizon && d >= 0.0
    ensures var before, after := RoomAt(p, m, a, cp), RoomAt(p, Add(p, m, i, t, d), a, cp);
            (before.Some? <==> after.Some?) && (before.Some? ==> after.value <= before.value)
    ensures var before, after := RoomAt(p, m, t, p.loads[i].cpId), RoomAt(p, Add(p, m, i, t, d), t, p.loads[i].cpId);
            before == Some(d) ==> after == Some(0.0)
  {
    CellSums(p, m, Add(p, m, i, t, d), i, t, d);
  }

  /** What was taken up before a turn still is. */
  lemma TurnKeepsTakenUp(p: Problem, m: State, i: nat, t: nat, j: nat, a: nat)
    requires p.Valid() && Shaped(p, m) && i < |p.loads| && j < |p.loads| && a <= t < p.horizon && (a == t ==> j != i)
    requires m.need[i] > p.eps && TakenUp(p, m, j, a)
    ensures TakenUp(p, Give(p, m, i, t, p.loads[i].capKwh), j, a)
  {
    var r := Give(p, m, i, t, p.loads[i].capKwh);
    if r != m {
      var d := GiveAmount(p, m, i, t, p.loads[i].capKwh);
      AddRoomFalls(p, m, i, t, d, a, p.loads[j].cpId);
      SlackFalls(p, m, r, j, a);
    }
  }

  /** And the turn takes up its own slot. */
  lemma TurnTakesUp(p: Problem, m: State, i: nat, t: nat)
    requires p.Valid() && p.aware && Good(p, m) && i < |p.loads| && t < p.horizon && EmptyFrom(p, m, t + 1)
    requires m.x[i][t] == 0.0 && m.need[i] > p.eps
    ensures TakenUp(p, Give(p, m, i, t, p.loads[i].capKwh), i, t)
  {
    var r := Give(p, m, i, t, p.loads[i].capKwh);
    assert p.LoadOk(p.loads[i]);
    if r != m {
      var d := GiveAmount(p, m, i, t, p.loads[i].capKwh);
      AddRoomFalls(p, m, i, t, d, t, p.loads[i].cpId);
      AcceptanceLocal(p, i, r.x[i], m.x[i], t);
    }
  }

  lemma {:induction false} FillTakesUp(p: Problem, s: State, order: seq<nat>, t: nat, k: nat) returns (r: State)
    requires p.Valid() && p.aware && Good(p, s) && Indices(p, order) && Distinct(order) && k <= |order|
    requires t < p.horizon && EmptyFrom(p, s, t)
    requires forall i, a :: 0 <= i < |p.loads| && 0 <= a < t ==> TakenUp(p, s, i, a)
    ensures r == FillSlot(p, s, order, t, k) && Good(p, r) && EmptyFrom(p, r, t + 1)
    ensures forall i, a :: 0 <= i < |p.loads| && 0 <= a < t ==> TakenUp(p, r, i, a)
    ensures forall j :: 0 <= j < k ==> TakenUp(p, r, order[j], t)
    ensures forall j :: k <= j < |order| ==> r.x[order[j]][t] == 0.0
    decreases k
  {
    if k == 0 {
      r := s;
    } else {
      var m := FillTakesUp(p, s, order, t, k - 1);
      var i := order[k - 1];
      SlotLeaves(p, s, order, t, k);
      FillSlotGood(p, s, order, t, k);
      r := FillSlot(p, s, order, t, k);
      if p.InWindow(i, t) && m.need[i] > p.eps {
        forall j, a | 0 <= j < |p.loads| && 0 <= a < t ensures TakenUp(p, r, j, a) {
          TurnKeepsTakenUp(p, m, i, t, j, a);
        }
        forall j | 0 <= j < k - 1 ensures TakenUp(p, r, order[j], t) {
          TurnKeepsTakenUp(p, m, i, t, order[j], t);
        }
        TurnTakesUp(p, m, i, t);
      }
    }
  }

  /** Pass 2 on an empty plan takes up slot after slot. */
  lemma {:induction false} PassTakesUp(p: Problem, order: seq<nat>, t: nat) returns (r: State)
    requires p.Valid() && p.aware && Indices(p, order) && Distinct(order) && t <= p.horizon
    requires forall i :: 0 <= i < |p.loads| ==> i in order
    ensures r == FillPass(p, Initial(p), order, t) && Good(p, r) && EmptyFrom(p, r, t)
    ensures forall i, a :: 0 <= i < |p.loads| && 0 <= a < t ==> TakenUp(p, r, i, a)
    decreases t
  {
    if t == 0 {
      InitialGood(p);
      r := Initial(p);
    } else {
      var last: nat := t - 1;
      var m := PassTakesUp(p, order, last);
      r := FillTakesUp(p, m, order, last, |order|);
      forall i | 0 <= i < |p.loads| ensures TakenUp(p, r, i, last) {
        assert i in order;
        var j :| 0 <= j < |order| && order[j] == i;
        assert TakenUp(p, r, order[j], last);
      }
    }
  }

  lemma AcceptableAbsorbable(p: Problem, s: State)
    requires p.Valid() && Good(p, s) && AcceptableTo(p, s, p.horizon)
    ensures AllAbsorbable(p, s) && forall most :: Clean(p, s, most)
  {
    forall i, u | 0 <= i < |p.loads| && 0 <= u < p.horizon ensures AbsorbableAt(p, i, s.x[i], u) {
      assert RowGood(p, s, i) && Acceptable(p, s, i, u);
      NonnegAcceptance(p, i, s.x[i], u);
    }
    forall most ensures Clean(p, s, most) {
      forall i, u | 0 <= i < |p.loads| && 0 <= u < p.horizon && p.Score(u) < most
        ensures s.x[i][u] == 0.0 || s.x[i][u] > p.eps
      {
        assert Acceptable(p, s, i, u);
      }
    }
  }

  lemma NonnegAcceptance(p: Problem, i: nat, row: seq<real>, u: nat)
    requires p.Valid() && i < |p.loads| && u <= |row|
    ensures AcceptanceKwh(p, i, row, u) >= 0.0
  {
    assert p.LoadOk(p.loads[i]);
  }

  /** Without floors, pass 2 leaves a settled plan, at every score. */
  lemma FillSettled(p: Problem)
    requires p.Valid() && p.aware && forall i :: 0 <= i < |p.loads| ==> !p.loads[i].floored
    ensures forall most :: Settled(p, AfterFill(p), most)
  {
    NoFloorsNoPass(p, Initial(p), ById(p), |ById(p)|);
    SortIsPermutation(EdfKeys(p), |p.loads|);
    FillAcceptable(p, Edf(p), p.horizon);
    var s := PassTakesUp(p, Edf(p), p.horizon);
    AcceptableAbsorbable(p, s);
    forall most ensures Jammed(p, s, most) {
      forall i, a, b | 0 <= i < |p.loads| && 0 <= a < b < p.horizon ensures JammedAt(p, s, most, i, a, b) {
        assert TakenUp(p, s, i, a);
      }
    }
  }

  // ---- the finished plan ----

  /** Without floors, and at prices without a valley, no slot of the finished plan asks for more than the battery then
      takes: the price pass keeps the plan absorbable, for all fleets, windows, needs and caps. */
  lemma PricesKeepAbsorbable(p: Problem)
    requires p.Valid() && p.Physical() && p.aware && NoValley(p)
    requires forall i :: 0 <= i < |p.loads| ==> !p.loads[i].floored
    ensures AllAbsorbable(p, Solve(p))
  {
    FillSettled(p);
    PriceOrderFalls(p);
    var slots := PriceOrder(p);
    var most := if slots == [] then 0.0 else p.Score(slots[|slots| - 1]);
    var r := PassSettled(p, AfterFill(p), ById(p), slots, CheaperMenu(p), |slots|, most);
  }

  lemma {:induction false} AbsorbableHonest(p: Problem, i: nat, row: seq<real>, t: nat)
    requires p.Valid() && p.Physical() && i < |p.loads| && p.loads[i].pack.Some? && t <= |row| && p.tiny == 0.0
    requires Absorbable(p, i, row, |row|)
    ensures Honest(p.loads[i].pack.value.cell, p.tiny, p.loads[i].pack.value.soc, row, t)
    decreases t
  {
    var pack := p.loads[i].pack.value;
    assert p.PackOk(p.loads[i]);
    if t > 0 {
      AbsorbableHonest(p, i, row, t - 1);
      assert AbsorbableAt(p, i, row, t - 1);
      HonestStep(pack.cell, p.tiny, pack.soc, row, t - 1);
    }
  }

  /** And with an exact replay every vehicle of known battery absorbs its whole row. */
  lemma FinishedPlanIsHonest(p: Problem, i: nat)
    requires p.Valid() && p.Physical() && p.aware && NoValley(p) && p.tiny == 0.0
    requires i < |p.loads| && p.loads[i].pack.Some? && forall j :: 0 <= j < |p.loads| ==> !p.loads[j].floored
    ensures Absorbed(p.loads[i].pack.value.cell, Some(p.loads[i].pack.value.soc), Solve(p).x[i]) == Sum(Solve(p).x[i])
  {
    PricesKeepAbsorbable(p);
    AbsorbableHonest(p, i, Solve(p).x[i], p.horizon);
    assert Solve(p).x[i][..p.horizon] == Solve(p).x[i];
  }
}
