/** What the three-pass allocator computes, one function per loop. */
module Allocator {
  import opened Reals
  import opened Ordering
  import opened Charging

  /** x[i][t] is the energy (kWh) planned for vehicle i in slot t, need[i] what vehicle i still lacks. */
  datatype State = State(x: seq<seq<real>>, need: seq<real>)

  ghost predicate Shaped(p: Problem, s: State) {
    && p.Prepared()
    && |s.x| == |s.need| == |p.loads|
    && Rect(s.x, p.horizon)
  }

  function Initial(p: Problem): (s: State)
    requires p.Prepared()
    ensures Shaped(p, s)
  {
    State(
      seq(|p.loads|, _ => seq(p.horizon, _ => 0.0)),
      seq(|p.loads|, i requires 0 <= i < |p.loads| => p.loads[i].need0))
  }

  // ---- headroom ----

  function SumSite(p: Problem, s: State, t: nat): real
    requires Shaped(p, s) && t < p.horizon
  {
    Sum(Col(s.x, p.horizon, t))
  }

  function CpCol(p: Problem, s: State, cp: int, t: nat): seq<real>
    requires Shaped(p, s) && t < p.horizon
  {
    seq(|s.x|, i requires 0 <= i < |s.x| => if p.loads[i].cpId == cp then s.x[i][t] else 0.0)
  }

  function SumCp(p: Problem, s: State, cp: int, t: nat): real
    requires Shaped(p, s) && t < p.horizon
  {
    Sum(CpCol(p, s, cp, t))
  }

  function Tighter(a: Option<real>, b: Option<real>): Option<real> {
    if a.None? then b else if b.None? then a else Some(Min(a.value, b.value))
  }

  /** Energy that still fits into slot t on charge point cp; `None` when nothing caps it. */
  function RoomAt(p: Problem, s: State, t: nat, cp: int): Option<real>
    requires Shaped(p, s) && t < p.horizon
  {
    var site := if p.siteKwh.None? then None else Some(p.siteKwh.value - SumSite(p, s, t));
    var point := if cp in p.cpKwh then Some(p.cpKwh[cp] - SumCp(p, s, cp, t)) else None;
    var room := Tighter(site, point);
    if room.None? then None else Some(Max(0.0, room.value))
  }

  // ---- acceptance ----

  /** State of charge just before slot t for a battery that starts at `ref` and follows `row`. */
  function Replay(c: Cell, tiny: real, row: seq<real>, ref: real, t: nat): real
    requires t <= |row|
  {
    if t == 0 then ref
    else
      var soc := Replay(c, tiny, row, ref, t - 1);
      if row[t - 1] <= tiny then soc
      else Min(1.0, soc + c.rise(Min(row[t - 1], c.accepts(soc))))
  }

  /** Energy vehicle i can physically take in slot t given its row so far; its nameplate energy when the battery is
      unknown. */
  function AcceptanceKwh(p: Problem, i: nat, row: seq<real>, t: nat): real
    requires i < |p.loads| && t <= |row|
  {
    var pack := p.loads[i].pack;
    if pack.None? then p.loads[i].capKwh
    else
      var soc := Replay(pack.value.cell, p.tiny, row, pack.value.soc, t);
      Max(0.0, Min(p.loads[i].capKwh, pack.value.cell.accepts(soc)))
  }

  // ---- the single writer of passes 1 and 2 ----

  function GiveAmount(p: Problem, s: State, i: nat, t: nat, kwh: real): real
    requires Shaped(p, s) && i < |p.loads| && t < p.horizon
  {
    var deliverable := if p.aware then AcceptanceKwh(p, i, s.x[i], t) else kwh;
    Max(0.0, Limit(Min(Min(kwh, deliverable), s.need[i]), RoomAt(p, s, t, p.loads[i].cpId)))
  }

  function Add(p: Problem, s: State, i: nat, t: nat, amount: real): (r: State)
    requires Shaped(p, s) && i < |p.loads| && t < p.horizon
    ensures Shaped(p, r)
  {
    State(s.x[i := s.x[i][t := s.x[i][t] + amount]], s.need[i := s.need[i] - amount])
  }

  function Give(p: Problem, s: State, i: nat, t: nat, kwh: real): (r: State)
    requires Shaped(p, s) && i < |p.loads| && t < p.horizon
    ensures Shaped(p, r)
  {
    if !p.InWindow(i, t) then s
    else
      var amount := GiveAmount(p, s, i, t, kwh);
      if amount <= p.eps then s else Add(p, s, i, t, amount)
  }

  // ---- pass 1: certified floors ----

  /** Vehicle i asks for its floor in each of its slots before t. */
  function FloorRow(p: Problem, s: State, i: nat, t: int): (r: State)
    requires Shaped(p, s) && i < |p.loads| && t <= p.horizon
    ensures Shaped(p, r)
    decreases t
  {
    if t <= p.loads[i].av then s
    else
      var r := FloorRow(p, s, i, t - 1);
      if r.need[i] > p.eps then Give(p, r, i, t - 1, p.loads[i].floorKwh) else r
  }

  /** What vehicle i's turn does in slot t. */
  function FloorStep(p: Problem, m: State, i: nat, t: nat): State
    requires Shaped(p, m) && i < |p.loads| && t < p.horizon
  {
    if t < p.loads[i].av || m.need[i] <= p.eps then m else Give(p, m, i, t, p.loads[i].floorKwh)
  }

  lemma FloorRowStep(p: Problem, s: State, m: State, i: nat, t: nat)
    requires Shaped(p, s) && i < |p.loads| && t < p.horizon && m == FloorRow(p, s, i, t)
    ensures FloorRow(p, s, i, t + 1) == FloorStep(p, m, i, t)
  {
  }

  ghost predicate Indices(p: Problem, order: seq<nat>) {
    forall k :: 0 <= k < |order| ==> order[k] < |p.loads|
  }

  function FloorPass(p: Problem, s: State, order: seq<nat>, k: nat): (r: State)
    requires Shaped(p, s) && Indices(p, order) && k <= |order|
    ensures Shaped(p, r)
  {
    if k == 0 then s
    else
      var r := FloorPass(p, s, order, k - 1);
      var i := order[k - 1];
      if !p.loads[i].floored then r else FloorRow(p, r, i, p.loads[i].dl)
  }

  // ---- pass 2: earliest-deadline-first fill ----

  function FillSlot(p: Problem, s: State, order: seq<nat>, t: nat, k: nat): (r: State)
    requires Shaped(p, s) && Indices(p, order) && k <= |order| && t < p.horizon
    ensures Shaped(p, r)
  {
    if k == 0 then s
    else
      var r := FillSlot(p, s, order, t, k - 1);
      var i := order[k - 1];
      if !p.InWindow(i, t) || r.need[i] <= p.eps then r
      else Give(p, r, i, t, p.loads[i].capKwh)
  }

  function FillPass(p: Problem, s: State, order: seq<nat>, t: nat): (r: State)
    requires Shaped(p, s) && Indices(p, order) && t <= p.horizon
    ensures Shaped(p, r)
  {
    if t == 0 then s else FillSlot(p, FillPass(p, s, order, t - 1), order, t - 1, |order|)
  }

  // ---- pass 3: price shift ----

  /** Energy that moves from slot `src` to slot `dst` of vehicle i. */
  function MoveAmount(p: Problem, s: State, i: nat, src: nat, dst: nat): real
    requires Shaped(p, s) && i < |p.loads| && src < p.horizon && dst < p.horizon
  {
    var movable := s.x[i][src];
    var accepts := if p.aware then Max(0.0, AcceptanceKwh(p, i, s.x[i], dst) - s.x[i][dst]) else movable;
    Limit(Min(movable, accepts), RoomAt(p, s, dst, p.loads[i].cpId))
  }

  function Transfer(p: Problem, s: State, i: nat, src: nat, dst: nat, amount: real): (r: State)
    requires Shaped(p, s) && i < |p.loads| && src < p.horizon && dst < p.horizon
    ensures Shaped(p, r)
  {
    var row := s.x[i][src := s.x[i][src] - amount];
    s.(x := s.x[i := row[dst := row[dst] + amount]])
  }

  function Move(p: Problem, s: State, i: nat, src: nat, dst: nat): (r: State)
    requires Shaped(p, s) && i < |p.loads| && src < p.horizon && dst < p.horizon
    ensures Shaped(p, r)
  {
    if s.x[i][src] <= p.eps then s
    else
      var amount := MoveAmount(p, s, i, src, dst);
      if amount <= p.eps then s else Transfer(p, s, i, src, dst, amount)
  }

  function CheaperFilter(p: Problem, i: nat, src: nat, t: nat): (r: seq<nat>)
    requires p.Prepared() && i < |p.loads| && src < p.horizon && t <= p.horizon
    ensures forall d :: d in r ==> d < t && d != src && p.InWindow(i, d) && p.Score(d) < p.Score(src)
  {
    if t == 0 then []
    else
      var r := CheaperFilter(p, i, src, t - 1);
      if p.InWindow(i, t - 1) && t - 1 != src && p.Score(t - 1) < p.Score(src) then r + [t - 1] else r
  }

  function ScoreKeys(p: Problem, sign: real): (keys: seq<Key>)
    ensures |keys| == p.horizon
  {
    seq(p.horizon, t requires 0 <= t < p.horizon => (sign * p.Score(t), t))
  }

  /** The cheaper slots of vehicle i's window, cheapest first. */
  function Cheaper(p: Problem, i: nat, src: nat): (r: seq<nat>)
    requires p.Prepared() && i < |p.loads| && src < p.horizon
    ensures forall k :: 0 <= k < |r| ==>
      r[k] < p.horizon && r[k] != src && p.InWindow(i, r[k]) && p.Score(r[k]) < p.Score(src)
  {
    var kept := CheaperFilter(p, i, src, p.horizon);
    assert forall k :: 0 <= k < |kept| ==> kept[k] in kept;
    SortByMembers(ScoreKeys(p, 1.0), kept);
    SortBy(ScoreKeys(p, 1.0), kept)
  }

  ghost predicate Targets(p: Problem, i: nat, src: nat, dsts: seq<nat>)
    requires p.Prepared() && i < |p.loads|
  {
    forall k :: 0 <= k < |dsts| ==>
      dsts[k] < p.horizon && dsts[k] != src && p.InWindow(i, dsts[k]) && p.Score(dsts[k]) < p.Score(src)
  }

  function ShiftRow(p: Problem, s: State, i: nat, src: nat, dsts: seq<nat>, k: nat): (r: State)
    requires Shaped(p, s) && i < |p.loads| && src < p.horizon && Targets(p, i, src, dsts) && k <= |dsts|
    ensures Shaped(p, r)
  {
    if k == 0 then s else Move(p, ShiftRow(p, s, i, src, dsts, k - 1), i, src, dsts[k - 1])
  }

  /** The vehicles of `order` that hold energy in slot src. */
  function Holders(p: Problem, s: State, order: seq<nat>, src: nat, k: nat): (r: seq<nat>)
    requires Shaped(p, s) && Indices(p, order) && src < p.horizon && k <= |order|
    ensures Indices(p, r)
  {
    if k == 0 then []
    else
      var r := Holders(p, s, order, src, k - 1);
      if s.x[order[k - 1]][src] > p.eps then r + [order[k - 1]] else r
  }

  /** The cheaper slots of every vehicle. */
  function CheaperLists(p: Problem, src: nat): (r: seq<seq<nat>>)
    requires p.Prepared() && src < p.horizon
    ensures TargetLists(p, src, r)
  {
    seq(|p.loads|, i requires 0 <= i < |p.loads| => Cheaper(p, i, src))
  }

  ghost predicate TargetLists(p: Problem, src: nat, lists: seq<seq<nat>>)
    requires p.Prepared()
  {
    |lists| == |p.loads| && forall i :: 0 <= i < |p.loads| ==> Targets(p, i, src, lists[i])
  }

  function ShiftSlot(p: Problem, s: State, holders: seq<nat>, src: nat, lists: seq<seq<nat>>, k: nat): (r: State)
    requires Shaped(p, s) && Indices(p, holders) && src < p.horizon && TargetLists(p, src, lists) && k <= |holders|
    ensures Shaped(p, r)
  {
    if k == 0 then s
    else
      var i := holders[k - 1];
      ShiftRow(p, ShiftSlot(p, s, holders, src, lists, k - 1), i, src, lists[i], |lists[i]|)
  }

  /** One dear slot: whoever holds energy in it moves what it can. */
  function Shifted(p: Problem, s: State, order: seq<nat>, src: nat, lists: seq<seq<nat>>): (r: State)
    requires Shaped(p, s) && Indices(p, order) && src < p.horizon && TargetLists(p, src, lists)
    ensures Shaped(p, r)
  {
    var holders := Holders(p, s, order, src, |order|);
    ShiftSlot(p, s, holders, src, lists, |holders|)
  }

  ghost predicate Slots(p: Problem, slots: seq<nat>) {
    forall k :: 0 <= k < |slots| ==> slots[k] < p.horizon
  }

  /** For every slot, the cheaper slots of every vehicle. */
  type Menu = seq<seq<seq<nat>>>

  ghost predicate MenuOk(p: Problem, menu: Menu)
    requires p.Prepared()
  {
    |menu| == p.horizon && forall src :: 0 <= src < p.horizon ==> TargetLists(p, src, menu[src])
  }

  lemma MenuAt(p: Problem, menu: Menu, src: nat)
    requires p.Prepared() && MenuOk(p, menu) && src < p.horizon
    ensures TargetLists(p, src, menu[src])
  {
  }

  function CheaperMenu(p: Problem): (menu: Menu)
    requires p.Prepared()
    ensures MenuOk(p, menu)
  {
    seq(p.horizon, src requires 0 <= src < p.horizon => CheaperLists(p, src))
  }

  function ShiftPass(p: Problem, s: State, order: seq<nat>, slots: seq<nat>, menu: Menu, k: nat): (r: State)
    requires Shaped(p, s) && Indices(p, order) && Slots(p, slots) && MenuOk(p, menu) && k <= |slots|
    ensures Shaped(p, r)
  {
    if k == 0 then s
    else
      MenuAt(p, menu, slots[k - 1]);
      Shifted(p, ShiftPass(p, s, order, slots, menu, k - 1), order, slots[k - 1], menu[slots[k - 1]])
  }

  // ---- the three passes in order ----

  function ById(p: Problem): (r: seq<nat>)
    ensures Indices(p, r)
  {
    SortBy(seq(|p.loads|, i requires 0 <= i < |p.loads| => (0.0, p.loads[i].sessionId)), Upto(|p.loads|))
  }

  function EdfKeys(p: Problem): (keys: seq<Key>)
    requires p.Prepared()
    ensures |keys| == |p.loads|
  {
    seq(|p.loads|, i requires 0 <= i < |p.loads| => (p.loads[i].dl as real, p.loads[i].sessionId))
  }

  function Edf(p: Problem): (r: seq<nat>)
    requires p.Prepared()
    ensures Indices(p, r)
  {
    SortBy(EdfKeys(p), Upto(|p.loads|))
  }

  /** Slots, dearest first. */
  function PriceOrder(p: Problem): (r: seq<nat>)
    ensures Slots(p, r)
  {
    SortBy(ScoreKeys(p, -1.0), Upto(p.horizon))
  }

  function AfterFloors(p: Problem): (r: State)
    requires p.Prepared()
    ensures Shaped(p, r)
  {
    FloorPass(p, Initial(p), ById(p), |ById(p)|)
  }

  function AfterFill(p: Problem): (r: State)
    requires p.Prepared()
    ensures Shaped(p, r)
  {
    FillPass(p, AfterFloors(p), Edf(p), p.horizon)
  }

  function Solve(p: Problem): (r: State)
    requires p.Prepared()
    ensures Shaped(p, r)
  {
    ShiftPass(p, AfterFill(p), ById(p), PriceOrder(p), CheaperMenu(p), |PriceOrder(p)|)
  }
}
