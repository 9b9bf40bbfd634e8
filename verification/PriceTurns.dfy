/** What the orders of the three passes are, what a hungry vehicle has used, and the price pass as a chain of turns:
    each slot, dearest first, gives up its energy to cheaper slots, cheapest first, until those are full. */
module PriceTurns {
  import opened Reals
  import opened Ordering
  import opened Charging
  import opened Allocator
  import opened Invariants
  import opened Honesty

  // ---- orders ----

  /** Every vehicle once, ascending in the session id. */
  lemma ByIdIs(p: Problem)
    ensures var r := ById(p);
            && Indices(p, r) && Distinct(r) && (forall i: nat :: i < |p.loads| ==> i in r)
            && (forall a, b :: 0 <= a < b < |r| ==> p.loads[r[a]].sessionId <= p.loads[r[b]].sessionId)
  {
    var keys := seq(|p.loads|, i requires 0 <= i < |p.loads| => (0.0, p.loads[i].sessionId));
    SortIsPermutation(keys, |p.loads|);
    SortBySorts(keys, Upto(|p.loads|));
    forall a, b | 0 <= a < b < |ById(p)| ensures p.loads[ById(p)[a]].sessionId <= p.loads[ById(p)[b]].sessionId {
      assert Before(keys[ById(p)[a]], keys[ById(p)[b]]);
    }
  }

  /** Vehicle i is due before vehicle j, or with it and has the lower session id. */
  ghost predicate DueFirst(p: Problem, i: nat, j: nat)
    requires i < |p.loads| && j < |p.loads|
  {
    || p.loads[i].dl < p.loads[j].dl
    || (p.loads[i].dl == p.loads[j].dl && p.loads[i].sessionId <= p.loads[j].sessionId)
  }

  /** Every vehicle once, the earlier deadline first and the lower session id among equals. */
  lemma EdfIs(p: Problem)
    requires p.Prepared()
    ensures var r := Edf(p);
            && Indices(p, r) && Distinct(r) && (forall i: nat :: i < |p.loads| ==> i in r)
            && (forall a, b :: 0 <= a < b < |r| ==> DueFirst(p, r[a], r[b]))
  {
    var keys := EdfKeys(p);
    SortIsPermutation(keys, |p.loads|);
    SortBySorts(keys, Upto(|p.loads|));
    forall a, b | 0 <= a < b < |Edf(p)| ensures DueFirst(p, Edf(p)[a], Edf(p)[b]) {
      assert Before(keys[Edf(p)[a]], keys[Edf(p)[b]]);
    }
  }

  /** Slot a is dearer than slot b, or the earlier of two of one price. */
  ghost predicate Dearer(p: Problem, a: nat, b: nat) {
    p.Score(a) > p.Score(b) || (p.Score(a) == p.Score(b) && a < b)
  }

  /** Slot a is cheaper than slot b, or the earlier of two of one price. */
  ghost predicate NoDearerSlot(p: Problem, a: nat, b: nat) {
    p.Score(a) < p.Score(b) || (p.Score(a) == p.Score(b) && a <= b)
  }

  /** Every slot once, dearest first. */
  lemma PriceOrderIs(p: Problem)
    ensures var r := PriceOrder(p);
            && |r| == p.horizon && Slots(p, r) && (forall t: nat :: t < p.horizon ==> t in r)
            && (forall a, b :: 0 <= a < b < |r| ==> Dearer(p, r[a], r[b]))
  {
    var keys := ScoreKeys(p, -1.0);
    SortIsPermutation(keys, p.horizon);
    SortBySorts(keys, Upto(p.horizon));
    forall a, b | 0 <= a < b < |PriceOrder(p)| ensures Dearer(p, PriceOrder(p)[a], PriceOrder(p)[b]) {
      assert Before(keys[PriceOrder(p)[a]], keys[PriceOrder(p)[b]]);
    }
  }

  lemma {:induction false} FilterIs(p: Problem, i: nat, src: nat, t: nat)
    requires p.Prepared() && i < |p.loads| && src < p.horizon && t <= p.horizon
    ensures forall d: nat :: d < t && p.InWindow(i, d) && p.Score(d) < p.Score(src) ==> d in CheaperFilter(p, i, src, t)
  {
    if t > 0 {
      FilterIs(p, i, src, t - 1);
    }
  }

  /** The cheaper slots are those of the window that cost strictly less, cheapest first. */
  lemma CheaperIs(p: Problem, i: nat, src: nat)
    requires p.Prepared() && i < |p.loads| && src < p.horizon
    ensures var r := Cheaper(p, i, src);
            && (forall d: nat :: d in r <==> d < p.horizon && p.InWindow(i, d) && p.Score(d) < p.Score(src))
            && (forall a, b :: 0 <= a < b < |r| ==> NoDearerSlot(p, r[a], r[b]))
  {
    var keys, kept, r := ScoreKeys(p, 1.0), CheaperFilter(p, i, src, p.horizon), Cheaper(p, i, src);
    FilterIs(p, i, src, p.horizon);
    assert forall k :: 0 <= k < |kept| ==> kept[k] in kept;
    SortBySorts(keys, kept);
    forall d: nat ensures d in r <==> d in kept {
      assert d in multiset(r) <==> d in multiset(kept);
    }
    forall a, b | 0 <= a < b < |r| ensures NoDearerSlot(p, r[a], r[b]) {
      assert Before(keys[r[a]], keys[r[b]]);
    }
  }

  /** The list of cheaper slots of one vehicle: complete and cheapest first. */
  ghost predicate CheapList(p: Problem, i: nat, src: nat, dsts: seq<nat>)
    requires p.Prepared() && i < |p.loads|
  {
    && Targets(p, i, src, dsts)
    && (forall d: nat :: d < p.horizon && p.InWindow(i, d) && p.Score(d) < p.Score(src) ==> d in dsts)
    && (forall a, b :: 0 <= a < b < |dsts| ==> NoDearerSlot(p, dsts[a], dsts[b]))
  }

  ghost predicate CheapLists(p: Problem, src: nat, lists: seq<seq<nat>>)
    requires p.Prepared()
  {
    TargetLists(p, src, lists) && forall i :: 0 <= i < |p.loads| ==> CheapList(p, i, src, lists[i])
  }

  lemma ListsAreCheap(p: Problem, src: nat)
    requires p.Prepared() && src < p.horizon
    ensures CheapLists(p, src, CheaperLists(p, src))
  {
    forall i | 0 <= i < |p.loads| ensures CheapList(p, i, src, CheaperLists(p, src)[i]) {
      CheaperIs(p, i, src);
    }
  }

  // ---- what a turn does ----

  /** Slot src only loses energy, other slots only gain it, and only strictly cheaper ones of the vehicle's window. */
  ghost predicate Drift(p: Problem, a: State, b: State, src: nat)
    requires Shaped(p, a) && src < p.horizon
  {
    && Good(p, b) && b.need == a.need
    && forall i, u :: 0 <= i < |p.loads| && 0 <= u < p.horizon ==> DriftAt(p, a, b, src, i, u)
  }

  ghost predicate DriftAt(p: Problem, a: State, b: State, src: nat, i: nat, u: nat)
    requires Shaped(p, a) && Shaped(p, b) && src < p.horizon && i < |p.loads| && u < p.horizon
  {
    if u == src then b.x[i][u] <= a.x[i][u]
    else b.x[i][u] >= a.x[i][u] && (b.x[i][u] > a.x[i][u] ==> p.InWindow(i, u) && p.Score(u) < p.Score(src))
  }

  lemma DriftChain(p: Problem, a: State, b: State, c: State, src: nat)
    requires Shaped(p, a) && src < p.horizon && Drift(p, a, b, src) && Drift(p, b, c, src)
    ensures Drift(p, a, c, src)
  {
    forall i, u | 0 <= i < |p.loads| && 0 <= u < p.horizon ensures DriftAt(p, a, c, src, i, u) {
      assert DriftAt(p, a, b, src, i, u) && DriftAt(p, b, c, src, i, u);
    }
  }

  lemma MoveDrifts(p: Problem, s: State, i: nat, src: nat, dst: nat)
    requires p.Valid() && Good(p, s) && i < |p.loads| && src < p.horizon && dst < p.horizon
    requires src != dst && p.InWindow(i, dst) && p.Score(dst) < p.Score(src)
    ensures Drift(p, s, Move(p, s, i, src, dst), src)
  {
    MoveGood(p, s, i, src, dst);
  }

  /** A slot that is full stays full while another slot is drained. */
  lemma DriftKeepsFull(p: Problem, a: State, b: State, src: nat, t: nat, cp: int)
    requires Shaped(p, a) && src < p.horizon && t < p.horizon && t != src && Drift(p, a, b, src) && Full(p, a, t, cp)
    requires p.Valid()
    ensures Full(p, b, t, cp)
  {
    forall i | 0 <= i < |p.loads|
      ensures Col(a.x, p.horizon, t)[i] <= Col(b.x, p.horizon, t)[i] && CpCol(p, a, cp, t)[i] <= CpCol(p, b, cp, t)[i]
    {
      assert DriftAt(p, a, b, src, i, t);
    }
    SumMono(Col(a.x, p.horizon, t), Col(b.x, p.horizon, t));
    SumMono(CpCol(p, a, cp, t), CpCol(p, b, cp, t));
  }

  /** Vehicle i holds nothing in slot src, or the cheaper slot d of its window is full. */
  ghost predicate DrainedAt(p: Problem, s: State, src: nat, i: nat, d: nat)
    requires Shaped(p, s) && src < p.horizon && i < |p.loads| && d < p.horizon
  {
    p.InWindow(i, d) && p.Score(d) < p.Score(src) ==> s.x[i][src] <= p.eps || Full(p, s, d, p.loads[i].cpId)
  }

  /** If vehicle i gained in slot e, every slot of its window cheaper than e is full. */
  ghost predicate CheapestAt(p: Problem, a: State, b: State, i: nat, d: nat, e: nat)
    requires Shaped(p, a) && Shaped(p, b) && i < |p.loads| && d < p.horizon && e < p.horizon
  {
    p.InWindow(i, d) && p.Score(d) < p.Score(e) && b.x[i][e] > a.x[i][e] ==> Full(p, b, d, p.loads[i].cpId)
  }

  /** One turn of the price pass. */
  ghost predicate Turn(p: Problem, a: State, b: State, src: nat)
    requires Shaped(p, a) && src < p.horizon
  {
    && Drift(p, a, b, src)
    && (forall i, d :: 0 <= i < |p.loads| && 0 <= d < p.horizon ==> DrainedAt(p, b, src, i, d))
    && (forall i, d, e :: 0 <= i < |p.loads| && 0 <= d < p.horizon && 0 <= e < p.horizon ==>
         CheapestAt(p, a, b, i, d, e))
  }

  lemma DrainedStays(p: Problem, a: State, b: State, src: nat, i: nat, d: nat)
    requires p.Valid() && Shaped(p, a) && src < p.horizon && Drift(p, a, b, src) && i < |p.loads| && d < p.horizon
    requires DrainedAt(p, a, src, i, d)
    ensures DrainedAt(p, b, src, i, d)
  {
    assert DriftAt(p, a, b, src, i, src);
    if p.InWindow(i, d) && p.Score(d) < p.Score(src) && Full(p, a, d, p.loads[i].cpId) {
      DriftKeepsFull(p, a, b, src, d, p.loads[i].cpId);
    }
  }

  /** What one vehicle has done after k of its cheaper slots. */
  lemma {:induction false} RowDrifts(p: Problem, s: State, i: nat, src: nat, dsts: seq<nat>, k: nat)
    requires p.Valid() && Good(p, s) && i < |p.loads| && src < p.horizon && Targets(p, i, src, dsts) && k <= |dsts|
    ensures Drift(p, s, ShiftRow(p, s, i, src, dsts, k), src)
    ensures forall j :: 0 <= j < |p.loads| && j != i ==> ShiftRow(p, s, i, src, dsts, k).x[j] == s.x[j]
    decreases k
  {
    if k > 0 {
      RowDrifts(p, s, i, src, dsts, k - 1);
      var m := ShiftRow(p, s, i, src, dsts, k - 1);
      MoveDrifts(p, m, i, src, dsts[k - 1]);
      DriftChain(p, s, m, ShiftRow(p, s, i, src, dsts, k), src);
    }
  }

  /** An earlier slot of the list. */
  lemma Listed(p: Problem, i: nat, src: nat, dsts: seq<nat>, k: nat, d: nat) returns (j: nat)
    requires p.Prepared() && i < |p.loads| && src < p.horizon && CheapList(p, i, src, dsts) && k < |dsts|
    requires d < p.horizon && p.InWindow(i, d) && p.Score(d) < p.Score(dsts[k])
    ensures j < k && dsts[j] == d
  {
    j :| 0 <= j < |dsts| && dsts[j] == d;
    assert k < j ==> NoDearerSlot(p, dsts[k], dsts[j]);
  }

  lemma MoveCheapest(p: Problem, s: State, m: State, i: nat, src: nat, dsts: seq<nat>, k: nat, d: nat, e: nat)
    requires p.Valid() && Good(p, s) && !p.aware && i < |p.loads| && src < p.horizon && k < |dsts|
    requires CheapList(p, i, src, dsts) && d < p.horizon && e < p.horizon
    requires m == ShiftRow(p, s, i, src, dsts, k) && Good(p, m) && Drift(p, m, Move(p, m, i, src, dsts[k]), src)
    requires CheapestAt(p, s, m, i, d, e)
    ensures CheapestAt(p, s, Move(p, m, i, src, dsts[k]), i, d, e)
  {
    var r := Move(p, m, i, src, dsts[k]);
    if p.InWindow(i, d) && p.Score(d) < p.Score(e) && r.x[i][e] > s.x[i][e] {
      if m.x[i][e] > s.x[i][e] {
        GainedCheaper(p, s, i, src, dsts, k, e);
      } else {
        assert DriftAt(p, m, r, src, i, e);
        assert e == dsts[k];
        var j := Listed(p, i, src, dsts, k, d);
        ShiftExhausts(p, s, i, src, dsts, k, j);
      }
      DriftKeepsFull(p, m, r, src, d, p.loads[i].cpId);
    }
  }

  lemma GainedCheaper(p: Problem, s: State, i: nat, src: nat, dsts: seq<nat>, k: nat, e: nat)
    requires p.Valid() && Good(p, s) && i < |p.loads| && src < p.horizon && Targets(p, i, src, dsts) && k <= |dsts|
    requires e < p.horizon && ShiftRow(p, s, i, src, dsts, k).x[i][e] > s.x[i][e]
    ensures p.Score(e) < p.Score(src)
  {
    RowDrifts(p, s, i, src, dsts, k);
    assert DriftAt(p, s, ShiftRow(p, s, i, src, dsts, k), src, i, e);
  }

  lemma {:induction false} RowCheapest(p: Problem, s: State, i: nat, src: nat, dsts: seq<nat>, k: nat, d: nat, e: nat)
    requires p.Valid() && Good(p, s) && !p.aware && i < |p.loads| && src < p.horizon && k <= |dsts|
    requires CheapList(p, i, src, dsts) && d < p.horizon && e < p.horizon
    ensures Drift(p, s, ShiftRow(p, s, i, src, dsts, k), src)
    ensures CheapestAt(p, s, ShiftRow(p, s, i, src, dsts, k), i, d, e)
    decreases k
  {
    RowDrifts(p, s, i, src, dsts, k);
    if k > 0 {
      RowCheapest(p, s, i, src, dsts, k - 1, d, e);
      var m := ShiftRow(p, s, i, src, dsts, k - 1);
      MoveDrifts(p, m, i, src, dsts[k - 1]);
      MoveCheapest(p, s, m, i, src, dsts, k - 1, d, e);
    }
  }

  /** After a vehicle's whole list its energy is out of the slot or the cheaper slots are full. */
  lemma RowDrains(p: Problem, s: State, i: nat, src: nat, dsts: seq<nat>, d: nat)
    requires p.Valid() && Good(p, s) && !p.aware && i < |p.loads| && src < p.horizon
    requires CheapList(p, i, src, dsts) && d < p.horizon
    ensures DrainedAt(p, ShiftRow(p, s, i, src, dsts, |dsts|), src, i, d)
  {
    if p.InWindow(i, d) && p.Score(d) < p.Score(src) {
      var j :| 0 <= j < |dsts| && dsts[j] == d;
      ShiftExhausts(p, s, i, src, dsts, |dsts|, j);
    }
  }

  // ---- one dear slot ----

  ghost predicate Ready(p: Problem, s: State, holders: seq<nat>, src: nat, lists: seq<seq<nat>>, k: nat) {
    && p.Valid() && !p.aware && Good(p, s) && Indices(p, holders) && src < p.horizon && CheapLists(p, src, lists)
    && k <= |holders|
  }

  lemma {:induction false} SlotDrifts(p: Problem, s: State, holders: seq<nat>, src: nat, lists: seq<seq<nat>>, k: nat)
    returns (r: State)
    requires Ready(p, s, holders, src, lists, k)
    ensures r == ShiftSlot(p, s, holders, src, lists, k) && Drift(p, s, r, src)
    decreases k
  {
    if k == 0 {
      r := s;
    } else {
      var m := SlotDrifts(p, s, holders, src, lists, k - 1);
      var i := holders[k - 1];
      RowDrifts(p, m, i, src, lists[i], |lists[i]|);
      r := ShiftRow(p, m, i, src, lists[i], |lists[i]|);
      DriftChain(p, s, m, r, src);
    }
  }

  lemma {:induction false} SlotDrains(p: Problem, s: State, holders: seq<nat>, src: nat, lists: seq<seq<nat>>,
      k: nat, j: nat, d: nat)
    requires Ready(p, s, holders, src, lists, k) && j < k && d < p.horizon
    ensures DrainedAt(p, ShiftSlot(p, s, holders, src, lists, k), src, holders[j], d)
    decreases k
  {
    var m := SlotDrifts(p, s, holders, src, lists, k - 1);
    var i := holders[k - 1];
    RowDrifts(p, m, i, src, lists[i], |lists[i]|);
    if j == k - 1 {
      RowDrains(p, m, i, src, lists[i], d);
    } else {
      SlotDrains(p, s, holders, src, lists, k - 1, j, d);
      DrainedStays(p, m, ShiftSlot(p, s, holders, src, lists, k), src, holders[j], d);
    }
  }

  lemma {:induction false} SlotCheapest(p: Problem, s: State, holders: seq<nat>, src: nat, lists: seq<seq<nat>>,
      k: nat, j: nat, d: nat, e: nat)
    requires Ready(p, s, holders, src, lists, k) && j < |p.loads| && d < p.horizon && e < p.horizon
    ensures CheapestAt(p, s, ShiftSlot(p, s, holders, src, lists, k), j, d, e)
    decreases k
  {
    if k > 0 {
      var m := SlotDrifts(p, s, holders, src, lists, k - 1);
      var i := holders[k - 1];
      SlotCheapest(p, s, holders, src, lists, k - 1, j, d, e);
      RowCheapest(p, m, i, src, lists[i], |lists[i]|, d, e);
      RowDrifts(p, m, i, src, lists[i], |lists[i]|);
      CheapestStays(p, s, m, ShiftRow(p, m, i, src, lists[i], |lists[i]|), src, j, d, e);
    }
  }

  lemma CheapestStays(p: Problem, s: State, m: State, r: State, src: nat, j: nat, d: nat, e: nat)
    requires p.Valid() && Shaped(p, s) && src < p.horizon && Drift(p, s, m, src) && Drift(p, m, r, src)
    requires j < |p.loads| && d < p.horizon && e < p.horizon
    requires CheapestAt(p, s, m, j, d, e) && (r.x[j] == m.x[j] || CheapestAt(p, m, r, j, d, e))
    ensures CheapestAt(p, s, r, j, d, e)
  {
    if p.InWindow(j, d) && p.Score(d) < p.Score(e) && r.x[j][e] > s.x[j][e] {
      if m.x[j][e] > s.x[j][e] {
        assert DriftAt(p, s, m, src, j, e);
        DriftKeepsFull(p, m, r, src, d, p.loads[j].cpId);
      }
    }
  }

  lemma {:induction false} HoldersAre(p: Problem, s: State, order: seq<nat>, src: nat, k: nat)
    requires Shaped(p, s) && Indices(p, order) && src < p.horizon && k <= |order|
    ensures forall i: nat :: i in Holders(p, s, order, src, k) <==> i in order[..k] && s.x[i][src] > p.eps
  {
    if k > 0 {
      HoldersAre(p, s, order, src, k - 1);
      assert order[..k] == order[..k - 1] + [order[k - 1]];
    }
  }

  /** A whole turn. */
  lemma ShiftedTurns(p: Problem, s: State, order: seq<nat>, src: nat, lists: seq<seq<nat>>)
    requires p.Valid() && !p.aware && Good(p, s) && Indices(p, order) && src < p.horizon && CheapLists(p, src, lists)
    requires forall i: nat :: i < |p.loads| ==> i in order
    ensures Turn(p, s, Shifted(p, s, order, src, lists), src)
  {
    var holders := Holders(p, s, order, src, |order|);
    var r := SlotDrifts(p, s, holders, src, lists, |holders|);
    HoldersAre(p, s, order, src, |order|);
    assert order[..|order|] == order;
    forall i, d | 0 <= i < |p.loads| && 0 <= d < p.horizon ensures DrainedAt(p, r, src, i, d) {
      if s.x[i][src] > p.eps {
        var j :| 0 <= j < |holders| && holders[j] == i;
        SlotDrains(p, s, holders, src, lists, |holders|, j, d);
      } else {
        assert DriftAt(p, s, r, src, i, src);
      }
    }
    forall i, d, e | 0 <= i < |p.loads| && 0 <= d < p.horizon && 0 <= e < p.horizon
      ensures CheapestAt(p, s, r, i, d, e)
    {
      SlotCheapest(p, s, holders, src, lists, |holders|, i, d, e);
    }
  }

  // ---- the whole pass ----

  /** A chain of turns over every slot, dearest first. */
  ghost predicate Turns(p: Problem, states: seq<State>, order: seq<nat>) {
    && |order| == p.horizon && |states| == p.horizon + 1 && Slots(p, order)
    && (forall t: nat :: t < p.horizon ==> t in order)
    && (forall a, b :: 0 <= a < b < |order| ==> Dearer(p, order[a], order[b]))
    && (forall k :: 0 <= k < |states| ==> Good(p, states[k]))
    && (forall k :: 0 <= k < |order| ==> Turn(p, states[k], states[k + 1], order[k]))
  }

  function PriceStates(p: Problem): (states: seq<State>)
    requires p.Prepared()
    ensures |states| == p.horizon + 1 && forall k :: 0 <= k < |states| ==> Shaped(p, states[k])
  {
    PriceOrderIs(p);
    seq(p.horizon + 1, k requires 0 <= k < p.horizon + 1 =>
      ShiftPass(p, AfterFill(p), ById(p), PriceOrder(p), CheaperMenu(p), k))
  }

  lemma StateGood(p: Problem, k: nat)
    requires p.Valid() && k <= p.horizon
    ensures Good(p, PriceStates(p)[k])
  {
    PriceOrderIs(p);
    SolveGood(p);
    ShiftPassGood(p, AfterFill(p), ById(p), PriceOrder(p), CheaperMenu(p), k);
  }

  lemma StateTurns(p: Problem, k: nat)
    requires p.Valid() && !p.aware && k < p.horizon
    ensures k < |PriceOrder(p)| && PriceOrder(p)[k] < p.horizon
    ensures Turn(p, PriceStates(p)[k], PriceStates(p)[k + 1], PriceOrder(p)[k])
  {
    PriceOrderIs(p);
    StateGood(p, k);
    ByIdIs(p);
    var src := PriceOrder(p)[k];
    ListsAreCheap(p, src);
    ShiftedTurns(p, PriceStates(p)[k], ById(p), src, CheaperMenu(p)[src]);
  }

  /** The power-based price pass is such a chain from the plan of pass 2 to the finished plan. */
  lemma PricePassTurns(p: Problem) returns (states: seq<State>, order: seq<nat>)
    requires p.Valid() && !p.aware
    ensures Turns(p, states, order) && states[0] == AfterFill(p) && states[p.horizon] == Solve(p)
  {
    states, order := PriceStates(p), PriceOrder(p);
    PriceOrderIs(p);
    forall k | 0 <= k < |states| ensures Good(p, states[k]) {
      StateGood(p, k);
    }
    forall k | 0 <= k < |order| ensures Turn(p, states[k], states[k + 1], order[k]) {
      StateTurns(p, k);
    }
  }

  /** From its own turn on a slot keeps what it holds to the end. */
  lemma {:induction false} TurnSettles(p: Problem, states: seq<State>, order: seq<nat>, j: nat, k: nat, i: nat)
    requires Turns(p, states, order) && j < k <= p.horizon && i < |p.loads|
    ensures states[k].x[i][order[j]] == states[j + 1].x[i][order[j]]
    decreases k
  {
    if j + 1 < k {
      TurnSettles(p, states, order, j, k - 1, i);
      assert Turn(p, states[k - 1], states[k], order[k - 1]);
      assert Dearer(p, order[j], order[k - 1]);
      assert DriftAt(p, states[k - 1], states[k], order[k - 1], i, order[j]);
    }
  }

  /** The site or the charge point has no more than a cut-off left in the slot. */
  lemma FullIs(p: Problem, s: State, t: nat, cp: int)
    requires p.Valid() && Shaped(p, s) && t < p.horizon
    ensures Full(p, s, t, cp) <==>
            || (p.siteKwh.Some? && p.siteKwh.value - Sum(Col(s.x, p.horizon, t)) <= p.eps)
            || (cp in p.cpKwh && p.cpKwh[cp] - SumCp(p, s, cp, t) <= p.eps)
  {
  }

  /** Slot d is cheaper than slot src by the price series; slots past its end cost nothing. */
  ghost predicate CheaperBySeries(series: seq<real>, d: nat, src: nat) {
    (if d < |series| then series[d] else 0.0) < (if src < |series| then series[src] else 0.0)
  }

  lemma SeriesIs(r: Request, d: nat, src: nat)
    requires r.dtMin > 0
    ensures Prepare(r).Score(d) < Prepare(r).Score(src) <==> CheaperBySeries(r.score, d, src)
  {
  }

  /** Energy that the finished power-based plan leaves in a slot found every cheaper slot of the vehicle's stay full
      when that slot's turn was over. */
  lemma LeftOnlyWhenFull(r: Request, start: int, i: nat, src: nat, d: nat) returns (m: State)
    requires r.Valid() && !r.aware && GridPoint(start, r.now, r.DtMs()) && i < |r.vehicles|
    requires src < r.horizon && d < r.horizon && DuringStay(r.vehicles[i], start, r.DtMs(), d)
    requires CheaperBySeries(r.score, d, src) && Solve(Prepare(r)).x[i][src] > r.eps
    ensures var p := Prepare(r);
            && Good(p, m) && m.need == Solve(p).need && Full(p, m, d, r.vehicles[i].cpId)
            && forall j :: 0 <= j < |p.loads| ==> m.x[j][src] == Solve(p).x[j][src]
  {
    PrepareValid(r);
    WindowIsStay(r, start, i, d);
    SeriesIs(r, d, src);
    m := LeftInTurn(Prepare(r), i, src, d);
  }

  lemma LeftInTurn(p: Problem, i: nat, src: nat, d: nat) returns (m: State)
    requires p.Valid() && !p.aware && i < |p.loads| && src < p.horizon && d < p.horizon
    requires p.InWindow(i, d) && p.Score(d) < p.Score(src) && Solve(p).x[i][src] > p.eps
    ensures Good(p, m) && m.need == Solve(p).need && Full(p, m, d, p.loads[i].cpId)
    ensures forall j :: 0 <= j < |p.loads| ==> m.x[j][src] == Solve(p).x[j][src]
  {
    var states, order := PricePassTurns(p);
    assert src in order;
    var k :| 0 <= k < |order| && order[k] == src;
    m := states[k + 1];
    forall j | 0 <= j < |p.loads| ensures m.x[j][src] == Solve(p).x[j][src] {
      TurnSettles(p, states, order, k, p.horizon, j);
    }
    assert Turn(p, states[k], m, src) && DrainedAt(p, m, src, i, d);
    NeedsStay(p, states, order, k + 1, p.horizon);
  }

  lemma {:induction false} NeedsStay(p: Problem, states: seq<State>, order: seq<nat>, j: nat, k: nat)
    requires Turns(p, states, order) && j <= k <= p.horizon
    ensures states[k].need == states[j].need
    decreases k
  {
    if j < k {
      NeedsStay(p, states, order, j, k - 1);
      assert Turn(p, states[k - 1], states[k], order[k - 1]);
    }
  }

  // ---- the cost that pass 3 lowers ----

  /** What the whole site draws in each slot, at that slot's price. */
  ghost function Bills(p: Problem, s: State): seq<real>
    requires Shaped(p, s)
  {
    seq(p.horizon, t requires 0 <= t < p.horizon =>
      (if t < |p.score| then p.score[t] else 0.0) * Sum(Col(s.x, p.horizon, t)))
  }

  lemma {:induction false} CostToIs(p: Problem, s: State, t: nat)
    requires Shaped(p, s) && t <= p.horizon
    ensures CostTo(p, ByScore(p), s, t) == Sum(Bills(p, s)[..t])
    decreases t
  {
    if t > 0 {
      CostToIs(p, s, t - 1);
      assert Bills(p, s)[..t][..t - 1] == Bills(p, s)[..t - 1];
    }
  }

  lemma CostIs(p: Problem, s: State)
    requires Shaped(p, s)
    ensures Cost(p, s) == Sum(Bills(p, s))
  {
    CostToIs(p, s, p.horizon);
    assert Bills(p, s)[..p.horizon] == Bills(p, s);
  }

  // ---- pass 2 wastes nothing ----

  /** What pass 2 asks a slot of vehicle i for. */
  function Ask(p: Problem, i: nat, row: seq<real>, t: nat): real
    requires i < |p.loads| && t <= |row|
  {
    if p.aware then Min(p.loads[i].capKwh, AcceptanceKwh(p, i, row, t)) else p.loads[i].capKwh
  }

  /** Vehicle i has what it could take of slot t, or the slot is full. */
  ghost predicate UsedUp(p: Problem, s: State, i: nat, t: nat)
    requires Shaped(p, s) && i < |p.loads| && t < p.horizon
  {
    s.x[i][t] >= Ask(p, i, s.x[i], t) - p.eps || Full(p, s, t, p.loads[i].cpId)
  }

  lemma HungryGive(p: Problem, s: State, i: nat, t: nat)
    requires p.Valid() && Good(p, s) && i < |p.loads| && t < p.horizon && p.InWindow(i, t)
    requires Give(p, s, i, t, p.loads[i].capKwh).need[i] > p.eps
    ensures UsedUp(p, Give(p, s, i, t, p.loads[i].capKwh), i, t)
  {
    var r := Give(p, s, i, t, p.loads[i].capKwh);
    var d := GiveAmount(p, s, i, t, p.loads[i].capKwh);
    assert RowGood(p, s, i);
    if d > p.eps {
      CellSums(p, s, r, i, t, d);
      RoomShrinks(p, s, r, t, p.loads[i].cpId, d);
      AcceptanceLocal(p, i, s.x[i], r.x[i], t);
    }
  }

  /** b adds to slot t and to nothing else. */
  ghost predicate Grows(p: Problem, a: State, b: State, t: nat)
    requires Shaped(p, a) && t < p.horizon
  {
    && Good(p, b) && NeedDrops(p, a, b)
    && (forall i, u :: 0 <= i < |p.loads| && 0 <= u < p.horizon ==>
         if u == t then b.x[i][u] >= a.x[i][u] else b.x[i][u] == a.x[i][u])
  }

  lemma GiveGrows(p: Problem, s: State, i: nat, t: nat, kwh: real)
    requires p.Valid() && Good(p, s) && i < |p.loads| && t < p.horizon
    ensures Grows(p, s, Give(p, s, i, t, kwh), t)
  {
    GiveGood(p, s, i, t, kwh);
  }

  lemma GrowthKeepsUsed(p: Problem, a: State, b: State, t: nat, i: nat)
    requires p.Valid() && Shaped(p, a) && t < p.horizon && Grows(p, a, b, t) && i < |p.loads| && UsedUp(p, a, i, t)
    ensures UsedUp(p, b, i, t)
  {
    var cp := p.loads[i].cpId;
    AcceptanceLocal(p, i, a.x[i], b.x[i], t);
    SumMono(Col(a.x, p.horizon, t), Col(b.x, p.horizon, t));
    SumMono(CpCol(p, a, cp, t), CpCol(p, b, cp, t));
  }

  /** Slot t is over: later slots leave it and everything before it alone. */
  lemma LaterKeepsUsed(p: Problem, a: State, b: State, t: nat, later: nat, i: nat)
    requires p.Valid() && Shaped(p, a) && t < later < p.horizon && Grows(p, a, b, later) && i < |p.loads|
    requires UsedUp(p, a, i, t)
    ensures UsedUp(p, b, i, t)
  {
    var cp := p.loads[i].cpId;
    AcceptanceLocal(p, i, a.x[i], b.x[i], t);
    assert Col(a.x, p.horizon, t) == Col(b.x, p.horizon, t);
    assert CpCol(p, a, cp, t) == CpCol(p, b, cp, t);
  }

  lemma FillStepGrows(p: Problem, s: State, order: seq<nat>, t: nat, k: nat)
    requires p.Valid() && Good(p, s) && Indices(p, order) && k < |order| && t < p.horizon
    ensures Good(p, FillSlot(p, s, order, t, k))
    ensures Grows(p, FillSlot(p, s, order, t, k), FillSlot(p, s, order, t, k + 1), t)
  {
    FillSlotGood(p, s, order, t, k);
    GiveGrows(p, FillSlot(p, s, order, t, k), order[k], t, p.loads[order[k]].capKwh);
  }

  /** A vehicle still hungry after a slot of its window has used that slot up. */
  lemma {:induction false} HungrySlotUsed(p: Problem, s: State, order: seq<nat>, t: nat, j: nat, k: nat)
    requires p.Valid() && Good(p, s) && Indices(p, order) && j < k <= |order| && t < p.horizon
    requires p.InWindow(order[j], t) && FillSlot(p, s, order, t, k).need[order[j]] > p.eps
    ensures UsedUp(p, FillSlot(p, s, order, t, k), order[j], t)
    decreases k
  {
    FillStepGrows(p, s, order, t, k - 1);
    var m := FillSlot(p, s, order, t, k - 1);
    if j == k - 1 {
      HungryGive(p, m, order[j], t);
    } else {
      HungrySlotUsed(p, s, order, t, j, k - 1);
      GrowthKeepsUsed(p, m, FillSlot(p, s, order, t, k), t, order[j]);
    }
  }

  lemma {:induction false} LaterSlotUsed(p: Problem, s: State, order: seq<nat>, t: nat, later: nat, k: nat, i: nat)
    requires p.Valid() && Good(p, s) && Indices(p, order) && k <= |order| && t < later < p.horizon && i < |p.loads|
    requires UsedUp(p, s, i, t)
    ensures UsedUp(p, FillSlot(p, s, order, later, k), i, t)
    decreases k
  {
    if k > 0 {
      LaterSlotUsed(p, s, order, t, later, k - 1, i);
      FillStepGrows(p, s, order, later, k - 1);
      LaterKeepsUsed(p, FillSlot(p, s, order, later, k - 1), FillSlot(p, s, order, later, k), t, later, i);
    }
  }

  lemma {:induction false} HungryUsed(p: Problem, s: State, order: seq<nat>, t: nat, h: nat, i: nat)
    requires p.Valid() && Good(p, s) && Indices(p, order) && t < h <= p.horizon && i in order
    requires p.InWindow(i, t) && FillPass(p, s, order, h).need[i] > p.eps
    ensures UsedUp(p, FillPass(p, s, order, h), i, t)
    decreases h
  {
    var m := FillPass(p, s, order, h - 1);
    FillPassGood(p, s, order, h - 1);
    if t == h - 1 {
      var j :| 0 <= j < |order| && order[j] == i;
      HungrySlotUsed(p, m, order, t, j, |order|);
    } else {
      FillSlotGood(p, m, order, h - 1, |order|);
      HungryUsed(p, s, order, t, h - 1, i);
      LaterSlotUsed(p, m, order, t, h - 1, |order|, i);
    }
  }

  /** A vehicle the finished plan still owes energy had, when pass 2 was over, taken from every slot that overlaps its
      stay all it could (its nameplate energy, or what its battery accepts), but for a cut-off, or the slot was full. */
  lemma OwedUsedItsStay(r: Request, start: int, i: nat, t: nat)
    requires r.Valid() && GridPoint(start, r.now, r.DtMs()) && i < |r.vehicles| && t < r.horizon
    requires DuringStay(r.vehicles[i], start, r.DtMs(), t) && Solve(Prepare(r)).need[i] > r.eps
    ensures UsedUp(Prepare(r), AfterFill(Prepare(r)), i, t)
  {
    var p := Prepare(r);
    PrepareValid(r);
    SolveGood(p);
    EdfIs(p);
    WindowIsStay(r, start, i, t);
    HungryUsed(p, AfterFloors(p), Edf(p), t, p.horizon, i);
  }
}
