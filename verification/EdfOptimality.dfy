/** Pass 2 on a site-capped problem: earliest deadline first finds a plan that serves everybody whenever there is
    one. */
module EdfOptimality {
  import opened Reals
  import opened Ordering
  import opened Charging
  import opened Allocator
  import opened Invariants

  /** No promise and no acceptance limit, and neither a connector nor a charge point is tighter than the site. */
  ghost predicate SiteBound(p: Problem) {
    && p.Valid()
    && !p.aware
    && p.siteKwh.Some?
    && (forall i :: 0 <= i < |p.loads| ==> !p.loads[i].floored && p.loads[i].capKwh >= p.siteKwh.value)
    && (forall c :: c in p.cpKwh ==> p.cpKwh[c] >= p.siteKwh.value)
  }

  /** y serves every vehicle's whole need inside its window within the site cap. */
  ghost predicate Serves(p: Problem, y: seq<seq<real>>)
    requires p.siteKwh.Some?
  {
    && |y| == |p.loads| && Rect(y, p.horizon)
    && (forall i, t :: 0 <= i < |y| && 0 <= t < p.horizon ==> y[i][t] >= 0.0 && (y[i][t] != 0.0 ==> p.InWindow(i, t)))
    && (forall t :: 0 <= t < p.horizon ==> Sum(Col(y, p.horizon, t)) <= p.siteKwh.value)
    && (forall i :: 0 <= i < |y| ==> Sum(y[i]) >= p.loads[i].need0)
  }

  ghost predicate Servable(p: Problem)
    requires p.siteKwh.Some?
  {
    exists y :: Serves(p, y)
  }

  // ---- demand that falls due ----

  /** Unserved demand above the cut-off of the vehicles due by slot d. */
  function DueTerms(p: Problem, need: seq<real>, d: int): seq<real>
    requires |need| == |p.loads|
  {
    seq(|need|, i requires 0 <= i < |need| => if p.loads[i].dl <= d then need[i] - p.eps else 0.0)
  }

  function Due(p: Problem, need: seq<real>, d: int): real
    requires |need| == |p.loads|
  {
    Sum(DueTerms(p, need, d))
  }

  /** Whole demand of the vehicles whose window lies inside [a, d). */
  function LateTerms(p: Problem, a: int, d: int): seq<real> {
    seq(|p.loads|, i requires 0 <= i < |p.loads| =>
      if p.loads[i].av >= a && p.loads[i].dl <= d then p.loads[i].need0 else 0.0)
  }

  function Band(c: real, h: nat, a: int, d: int): seq<real> {
    seq(h, t requires 0 <= t < h => if a <= t < d then c else 0.0)
  }

  lemma {:induction false} BandSum(c: real, h: nat, a: int, d: int)
    requires c >= 0.0
    ensures Sum(Band(c, h, a, d)) <= Times(c, d - a)
    ensures h < d ==> Sum(Band(c, h, a, d)) <= Times(c, h - a)
  {
    if h == 0 {
      TimesMonotone(c, d - a, d - a);
      TimesMonotone(c, -a, -a);
    } else {
      assert Band(c, h, a, d)[..h - 1] == Band(c, h - 1, a, d);
      BandSum(c, h - 1, a, d);
      TimesMonotone(c, h - 1 - a, h - a);
      TimesMonotone(c, h - a, if h < d then d - a else h - a);
    }
  }

  function Masked(p: Problem, y: seq<seq<real>>, a: int, d: int): seq<seq<real>>
    requires |y| == |p.loads|
  {
    seq(|y|, i requires 0 <= i < |y| =>
      if p.loads[i].av >= a && p.loads[i].dl <= d then y[i] else seq(p.horizon, _ => 0.0))
  }

  lemma MaskedColumn(p: Problem, y: seq<seq<real>>, a: int, d: int, t: nat)
    requires p.Valid() && p.siteKwh.Some? && Serves(p, y) && t < p.horizon
    ensures Rect(Masked(p, y, a, d), p.horizon)
    ensures Sum(Col(Masked(p, y, a, d), p.horizon, t)) <= Band(p.siteKwh.value, p.horizon, a, d)[t]
  {
    var z := Masked(p, y, a, d);
    SumMono(Col(z, p.horizon, t), Col(y, p.horizon, t));
    if !(a <= t < d) {
      SumZero(Col(z, p.horizon, t));
    }
  }

  lemma MaskedRow(p: Problem, y: seq<seq<real>>, a: int, d: int, i: nat)
    requires p.Valid() && p.siteKwh.Some? && Serves(p, y) && i < |p.loads|
    ensures LateTerms(p, a, d)[i] <= RowSums(Masked(p, y, a, d))[i]
  {
    SumZero(seq(p.horizon, _ => 0.0));
  }

  /** If anything serves everybody, the demand confined to [a, d) fits into d - a slots. */
  lemma DemandFits(p: Problem, y: seq<seq<real>>, a: int, d: int)
    requires p.Valid() && p.siteKwh.Some? && Serves(p, y)
    ensures Sum(LateTerms(p, a, d)) <= Times(p.siteKwh.value, d - a)
  {
    var z := Masked(p, y, a, d);
    var h := p.horizon;
    var band := Band(p.siteKwh.value, h, a, d);
    forall i | 0 <= i < |z| ensures LateTerms(p, a, d)[i] <= RowSums(z)[i] {
      MaskedRow(p, y, a, d, i);
    }
    SumMono(LateTerms(p, a, d), RowSums(z));
    SumExchange(z, h);
    forall t | 0 <= t < h ensures ColSums(z, h)[t] <= band[t] {
      MaskedColumn(p, y, a, d, t);
    }
    SumMono(ColSums(z, h), band);
    BandSum(p.siteKwh.value, h, a, d);
  }

  // ---- one slot of the fill ----

  /** Slot t is untouched. */
  ghost predicate EmptyFrom(p: Problem, s: State, t: nat)
    requires Shaped(p, s)
  {
    forall i, u :: 0 <= i < |p.loads| && t <= u < p.horizon ==> s.x[i][u] == 0.0
  }

  lemma EmptySlot(p: Problem, s: State, t: nat)
    requires Shaped(p, s) && EmptyFrom(p, s, t) && t < p.horizon
    ensures SumSite(p, s, t) == 0.0
  {
    forall i | 0 <= i < |p.loads| ensures Col(s.x, p.horizon, t)[i] == 0.0 {
      assert s.x[i][t] == 0.0;
    }
    SumZero(Col(s.x, p.horizon, t));
  }

  lemma CpWithinSite(p: Problem, s: State, cp: int, t: nat)
    requires p.Valid() && Good(p, s) && t < p.horizon
    ensures SumCp(p, s, cp, t) <= SumSite(p, s, t)
  {
    forall i | 0 <= i < |p.loads| ensures CpCol(p, s, cp, t)[i] <= Col(s.x, p.horizon, t)[i] {
      assert RowGood(p, s, i);
    }
    SumMono(CpCol(p, s, cp, t), Col(s.x, p.horizon, t));
  }

  /** The room of a site-bound problem is exactly what the site cap leaves. */
  lemma SiteRoom(p: Problem, s: State, i: nat, t: nat)
    requires SiteBound(p) && Good(p, s) && i < |p.loads| && t < p.horizon
    ensures RoomAt(p, s, t, p.loads[i].cpId) == Some(p.siteKwh.value - SumSite(p, s, t))
  {
    CpWithinSite(p, s, p.loads[i].cpId, t);
    assert Fits(p, s, t);
  }

  /** A vehicle still hungry after its turn has seen the slot full (to within the cut-off). */
  lemma HungryMeansFull(p: Problem, s: State, i: nat, t: nat)
    requires SiteBound(p) && Good(p, s) && i < |p.loads| && t < p.horizon && p.InWindow(i, t)
    requires s.need[i] > p.eps && Give(p, s, i, t, p.loads[i].capKwh).need[i] > p.eps
    ensures SumSite(p, Give(p, s, i, t, p.loads[i].capKwh), t) >= p.siteKwh.value - p.eps
  {
    SiteRoom(p, s, i, t);
    CpWithinSite(p, s, p.loads[i].cpId, t);
    forall j | 0 <= j < |p.loads| ensures Col(s.x, p.horizon, t)[j] >= 0.0 {
      assert RowGood(p, s, j);
    }
    SumNonneg(Col(s.x, p.horizon, t));
    var r := Give(p, s, i, t, p.loads[i].capKwh);
    var d := GiveAmount(p, s, i, t, p.loads[i].capKwh);
    if d > p.eps {
      CellSums(p, s, r, i, t, d);
    }
  }

  lemma DueUpdate(p: Problem, need: seq<real>, i: nat, v: real, d: int)
    requires |need| == |p.loads| && i < |need|
    ensures Due(p, need[i := v], d) == Due(p, need, d) + if p.loads[i].dl <= d then v - need[i] else 0.0
  {
    var terms := DueTerms(p, need, d);
    if p.loads[i].dl <= d {
      assert DueTerms(p, need[i := v], d) == terms[i := v - p.eps];
      SumUpdate(terms, i, v - p.eps);
    } else {
      assert DueTerms(p, need[i := v], d) == terms;
    }
  }

  lemma DueDrops(p: Problem, a: seq<real>, b: seq<real>, d: int)
    requires |a| == |b| == |p.loads|
    requires forall i :: 0 <= i < |a| ==> b[i] <= a[i]
    ensures Due(p, b, d) <= Due(p, a, d)
  {
    SumMono(DueTerms(p, b, d), DueTerms(p, a, d));
  }

  /** What a vehicle due by d gets in slot t comes off the demand due by d. */
  lemma TurnPaysDue(p: Problem, m: State, i: nat, t: nat, d: int)
    requires p.Valid() && Shaped(p, m) && i < |p.loads| && t < p.horizon && p.loads[i].dl <= d
    ensures var r := Give(p, m, i, t, p.loads[i].capKwh);
            Due(p, r.need, d) == Due(p, m.need, d) - (SumSite(p, r, t) - SumSite(p, m, t))
  {
    var r := Give(p, m, i, t, p.loads[i].capKwh);
    if r != m {
      var amount := GiveAmount(p, m, i, t, p.loads[i].capKwh);
      CellSums(p, m, r, i, t, amount);
      DueUpdate(p, m.need, i, m.need[i] - amount, d);
    }
  }

  /** While every vehicle served so far is due by d, the energy put into slot t comes off the demand due by d. */
  lemma {:induction false} SlotPaysDue(p: Problem, s: State, order: seq<nat>, t: nat, k: nat, d: int)
    requires p.Valid() && Good(p, s) && Indices(p, order) && k <= |order| && t < p.horizon
    requires forall j :: 0 <= j < k ==> p.loads[order[j]].dl <= d
    ensures var r := FillSlot(p, s, order, t, k);
            Due(p, r.need, d) == Due(p, s.need, d) - (SumSite(p, r, t) - SumSite(p, s, t))
    decreases k
  {
    if k > 0 {
      SlotPaysDue(p, s, order, t, k - 1, d);
      FillSlotGood(p, s, order, t, k - 1);
      var m := FillSlot(p, s, order, t, k - 1);
      var i := order[k - 1];
      var r := FillSlot(p, s, order, t, k);
      if r != m {
        TurnPaysDue(p, m, i, t, d);
      }
    }
  }

  /** Later turns of a slot only lower needs and never change the row of a vehicle that already had its turn. */
  lemma {:induction false} LaterTurns(p: Problem, s: State, order: seq<nat>, t: nat, j: nat, k: nat)
    requires p.Valid() && Good(p, s) && Indices(p, order) && j <= k <= |order| && t < p.horizon
    ensures NeedDrops(p, FillSlot(p, s, order, t, j), FillSlot(p, s, order, t, k))
    decreases k
  {
    if j < k {
      LaterTurns(p, s, order, t, j, k - 1);
      FillSlotGood(p, s, order, t, k - 1);
      GiveGood(p, FillSlot(p, s, order, t, k - 1), order[k - 1], t, p.loads[order[k - 1]].capKwh);
    }
  }

  /** What a slot leaves alone: vehicles outside their window keep their need, and later slots stay empty. */
  lemma {:induction false} SlotLeaves(p: Problem, s: State, order: seq<nat>, t: nat, k: nat)
    requires p.Valid() && Good(p, s) && Indices(p, order) && k <= |order| && t < p.horizon && EmptyFrom(p, s, t)
    ensures var r := FillSlot(p, s, order, t, k);
            && EmptyFrom(p, r, t + 1)
            && (forall i :: 0 <= i < |p.loads| && !p.InWindow(i, t) ==> r.need[i] == s.need[i])
    decreases k
  {
    if k > 0 {
      SlotLeaves(p, s, order, t, k - 1);
    }
  }

  /** Every vehicle once, nobody before a vehicle that is due earlier. */
  ghost predicate ByDeadline(p: Problem, order: seq<nat>) {
    && Indices(p, order)
    && (forall i :: 0 <= i < |p.loads| ==> i in order)
    && (forall j, k :: 0 <= j <= k < |order| ==> p.loads[order[j]].dl <= p.loads[order[k]].dl)
  }

  lemma EdfByDeadline(p: Problem)
    requires p.Prepared()
    ensures ByDeadline(p, Edf(p))
  {
    var keys := EdfKeys(p);
    SortIsPermutation(keys, |p.loads|);
    SortBySorts(keys, Upto(|p.loads|));
    SortedByDeadline(p, keys, Edf(p));
  }

  lemma SortedByDeadline(p: Problem, keys: seq<Key>, order: seq<nat>)
    requires p.Prepared() && keys == EdfKeys(p) && InRange(keys, order) && Sorted(keys, order)
    ensures forall j, k :: 0 <= j <= k < |order| ==> p.loads[order[j]].dl <= p.loads[order[k]].dl
  {
    forall j, k | 0 <= j <= k < |order| ensures p.loads[order[j]].dl <= p.loads[order[k]].dl {
      assert j < k ==> Before(keys[order[j]], keys[order[k]]);
    }
  }

  /** If the vehicle at position k ends the slot hungry, the slot was full (to within the cut-off) after its turn. */
  lemma FullAfterTurn(p: Problem, s: State, order: seq<nat>, t: nat, k: nat) returns (mid: State)
    requires SiteBound(p) && Good(p, s) && Indices(p, order) && k < |order| && t < p.horizon
    requires p.InWindow(order[k], t)
    requires FillSlot(p, s, order, t, |order|).need[order[k]] > p.eps
    ensures mid == FillSlot(p, s, order, t, k + 1) && SumSite(p, mid, t) >= p.siteKwh.value - p.eps
    ensures NeedDrops(p, mid, FillSlot(p, s, order, t, |order|))
  {
    var i := order[k];
    var m := FillSlot(p, s, order, t, k);
    FillSlotGood(p, s, order, t, k);
    LaterTurns(p, s, order, t, k + 1, |order|);
    GiveGood(p, m, i, t, p.loads[i].capKwh);
    HungryMeansFull(p, m, i, t);
    mid := FillSlot(p, s, order, t, k + 1);
  }

  lemma FullSlotPays(p: Problem, s: State, order: seq<nat>, t: nat, k: nat, d: int, mid: State)
    requires SiteBound(p) && Good(p, s) && EmptyFrom(p, s, t) && t < p.horizon && Indices(p, order) && k <= |order|
    requires forall j :: 0 <= j < k ==> p.loads[order[j]].dl <= d
    requires mid == FillSlot(p, s, order, t, k) && SumSite(p, mid, t) >= p.siteKwh.value - p.eps
    ensures Due(p, mid.need, d) <= Due(p, s.need, d) - p.siteKwh.value + p.eps
  {
    SlotPaysDue(p, s, order, t, k, d);
    EmptySlot(p, s, t);
  }

  /** The needs after that turn. */
  lemma FullTurnPays(p: Problem, s: State, order: seq<nat>, t: nat, k: nat, d: int) returns (after: seq<real>)
    requires SiteBound(p) && Good(p, s) && EmptyFrom(p, s, t) && t < p.horizon
    requires Indices(p, order) && k < |order| && p.InWindow(order[k], t)
    requires forall j :: 0 <= j <= k ==> p.loads[order[j]].dl <= d
    requires FillSlot(p, s, order, t, |order|).need[order[k]] > p.eps
    ensures |after| == |p.loads| && Due(p, after, d) <= Due(p, s.need, d) - p.siteKwh.value + p.eps
    ensures forall j :: 0 <= j < |p.loads| ==> FillSlot(p, s, order, t, |order|).need[j] <= after[j]
  {
    var mid := FullAfterTurn(p, s, order, t, k);
    FullSlotPays(p, s, order, t, k + 1, d, mid);
    after := mid.need;
  }

  /** If somebody due by d is left hungry, the whole slot went to demand due by d. */
  lemma HungrySlot(p: Problem, s: State, order: seq<nat>, t: nat, k: nat, d: int)
    requires SiteBound(p) && Good(p, s) && EmptyFrom(p, s, t) && t < p.horizon
    requires Indices(p, order) && k < |order| && p.InWindow(order[k], t)
    requires forall j :: 0 <= j <= k ==> p.loads[order[j]].dl <= d
    requires FillSlot(p, s, order, t, |order|).need[order[k]] > p.eps
    ensures Due(p, FillSlot(p, s, order, t, |order|).need, d) <= Due(p, s.need, d) - p.siteKwh.value + p.eps
  {
    var after := FullTurnPays(p, s, order, t, k, d);
    DueDrops(p, after, FillSlot(p, s, order, t, |order|).need, d);
  }

  // ---- the whole fill ----

  /** The demand due by any slot d, above the cut-offs, fits into the slots still to come. */
  ghost predicate OnTrack(p: Problem, s: State, t: nat)
    requires Shaped(p, s) && p.siteKwh.Some?
  {
    && EmptyFrom(p, s, t)
    && (forall i :: 0 <= i < |p.loads| && p.loads[i].av >= t ==> s.need[i] == p.loads[i].need0)
    && (forall d: int :: Due(p, s.need, d) <= Times(p.siteKwh.value, d - t) + Times(p.eps, t))
  }

  /** Demand that was already due does not change any more. */
  lemma PastSlot(p: Problem, s: State, r: State, t: nat, d: int)
    requires SiteBound(p) && Shaped(p, s) && Shaped(p, r) && OnTrack(p, s, t) && d <= t
    requires forall i :: 0 <= i < |p.loads| && !p.InWindow(i, t) ==> r.need[i] == s.need[i]
    ensures Due(p, r.need, d) <= Times(p.siteKwh.value, d - (t + 1)) + Times(p.eps, t + 1)
  {
    assert DueTerms(p, r.need, d) == DueTerms(p, s.need, d);
    assert Due(p, s.need, d) <= Times(p.siteKwh.value, d - t) + Times(p.eps, t);
    TimesMonotone(p.eps, t, t + 1);
  }

  /** When nobody in its window and due by d stays hungry, what is due by d is old or has not arrived yet. */
  lemma CalmSlot(p: Problem, y: seq<seq<real>>, s: State, r: State, t: nat, d: int)
    requires SiteBound(p) && Serves(p, y) && Shaped(p, s) && Shaped(p, r) && OnTrack(p, s, t) && d > t
    requires forall i :: 0 <= i < |p.loads| && !p.InWindow(i, t) ==> r.need[i] == s.need[i]
    requires forall i :: 0 <= i < |p.loads| && p.InWindow(i, t) && p.loads[i].dl <= d ==> r.need[i] <= p.eps
    ensures Due(p, r.need, d) <= Times(p.siteKwh.value, d - (t + 1)) + Times(p.eps, t + 1)
  {
    var past, late := DueTerms(p, s.need, t), LateTerms(p, t + 1, d);
    var both := seq(|p.loads|, i requires 0 <= i < |p.loads| => past[i] + late[i]);
    SumPlus(past, late, both);
    SumMono(DueTerms(p, r.need, d), both);
    DemandFits(p, y, t + 1, d);
    PastDue(p, s, t);
  }

  lemma PastDue(p: Problem, s: State, t: nat)
    requires SiteBound(p) && Shaped(p, s) && OnTrack(p, s, t)
    ensures Due(p, s.need, t) <= Times(p.eps, t) <= Times(p.eps, t + 1)
  {
    var d: int := t;
    assert Due(p, s.need, d) <= Times(p.siteKwh.value, d - t) + Times(p.eps, t);
    TimesMonotone(p.eps, t, t + 1);
  }

  lemma SlotStaysOnTrack(p: Problem, y: seq<seq<real>>, s: State, order: seq<nat>, t: nat, d: int)
    requires SiteBound(p) && Good(p, s) && t < p.horizon && Serves(p, y) && OnTrack(p, s, t) && ByDeadline(p, order)
    ensures var r := FillSlot(p, s, order, t, |order|);
            Due(p, r.need, d) <= Times(p.siteKwh.value, d - (t + 1)) + Times(p.eps, t + 1)
  {
    var r := FillSlot(p, s, order, t, |order|);
    SlotLeaves(p, s, order, t, |order|);
    if d <= t {
      PastSlot(p, s, r, t, d);
    } else if i :| 0 <= i < |p.loads| && p.InWindow(i, t) && p.loads[i].dl <= d && r.need[i] > p.eps {
      assert i in order;
      var k :| 0 <= k < |order| && order[k] == i;
      HungrySlot(p, s, order, t, k, d);
      assert Due(p, s.need, d) <= Times(p.siteKwh.value, d - t) + Times(p.eps, t);
    } else {
      CalmSlot(p, y, s, r, t, d);
    }
  }

  lemma StartsOnTrack(p: Problem, y: seq<seq<real>>)
    requires SiteBound(p) && Serves(p, y)
    ensures OnTrack(p, Initial(p), 0)
  {
    forall d: int ensures Due(p, Initial(p).need, d) <= Times(p.siteKwh.value, d - 0) + Times(p.eps, 0) {
      SumMono(DueTerms(p, Initial(p).need, d), LateTerms(p, 0, d));
      DemandFits(p, y, 0, d);
    }
  }

  lemma StepOnTrack(p: Problem, y: seq<seq<real>>, s: State, order: seq<nat>, t: nat)
    requires SiteBound(p) && Good(p, s) && t < p.horizon && Serves(p, y) && OnTrack(p, s, t) && ByDeadline(p, order)
    ensures OnTrack(p, FillSlot(p, s, order, t, |order|), t + 1)
  {
    SlotLeaves(p, s, order, t, |order|);
    var r := FillSlot(p, s, order, t, |order|);
    forall d: int ensures Due(p, r.need, d) <= Times(p.siteKwh.value, d - (t + 1)) + Times(p.eps, t + 1) {
      SlotStaysOnTrack(p, y, s, order, t, d);
    }
  }

  lemma {:induction false} FillStaysOnTrack(p: Problem, y: seq<seq<real>>, order: seq<nat>, t: nat)
    requires SiteBound(p) && Serves(p, y) && ByDeadline(p, order) && t <= p.horizon
    ensures Good(p, FillPass(p, Initial(p), order, t)) && OnTrack(p, FillPass(p, Initial(p), order, t), t)
    decreases t
  {
    if t == 0 {
      InitialGood(p);
      StartsOnTrack(p, y);
    } else {
      FillStaysOnTrack(p, y, order, t - 1);
      var s := FillPass(p, Initial(p), order, t - 1);
      FillSlotGood(p, s, order, t - 1, |order|);
      StepOnTrack(p, y, s, order, t - 1);
    }
  }

  lemma {:induction false} NoFloorsNoPass(p: Problem, s: State, order: seq<nat>, k: nat)
    requires Shaped(p, s) && Indices(p, order) && k <= |order|
    requires forall i :: 0 <= i < |p.loads| ==> !p.loads[i].floored
    ensures FloorPass(p, s, order, k) == s
  {
    if k > 0 {
      NoFloorsNoPass(p, s, order, k - 1);
    }
  }

  /** Pass 2 leaves a vehicle at most one cut-off per slot and per vehicle whenever anything serves everybody. */
  lemma EdfServes(p: Problem, i: nat)
    requires SiteBound(p) && Servable(p) && i < |p.loads|
    ensures AfterFill(p).need[i] <= Times(p.eps, p.horizon + |p.loads|)
  {
    DueAfterFill(p);
    FillGood(p);
    NeedFromDue(p, AfterFill(p), i);
    TimesPlus(p.eps, p.horizon, |p.loads|);
  }

  lemma FillGood(p: Problem)
    requires p.Valid()
    ensures Good(p, AfterFill(p))
  {
    SolveGood(p);
  }

  lemma DueAfterFill(p: Problem)
    requires SiteBound(p) && Servable(p)
    ensures Due(p, AfterFill(p).need, p.horizon) <= Times(p.eps, p.horizon)
  {
    var y :| Serves(p, y);
    NoFloorsNoPass(p, Initial(p), ById(p), |ById(p)|);
    EdfByDeadline(p);
    FillStaysOnTrack(p, y, Edf(p), p.horizon);
    assert AfterFill(p) == FillPass(p, Initial(p), Edf(p), p.horizon);
  }

  lemma NeedFromDue(p: Problem, s: State, i: nat)
    requires p.Valid() && Good(p, s) && i < |p.loads|
    ensures s.need[i] <= Due(p, s.need, p.horizon) + Times(p.eps, |p.loads|)
  {
    var n := |p.loads|;
    var terms := DueTerms(p, s.need, p.horizon);
    var slack := seq(n, _ => p.eps);
    var above := seq(n, j requires 0 <= j < n => terms[j] + slack[j]);
    SumPlus(terms, slack, above);
    TimesSum(p.eps, n);
    forall j | 0 <= j < n ensures above[j] >= 0.0 {
      assert RowGood(p, s, j);
    }
    SumPick(above, i);
  }

  lemma ServableServed(p: Problem, i: nat)
    requires SiteBound(p) && p.eps == 0.0 && Servable(p) && i < |p.loads|
    ensures AfterFill(p).need[i] == 0.0
  {
    EdfServes(p, i);
    TimesProduct(0.0, p.horizon + |p.loads|);
    FillGood(p);
    assert RowGood(p, AfterFill(p), i);
  }

  /** A plan that leaves no need serves everybody. */
  lemma ServedServable(p: Problem, s: State)
    requires SiteBound(p) && Good(p, s) && forall i :: 0 <= i < |p.loads| ==> s.need[i] == 0.0
    ensures Servable(p)
  {
    forall i | 0 <= i < |p.loads|
      ensures Sum(s.x[i]) == p.loads[i].need0
      ensures forall t :: 0 <= t < p.horizon ==> s.x[i][t] >= 0.0 && (s.x[i][t] != 0.0 ==> p.InWindow(i, t))
    {
      assert RowGood(p, s, i);
    }
    forall t | 0 <= t < p.horizon ensures Sum(Col(s.x, p.horizon, t)) <= p.siteKwh.value {
      assert Fits(p, s, t);
    }
    assert Serves(p, s.x);
  }

  /** With exact arithmetic (no cut-off) pass 2 serves everybody exactly when somebody could. */
  lemma EdfOptimal(p: Problem)
    requires SiteBound(p) && p.eps == 0.0
    ensures Servable(p) <==> forall i :: 0 <= i < |p.loads| ==> AfterFill(p).need[i] == 0.0
    ensures Servable(p) <==> forall i :: 0 <= i < |p.loads| ==> Solve(p).need[i] == 0.0
  {
    SolveGood(p);
    if Servable(p) {
      forall i | 0 <= i < |p.loads| ensures AfterFill(p).need[i] == 0.0 {
        ServableServed(p, i);
      }
    }
    if forall i :: 0 <= i < |p.loads| ==> AfterFill(p).need[i] == 0.0 {
      ServedServable(p, AfterFill(p));
    }
  }
}
