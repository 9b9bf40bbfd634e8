/** Two comparators the controller is measured against: a cost bound and a price-blind deadline fill. */
module Baselines {
  import opened Reals
  import opened Ordering
  import opened Charging
  import opened Allocator
  import opened Invariants
  import opened EdfOptimality
  import opened Offline

  function Price(prices: seq<real>, t: nat): real {
    if t < |prices| then prices[t] else 0.0
  }

  // ---- the cost lower bound: every vehicle fills its cheapest slots, the site cap relaxed away ----

  function Zeros(w: nat): (row: seq<real>)
    ensures |row| == w && forall t :: 0 <= t < w ==> row[t] == 0.0
  {
    seq(w, _ => 0.0)
  }

  /** One vehicle's row while it is being filled, and what it still lacks. */
  datatype Fill = Fill(row: seq<real>, need: real)

  ghost predicate Within(slots: seq<nat>, w: nat) {
    forall k :: 0 <= k < |slots| ==> slots[k] < w
  }

  /** The first k slots of a list get as much as the vehicle can take. */
  function GreedyFill(capKwh: real, eps: real, f: Fill, slots: seq<nat>, k: nat): (r: Fill)
    requires k <= |slots| && Within(slots, |f.row|)
    ensures |r.row| == |f.row|
  {
    if k == 0 then f
    else
      var g := GreedyFill(capKwh, eps, f, slots, k - 1);
      if g.need <= eps then g else Poured(g, slots[k - 1], Min(capKwh, g.need))
  }

  function Poured(f: Fill, slot: nat, amount: real): Fill
    requires slot < |f.row|
  {
    Fill(f.row[slot := f.row[slot] + amount], f.need - amount)
  }

  function Window(av: nat, dl: nat): (slots: seq<nat>)
    ensures |slots| == if av < dl then dl - av else 0
    ensures forall k :: 0 <= k < |slots| ==> slots[k] == av + k
  {
    seq(if av < dl then dl - av else 0, k => av + k)
  }

  function PriceKeys(prices: seq<real>, w: nat): (keys: seq<Key>)
    ensures |keys| == w
  {
    seq(w, t requires 0 <= t < w => (Price(prices, t), t))
  }

  /** The window's slots, cheapest first. */
  function CheapestFirst(prices: seq<real>, av: nat, dl: nat, w: nat): (slots: seq<nat>)
    requires dl <= w
    ensures Within(slots, w)
  {
    SortBy(PriceKeys(prices, w), Window(av, dl))
  }

  function GreedyRow(capKwh: real, eps: real, need: real, prices: seq<real>, av: nat, dl: nat, w: nat): (f: Fill)
    requires dl <= w
    ensures |f.row| == w
  {
    var slots := CheapestFirst(prices, av, dl, w);
    GreedyFill(capKwh, eps, Fill(Zeros(w), need), slots, |slots|)
  }

  lemma {:induction false} GreedyFillDone(capKwh: real, eps: real, f: Fill, slots: seq<nat>, j: nat, k: nat)
    requires j <= k <= |slots| && Within(slots, |f.row|)
    requires GreedyFill(capKwh, eps, f, slots, j).need <= eps
    ensures GreedyFill(capKwh, eps, f, slots, k) == GreedyFill(capKwh, eps, f, slots, j)
    decreases k
  {
    if j < k {
      GreedyFillDone(capKwh, eps, f, slots, j, k - 1);
    }
  }

  /** The nameplate energy of one slot. */
  function PlateKwh(sc: Scenario, g: Guest): real {
    g.v.maxKw * sc.DtH()
  }

  lemma PlateNonneg(sc: Scenario, g: Guest)
    requires sc.dtMin > 0 && g.v.maxKw >= 0.0
    ensures PlateKwh(sc, g) >= 0.0
  {
    TimesMono(0.0, g.v.maxKw, sc.DtH());
  }

  /** One vehicle's turn. */
  method FillCheapest(capKwh: real, eps: real, need0: real, slots: seq<nat>, w: nat) returns (row: seq<real>)
    requires Within(slots, w)
    ensures row == GreedyFill(capKwh, eps, Fill(Zeros(w), need0), slots, |slots|).row
  {
    ghost var f := Fill(Zeros(w), need0);
    row := Zeros(w);
    var need := need0;
    var k := 0;
    while k < |slots| && need > eps
      invariant 0 <= k <= |slots| && |row| == w
      invariant Fill(row, need) == GreedyFill(capKwh, eps, f, slots, k)
    {
      var amount := Min(capKwh, need);
      row := row[slots[k] := row[slots[k]] + amount];
      need := need - amount;
      k := k + 1;
    }
    if k < |slots| {
      GreedyFillDone(capKwh, eps, f, slots, k, |slots|);
    }
  }

  method CostLowerBound(sc: Scenario, eps: real) returns (s: seq<seq<real>>)
    requires forall i :: 0 <= i < |sc.guests| ==> sc.guests[i].deadlineSlot <= sc.horizon
    ensures |s| == |sc.guests|
    ensures forall i :: 0 <= i < |s| ==> s[i] == GuestBound(sc, i, eps).row
  {
    s := [];
    for i := 0 to |sc.guests|
      invariant |s| == i
      invariant forall j :: 0 <= j < i ==> s[j] == GuestBound(sc, j, eps).row
    {
      var g := sc.guests[i];
      var slots := CheapestFirst(sc.prices, g.arrivalSlot, g.deadlineSlot, sc.horizon);
      var row := FillCheapest(PlateKwh(sc, g), eps, g.v.remainingKwh, slots, sc.horizon);
      assert row == GuestBound(sc, i, eps).row;
      s := s + [row];
    }
  }

  function GuestBound(sc: Scenario, i: nat, eps: real): (f: Fill)
    requires i < |sc.guests| && sc.guests[i].deadlineSlot <= sc.horizon
  {
    var g := sc.guests[i];
    GreedyRow(PlateKwh(sc, g), eps, g.v.remainingKwh, sc.prices, g.arrivalSlot, g.deadlineSlot, sc.horizon)
  }

  /** After k slots: the m first are full, slot m is partly filled, and no other slot has anything. */
  ghost predicate Front(f: Fill, slots: seq<nat>, capKwh: real, m: nat)
    requires Within(slots, |f.row|)
  {
    && m <= |slots|
    && (forall j :: 0 <= j < m ==> f.row[slots[j]] == capKwh)
    && (forall t :: 0 <= t < |f.row| ==> 0.0 <= f.row[t] <= capKwh)
    && (forall j :: m < j < |slots| ==> f.row[slots[j]] == 0.0)
    && (forall t: nat :: t < |f.row| && t !in slots ==> f.row[t] == 0.0)
  }

  lemma FrontStep(f: Fill, slots: seq<nat>, capKwh: real, eps: real, k: nat) returns (n: nat, r: Fill)
    requires Within(slots, |f.row|) && Distinct(slots) && k < |slots| && capKwh >= 0.0 && eps >= 0.0
    requires Front(f, slots, capKwh, k) && f.need > eps
    requires forall j :: k <= j < |slots| ==> f.row[slots[j]] == 0.0
    ensures r == Poured(f, slots[k], Min(capKwh, f.need))
    ensures k <= n <= k + 1 && Front(r, slots, capKwh, n) && (n <= k ==> r.need <= eps)
    ensures forall j :: k + 1 <= j < |slots| ==> r.row[slots[j]] == 0.0
  {
    r := Poured(f, slots[k], Min(capKwh, f.need));
    n := if Min(capKwh, f.need) == capKwh then k + 1 else k;
  }

  lemma {:induction false} GreedyFront(capKwh: real, eps: real, f: Fill, slots: seq<nat>, k: nat)
      returns (m: nat, g: Fill)
    requires capKwh >= 0.0 && eps >= 0.0 && k <= |slots| && Within(slots, |f.row|) && Distinct(slots)
    requires forall t :: 0 <= t < |f.row| ==> f.row[t] == 0.0
    ensures g == GreedyFill(capKwh, eps, f, slots, k) && m <= k && Front(g, slots, capKwh, m)
    ensures forall j :: k <= j < |slots| ==> g.row[slots[j]] == 0.0
    ensures m < k ==> g.need <= eps
    decreases k
  {
    if k == 0 {
      m, g := 0, f;
    } else {
      m, g := GreedyFront(capKwh, eps, f, slots, k - 1);
      if g.need > eps {
        m, g := FrontStep(g, slots, capKwh, eps, k - 1);
      }
    }
  }

  lemma PouredSum(f: Fill, slot: nat, amount: real)
    requires slot < |f.row|
    ensures Sum(Poured(f, slot, amount).row) + Poured(f, slot, amount).need == Sum(f.row) + f.need
  {
    SumUpdate(f.row, slot, f.row[slot] + amount);
  }

  lemma {:induction false} GreedyAccounts(capKwh: real, eps: real, f: Fill, slots: seq<nat>, k: nat)
    requires k <= |slots| && Within(slots, |f.row|)
    ensures var r := GreedyFill(capKwh, eps, f, slots, k);
            Sum(r.row) + r.need == Sum(f.row) + f.need
    decreases k
  {
    if k > 0 {
      GreedyAccounts(capKwh, eps, f, slots, k - 1);
      var g := GreedyFill(capKwh, eps, f, slots, k - 1);
      if g.need > eps {
        PouredSum(g, slots[k - 1], Min(capKwh, g.need));
      }
    }
  }

  /** A row another plan might use: the same window and nameplate. */
  ghost predicate Rival(y: seq<real>, capKwh: real, av: nat, dl: nat, w: nat) {
    && |y| == w
    && (forall t :: 0 <= t < w ==> 0.0 <= y[t] <= capKwh)
    && (forall t :: 0 <= t < w && !(av <= t < dl) ==> y[t] == 0.0)
  }

  function Weighted(price: real, kwh: real): real {
    price * kwh
  }

  function Charge(prices: seq<real>, t: nat, kwh: real): real {
    Weighted(Price(prices, t), kwh)
  }

  function Bill(prices: seq<real>, row: seq<real>): seq<real> {
    seq(|row|, t requires 0 <= t < |row| => Charge(prices, t, row[t]))
  }

  /** A row's bill slot by slot: its energy at that slot's price, and nothing past the end of the prices. */
  lemma BillIs(prices: seq<real>, row: seq<real>, t: nat)
    requires t < |row|
    ensures Bill(prices, row)[t] == (if t < |prices| then prices[t] else 0.0) * row[t]
  {
  }

  lemma BillPrefix(prices: seq<real>, row: seq<real>, n: nat)
    requires n <= |row|
    ensures Bill(prices, row)[..n] == Bill(prices, row[..n])
  {
  }

  /** The price of the last slot the greedy row touches separates the slots it fills from those it leaves. */
  ghost predicate Split(prices: seq<real>, x: seq<real>, y: seq<real>, pivot: real, t: nat)
    requires t < |x| == |y|
  {
    && (Price(prices, t) < pivot ==> x[t] >= y[t])
    && (Price(prices, t) > pivot ==> x[t] <= y[t])
  }

  lemma SplitPays(price: real, pivot: real, x: real, y: real)
    requires price < pivot ==> x >= y
    requires price > pivot ==> x <= y
    ensures Weighted(price, x) + Weighted(pivot, y) <= Weighted(price, y) + Weighted(pivot, x)
  {
    if price < pivot {
      TimesMono(0.0, x - y, pivot - price);
      assert (pivot - price) * (x - y) == pivot * x - pivot * y - price * x + price * y;
    } else if price > pivot {
      TimesMono(0.0, y - x, price - pivot);
      assert (price - pivot) * (y - x) == price * y - price * x - pivot * y + pivot * x;
    }
  }

  lemma SplitStep(billX: real, billY: real, sumX: real, sumY: real, price: real, pivot: real, x: real, y: real)
    requires billX - billY <= Weighted(pivot, sumX - sumY)
    requires Weighted(price, x) + Weighted(pivot, y) <= Weighted(price, y) + Weighted(pivot, x)
    ensures (billX + Weighted(price, x)) - (billY + Weighted(price, y)) <= Weighted(pivot, (sumX + x) - (sumY + y))
  {
    assert pivot * ((sumX + x) - (sumY + y)) == pivot * (sumX - sumY) + pivot * x - pivot * y;
  }

  lemma BillLast(prices: seq<real>, row: seq<real>, n: nat)
    requires |row| == n + 1
    ensures Sum(Bill(prices, row)) == Sum(Bill(prices, row[..n])) + Weighted(Price(prices, n), row[n])
    ensures Sum(row) == Sum(row[..n]) + row[n]
  {
    BillPrefix(prices, row, n);
  }

  lemma {:induction false} SplitBills(prices: seq<real>, x: seq<real>, y: seq<real>, pivot: real)
    requires |x| == |y| && forall t :: 0 <= t < |x| ==> Split(prices, x, y, pivot, t)
    ensures Sum(Bill(prices, x)) - Sum(Bill(prices, y)) <= Weighted(pivot, Sum(x) - Sum(y))
  {
    var n := |x| - 1;
    if n < 0 {
      NoDifference(pivot, Sum(x) - Sum(y));
    } else {
      forall t | 0 <= t < n ensures Split(prices, x[..n], y[..n], pivot, t) {
        assert Split(prices, x, y, pivot, t);
      }
      SplitBills(prices, x[..n], y[..n], pivot);
      BillLast(prices, x, n);
      BillLast(prices, y, n);
      assert Split(prices, x, y, pivot, n);
      SplitPays(Price(prices, n), pivot, x[n], y[n]);
      SplitStep(Sum(Bill(prices, x[..n])), Sum(Bill(prices, y[..n])), Sum(x[..n]), Sum(y[..n]), Price(prices, n), pivot,
        x[n], y[n]);
    }
  }

  /** A split makes x the cheaper of two rows with the same total. */
  lemma SplitCheaper(prices: seq<real>, x: seq<real>, y: seq<real>, pivot: real)
    requires |x| == |y| && Sum(x) == Sum(y)
    requires forall t :: 0 <= t < |x| ==> Split(prices, x, y, pivot, t)
    ensures Sum(Bill(prices, x)) <= Sum(Bill(prices, y))
  {
    SplitBills(prices, x, y, pivot);
    NoDifference(pivot, Sum(x) - Sum(y));
  }

  lemma NoDifference(pivot: real, d: real)
    requires d == 0.0
    ensures Weighted(pivot, d) == 0.0
  {
  }

  lemma WindowMembers(prices: seq<real>, av: nat, dl: nat, w: nat)
    requires dl <= w
    ensures forall t: nat :: t in CheapestFirst(prices, av, dl, w) <==> av <= t < dl
  {
    var slots, window := CheapestFirst(prices, av, dl, w), Window(av, dl);
    SortBySorts(PriceKeys(prices, w), window);
    forall t: nat ensures t in slots <==> av <= t < dl {
      assert t in slots <==> t in multiset(slots);
      assert t in window <==> t in multiset(window);
      if av <= t < dl {
        assert window[t - av] == t;
      }
    }
  }

  lemma WindowSorted(prices: seq<real>, av: nat, dl: nat, w: nat)
    requires dl <= w
    ensures var slots := CheapestFirst(prices, av, dl, w);
            && Distinct(slots)
            && (forall t: nat :: t in slots <==> av <= t < dl)
            && (forall i, j :: 0 <= i < j < |slots| ==> Price(prices, slots[i]) <= Price(prices, slots[j]))
  {
    var slots := CheapestFirst(prices, av, dl, w);
    SortBySorts(PriceKeys(prices, w), Window(av, dl));
    WindowMembers(prices, av, dl, w);
    WindowOnce(av, dl);
    MultisetDistinct(slots);
    forall i, j | 0 <= i < j < |slots| ensures Price(prices, slots[i]) <= Price(prices, slots[j]) {
      assert Before(PriceKeys(prices, w)[slots[i]], PriceKeys(prices, w)[slots[j]]);
    }
  }

  lemma {:induction false} WindowOnce(av: nat, dl: nat)
    ensures forall v :: multiset(Window(av, dl))[v] <= 1
    ensures forall v :: v in multiset(Window(av, dl)) ==> v < dl
    decreases dl
  {
    if av < dl {
      WindowOnce(av, dl - 1);
      assert Window(av, dl) == Window(av, dl - 1) + [dl - 1];
    }
  }

  /** What one vehicle's greedy row serves: all it needs, up to the cut-off, or its nameplate in every slot of its
      window. */
  lemma GreedyServes(capKwh: real, eps: real, need: real, prices: seq<real>, av: nat, dl: nat, w: nat)
    requires capKwh >= 0.0 && eps >= 0.0 && dl <= w
    ensures var f := GreedyRow(capKwh, eps, need, prices, av, dl, w);
            && Rival(f.row, capKwh, av, dl, w) && Sum(f.row) + f.need == need
            && (f.need <= eps || forall t :: av <= t < dl ==> f.row[t] == capKwh)
  {
    var slots := CheapestFirst(prices, av, dl, w);
    WindowSorted(prices, av, dl, w);
    var zero := Fill(Zeros(w), need);
    var m, filled := GreedyFront(capKwh, eps, zero, slots, |slots|);
    SumZero(zero.row);
    GreedyAccounts(capKwh, eps, zero, slots, |slots|);
    var f := GreedyRow(capKwh, eps, need, prices, av, dl, w);
    if f.need > eps {
      forall t | av <= t < dl ensures f.row[t] == capKwh {
        assert t in slots;
      }
    }
  }

  /** For arbitrary prices, no row with the same energy, window and nameplate costs less. */
  lemma GreedyOptimal(capKwh: real, eps: real, need: real, prices: seq<real>, av: nat, dl: nat, w: nat, y: seq<real>)
    requires capKwh >= 0.0 && eps >= 0.0 && dl <= w && Rival(y, capKwh, av, dl, w)
    requires Sum(y) == Sum(GreedyRow(capKwh, eps, need, prices, av, dl, w).row)
    ensures Sum(Bill(prices, GreedyRow(capKwh, eps, need, prices, av, dl, w).row)) <= Sum(Bill(prices, y))
  {
    var slots := CheapestFirst(prices, av, dl, w);
    WindowSorted(prices, av, dl, w);
    var f := GreedyRow(capKwh, eps, need, prices, av, dl, w);
    var m, filled := GreedyFront(capKwh, eps, Fill(Zeros(w), need), slots, |slots|);
    var pivot := if m < |slots| then Price(prices, slots[m]) else if slots == [] then 0.0
      else Price(prices, slots[m - 1]);
    forall t | 0 <= t < w ensures Split(prices, f.row, y, pivot, t) {
      if av <= t < dl {
        assert (t as nat) in slots;
        var j :| 0 <= j < |slots| && slots[j] == t;
      }
    }
    SplitCheaper(prices, f.row, y, pivot);
  }

  function BillTotals(prices: seq<real>, s: seq<seq<real>>): seq<real> {
    seq(|s|, i requires 0 <= i < |s| => Sum(Bill(prices, s[i])))
  }

  lemma GuestBoundIsLower(sc: Scenario, i: nat, eps: real, y: seq<real>)
    requires sc.dtMin > 0 && eps >= 0.0 && i < |sc.guests|
    requires sc.guests[i].deadlineSlot <= sc.horizon && sc.guests[i].v.maxKw >= 0.0
    requires Comparable(sc, i, GuestBound(sc, i, eps).row, y)
    ensures Sum(Bill(sc.prices, GuestBound(sc, i, eps).row)) <= Sum(Bill(sc.prices, y))
  {
    var g := sc.guests[i];
    PlateNonneg(sc, g);
    GreedyOptimal(PlateKwh(sc, g), eps, g.v.remainingKwh, sc.prices, g.arrivalSlot, g.deadlineSlot, sc.horizon, y);
  }

  /** The whole bound: any schedule that serves every vehicle the same energy within the same windows and nameplates
      costs at least as much, with or without a site cap. */
  lemma BoundIsLower(sc: Scenario, eps: real, s: seq<seq<real>>, y: seq<seq<real>>)
    requires sc.dtMin > 0 && eps >= 0.0 && |s| == |y| == |sc.guests|
    requires forall i :: 0 <= i < |sc.guests| ==> sc.guests[i].deadlineSlot <= sc.horizon && sc.guests[i].v.maxKw >= 0.0
    requires forall i :: 0 <= i < |s| ==> s[i] == GuestBound(sc, i, eps).row
    requires forall i :: 0 <= i < |s| ==> Comparable(sc, i, s[i], y[i])
    ensures Sum(BillTotals(sc.prices, s)) <= Sum(BillTotals(sc.prices, y))
  {
    forall i | 0 <= i < |s| ensures BillTotals(sc.prices, s)[i] <= BillTotals(sc.prices, y)[i] {
      assert Comparable(sc, i, s[i], y[i]);
      GuestBoundIsLower(sc, i, eps, y[i]);
    }
    SumMono(BillTotals(sc.prices, s), BillTotals(sc.prices, y));
  }

  /** y is a row vehicle i could have been given, with exactly the energy of x. */
  ghost predicate Comparable(sc: Scenario, i: nat, x: seq<real>, y: seq<real>)
    requires i < |sc.guests|
  {
    var g := sc.guests[i];
    Rival(y, PlateKwh(sc, g), g.arrivalSlot, g.deadlineSlot, sc.horizon) && Sum(y) == Sum(x)
  }

  // ---- earliest deadline first, price-blind: the controller without its price pass ----

  /** The scenario as the allocator would see it with no floors, no batteries and no charge-point caps. */
  function PriceBlind(sc: Scenario, eps: real, tiny: real): Problem {
    Problem(
      seq(|sc.guests|, i requires 0 <= i < |sc.guests| => PlainLoad(sc, sc.guests[i])),
      Some(SiteKwh(sc)), map[], sc.prices, sc.horizon, false, eps, tiny)
  }

  function PlainLoad(sc: Scenario, g: Guest): Load {
    Load(g.v.sessionId, g.v.cpId, PlateKwh(sc, g), false, 0.0, g.arrivalSlot, g.deadlineSlot,
      Max(0.0, g.v.remainingKwh), None)
  }

  function SiteKwh(sc: Scenario): real {
    sc.siteCapKw * sc.DtH()
  }

  ghost predicate Framed(sc: Scenario) {
    sc.dtMin > 0 && forall i ::
      0 <= i < |sc.guests| ==> sc.guests[i].deadlineSlot <= sc.horizon && sc.guests[i].v.maxKw >= 0.0
  }

  /** The loop's variables against the allocator's state: the same schedule and the same needs (a negative need counts
      as none). */
  ghost predicate Mirrors(p: Problem, s: seq<seq<real>>, need: seq<real>, m: State) {
    Shaped(p, m) && s == m.x && |need| == |m.need| && forall i :: 0 <= i < |need| ==> m.need[i] == Max(0.0, need[i])
  }

  ghost predicate EmptyAfter(s: seq<seq<real>>, w: nat, t: nat)
    requires Rect(s, w)
  {
    forall i, u :: 0 <= i < |s| && t <= u < w ==> s[i][u] == 0.0
  }

  /** What the baseline gives is what the allocator's single writer gives. */
  lemma SameAmount(sc: Scenario, eps: real, tiny: real, m: State, need: seq<real>, i: nat, t: nat, used: real)
    requires Framed(sc) && eps >= 0.0 && Mirrors(PriceBlind(sc, eps, tiny), m.x, need, m)
    requires i < |sc.guests| && t < sc.horizon && need[i] > eps && used == SumSite(PriceBlind(sc, eps, tiny), m, t)
    ensures GiveAmount(PriceBlind(sc, eps, tiny), m, i, t, PlateKwh(sc, sc.guests[i]))
            == Max(0.0, Min(Min(PlateKwh(sc, sc.guests[i]), SiteKwh(sc) - used), need[i]))
  {
    PlateNonneg(sc, sc.guests[i]);
    assert RoomAt(PriceBlind(sc, eps, tiny), m, t, sc.guests[i].v.cpId) == Some(Max(0.0, SiteKwh(sc) - used));
  }

  lemma AddTracks(p: Problem, m: State, i: nat, t: nat, amount: real)
    requires Shaped(p, m) && i < |p.loads| && t < p.horizon
    ensures SumSite(p, Add(p, m, i, t, amount), t) == SumSite(p, m, t) + amount
  {
    CellSums(p, m, Add(p, m, i, t, amount), i, t, amount);
  }

  /** Giving an amount keeps the loop's variables in step with the allocator's state. */
  lemma MirrorStep(p: Problem, s: seq<seq<real>>, need: seq<real>, m: State, i: nat, t: nat, amount: real)
    requires Mirrors(p, s, need, m) && i < |p.loads| && t < p.horizon && 0.0 <= amount <= need[i]
    requires EmptyAfter(s, p.horizon, t + 1)
    ensures var r := Add(p, m, i, t, amount);
            && Mirrors(p, s[i := s[i][t := s[i][t] + amount]], need[i := need[i] - amount], r)
            && EmptyAfter(r.x, p.horizon, t + 1)
            && SumSite(p, r, t) == SumSite(p, m, t) + amount
  {
    AddTracks(p, m, i, t, amount);
  }

  /** One vehicle in one slot. */
  method EdfTurn(sc: Scenario, eps: real, ghost tiny: real, i: nat, t: nat, s0: seq<seq<real>>, need0: seq<real>,
      used0: real, ghost m: State)
    returns (s: seq<seq<real>>, need: seq<real>, used: real)
    requires Framed(sc) && eps >= 0.0 && t < sc.horizon && i < |sc.guests|
    requires Mirrors(PriceBlind(sc, eps, tiny), s0, need0, m) && EmptyAfter(s0, sc.horizon, t + 1)
    requires used0 == SumSite(PriceBlind(sc, eps, tiny), m, t)
    ensures var p := PriceBlind(sc, eps, tiny);
            var r := if p.InWindow(i, t) && m.need[i] > eps then Give(p, m, i, t, PlateKwh(sc, sc.guests[i])) else m;
            Mirrors(p, s, need, r) && EmptyAfter(s, sc.horizon, t + 1) && used == SumSite(p, r, t)
  {
    var g := sc.guests[i];
    s, need, used := s0, need0, used0;
    if g.arrivalSlot <= t < g.deadlineSlot && need[i] > eps {
      var amount := Max(0.0, Min(Min(PlateKwh(sc, g), SiteKwh(sc) - used), need[i]));
      SameAmount(sc, eps, tiny, m, need, i, t, used);
      MirrorStep(PriceBlind(sc, eps, tiny), s, need, m, i, t, amount);
      if amount > eps {
        s := s[i := s[i][t := s[i][t] + amount]];
        need := need[i := need[i] - amount];
        used := used + amount;
      }
    }
  }

  /** One slot: in deadline order, until the site cap is used up. */
  method EdfSlot(sc: Scenario, eps: real, ghost tiny: real, edf: seq<nat>, t: nat, s0: seq<seq<real>>, need0: seq<real>,
                 ghost m0: State)
    returns (s: seq<seq<real>>, need: seq<real>)
    requires Framed(sc) && eps >= 0.0 && t < sc.horizon && Indices(PriceBlind(sc, eps, tiny), edf)
    requires Mirrors(PriceBlind(sc, eps, tiny), s0, need0, m0) && EmptyAfter(s0, sc.horizon, t)
    ensures Mirrors(PriceBlind(sc, eps, tiny), s, need, FillSlot(PriceBlind(sc, eps, tiny), m0, edf, t, |edf|))
    ensures EmptyAfter(s, sc.horizon, t + 1)
  {
    ghost var p := PriceBlind(sc, eps, tiny);
    s, need := s0, need0;
    var used := 0.0;
    SumZero(Col(m0.x, p.horizon, t));
    for k := 0 to |edf|
      invariant Mirrors(p, s, need, FillSlot(p, m0, edf, t, k)) && EmptyAfter(s, sc.horizon, t + 1)
      invariant used == SumSite(p, FillSlot(p, m0, edf, t, k), t)
    {
      s, need, used := EdfTurn(sc, eps, tiny, edf[k], t, s, need, used, FillSlot(p, m0, edf, t, k));
    }
  }

  /** The price-blind baseline is exactly the controller's plan before its price pass. */
  method PriceGreedyEdf(sc: Scenario, eps: real, ghost tiny: real) returns (s: seq<seq<real>>)
    requires Framed(sc) && eps >= 0.0
    ensures PriceBlind(sc, eps, tiny).Prepared() && s == AfterFill(PriceBlind(sc, eps, tiny)).x
  {
    ghost var p := PriceBlind(sc, eps, tiny);
    s := seq(|sc.guests|, _ => Zeros(sc.horizon));
    var need := seq(|sc.guests|, i requires 0 <= i < |sc.guests| => sc.guests[i].v.remainingKwh);
    var edf := SortBy(seq(|sc.guests|, i requires 0 <= i < |sc.guests| =>
      (sc.guests[i].deadlineSlot as real, sc.guests[i].v.sessionId)),
                      Upto(|sc.guests|));
    assert Initial(p).x == s;
    assert edf == Edf(p) by {
      assert EdfKeys(p) == seq(|sc.guests|, i requires 0 <= i < |sc.guests| =>
        (sc.guests[i].deadlineSlot as real, sc.guests[i].v.sessionId));
    }
    for t := 0 to sc.horizon
      invariant Mirrors(p, s, need, FillPass(p, Initial(p), edf, t)) && EmptyAfter(s, sc.horizon, t)
    {
      s, need := EdfSlot(sc, eps, tiny, edf, t, s, need, FillPass(p, Initial(p), edf, t));
    }
    NoFloorsNoPass(p, Initial(p), ById(p), |ById(p)|);
  }

  /** So whatever the controller saves over this baseline comes from prices alone: both give every vehicle the same
      energy, and the controller's plan is the baseline's or strictly cheaper. */
  lemma SavingIsPricing(sc: Scenario, eps: real, tiny: real)
    requires PriceBlind(sc, eps, tiny).Valid()
    ensures var p := PriceBlind(sc, eps, tiny);
            && Solve(p).need == AfterFill(p).need
            && (Solve(p) == AfterFill(p) || Cost(p, Solve(p)) < Cost(p, AfterFill(p)))
            && forall i :: 0 <= i < |p.loads| ==> Sum(Solve(p).x[i]) == Sum(AfterFill(p).x[i])
  {
    var p := PriceBlind(sc, eps, tiny);
    SolveGood(p);
    forall i | 0 <= i < |p.loads| ensures Sum(Solve(p).x[i]) == Sum(AfterFill(p).x[i]) {
      assert RowGood(p, Solve(p), i) && RowGood(p, AfterFill(p), i);
    }
  }
}
