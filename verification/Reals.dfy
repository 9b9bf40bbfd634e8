/** Exact real arithmetic shared by every component: sums of series and of matrices, and decimal rounding. */
module Reals {
  datatype Option<+T> = None | Some(value: T)

  function Min(a: real, b: real): real {
    if a <= b then a else b
  }

  function Max(a: real, b: real): real {
    if a >= b then a else b
  }

  /** `a` limited by a headroom in which `None` stands for an absent (infinite) cap. */
  function Limit(a: real, room: Option<real>): real {
    if room.None? then a else Min(a, room.value)
  }

  function Sum(a: seq<real>): real {
    if a == [] then 0.0 else Sum(a[..|a| - 1]) + a[|a| - 1]
  }

  lemma SumPush(a: seq<real>, v: real)
    ensures Sum(a + [v]) == Sum(a) + v
  {
    assert (a + [v])[..|a|] == a;
  }

  lemma {:induction false} SumUpdate(a: seq<real>, i: nat, v: real)
    requires i < |a|
    ensures Sum(a[i := v]) == Sum(a) - a[i] + v
  {
    var n := |a| - 1;
    if i == n {
      assert a[i := v][..n] == a[..n];
    } else {
      assert a[i := v][..n] == a[..n][i := v];
      SumUpdate(a[..n], i, v);
    }
  }

  lemma {:induction false} SumMono(a: seq<real>, b: seq<real>)
    requires |a| == |b|
    requires forall i :: 0 <= i < |a| ==> a[i] <= b[i]
    ensures Sum(a) <= Sum(b)
  {
    if a != [] {
      SumMono(a[..|a| - 1], b[..|b| - 1]);
    }
  }

  lemma {:induction false} SumPlus(a: seq<real>, b: seq<real>, c: seq<real>)
    requires |a| == |b| == |c|
    requires forall i :: 0 <= i < |a| ==> c[i] == a[i] + b[i]
    ensures Sum(c) == Sum(a) + Sum(b)
  {
    if a != [] {
      SumPlus(a[..|a| - 1], b[..|b| - 1], c[..|c| - 1]);
    }
  }

  lemma {:induction false} SumScaled(a: seq<real>, b: seq<real>, k: real)
    requires |a| == |b|
    requires forall i :: 0 <= i < |a| ==> b[i] == k * a[i]
    ensures Sum(b) == k * Sum(a)
  {
    if a != [] {
      SumScaled(a[..|a| - 1], b[..|b| - 1], k);
    }
  }

  lemma {:induction false} SumZero(a: seq<real>)
    requires forall i :: 0 <= i < |a| ==> a[i] == 0.0
    ensures Sum(a) == 0.0
  {
    if a != [] {
      SumZero(a[..|a| - 1]);
    }
  }

  /** Every term of a non-negative series is at most its sum. */
  lemma {:induction false} SumPick(a: seq<real>, i: nat)
    requires i < |a|
    requires forall j :: 0 <= j < |a| ==> a[j] >= 0.0
    ensures 0.0 <= a[i] <= Sum(a)
  {
    var zeros := seq(|a|, _ => 0.0);
    SumZero(zeros);
    SumUpdate(zeros, i, a[i]);
    SumMono(zeros[i := a[i]], a);
  }

  lemma {:induction false} SumConcat(a: seq<real>, b: seq<real>)
    ensures Sum(a + b) == Sum(a) + Sum(b)
  {
    if b == [] {
      assert a + b == a;
    } else {
      assert (a + b)[..|a + b| - 1] == a + b[..|b| - 1];
      SumConcat(a, b[..|b| - 1]);
    }
  }

  lemma SumNonneg(a: seq<real>)
    requires forall j :: 0 <= j < |a| ==> a[j] >= 0.0
    ensures Sum(a) >= 0.0
  {
    var zeros := seq(|a|, _ => 0.0);
    SumZero(zeros);
    SumMono(zeros, a);
  }

  lemma SumPrefix(a: seq<real>, k: nat)
    requires k <= |a|
    requires forall j :: 0 <= j < |a| ==> a[j] >= 0.0
    ensures 0.0 <= Sum(a[..k]) <= Sum(a)
  {
    SumConcat(a[..k], a[k..]);
    assert a[..k] + a[k..] == a;
    SumNonneg(a[..k]);
    SumNonneg(a[k..]);
  }

  // ---- matrices: one row per vehicle, one column per slot ----

  ghost predicate Rect(x: seq<seq<real>>, w: nat) {
    forall i :: 0 <= i < |x| ==> |x[i]| == w
  }

  function Col(x: seq<seq<real>>, w: nat, t: nat): seq<real>
    requires Rect(x, w) && t < w
  {
    seq(|x|, i requires 0 <= i < |x| => x[i][t])
  }

  function RowSums(x: seq<seq<real>>): seq<real> {
    seq(|x|, i requires 0 <= i < |x| => Sum(x[i]))
  }

  function ColSums(x: seq<seq<real>>, w: nat): seq<real>
    requires Rect(x, w)
  {
    seq(w, t requires 0 <= t < w => Sum(Col(x, w, t)))
  }

  /** Adding up a matrix by rows or by columns gives the same total. */
  lemma {:induction false} SumExchange(x: seq<seq<real>>, w: nat)
    requires Rect(x, w)
    ensures Sum(RowSums(x)) == Sum(ColSums(x, w))
  {
    if x == [] {
      SumZero(ColSums(x, w));
    } else {
      var n := |x| - 1;
      SumExchange(x[..n], w);
      assert RowSums(x)[..n] == RowSums(x[..n]);
      forall t | 0 <= t < w
        ensures ColSums(x, w)[t] == ColSums(x[..n], w)[t] + x[n][t]
      {
        assert Col(x, w, t)[..n] == Col(x[..n], w, t);
      }
      SumPlus(ColSums(x[..n], w), x[n], ColSums(x, w));
    }
  }

  // ---- whole multiples ----

  /** k times v, and 0 for a negative k. */
  function Times(v: real, k: int): real
    decreases k
  {
    if k <= 0 then 0.0 else Times(v, k - 1) + v
  }

  lemma {:induction false} TimesMonotone(v: real, j: int, k: int)
    requires v >= 0.0 && j <= k
    ensures 0.0 <= Times(v, j) <= Times(v, k)
    decreases k - j, k
  {
    if j < k {
      TimesMonotone(v, j, k - 1);
    } else if k > 0 {
      TimesMonotone(v, k - 1, k - 1);
    }
  }

  lemma {:induction false} TimesProduct(v: real, k: nat)
    ensures Times(v, k) == v * k as real
  {
    if k > 0 {
      TimesProduct(v, k - 1);
      assert v * k as real == v * (k - 1) as real + v;
    }
  }

  lemma {:induction false} TimesPlus(v: real, a: nat, b: nat)
    ensures Times(v, a + b) == Times(v, a) + Times(v, b)
    decreases b
  {
    if b > 0 {
      TimesPlus(v, a, b - 1);
    }
  }

  lemma {:induction false} TimesSum(v: real, n: nat)
    ensures Sum(seq(n, _ => v)) == Times(v, n)
  {
    if n > 0 {
      TimesSum(v, n - 1);
      assert seq(n, _ => v)[..n - 1] == seq(n - 1, _ => v);
    }
  }

  // ---- rounding ----

  /** Nearest integer, a tie going up (the rule of Math.round). */
  function RoundHalfUp(r: real): int {
    (r + 0.5).Floor
  }

  /** Nearest integer, a tie going away from zero (the rule of toFixed). */
  function RoundAway(r: real): int {
    if r >= 0.0 then RoundHalfUp(r) else -RoundHalfUp(-r)
  }

  /** Number(r.toFixed(d)) for d = 2, 3 and 4. */
  function ToFixed2(r: real): real {
    RoundAway(r * 100.0) as real / 100.0
  }

  function ToFixed3(r: real): real {
    RoundAway(r * 1000.0) as real / 1000.0
  }

  function ToFixed4(r: real): real {
    RoundAway(r * 10000.0) as real / 10000.0
  }

  lemma RoundWhole(n: int)
    ensures RoundHalfUp(n as real) == n
  {
  }

  lemma ToFixed4Near(r: real)
    ensures r - 0.00005 <= ToFixed4(r) <= r + 0.00005
    ensures r >= 0.0 ==> ToFixed4(r) >= 0.0
  {
  }

  lemma RoundHalfUpIs(r: real, n: int)
    ensures RoundHalfUp(r) == n <==> n as real - 0.5 <= r < n as real + 0.5
  {
  }

  /** n is nearest to r; between two nearest ones it is the one further from zero. */
  ghost predicate RoundsTo(r: real, n: int) {
    && n as real - 0.5 <= r <= n as real + 0.5
    && (r == n as real - 0.5 ==> n > 0) && (r == n as real + 0.5 ==> n < 0)
  }

  lemma RoundAwayIs(r: real, n: int)
    ensures RoundAway(r) == n <==> RoundsTo(r, n)
  {
    if r >= 0.0 {
      RoundHalfUpIs(r, n);
    } else {
      RoundHalfUpIs(-r, -n);
    }
  }

  /** d decimals: a whole number of units of the last one, the nearest, ties away from zero. */
  lemma ToFixedIs(r: real) returns (a: int, b: int, c: int)
    ensures ToFixed2(r) * 100.0 == a as real && RoundsTo(r * 100.0, a)
    ensures ToFixed3(r) * 1000.0 == b as real && RoundsTo(r * 1000.0, b)
    ensures ToFixed4(r) * 10000.0 == c as real && RoundsTo(r * 10000.0, c)
  {
    a, b, c := RoundAway(r * 100.0), RoundAway(r * 1000.0), RoundAway(r * 10000.0);
    RoundAwayIs(r * 100.0, a);
    RoundAwayIs(r * 1000.0, b);
    RoundAwayIs(r * 10000.0, c);
  }
}
