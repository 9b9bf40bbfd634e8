/** Prices with a valley: the price pass fills a battery early and leaves it asked for more than it takes. */
module Valley {
  import opened Reals
  import opened Ordering
  import opened Charging
  import opened Allocator
  import opened Invariants
  import opened EdfOptimality
  import opened Honesty
  import opened Shifting

  /** Four slots: dearest first, then the two cheapest, the second of them cheaper, then one in between. */
  ghost predicate Dips(score: seq<real>) {
    |score| == 4 && score[0] > score[3] > score[1] > score[2]
  }

  /** One vehicle at the knee of a battery of ten slots, which needs a little of its fourth slot too. No caps. */
  function ValleyProblem(score: seq<real>, eps: real, tiny: real): (p: Problem)
    ensures p.Prepared()
  {
    Problem([Load(1, 1, 1.0, false, 0.0, 0, 4, 2.005625, Some(Pack(Battery(1.0, 10.0), 0.8)))], None, map[], score, 4,
            true, eps, tiny)
  }

  ghost predicate ValleyOk(score: seq<real>, eps: real, tiny: real) {
    Dips(score) && 0.0 <= tiny <= eps < 0.01
  }

  lemma ValleyValid(score: seq<real>, eps: real, tiny: real)
    requires ValleyOk(score, eps, tiny)
    ensures var p := ValleyProblem(score, eps, tiny);
            p.Valid() && p.Physical() && !NoValley(p)
  {
    var p := ValleyProblem(score, eps, tiny);
    BatteryLaw(1.0, 10.0);
    assert p.Score(1) < p.Score(3) && p.Score(0) > p.Score(3);
  }

  function Holding(row: seq<real>, need: real): State {
    State([row], [need])
  }

  // ---- what the battery takes ----

  lemma TaperLine(soc: real)
    requires 0.8 <= soc <= 1.0
    ensures TaperedTo(1.0, soc) == 1.0 - 4.25 * (soc - 0.8)
  {
  }

  /** On its way up the taper it takes 1 - 0.425 E after E kWh. */
  lemma ValleyAccepts(p: Problem, row: seq<real>, t: nat, counted: real)
    requires p.Physical() && |p.loads| == 1 && p.loads[0].pack == Some(Pack(Battery(1.0, 10.0), 0.8))
    requires t <= |row| && Absorbable(p, 0, row, t) && counted == Counted(row, p.tiny, t) && 0.0 <= counted <= 2.0
    ensures AcceptanceKwh(p, 0, row, t) == 1.0 - 0.425 * counted
  {
    AcceptsCounted(p, 0, row, t);
    TaperLine(0.8 + counted / 10.0);
  }

  // ---- the orders ----

  lemma FourInserted(keys: seq<Key>)
    requires |keys| == 4 && keys[0].0 < keys[3].0 < keys[1].0 < keys[2].0
    ensures Insert(keys, [0, 1, 2], 3) == [0, 3, 1, 2]
  {
    var one: seq<nat> := [0];
    var two: seq<nat> := [0, 1];
    InsertOne(keys, 0, 3);
    assert one + [1] == two && two + [2] == [0, 1, 2];
    InsertStep(keys, one, 1, 3);
    InsertStep(keys, two, 2, 3);
  }

  lemma FourSorted(keys: seq<Key>)
    requires |keys| == 4 && keys[0].0 < keys[3].0 < keys[1].0 < keys[2].0
    ensures SortBy(keys, Upto(4)) == [0, 3, 1, 2]
  {
    var first: seq<nat> := [0, 1, 2];
    SortedStays(keys, first);
    SortStep(keys, first, 3);
    assert Upto(4) == first + [3];
    FourInserted(keys);
  }

  lemma ValleyOrder(score: seq<real>, eps: real, tiny: real)
    requires Dips(score)
    ensures var p := ValleyProblem(score, eps, tiny);
            PriceOrder(p) == [0, 3, 1, 2] && ById(p) == [0] && Edf(p) == [0]
  {
    var p := ValleyProblem(score, eps, tiny);
    FourSorted(ScoreKeys(p, -1.0));
    assert Upto(1) == [0];
    SortedStays(EdfKeys(p), [0]);
    SortedStays(seq(|p.loads|, i requires 0 <= i < |p.loads| => (0.0, p.loads[i].sessionId)), [0]);
  }

  lemma FilterStep(p: Problem, src: nat, t: nat, before: seq<nat>) returns (after: seq<nat>)
    requires p.Prepared() && 0 < |p.loads| && src < p.horizon && t < p.horizon
    requires before == CheaperFilter(p, 0, src, t)
    ensures after == CheaperFilter(p, 0, src, t + 1)
    ensures after == if p.InWindow(0, t) && t != src && p.Score(t) < p.Score(src) then before + [t] else before
  {
    after := CheaperFilter(p, 0, src, t + 1);
  }

  lemma FilterAll(p: Problem, src: nat) returns (kept: seq<nat>)
    requires p.Prepared() && 0 < |p.loads| && src < p.horizon == 4 && p.loads[0].av == 0 && p.loads[0].dl == 4
    requires Dips(p.score)
    ensures kept == CheaperFilter(p, 0, src, 4)
    ensures kept == if src == 0 then [1, 2, 3] else if src == 1 then [2] else if src == 2 then [] else [1, 2]
  {
    kept := FilterStep(p, src, 0, []);
    kept := FilterStep(p, src, 1, kept);
    kept := FilterStep(p, src, 2, kept);
    kept := FilterStep(p, src, 3, kept);
  }

  lemma PairSwapped(keys: seq<Key>)
    requires |keys| == 4 && keys[2].0 < keys[1].0
    ensures SortBy(keys, [1, 2]) == [2, 1]
  {
    var one: seq<nat> := [1];
    SortedStays(keys, one);
    SortStep(keys, one, 2);
    InsertOne(keys, 1, 2);
    assert one + [2] == [1, 2];
  }

  lemma TripleSorted(keys: seq<Key>)
    requires |keys| == 4 && keys[2].0 < keys[1].0 < keys[3].0
    ensures SortBy(keys, [1, 2, 3]) == [2, 1, 3]
  {
    PairSwapped(keys);
    SortStep(keys, [1, 2], 3);
    InsertStep(keys, [2], 1, 3);
    assert [1, 2] + [3] == [1, 2, 3] && [2] + [1] == [2, 1];
  }

  /** From the first slot: the third, the second, the fourth. From the fourth: the third, the second. */
  lemma ValleyTargets(p: Problem, src: nat)
    requires p.Prepared() && 0 < |p.loads| && src < p.horizon == 4 && p.loads[0].av == 0 && p.loads[0].dl == 4
    requires Dips(p.score)
    ensures Cheaper(p, 0, src) == if src == 0 then [2, 1, 3] else if src == 1 then [2] else if src == 2 then []
                                  else [2, 1]
  {
    var kept := FilterAll(p, src);
    var keys := ScoreKeys(p, 1.0);
    PairSwapped(keys);
    TripleSorted(keys);
    SortedStays(keys, [2]);
    SortedStays(keys, []);
  }

  // ---- rows ----

  ghost predicate Ours(p: Problem) {
    exists eps, tiny :: ValleyOk(p.score, eps, tiny) && p == ValleyProblem(p.score, eps, tiny)
  }

  /** Entries the replay counts and the battery takes, up to slot t. */
  ghost predicate Tracks(p: Problem, row: seq<real>, t: nat, counted: real)
    requires |p.loads| == 1
  {
    |row| == 4 && t <= 4 && Absorbable(p, 0, row, t) && counted == Counted(row, p.tiny, t) && 0.0 <= counted
  }

  lemma OursFacts(p: Problem)
    requires Ours(p)
    ensures p.Valid() && p.Physical() && p.Prepared() && p.horizon == 4 && |p.loads| == 1 && Dips(p.score) && p.aware
    ensures p.loads[0] == Load(1, 1, 1.0, false, 0.0, 0, 4, 2.005625, Some(Pack(Battery(1.0, 10.0), 0.8)))
    ensures p.siteKwh.None? && p.cpKwh == map[] && 0.0 <= p.tiny <= p.eps < 0.01
  {
    var eps, tiny :| ValleyOk(p.score, eps, tiny) && p == ValleyProblem(p.score, eps, tiny);
    ValleyValid(p.score, eps, tiny);
  }

  lemma TrackTakes(p: Problem, row: seq<real>, t: nat, counted: real)
    requires Ours(p) && |p.loads| == 1 && Tracks(p, row, t, counted) && counted <= 2.0
    ensures AcceptanceKwh(p, 0, row, t) == 1.0 - 0.425 * counted
  {
    OursFacts(p);
    ValleyAccepts(p, row, t, counted);
  }

  lemma TrackStart(p: Problem, row: seq<real>)
    requires |p.loads| == 1 && |row| == 4
    ensures Tracks(p, row, 0, 0.0)
  {
  }

  lemma TrackNext(p: Problem, row: seq<real>, t: nat, counted: real)
    requires Ours(p) && |p.loads| == 1 && t < 4 && Tracks(p, row, t, counted)
    requires p.tiny < row[t] <= 1.0 - 0.425 * counted && counted <= 2.0
    ensures Tracks(p, row, t + 1, counted + row[t])
  {
    OursFacts(p);
    TrackTakes(p, row, t, counted);
    forall u | 0 <= u < t + 1 ensures AbsorbableAt(p, 0, row, u) {
    }
  }

  lemma {:induction false} CountedLocal(a: seq<real>, b: seq<real>, tiny: real, t: nat)
    requires |a| == |b| && t <= |a| && forall u :: 0 <= u < t ==> a[u] == b[u]
    ensures Counted(a, tiny, t) == Counted(b, tiny, t)
  {
    if t > 0 {
      CountedLocal(a, b, tiny, t - 1);
    }
  }

  lemma TrackLocal(p: Problem, a: seq<real>, b: seq<real>, t: nat, counted: real)
    requires |p.loads| == 1 && Tracks(p, a, t, counted) && |b| == 4 && forall u :: 0 <= u < t ==> a[u] == b[u]
    ensures Tracks(p, b, t, counted)
  {
    CountedLocal(a, b, p.tiny, t);
    forall u | 0 <= u < t ensures AbsorbableAt(p, 0, b, u) {
      assert AbsorbableAt(p, 0, a, u);
      AcceptanceLocal(p, 0, a, b, u);
    }
  }

  // ---- pass 2 ----

  lemma FillStep(p: Problem, row: seq<real>, t: nat, counted: real, need: real) returns (next: seq<real>, take: real)
    requires Ours(p) && p.Prepared() && |p.loads| == 1 && p.horizon == 4 && t < 4 && Tracks(p, row, t, counted)
    requires row[t] == 0.0 && need > p.eps && Min(1.0 - 0.425 * counted, need) > p.eps && counted <= 2.0
    ensures take == Min(1.0 - 0.425 * counted, need) && next == row[t := take]
    ensures FillSlot(p, Holding(row, need), [0], t, 1) == Holding(next, need - take)
    ensures Tracks(p, next, t + 1, counted + take)
  {
    OursFacts(p);
    TrackTakes(p, row, t, counted);
    take := Min(1.0 - 0.425 * counted, need);
    next := row[t := take];
    assert GiveAmount(p, Holding(row, need), 0, t, 1.0) == take;
    assert FillSlot(p, Holding(row, need), [0], t, 0) == Holding(row, need);
    TrackLocal(p, row, next, t, counted);
    TrackNext(p, next, t, counted);
  }

  lemma ValleyStarts(p: Problem)
    requires Ours(p)
    ensures p.Prepared() && AfterFloors(p) == Holding([0.0, 0.0, 0.0, 0.0], 2.005625) && Edf(p) == [0]
    ensures PriceOrder(p) == [0, 3, 1, 2] && ById(p) == [0]
  {
    var eps, tiny :| ValleyOk(p.score, eps, tiny) && p == ValleyProblem(p.score, eps, tiny);
    ValleyOrder(p.score, eps, tiny);
    assert Initial(p).x[0] == [0.0, 0.0, 0.0, 0.0];
    assert Initial(p).x == [[0.0, 0.0, 0.0, 0.0]] && Initial(p).need == [2.005625];
    NoFloorsNoPass(p, Initial(p), [0], 1);
  }

  /** One slot further. */
  lemma FillNext(p: Problem, row: seq<real>, t: nat, counted: real, need: real, take: real, next: seq<real>)
    requires Ours(p) && p.Prepared() && |p.loads| == 1 && p.horizon == 4 && t < 4 && Tracks(p, row, t, counted)
    requires row[t] == 0.0 && need > p.eps && take == Min(1.0 - 0.425 * counted, need) > p.eps && counted <= 2.0
    requires FillPass(p, AfterFloors(p), [0], t) == Holding(row, need) && next == row[t := take]
    ensures FillPass(p, AfterFloors(p), [0], t + 1) == Holding(next, need - take)
    ensures Tracks(p, next, t + 1, counted + take)
  {
    var r, e := FillStep(p, row, t, counted, need);
  }

  lemma HalfFilled(p: Problem)
    requires Ours(p)
    ensures p.Prepared() && |p.loads| == 1 && p.horizon == 4 && Edf(p) == [0]
    ensures FillPass(p, AfterFloors(p), [0], 2) == Holding([1.0, 0.575, 0.0, 0.0], 0.430625)
    ensures Tracks(p, [1.0, 0.575, 0.0, 0.0], 2, 1.575)
  {
    OursFacts(p);
    ValleyStarts(p);
    TrackStart(p, [0.0, 0.0, 0.0, 0.0]);
    FillNext(p, [0.0, 0.0, 0.0, 0.0], 0, 0.0, 2.005625, 1.0, [1.0, 0.0, 0.0, 0.0]);
    FillNext(p, [1.0, 0.0, 0.0, 0.0], 1, 1.0, 1.005625, 0.575, [1.0, 0.575, 0.0, 0.0]);
  }

  /** The first three slots are filled to what the battery takes, the fourth to the need. */
  lemma ValleyFilled(p: Problem)
    requires Ours(p)
    ensures p.Prepared() && |p.loads| == 1 && AfterFill(p) == Holding(Filled(), 0.0) && Tracks(p, Filled(), 4, 2.005625)
  {
    OursFacts(p);
    HalfFilled(p);
    FillNext(p, [1.0, 0.575, 0.0, 0.0], 2, 1.575, 0.430625, 0.330625, [1.0, 0.575, 0.330625, 0.0]);
    FillNext(p, [1.0, 0.575, 0.330625, 0.0], 3, 1.905625, 0.1, 0.1, Filled());
  }

  // ---- pass 3 ----

  /** A move into a slot whose history is on track. */
  lemma MoveStep(p: Problem, row: seq<real>, src: nat, dst: nat, counted: real, amount: real)
      returns (next: seq<real>)
    requires Ours(p) && p.Prepared() && |p.loads| == 1 && p.horizon == 4 && src < 4 && dst < 4 && src != dst
    requires Tracks(p, row, dst, counted) && counted <= 2.0 && row[src] > p.eps
    requires amount == Min(row[src], Max(0.0, 1.0 - 0.425 * counted - row[dst]))
    ensures next == if amount <= p.eps then row else row[src := row[src] - amount][dst := row[dst] + amount]
    ensures Move(p, Holding(row, 0.0), 0, src, dst) == Holding(next, 0.0)
  {
    OursFacts(p);
    TrackTakes(p, row, dst, counted);
    next := if amount <= p.eps then row else row[src := row[src] - amount][dst := row[dst] + amount];
    assert MoveAmount(p, Holding(row, 0.0), 0, src, dst) == amount;
  }

  /** After pass 2; once the dear first slot has given to the fourth; once the fourth has given to the third, and to the
      second. */
  function Filled(): seq<real> {
    [1.0, 0.575, 0.330625, 0.1]
  }

  function Eased(): seq<real> {
    [0.909890625, 0.575, 0.330625, 0.190109375]
  }

  function Refilled(): seq<real> {
    [0.909890625, 0.575, 0.368921484375, 0.151812890625]
  }

  function Overfilled(): seq<real> {
    [0.909890625, 0.613296484375, 0.368921484375, 0.11351640625]
  }

  /** A row whose first entries are counted and taken is on track after one, two and three slots. */
  lemma OnTrack(p: Problem, row: seq<real>, t: nat)
    requires Ours(p) && |p.loads| == 1 && |row| == 4 && t <= 3 && row[0] + row[1] + row[2] <= 2.0
    requires t >= 1 ==> p.eps < row[0] <= 1.0
    requires t >= 2 ==> p.eps < row[1] <= 1.0 - 0.425 * row[0]
    requires t >= 3 ==> p.eps < row[2] <= 1.0 - 0.425 * (row[0] + row[1])
    requires forall u :: 0 <= u < 4 ==> row[u] >= 0.0
    ensures Tracks(p, row, t, if t == 0 then 0.0 else if t == 1 then row[0] else if t == 2 then row[0] + row[1]
                              else row[0] + row[1] + row[2])
  {
    OursFacts(p);
    TrackStart(p, row);
    if t >= 1 {
      TrackNext(p, row, 0, 0.0);
    }
    if t >= 2 {
      TrackNext(p, row, 1, row[0]);
    }
    if t >= 3 {
      TrackNext(p, row, 2, row[0] + row[1]);
    }
  }

  lemma FromFirst(p: Problem)
    requires Ours(p)
    ensures p.Prepared() && |p.loads| == 1 && p.horizon == 4 && Targets(p, 0, 0, [2, 1, 3])
    ensures ShiftRow(p, Holding(Filled(), 0.0), 0, 0, [2, 1, 3], 3) == Holding(Eased(), 0.0)
  {
    OursFacts(p);
    OnTrack(p, Filled(), 1);
    OnTrack(p, Filled(), 2);
    OnTrack(p, Filled(), 3);
    var first := MoveStep(p, Filled(), 0, 2, 1.575, 0.0);
    var second := MoveStep(p, Filled(), 0, 1, 1.0, 0.0);
    var third := MoveStep(p, Filled(), 0, 3, 1.905625, 0.090109375);
    assert third == Eased();
    assert ShiftRow(p, Holding(Filled(), 0.0), 0, 0, [2, 1, 3], 1) == Holding(Filled(), 0.0);
    assert ShiftRow(p, Holding(Filled(), 0.0), 0, 0, [2, 1, 3], 2) == Holding(Filled(), 0.0);
  }

  lemma FromFourth(p: Problem)
    requires Ours(p)
    ensures p.Prepared() && |p.loads| == 1 && p.horizon == 4 && Targets(p, 0, 3, [2, 1])
    ensures ShiftRow(p, Holding(Eased(), 0.0), 0, 3, [2, 1], 2) == Holding(Overfilled(), 0.0)
  {
    OursFacts(p);
    OnTrack(p, Eased(), 2);
    var row := MoveStep(p, Eased(), 3, 2, 1.484890625, 0.038296484375);
    assert row == Refilled();
    OnTrack(p, Refilled(), 1);
    row := MoveStep(p, Refilled(), 3, 1, 0.909890625, 0.038296484375);
    assert row == Overfilled();
    assert ShiftRow(p, Holding(Eased(), 0.0), 0, 3, [2, 1], 1) == Holding(Refilled(), 0.0);
  }

  lemma FromSecond(p: Problem)
    requires Ours(p)
    ensures p.Prepared() && |p.loads| == 1 && p.horizon == 4 && Targets(p, 0, 1, [2])
    ensures ShiftRow(p, Holding(Overfilled(), 0.0), 0, 1, [2], 1) == Holding(Overfilled(), 0.0)
    ensures AcceptanceKwh(p, 0, Overfilled(), 2) == 0.352645478515625
  {
    OursFacts(p);
    OnTrack(p, Overfilled(), 2);
    TrackTakes(p, Overfilled(), 2, 1.523187109375);
    var row := MoveStep(p, Overfilled(), 1, 2, 1.523187109375, 0.0);
  }

  /** One dear slot of the lone vehicle. */
  lemma LoneShifted(p: Problem, row: seq<real>, src: nat, next: seq<real>)
    requires Ours(p) && p.Prepared() && |p.loads| == 1 && p.horizon == 4 && src < 4 && |row| == |next| == 4
    requires row[src] > p.eps && Cheaper(p, 0, src) == CheaperLists(p, src)[0]
    requires ShiftRow(p, Holding(row, 0.0), 0, src, Cheaper(p, 0, src), |Cheaper(p, 0, src)|) == Holding(next, 0.0)
    ensures Shifted(p, Holding(row, 0.0), [0], src, CheaperLists(p, src)) == Holding(next, 0.0)
  {
    var s := Holding(row, 0.0);
    assert Holders(p, s, [0], src, 0) == [];
    assert Holders(p, s, [0], src, 1) == [0];
    assert ShiftSlot(p, s, [0], src, CheaperLists(p, src), 0) == s;
  }

  /** Pass 3 on this plan. */
  lemma ValleyShifted(p: Problem)
    requires Ours(p)
    ensures p.Prepared() && Solve(p) == Holding(Overfilled(), 0.0)
  {
    OursFacts(p);
    ValleyStarts(p);
    ValleyFilled(p);
    FromFirst(p);
    FromFourth(p);
    FromSecond(p);
    var menu, slots := CheaperMenu(p), PriceOrder(p);
    forall src | 0 <= src < 4 ensures menu[src] == CheaperLists(p, src) && menu[src][0] == Cheaper(p, 0, src) {
    }
    ValleyTargets(p, 0);
    ValleyTargets(p, 3);
    ValleyTargets(p, 1);
    ValleyTargets(p, 2);
    LoneShifted(p, Filled(), 0, Eased());
    assert ShiftPass(p, AfterFill(p), [0], slots, menu, 1) == Holding(Eased(), 0.0);
    LoneShifted(p, Eased(), 3, Overfilled());
    assert ShiftPass(p, AfterFill(p), [0], slots, menu, 2) == Holding(Overfilled(), 0.0);
    LoneShifted(p, Overfilled(), 1, Overfilled());
    assert ShiftPass(p, AfterFill(p), [0], slots, menu, 3) == Holding(Overfilled(), 0.0);
    LoneShifted(p, Overfilled(), 2, Overfilled());
    assert ShiftPass(p, AfterFill(p), [0], slots, menu, 4) == Holding(Overfilled(), 0.0);
  }

  /** At any prices that dip this way, the plan of this vehicle is absorbable after pass 2, and after pass 3 its third
      slot asks for more than the battery then takes. */
  lemma ValleyOverfills(score: seq<real>, eps: real, tiny: real)
    requires ValleyOk(score, eps, tiny)
    ensures var p := ValleyProblem(score, eps, tiny);
            && p.Valid() && p.Physical() && p.aware && !p.loads[0].floored && !NoValley(p)
            && AllAbsorbable(p, AfterFill(p)) && !AllAbsorbable(p, Solve(p))
            && Solve(p).x[0][2] == 0.368921484375 > AcceptanceKwh(p, 0, Solve(p).x[0], 2) == 0.352645478515625
  {
    var p := ValleyProblem(score, eps, tiny);
    ValleyValid(score, eps, tiny);
    assert Ours(p);
    ValleyFilled(p);
    ValleyShifted(p);
    FromSecond(p);
    assert !AbsorbableAt(p, 0, Solve(p).x[0], 2);
  }
}
