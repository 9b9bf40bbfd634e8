/** What each store method answers and does, read from the store's own fields, and what a run makes of windows and
    sessions. */
module Bookings {
  import opened Reals
  import opened Connectors

  // ---- answers and effects ----

  /** A live window of the connector shares some instant with [startAt, endAt). */
  ghost predicate Taken(rs: seq<Reservation>, key: string, startAt: int, endAt: int) {
    exists i :: 0 <= i < |rs| && rs[i].connector == key && (rs[i].status == BOOKED || rs[i].status == CONVERTED)
      && !(rs[i].endAt <= startAt || endAt <= rs[i].startAt)
  }

  /** Free for booking: available, or reserved for other hours. */
  ghost predicate Open(st: State, key: string) {
    key in st.connectors && (st.connectors[key] == AVAILABLE || st.connectors[key] == Status.RESERVED)
  }

  ghost predicate WindowFits(startAt: int, endAt: int, now: int) {
    900000 <= endAt - startAt <= 7200000 && startAt >= now - 60000
  }

  /** A booking of 15 to 120 minutes, begun at most a minute ago, on an open connector with no live window in its way is
      always granted; any other is refused, with the first reason that applies. */
  lemma CreateIs(st: State, user: int, key: string, startAt: int, endAt: int, now: int)
    ensures var e := CreateError(st, key, startAt, endAt, now);
            && (e == Some(INVALID_WINDOW) <==> !WindowFits(startAt, endAt, now))
            && (e == Some(INVALID_CONNECTOR) <==> WindowFits(startAt, endAt, now) && key !in st.connectors)
            && (e == Some(NOT_BOOKABLE) <==>
                 WindowFits(startAt, endAt, now) && key in st.connectors && !Open(st, key))
            && (e == Some(OVERLAP) <==>
                 WindowFits(startAt, endAt, now) && Open(st, key) && Taken(st.reservations, key, startAt, endAt))
            && (e == None <==>
                 WindowFits(startAt, endAt, now) && Open(st, key) && !Taken(st.reservations, key, startAt, endAt))
    ensures var r := Created(st, user, key, startAt, endAt);
            && r.reservations == st.reservations + [Reservation(key, user, startAt, endAt, BOOKED)]
            && r.connectors == st.connectors[key := Status.RESERVED]
            && r.sessions == st.sessions && r.pending == st.pending
  {
    if SomeClash(st.reservations, key, startAt, endAt) {
      var i :| 0 <= i < |st.reservations| && Clashes(st.reservations[i], key, startAt, endAt);
      assert st.reservations[i].connector == key;
    }
    if Taken(st.reservations, key, startAt, endAt) && endAt > startAt {
      var i :| 0 <= i < |st.reservations| && st.reservations[i].connector == key
        && (st.reservations[i].status == BOOKED || st.reservations[i].status == CONVERTED)
        && !(st.reservations[i].endAt <= startAt || endAt <= st.reservations[i].startAt);
      assert Clashes(st.reservations[i], key, startAt, endAt);
    }
  }

  /** Window i is booked, on this connector, by this user. */
  ghost predicate OwnBooked(rs: seq<Reservation>, i: nat, key: string, user: int) {
    i < |rs| && rs[i].connector == key && rs[i].user == user && rs[i].status == BOOKED
  }

  ghost predicate OwnsOne(rs: seq<Reservation>, key: string, user: int) {
    exists i: nat :: OwnBooked(rs, i, key, user)
  }

  ghost predicate Entitled(st: State, user: int, key: string, named: Option<nat>)
    requires key in st.connectors
  {
    if named.Some? then OwnBooked(st.reservations, named.value, key, user)
    else st.connectors[key] == AVAILABLE || OwnsOne(st.reservations, key, user)
  }

  /** A driver may start on an open connector with a booked window of its own that it names, without naming one on an
      available connector, and on a reserved one if it owns any. */
  lemma StartAnswers(st: State, user: int, key: string, named: Option<nat>)
    ensures var e := StartError(st, user, key, named);
            && (e == Some(INVALID_CONNECTOR) <==> key !in st.connectors)
            && (e == Some(NOT_BOOKABLE) <==> key in st.connectors && !Open(st, key))
            && (e == None <==> Open(st, key) && Entitled(st, user, key, named))
            && (e.Some? ==> e.value in {INVALID_CONNECTOR, NOT_BOOKABLE, RESERVATION_MISMATCH})
  {
    var i := Mine(st.reservations, key, user);
    if i < |st.reservations| {
      assert OwnBooked(st.reservations, i, key, user);
    }
    if OwnsOne(st.reservations, key, user) {
      var j: nat :| OwnBooked(st.reservations, j, key, user);
      assert IsMine(st.reservations[j], key, user);
    }
  }

  /** Rows other than row i, if there is one, are as they were. */
  ghost predicate OnlyConverted(a: seq<Reservation>, b: seq<Reservation>, window: Option<nat>) {
    && |a| == |b| && (window.Some? ==> window.value < |a|)
    && forall i :: 0 <= i < |a| ==>
      b[i] == if window == Some(i) then a[i].(status := CONVERTED) else a[i]
  }

  ghost predicate FirstOwn(rs: seq<Reservation>, i: Option<nat>, key: string, user: int) {
    && i.Some? && OwnBooked(rs, i.value, key, user)
    && forall j :: 0 <= j < i.value ==> !OwnBooked(rs, j, key, user)
  }

  /** A start occupies the connector with a new session of the driver and converts exactly its window: the one named, or
      on a reserved connector the driver's first booked one. */
  lemma StartDoes(st: State, user: int, key: string, named: Option<nat>)
    requires StartError(st, user, key, named).None?
    ensures var r := Started(st, user, key, named);
            && |r.sessions| == |st.sessions| + 1 && r.sessions[..|st.sessions|] == st.sessions
            && r.connectors == st.connectors[key := OCCUPIED] && r.pending == st.pending
            && var s := r.sessions[|st.sessions|];
            && s.connector == key && s.user == user && s.phase == PREPARING
            && OnlyConverted(st.reservations, r.reservations, s.reservation)
            && (named.Some? ==> s.reservation == named)
            && (named.None? && st.connectors[key] == AVAILABLE ==> s.reservation == None)
            && (named.None? && st.connectors[key] != AVAILABLE ==> FirstOwn(st.reservations, s.reservation, key, user))
  {
    var i := Mine(st.reservations, key, user);
    forall j | 0 <= j < i ensures !OwnBooked(st.reservations, j, key, user) {
      assert !IsMine(st.reservations[j], key, user);
    }
  }

  /** The moves a session may make. */
  ghost predicate MayMove(from: Phase, to: Phase) {
    || (from == Phase.RESERVED && to in {PREPARING, Phase.CANCELLED})
    || (from == PREPARING && to in {CHARGING, FAILED, Phase.CANCELLED})
    || (from == CHARGING && to in {SUSPENDED, COMPLETED, FAILED})
    || (from == SUSPENDED && to in {CHARGING, COMPLETED, FAILED})
  }

  /** What the connector of a session shows once the session has moved. */
  ghost function ShownAfter(shown: Status, to: Phase): Status {
    match to
    case CHARGING => OCCUPIED
    case COMPLETED => AVAILABLE
    case FAILED => AVAILABLE
    case CANCELLED => AVAILABLE
    case _ => shown
  }

  /** A transition is allowed exactly along these moves. Charging occupies the connector; an ending frees it, and
      leaves a release waiting that will restore a booked window's hold. */
  lemma TransitionIs(st: State, sid: nat, to: Phase)
    ensures TransitionError(st, sid, to) ==
            if sid >= |st.sessions| then Some(NOT_FOUND)
            else if MayMove(st.sessions[sid].phase, to) then None else Some(ILLEGAL_TRANSITION)
    ensures TransitionError(st, sid, to).None? ==>
              var r, key := TransitionBegun(st, sid, to), st.sessions[sid].connector;
              && r.reservations == st.reservations && r.sessions == st.sessions[sid := st.sessions[sid].(phase := to)]
              && r.connectors.Keys == st.connectors.Keys
              && (forall k :: k in st.connectors && k != key ==> r.connectors[k] == st.connectors[k])
              && (key in st.connectors ==> r.connectors[key] == ShownAfter(st.connectors[key], to))
              && r.pending[key] == st.pending[key] + (if to in {COMPLETED, FAILED, Phase.CANCELLED} then 1 else 0)
              && (forall k :: k != key ==> r.pending[k] == st.pending[k])
  {
  }

  /** A cancellation is allowed to the owner, and to an operator of the station, while the window is booked; it leaves
      one more release waiting. */
  lemma CancelIs(st: State, rid: nat, byOther: bool, outside: bool)
    ensures var e := CancelError(st, rid, byOther, outside);
            && (e == None <==> rid < |st.reservations| && !byOther && !outside && st.reservations[rid].status == BOOKED)
            && (e == Some(NOT_FOUND) <==> rid >= |st.reservations|)
            && (e == Some(FORBIDDEN) <==> rid < |st.reservations| && byOther)
            && (e == Some(OUT_OF_SCOPE) <==> rid < |st.reservations| && !byOther && outside)
            && (e == Some(CANCEL_CONFLICT) <==>
                 rid < |st.reservations| && !byOther && !outside && st.reservations[rid].status != BOOKED)
    ensures rid < |st.reservations| ==>
              var r, key := CancelBegun(st, rid), st.reservations[rid].connector;
              && r.reservations == st.reservations[rid := st.reservations[rid].(status := Window.CANCELLED)]
              && r.connectors == st.connectors && r.sessions == st.sessions
              && r.pending[key] == st.pending[key] + 1 && (forall k :: k != key ==> r.pending[k] == st.pending[k])
  {
  }

  /** A window is booked on the connector. */
  ghost predicate Held(rs: seq<Reservation>, key: string) {
    exists i :: 0 <= i < |rs| && rs[i].connector == key && rs[i].status == BOOKED
  }

  lemma HeldIs(rs: seq<Reservation>, key: string)
    ensures Held(rs, key) <==> HasBooked(rs, key)
  {
    if Held(rs, key) {
      var i :| 0 <= i < |rs| && rs[i].connector == key && rs[i].status == BOOKED;
      assert IsBooked(rs[i], key);
    }
    if HasBooked(rs, key) {
      var i :| 0 <= i < |rs| && IsBooked(rs[i], key);
      assert rs[i].connector == key;
    }
  }

  ghost function ShownHold(st: State, key: string): Status
    requires key in st.connectors
  {
    if !Open(st, key) then st.connectors[key] else if Held(st.reservations, key) then Status.RESERVED else AVAILABLE
  }

  /** The hold of one connector is derived, everything else stays. */
  ghost predicate HoldDerived(a: State, b: State, key: string) {
    && b.reservations == a.reservations && b.sessions == a.sessions && b.connectors.Keys == a.connectors.Keys
    && (forall k :: k in a.connectors && k != key ==> b.connectors[k] == a.connectors[k])
    && (key in a.connectors ==> b.connectors[key] == ShownHold(a, key))
  }

  /** A release that gets the connector lock derives the hold from the booked windows. */
  lemma ReleaseIs(st: State, key: string)
    requires key in st.pending
    ensures HoldDerived(st, ReleaseDone(st, key), key) && ReleaseDone(st, key).pending == st.pending - multiset{key}
  {
    HeldIs(st.reservations, key);
  }

  /** The sweep expires a booked window once its start lies before the cutoff, and derives the hold; it leaves every
      other window alone. */
  lemma SweepIs(st: State, rid: nat, cutoff: int)
    requires rid < |st.reservations|
    ensures var r, w := SweptOne(st, rid, cutoff), st.reservations[rid];
            if w.status == BOOKED && w.startAt < cutoff then
              && r.reservations == st.reservations[rid := w.(status := EXPIRED)] && r.pending == st.pending
              && HoldDerived(st.(reservations := r.reservations), r, w.connector)
            else r == st
  {
    HeldIs(SweptOne(st, rid, cutoff).reservations, st.reservations[rid].connector);
  }

  /** A numbered tick from 1 on starts a prepared session charging and changes nothing else. */
  lemma TickIs(st: State, sid: nat, seqNo: int)
    requires sid < |st.sessions|
    ensures Ticked(st, sid, seqNo) ==
            if st.sessions[sid].phase == PREPARING && seqNo >= 1
            then st.(sessions := st.sessions[sid := st.sessions[sid].(phase := CHARGING)]) else st
  {
  }

  // ---- over runs ----

  /** Windows and sessions are only added; a window leaves BOOKED once and for all, a session its last phase never. */
  ghost predicate Follows(a: State, b: State) {
    && |a.reservations| <= |b.reservations| && |a.sessions| <= |b.sessions|
    && (forall i :: 0 <= i < |a.reservations| ==> WindowFollows(a.reservations[i], b.reservations[i]))
    && (forall i :: 0 <= i < |a.sessions| ==> SessionFollows(a.sessions[i], b.sessions[i]))
  }

  ghost predicate WindowFollows(a: Reservation, b: Reservation) {
    b == a.(status := b.status) && (b.status != a.status ==> a.status == BOOKED)
  }

  ghost predicate Ended(s: Session) {
    s.phase in {COMPLETED, FAILED, Phase.CANCELLED}
  }

  ghost predicate SessionFollows(a: Session, b: Session) {
    b == a.(phase := b.phase) && (Ended(a) ==> b == a)
  }

  lemma WindowsFollow(st: State, step: Step, i: nat)
    requires Enabled(st, step) && i < |st.reservations|
    ensures i < |Next(st, step).reservations| && WindowFollows(st.reservations[i], Next(st, step).reservations[i])
  {
  }

  lemma SessionsFollow(st: State, step: Step, i: nat)
    requires Enabled(st, step) && i < |st.sessions|
    ensures i < |Next(st, step).sessions| && SessionFollows(st.sessions[i], Next(st, step).sessions[i])
  {
  }

  lemma StepFollows(st: State, step: Step)
    requires Enabled(st, step)
    ensures Follows(st, Next(st, step))
  {
    forall i | 0 <= i < |st.reservations|
      ensures i < |Next(st, step).reservations| && WindowFollows(st.reservations[i], Next(st, step).reservations[i])
    {
      WindowsFollow(st, step, i);
    }
    forall i | 0 <= i < |st.sessions|
      ensures i < |Next(st, step).sessions| && SessionFollows(st.sessions[i], Next(st, step).sessions[i])
    {
      SessionsFollow(st, step, i);
    }
    NeverShrinks(st, step);
  }

  lemma NeverShrinks(st: State, step: Step)
    requires Enabled(st, step)
    ensures |st.reservations| <= |Next(st, step).reservations| && |st.sessions| <= |Next(st, step).sessions|
  {
  }

  lemma FollowsOn(a: State, b: State, c: State)
    requires Follows(a, b) && Follows(b, c)
    ensures Follows(a, c)
  {
    forall i | 0 <= i < |a.reservations| ensures WindowFollows(a.reservations[i], c.reservations[i]) {
      assert WindowFollows(b.reservations[i], c.reservations[i]);
    }
    forall i | 0 <= i < |a.sessions| ensures SessionFollows(a.sessions[i], c.sessions[i]) {
      assert SessionFollows(b.sessions[i], c.sessions[i]);
    }
  }

  /** Throughout a run a window keeps its hours, its driver and its connector and changes its status at most once; and
      an ended session stays as it ended. */
  lemma {:induction false} RunFollows(states: seq<State>, steps: seq<Step>, j: nat, k: nat)
    requires Run(states, steps) && j <= k <= |steps|
    ensures Follows(states[j], states[k])
    decreases k
  {
    if j < k {
      RunFollows(states, steps, j, k - 1);
      StepFollows(states[k - 1], steps[k - 1]);
      FollowsOn(states[j], states[k - 1], states[k]);
    }
  }

  /** Every window of every run is 15 to 120 minutes long and was booked by a step of its own. */
  lemma {:induction false} EveryWindowBooked(states: seq<State>, steps: seq<Step>, k: nat, i: nat) returns (c: nat)
    requires Run(states, steps) && k <= |steps| && i < |states[k].reservations|
    ensures c < k && steps[c].Create? && |states[c].reservations| == i
    ensures var w, s := states[k].reservations[i], steps[c];
            && w == Reservation(s.key, s.user, s.startAt, s.endAt, w.status)
            && 900000 <= w.endAt - w.startAt <= 7200000 && w.startAt >= s.now - 60000
            && !Taken(states[c].reservations, w.connector, w.startAt, w.endAt)
    decreases k
  {
    var st, step := states[k - 1], steps[k - 1];
    StepFollows(st, step);
    if i < |st.reservations| {
      c := EveryWindowBooked(states, steps, k - 1, i);
      assert WindowFollows(st.reservations[i], states[k].reservations[i]);
    } else {
      c := k - 1;
      CreateIs(st, step.user, step.key, step.startAt, step.endAt, step.now);
    }
  }
}
