/** Reservations, sessions and the connectors they hold, under interleaved steps of the store's methods. */
module Connectors {
  import opened Reals

  datatype Status = AVAILABLE | RESERVED | OCCUPIED | FAULTED | OFFLINE | UNAVAILABLE

  datatype Window = BOOKED | CONVERTED | CANCELLED | EXPIRED

  datatype Phase = RESERVED | PREPARING | CHARGING | SUSPENDED | COMPLETED | FAILED | CANCELLED

  datatype Reservation = Reservation(connector: string, user: int, startAt: int, endAt: int, status: Window)

  datatype Session = Session(connector: string, user: int, reservation: Option<nat>, phase: Phase)

  datatype Error = INVALID_WINDOW | INVALID_CONNECTOR | NOT_BOOKABLE | OVERLAP | NOT_FOUND | FORBIDDEN | OUT_OF_SCOPE
                 | CANCEL_CONFLICT | RESERVATION_MISMATCH | ILLEGAL_TRANSITION

  /** Reservation and session k + 1 are at position k. `pending` counts, per connector, the releases that have been
      decided and still wait for the connector lock. */
  datatype State = State(
    connectors: map<string, Status>,
    reservations: seq<Reservation>,
    sessions: seq<Session>,
    pending: multiset<string>)

  const MINUTE: int := 60000

  /** The table of legal session transitions. */
  function Legal(from: Phase): set<Phase> {
    match from
    case RESERVED => {PREPARING, Phase.CANCELLED}
    case PREPARING => {CHARGING, FAILED, Phase.CANCELLED}
    case CHARGING => {SUSPENDED, COMPLETED, FAILED}
    case SUSPENDED => {CHARGING, COMPLETED, FAILED}
    case _ => {}
  }

  predicate Terminal(phase: Phase) {
    phase in {COMPLETED, FAILED, Phase.CANCELLED}
  }

  predicate Active(phase: Phase) {
    phase in {PREPARING, CHARGING, SUSPENDED}
  }

  predicate Bookable(status: Status) {
    status == AVAILABLE || status == Status.RESERVED
  }

  // ---- operations ----

  predicate WindowOk(startAt: int, endAt: int, now: int) {
    endAt > startAt && 15 * MINUTE <= endAt - startAt <= 120 * MINUTE && startAt >= now - MINUTE
  }

  predicate Clashes(r: Reservation, key: string, startAt: int, endAt: int) {
    r.connector == key && r.status in {BOOKED, CONVERTED} && r.startAt < endAt && r.endAt > startAt
  }

  predicate SomeClash(rs: seq<Reservation>, key: string, startAt: int, endAt: int) {
    exists i :: 0 <= i < |rs| && Clashes(rs[i], key, startAt, endAt)
  }

  predicate IsBooked(r: Reservation, key: string) {
    r.connector == key && r.status == BOOKED
  }

  predicate HasBooked(rs: seq<Reservation>, key: string) {
    exists i :: 0 <= i < |rs| && IsBooked(rs[i], key)
  }

  function CreateError(st: State, key: string, startAt: int, endAt: int, now: int): Option<Error> {
    if !WindowOk(startAt, endAt, now) then Some(INVALID_WINDOW)
    else if key !in st.connectors then Some(INVALID_CONNECTOR)
    else if !Bookable(st.connectors[key]) then Some(NOT_BOOKABLE)
    else if SomeClash(st.reservations, key, startAt, endAt) then Some(OVERLAP)
    else None
  }

  function Created(st: State, user: int, key: string, startAt: int, endAt: int): State {
    st.(reservations := st.reservations + [Reservation(key, user, startAt, endAt, BOOKED)],
      connectors := st.connectors[key := Status.RESERVED])
  }

  /** The hold a connector should show, derived from its windows; only an available or reserved connector is touched. */
  function Synced(st: State, key: string): State {
    if key in st.connectors && Bookable(st.connectors[key]) then
      st.(connectors := st.connectors[key := if HasBooked(st.reservations, key) then Status.RESERVED else AVAILABLE])
    else st
  }

  /** `byOther`: the caller is a driver and not the owner; `outside`: an operator without this station. */
  function CancelError(st: State, rid: nat, byOther: bool, outside: bool): Option<Error> {
    if rid >= |st.reservations| then Some(NOT_FOUND)
    else if byOther then Some(FORBIDDEN)
    else if outside then Some(OUT_OF_SCOPE)
    else if st.reservations[rid].status != BOOKED then Some(CANCEL_CONFLICT)
    else None
  }

  function WithWindow(st: State, rid: nat, status: Window): State
    requires rid < |st.reservations|
  {
    st.(reservations := st.reservations[rid := st.reservations[rid].(status := status)])
  }

  /** First half of a cancellation; the release of the hold still waits for the connector lock. */
  function CancelBegun(st: State, rid: nat): State
    requires rid < |st.reservations|
  {
    WithWindow(st, rid, Window.CANCELLED).(pending := st.pending + multiset{st.reservations[rid].connector})
  }

  /** A waiting release gets the connector lock. */
  function ReleaseDone(st: State, key: string): State
    requires key in st.pending
  {
    Synced(st.(pending := st.pending - multiset{key}), key)
  }

  /** The expiry sweep's turn for one reservation, under the connector lock. */
  function SweptOne(st: State, rid: nat, cutoff: int): State
    requires rid < |st.reservations|
  {
    if st.reservations[rid].status == BOOKED && st.reservations[rid].startAt < cutoff then
      Synced(WithWindow(st, rid, EXPIRED), st.reservations[rid].connector)
    else st
  }

  predicate IsMine(r: Reservation, key: string, user: int) {
    IsBooked(r, key) && r.user == user
  }

  /** The first booked window on the connector that belongs to the caller, or the number of reservations. */
  function Mine(rs: seq<Reservation>, key: string, user: int): (i: nat)
    ensures i <= |rs| && (i < |rs| ==> IsMine(rs[i], key, user))
    ensures forall j :: 0 <= j < i ==> !IsMine(rs[j], key, user)
  {
    if rs == [] then 0
    else
      var i := Mine(rs[..|rs| - 1], key, user);
      if i < |rs| - 1 || IsMine(rs[i], key, user) then i else |rs|
  }

  /** The window a start converts: the one named, or on a reserved connector the caller's own. */
  function StartWindow(st: State, user: int, key: string, named: Option<nat>): Option<nat>
    requires key in st.connectors
  {
    if named.Some? then named
    else if st.connectors[key] == Status.RESERVED then Some(Mine(st.reservations, key, user))
    else None
  }

  function StartError(st: State, user: int, key: string, named: Option<nat>): Option<Error> {
    if key !in st.connectors then Some(INVALID_CONNECTOR)
    else if !Bookable(st.connectors[key]) then Some(NOT_BOOKABLE)
    else
      var window := StartWindow(st, user, key, named);
      if window.Some? && !(window.value < |st.reservations| && IsMine(st.reservations[window.value], key, user)) then
        Some(RESERVATION_MISMATCH)
      else None
  }

  function Started(st: State, user: int, key: string, named: Option<nat>): State
    requires StartError(st, user, key, named).None?
  {
    var window := StartWindow(st, user, key, named);
    var begun := st.(sessions := st.sessions + [Session(key, user, window, PREPARING)],
      connectors := st.connectors[key := OCCUPIED]);
    if window.Some? then WithWindow(begun, window.value, CONVERTED) else begun
  }

  function TransitionError(st: State, sid: nat, to: Phase): Option<Error> {
    if sid >= |st.sessions| then Some(NOT_FOUND)
    else if to !in Legal(st.sessions[sid].phase) then Some(ILLEGAL_TRANSITION)
    else None
  }

  /** First half of a transition; a terminal one leaves a release waiting for the connector lock. */
  function TransitionBegun(st: State, sid: nat, to: Phase): State
    requires TransitionError(st, sid, to).None?
  {
    var key := st.sessions[sid].connector;
    var status := if to == CHARGING then Some(OCCUPIED) else if Terminal(to) then Some(AVAILABLE) else None;
    State(
      if key in st.connectors && status.Some? then st.connectors[key := status.value] else st.connectors,
      st.reservations,
      st.sessions[sid := st.sessions[sid].(phase := to)],
      if Terminal(to) then st.pending + multiset{key} else st.pending)
  }

  /** A meter tick with sequence number seq >= 1 starts a prepared session. */
  function Ticked(st: State, sid: nat, seqNo: int): State
    requires sid < |st.sessions|
  {
    if st.sessions[sid].phase == PREPARING && seqNo >= 1 then
      st.(sessions := st.sessions[sid := st.sessions[sid].(phase := CHARGING)])
    else st
  }

  // ---- the store ----

  class Store {
    var connectors: map<string, Status>
    var reservations: seq<Reservation>
    var sessions: seq<Session>
    var pending: multiset<string>

    ghost function Now(): State
      reads this
    {
      State(connectors, reservations, sessions, pending)
    }

    /** A store with these connectors and nothing booked. */
    constructor (connectors: map<string, Status>)
      ensures Now() == State(connectors, [], [], multiset{})
    {
      this.connectors, reservations, sessions, pending := connectors, [], [], multiset{};
    }

    method CreateReservation(user: int, key: string, startAt: int, endAt: int, now: int) returns (error: Option<Error>)
      modifies this
      ensures error == CreateError(old(Now()), key, startAt, endAt, now)
      ensures Now() == if error.Some? then old(Now()) else Created(old(Now()), user, key, startAt, endAt)
    {
      if !(endAt > startAt) || endAt - startAt < 15 * MINUTE || endAt - startAt > 120 * MINUTE
        || startAt < now - MINUTE {
        return Some(INVALID_WINDOW);
      }
      if key !in connectors {
        return Some(INVALID_CONNECTOR);
      }
      if !Bookable(connectors[key]) {
        return Some(NOT_BOOKABLE);
      }
      for i := 0 to |reservations|
        invariant forall j :: 0 <= j < i ==> !Clashes(reservations[j], key, startAt, endAt)
      {
        if Clashes(reservations[i], key, startAt, endAt) {
          return Some(OVERLAP);
        }
      }
      reservations := reservations + [Reservation(key, user, startAt, endAt, BOOKED)];
      connectors := connectors[key := Status.RESERVED];
      error := None;
    }

    method SyncConnectorHold(key: string)
      modifies this`connectors
      ensures Now() == Synced(old(Now()), key)
    {
      if key !in connectors || !Bookable(connectors[key]) {
        return;
      }
      var booked := false;
      var i := 0;
      while i < |reservations| && !booked
        invariant 0 <= i <= |reservations| && connectors == old(connectors)
        invariant booked <==> exists j :: 0 <= j < i && IsBooked(reservations[j], key)
      {
        booked := reservations[i].connector == key && reservations[i].status == BOOKED;
        i := i + 1;
      }
      connectors := connectors[key := if booked then Status.RESERVED else AVAILABLE];
    }

    method BeginCancel(rid: nat, byOther: bool, outside: bool) returns (error: Option<Error>)
      modifies this
      ensures error == CancelError(old(Now()), rid, byOther, outside)
      ensures Now() == if error.Some? then old(Now()) else CancelBegun(old(Now()), rid)
    {
      if rid >= |reservations| {
        return Some(NOT_FOUND);
      }
      if byOther {
        return Some(FORBIDDEN);
      }
      if outside {
        return Some(OUT_OF_SCOPE);
      }
      if reservations[rid].status != BOOKED {
        return Some(CANCEL_CONFLICT);
      }
      pending := pending + multiset{reservations[rid].connector};
      reservations := reservations[rid := reservations[rid].(status := Window.CANCELLED)];
      error := None;
    }

    method FinishRelease(key: string)
      requires key in pending
      modifies this
      ensures Now() == ReleaseDone(old(Now()), key)
    {
      pending := pending - multiset{key};
      SyncConnectorHold(key);
    }

    method ExpireOne(rid: nat, cutoff: int)
      requires rid < |reservations|
      modifies this
      ensures Now() == SweptOne(old(Now()), rid, cutoff)
    {
      var r := reservations[rid];
      if r.status != BOOKED || !(r.startAt < cutoff) {
        return;
      }
      reservations := reservations[rid := r.(status := EXPIRED)];
      SyncConnectorHold(r.connector);
    }

    method FindMine(key: string, user: int) returns (i: nat)
      ensures i == Mine(reservations, key, user)
    {
      i := 0;
      while i < |reservations| && !IsMine(reservations[i], key, user)
        invariant 0 <= i <= |reservations|
        invariant forall j :: 0 <= j < i ==> !IsMine(reservations[j], key, user)
      {
        i := i + 1;
      }
    }

    method StartSession(user: int, key: string, named: Option<nat>) returns (error: Option<Error>)
      modifies this
      ensures error == StartError(old(Now()), user, key, named)
      ensures Now() == if error.Some? then old(Now()) else Started(old(Now()), user, key, named)
    {
      if key !in connectors {
        return Some(INVALID_CONNECTOR);
      }
      if !Bookable(connectors[key]) {
        return Some(NOT_BOOKABLE);
      }
      var window := named;
      if named.Some? {
        if named.value >= |reservations| || !IsMine(reservations[named.value], key, user) {
          return Some(RESERVATION_MISMATCH);
        }
      } else if connectors[key] == Status.RESERVED {
        var mine := FindMine(key, user);
        if mine == |reservations| {
          return Some(RESERVATION_MISMATCH);
        }
        window := Some(mine);
      }
      sessions := sessions + [Session(key, user, window, PREPARING)];
      if window.Some? {
        reservations := reservations[window.value := reservations[window.value].(status := CONVERTED)];
      }
      connectors := connectors[key := OCCUPIED];
      error := None;
    }

    method BeginTransition(sid: nat, to: Phase) returns (error: Option<Error>)
      modifies this
      ensures error == TransitionError(old(Now()), sid, to)
      ensures Now() == if error.Some? then old(Now()) else TransitionBegun(old(Now()), sid, to)
    {
      if sid >= |sessions| {
        return Some(NOT_FOUND);
      }
      if to !in Legal(sessions[sid].phase) {
        return Some(ILLEGAL_TRANSITION);
      }
      var key := sessions[sid].connector;
      sessions := sessions[sid := sessions[sid].(phase := to)];
      if key in connectors {
        if to == CHARGING {
          connectors := connectors[key := OCCUPIED];
        }
        if Terminal(to) {
          connectors := connectors[key := AVAILABLE];
        }
      }
      if Terminal(to) {
        pending := pending + multiset{key};
      }
      error := None;
    }

    method Tick(sid: nat, seqNo: int)
      requires sid < |sessions|
      modifies this`sessions
      ensures Now() == Ticked(old(Now()), sid, seqNo)
    {
      if sessions[sid].phase == PREPARING && seqNo >= 1 {
        sessions := sessions[sid := sessions[sid].(phase := CHARGING)];
      }
    }
  }

  // ---- safety ----

  predicate Live(r: Reservation) {
    r.status == BOOKED || r.status == CONVERTED
  }

  predicate Overlapping(a: Reservation, b: Reservation) {
    a.connector == b.connector && a.startAt < b.endAt && b.startAt < a.endAt
  }

  /** No two live windows of one connector overlap. */
  ghost predicate NoDoubleBooking(rs: seq<Reservation>) {
    forall i, j :: 0 <= i < j < |rs| && Live(rs[i]) && Live(rs[j]) ==> !Overlapping(rs[i], rs[j])
  }

  predicate ActiveOn(s: Session, key: string) {
    s.connector == key && Active(s.phase)
  }

  ghost predicate SomeActive(ss: seq<Session>, key: string) {
    exists i :: 0 <= i < |ss| && ActiveOn(ss[i], key)
  }

  ghost predicate OneActive(ss: seq<Session>) {
    forall i, j :: 0 <= i < j < |ss| && Active(ss[i].phase) && Active(ss[j].phase)
      ==> ss[i].connector != ss[j].connector
  }

  /** A connector is occupied exactly while a session is active on it (never more than one, by OneActive), and once no
      release waits for its lock, an available or reserved one is reserved exactly while a window on it is booked. */
  ghost predicate ConnectorOk(st: State, key: string)
    requires key in st.connectors
  {
    && (st.connectors[key] == OCCUPIED <==> SomeActive(st.sessions, key))
    && (key !in st.pending && Bookable(st.connectors[key]) ==>
          (st.connectors[key] == Status.RESERVED <==> HasBooked(st.reservations, key)))
  }

  /** A session's window is converted, on its connector, and serves no other session. */
  ghost predicate WindowsServe(st: State) {
    && (forall s :: 0 <= s < |st.sessions| && st.sessions[s].reservation.Some? ==> Serves(st, st.sessions[s]))
    && (forall s, u :: 0 <= s < u < |st.sessions| && st.sessions[s].reservation.Some? ==>
          st.sessions[s].reservation != st.sessions[u].reservation)
  }

  ghost predicate Serves(st: State, s: Session)
    requires s.reservation.Some?
  {
    && s.reservation.value < |st.reservations|
    && st.reservations[s.reservation.value].status == CONVERTED
    && st.reservations[s.reservation.value].connector == s.connector
    && st.reservations[s.reservation.value].user == s.user
  }

  ghost predicate Safe(st: State) {
    && (forall s :: 0 <= s < |st.sessions| ==>
         st.sessions[s].connector in st.connectors && st.sessions[s].phase != Phase.RESERVED)
    && NoDoubleBooking(st.reservations)
    && OneActive(st.sessions)
    && (forall key :: key in st.connectors ==> ConnectorOk(st, key))
    && WindowsServe(st)
  }

  datatype Step =
    | Create(user: int, key: string, startAt: int, endAt: int, now: int)
    | Cancel(rid: nat, byOther: bool, outside: bool)
    | Release(key: string)
    | Sweep(rid: nat, cutoff: int)
    | Start(user: int, key: string, named: Option<nat>)
    | Transition(sid: nat, to: Phase)
    | Tick(sid: nat, seqNo: int)

  predicate Enabled(st: State, step: Step) {
    match step
    case Create(_, key, startAt, endAt, now) => CreateError(st, key, startAt, endAt, now).None?
    case Cancel(rid, byOther, outside) => CancelError(st, rid, byOther, outside).None?
    case Release(key) => key in st.pending
    case Sweep(rid, _) => rid < |st.reservations|
    case Start(user, key, named) => StartError(st, user, key, named).None?
    case Transition(sid, to) => TransitionError(st, sid, to).None?
    case Tick(sid, _) => sid < |st.sessions| && Active(st.sessions[sid].phase)
  }

  function Next(st: State, step: Step): State
    requires Enabled(st, step)
  {
    match step
    case Create(user, key, startAt, endAt, _) => Created(st, user, key, startAt, endAt)
    case Cancel(rid, _, _) => CancelBegun(st, rid)
    case Release(key) => ReleaseDone(st, key)
    case Sweep(rid, cutoff) => SweptOne(st, rid, cutoff)
    case Start(user, key, named) => Started(st, user, key, named)
    case Transition(sid, to) => TransitionBegun(st, sid, to)
    case Tick(sid, seqNo) => Ticked(st, sid, seqNo)
  }

  lemma CreateSafe(st: State, user: int, key: string, startAt: int, endAt: int, now: int)
    requires Safe(st) && CreateError(st, key, startAt, endAt, now).None?
    ensures Safe(Created(st, user, key, startAt, endAt))
  {
    var r := Created(st, user, key, startAt, endAt);
    var n := |st.reservations|;
    forall i | 0 <= i < n && Live(st.reservations[i]) ensures !Overlapping(r.reservations[i], r.reservations[n]) {
      assert !Clashes(st.reservations[i], key, startAt, endAt);
    }
    forall k | k in r.connectors ensures ConnectorOk(r, k) {
      assert ConnectorOk(st, k);
      if k == key {
        assert IsBooked(r.reservations[n], key);
      } else {
        BookedElsewhere(st.reservations, r.reservations[n], k);
      }
    }
    forall s | 0 <= s < |r.sessions| && r.sessions[s].reservation.Some? ensures Serves(r, r.sessions[s]) {
      assert Serves(st, st.sessions[s]);
    }
  }

  lemma BookedElsewhere(rs: seq<Reservation>, extra: Reservation, key: string)
    requires !IsBooked(extra, key)
    ensures HasBooked(rs + [extra], key) <==> HasBooked(rs, key)
  {
    if HasBooked(rs, key) {
      var i :| 0 <= i < |rs| && IsBooked(rs[i], key);
      assert IsBooked((rs + [extra])[i], key);
    }
  }

  /** Changing the status of one window only matters on its own connector. */
  lemma WindowElsewhere(st: State, rid: nat, status: Window, key: string)
    requires rid < |st.reservations| && st.reservations[rid].connector != key
    ensures HasBooked(WithWindow(st, rid, status).reservations, key) <==> HasBooked(st.reservations, key)
  {
    var rs := WithWindow(st, rid, status).reservations;
    if HasBooked(st.reservations, key) {
      var i :| 0 <= i < |st.reservations| && IsBooked(st.reservations[i], key);
      assert IsBooked(rs[i], key);
    }
    if HasBooked(rs, key) {
      var i :| 0 <= i < |rs| && IsBooked(rs[i], key);
      assert IsBooked(st.reservations[i], key);
    }
  }

  /** A booked window may leave the live ones at any time, as long as a release is waiting or the hold is derived
      anew. */
  lemma DropKeeps(st: State, rid: nat, status: Window)
    requires Safe(st) && rid < |st.reservations| && st.reservations[rid].status == BOOKED
      && status in {Window.CANCELLED, EXPIRED}
    ensures var r := WithWindow(st, rid, status);
            && NoDoubleBooking(r.reservations) && WindowsServe(r)
            && forall k :: k in r.connectors && k != st.reservations[rid].connector ==> ConnectorOk(r, k)
  {
    var r := WithWindow(st, rid, status);
    forall s | 0 <= s < |r.sessions| && r.sessions[s].reservation.Some? ensures Serves(r, r.sessions[s]) {
      assert Serves(st, st.sessions[s]);
    }
    forall k | k in r.connectors && k != st.reservations[rid].connector ensures ConnectorOk(r, k) {
      assert ConnectorOk(st, k);
      WindowElsewhere(st, rid, status, k);
    }
  }

  lemma CancelSafe(st: State, rid: nat)
    requires Safe(st) && rid < |st.reservations| && st.reservations[rid].status == BOOKED
    ensures Safe(CancelBegun(st, rid))
  {
    DropKeeps(st, rid, Window.CANCELLED);
    var m, r := WithWindow(st, rid, Window.CANCELLED), CancelBegun(st, rid);
    forall k | k in r.connectors ensures ConnectorOk(r, k) {
      assert ConnectorOk(st, k);
      if k != st.reservations[rid].connector {
        assert ConnectorOk(m, k);
      }
    }
    forall s | 0 <= s < |r.sessions| && r.sessions[s].reservation.Some? ensures Serves(r, r.sessions[s]) {
      assert Serves(m, m.sessions[s]);
    }
  }

  /** Everything safe but one connector's hold: deriving the hold makes it safe. */
  lemma SyncSafe(st: State, key: string)
    requires forall s :: 0 <= s < |st.sessions| ==>
      st.sessions[s].connector in st.connectors && st.sessions[s].phase != Phase.RESERVED
    requires NoDoubleBooking(st.reservations) && OneActive(st.sessions) && WindowsServe(st)
    requires forall k :: k in st.connectors && k != key ==> ConnectorOk(st, k)
    requires key in st.connectors ==> (st.connectors[key] == OCCUPIED <==> SomeActive(st.sessions, key))
    ensures Safe(Synced(st, key))
  {
    var r := Synced(st, key);
    forall k | k in r.connectors ensures ConnectorOk(r, k) {
      if k != key {
        assert ConnectorOk(st, k);
      }
    }
    forall s | 0 <= s < |r.sessions| && r.sessions[s].reservation.Some? ensures Serves(r, r.sessions[s]) {
      assert Serves(st, st.sessions[s]);
    }
  }

  lemma ReleaseSafe(st: State, key: string)
    requires Safe(st) && key in st.pending
    ensures Safe(ReleaseDone(st, key))
  {
    var m := st.(pending := st.pending - multiset{key});
    forall k | k in m.connectors && k != key ensures ConnectorOk(m, k) {
      assert ConnectorOk(st, k);
    }
    forall s | 0 <= s < |m.sessions| && m.sessions[s].reservation.Some? ensures Serves(m, m.sessions[s]) {
      assert Serves(st, st.sessions[s]);
    }
    if key in m.connectors {
      assert ConnectorOk(st, key);
    }
    SyncSafe(m, key);
  }

  lemma SweepSafe(st: State, rid: nat, cutoff: int)
    requires Safe(st) && rid < |st.reservations|
    ensures Safe(SweptOne(st, rid, cutoff))
  {
    if st.reservations[rid].status == BOOKED && st.reservations[rid].startAt < cutoff {
      var key := st.reservations[rid].connector;
      DropKeeps(st, rid, EXPIRED);
      if key in st.connectors {
        assert ConnectorOk(st, key);
      }
      SyncSafe(WithWindow(st, rid, EXPIRED), key);
    }
  }

  lemma ConvertKeeps(st: State, rid: nat)
    requires NoDoubleBooking(st.reservations) && rid < |st.reservations| && st.reservations[rid].status == BOOKED
    ensures NoDoubleBooking(WithWindow(st, rid, CONVERTED).reservations)
  {
    var rs := WithWindow(st, rid, CONVERTED).reservations;
    forall i, j | 0 <= i < j < |rs| && Live(rs[i]) && Live(rs[j]) ensures !Overlapping(rs[i], rs[j]) {
      assert !Overlapping(st.reservations[i], st.reservations[j]);
    }
  }

  /** A connector that can be booked has no active session. */
  lemma StartSafe(st: State, user: int, key: string, named: Option<nat>)
    requires Safe(st) && StartError(st, user, key, named).None?
    ensures Safe(Started(st, user, key, named))
  {
    var r := Started(st, user, key, named);
    var n := |st.sessions|;
    var window := StartWindow(st, user, key, named);
    assert ConnectorOk(st, key);
    if window.Some? {
      ConvertKeeps(st.(sessions := r.sessions, connectors := r.connectors), window.value);
    }
    forall i | 0 <= i < n && Active(st.sessions[i].phase) ensures st.sessions[i].connector != key {
      assert ActiveOn(st.sessions[i], st.sessions[i].connector);
    }
    StartConnectors(st, user, key, named);
    StartWindows(st, user, key, named);
  }

  lemma StartConnectors(st: State, user: int, key: string, named: Option<nat>)
    requires Safe(st) && StartError(st, user, key, named).None?
    ensures var r := Started(st, user, key, named);
            forall k :: k in r.connectors ==> ConnectorOk(r, k)
  {
    var r := Started(st, user, key, named);
    var n := |st.sessions|;
    var window := StartWindow(st, user, key, named);
    forall k | k in r.connectors ensures ConnectorOk(r, k) {
      assert ConnectorOk(st, k);
      if k == key {
        assert ActiveOn(r.sessions[n], key);
      } else {
        ActiveElsewhere(st.sessions, r.sessions, k, n);
        if window.Some? {
          WindowElsewhere(st, window.value, CONVERTED, k);
        }
      }
    }
  }

  /** Sessions that differ at position n only, which is on another connector. */
  lemma ActiveElsewhere(a: seq<Session>, b: seq<Session>, key: string, n: nat)
    requires |a| <= |b| && n < |b| && (forall i :: 0 <= i < |b| && i != n ==> i < |a| && b[i] == a[i])
    requires b[n].connector != key && (n < |a| ==> a[n].connector != key)
    ensures SomeActive(a, key) <==> SomeActive(b, key)
  {
    if SomeActive(a, key) {
      var i :| 0 <= i < |a| && ActiveOn(a[i], key);
      assert ActiveOn(b[i], key);
    }
    if SomeActive(b, key) {
      var i :| 0 <= i < |b| && ActiveOn(b[i], key);
      assert ActiveOn(a[i], key);
    }
  }

  lemma StartWindows(st: State, user: int, key: string, named: Option<nat>)
    requires Safe(st) && StartError(st, user, key, named).None?
    ensures WindowsServe(Started(st, user, key, named))
  {
    var r := Started(st, user, key, named);
    var n := |st.sessions|;
    forall s | 0 <= s < |r.sessions| && r.sessions[s].reservation.Some?
      ensures Serves(r, r.sessions[s]) && (s < n ==> r.sessions[s].reservation != r.sessions[n].reservation)
    {
      if s < n {
        assert Serves(st, st.sessions[s]);
      }
    }
  }

  lemma TransitionSafe(st: State, sid: nat, to: Phase)
    requires Safe(st) && TransitionError(st, sid, to).None?
    ensures Safe(TransitionBegun(st, sid, to))
  {
    var r := TransitionBegun(st, sid, to);
    var key := st.sessions[sid].connector;
    assert ActiveOn(st.sessions[sid], key);
    assert ConnectorOk(st, key);
    forall k | k in r.connectors ensures ConnectorOk(r, k) {
      assert ConnectorOk(st, k);
      if k != key {
        ActiveElsewhere(st.sessions, r.sessions, k, sid);
      } else if !Terminal(to) {
        assert ActiveOn(r.sessions[sid], key);
      } else {
        forall i | 0 <= i < |r.sessions| ensures !ActiveOn(r.sessions[i], key) {
          assert i != sid ==> r.sessions[i] == st.sessions[i];
        }
      }
    }
    forall s | 0 <= s < |r.sessions| && r.sessions[s].reservation.Some? ensures Serves(r, r.sessions[s]) {
      assert Serves(st, st.sessions[s]);
    }
  }

  lemma TickSafe(st: State, sid: nat, seqNo: int)
    requires Safe(st) && sid < |st.sessions|
    ensures Safe(Ticked(st, sid, seqNo))
  {
    var r := Ticked(st, sid, seqNo);
    if r != st {
      forall k | k in r.connectors ensures ConnectorOk(r, k) {
        assert ConnectorOk(st, k);
        if k == st.sessions[sid].connector {
          assert ActiveOn(st.sessions[sid], k) && ActiveOn(r.sessions[sid], k);
        } else {
          ActiveElsewhere(st.sessions, r.sessions, k, sid);
        }
      }
      forall s | 0 <= s < |r.sessions| && r.sessions[s].reservation.Some? ensures Serves(r, r.sessions[s]) {
        assert Serves(st, st.sessions[s]);
      }
    }
  }

  lemma StepSafe(st: State, step: Step)
    requires Safe(st) && Enabled(st, step)
    ensures Safe(Next(st, step))
  {
    match step {
      case Create(user, key, startAt, endAt, now) => CreateSafe(st, user, key, startAt, endAt, now);
      case Cancel(rid, _, _) => CancelSafe(st, rid);
      case Release(key) => ReleaseSafe(st, key);
      case Sweep(rid, cutoff) => SweepSafe(st, rid, cutoff);
      case Start(user, key, named) => StartSafe(st, user, key, named);
      case Transition(sid, to) => TransitionSafe(st, sid, to);
      case Tick(sid, seqNo) => TickSafe(st, sid, seqNo);
    }
  }

  /** A run from a store in which no connector is reserved or occupied yet. */
  ghost predicate Run(states: seq<State>, steps: seq<Step>) {
    && |states| == |steps| + 1
    && states[0] == State(states[0].connectors, [], [], multiset{})
    && (forall k :: k in states[0].connectors ==> states[0].connectors[k] in {AVAILABLE, FAULTED, OFFLINE, UNAVAILABLE})
    && forall k :: 0 <= k < |steps| ==> Enabled(states[k], steps[k]) && states[k + 1] == Next(states[k], steps[k])
  }

  /** Under every interleaving of the steps: no double booking, no double occupation, and holds that agree with the
      bookings as soon as no release is waiting. */
  lemma {:induction false} RunSafe(states: seq<State>, steps: seq<Step>, k: nat)
    requires Run(states, steps) && k <= |steps|
    ensures Safe(states[k])
  {
    if k > 0 {
      RunSafe(states, steps, k - 1);
      StepSafe(states[k - 1], steps[k - 1]);
    }
  }

  /** Once no release is waiting, a session starts on a booked connector only by converting a window of its own
      driver. */
  lemma StartOwnsWindow(st: State, user: int, key: string, named: Option<nat>)
    requires Safe(st) && StartError(st, user, key, named).None? && key !in st.pending && HasBooked(st.reservations, key)
    ensures var window := StartWindow(st, user, key, named);
            window.Some? && IsMine(st.reservations[window.value], key, user)
  {
    assert ConnectorOk(st, key);
  }
}
