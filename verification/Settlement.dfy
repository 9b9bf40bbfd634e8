/** Settling signed top-ups: one credit per intent, whatever interleaves while the wallet is being credited. */
module Settlement {
  import opened Reals
  import opened Locks

  datatype Status = PENDING | SETTLED | EXPIRED

  datatype Intent = Intent(user: int, amount: real, status: Status, expiresAt: int)

  /** Where a settle call is: before its checks, inside the awaited top-up, credited but not yet marked, or over. */
  datatype Stage = Queued | Paying | Paid | Over

  datatype Call = Call(intent: string, user: int, stage: Stage)

  /** A ledger entry, identified by the intent its note names. */
  datatype Credit = Credit(intent: string, user: int, amount: real)

  /** Call t is the task t of the mutex. */
  datatype State = State(locks: LockState, intents: map<string, Intent>, credits: seq<Credit>, calls: seq<Call>)

  datatype Step =
    | Create(id: string, user: int, amount: real, expiresAt: int)
    | Settle(id: string, user: int)
    | Start(t: nat)
    | Check(t: nat, now: int, signed: bool)
    | TopupFails(t: nat)
    | TopupCredits(t: nat)
    | Finish(t: nat)
    | Prune(now: int)

  function LockKey(id: string): string {
    "wallet-intent:" + id
  }

  /** Intents past their time expire, unless they were settled. */
  function Expired(i: Intent, now: int): Intent {
    if i.expiresAt < now && i.status == PENDING then i.(status := EXPIRED) else i
  }

  function Swept(intents: map<string, Intent>, now: int): map<string, Intent> {
    map id | id in intents :: Expired(intents[id], now)
  }

  predicate AtStage(st: State, t: nat, stage: Stage) {
    t < |st.calls| && t < |st.locks.tasks| && st.calls[t].stage == stage && st.locks.tasks[t].phase == Running
  }

  /** The checks of settleTopup on the swept intents. */
  predicate Payable(intents: map<string, Intent>, call: Call, now: int, signed: bool) {
    && call.intent in intents
    && intents[call.intent].user == call.user
    && intents[call.intent].status == PENDING
    && intents[call.intent].expiresAt >= now
    && signed
  }

  predicate Enabled(st: State, step: Step) {
    match step
    case Create(id, _, _, _) => id !in st.intents
    case Settle(_, _) => true
    case Start(t) => MayRun(st.locks, t)
    case Check(t, _, _) => AtStage(st, t, Queued)
    case TopupFails(t) => AtStage(st, t, Paying)
    case TopupCredits(t) => AtStage(st, t, Paying) && st.calls[t].intent in st.intents
    case Finish(t) => AtStage(st, t, Paid) && st.calls[t].intent in st.intents
    case Prune(_) => true
  }

  function Moved(st: State, t: nat, stage: Stage): State
    requires t < |st.calls|
  {
    st.(calls := st.calls[t := st.calls[t].(stage := stage)])
  }

  /** The call returns or throws: its lock is released. */
  function Ended(st: State, t: nat): State
    requires t < |st.calls| && t < |st.locks.tasks| && st.locks.tasks[t].phase == Running
  {
    Moved(st, t, Over).(locks := Freed(st.locks, t))
  }

  function Next(st: State, step: Step): State
    requires Enabled(st, step)
  {
    match step
    case Create(id, user, amount, expiresAt) =>
      st.(intents := st.intents[id := Intent(user, amount, PENDING, expiresAt)])
    case Settle(id, user) => st.(locks := Entered(st.locks, LockKey(id)), calls := st.calls + [Call(id, user, Queued)])
    case Start(t) => st.(locks := Acquired(st.locks, t))
    case Check(t, now, signed) =>
      var swept := st.(intents := Swept(st.intents, now));
      if Payable(swept.intents, st.calls[t], now, signed) then Moved(swept, t, Paying) else Ended(swept, t)
    case TopupFails(t) => Ended(st, t)
    case TopupCredits(t) =>
      var id := st.calls[t].intent;
      Moved(st, t, Paid).(credits := st.credits + [Credit(id, st.calls[t].user, st.intents[id].amount)])
    case Finish(t) =>
      var id := st.calls[t].intent;
      Ended(st, t).(intents := st.intents[id := st.intents[id].(status := SETTLED)])
    case Prune(now) => st.(intents := Swept(st.intents, now))
  }

  // ---- the invariant ----

  function Count(credits: seq<Credit>, id: string): nat {
    if credits == [] then 0 else Count(credits[..|credits| - 1], id) + if credits[|credits| - 1].intent == id
      then 1 else 0
  }

  lemma CountPush(credits: seq<Credit>, c: Credit, id: string)
    ensures Count(credits + [c], id) == Count(credits, id) + if c.intent == id then 1 else 0
  {
    assert (credits + [c])[..|credits|] == credits;
  }

  ghost predicate CallOk(st: State, t: nat)
    requires t < |st.calls| == |st.locks.tasks|
  {
    var call, task := st.calls[t], st.locks.tasks[t];
    && task.key == LockKey(call.intent)
    && (call.stage == Over <==> task.phase == Released)
    && (call.stage in {Paying, Paid} ==>
         task.phase == Running && call.intent in st.intents && st.intents[call.intent].user == call.user)
    && (call.stage == Paying ==> Count(st.credits, call.intent) == 0)
    && (call.stage == Paid ==> Count(st.credits, call.intent) == 1)
  }

  /** Some call has credited the intent and not marked it yet. */
  ghost predicate Marking(st: State, id: string) {
    exists t :: 0 <= t < |st.calls| && st.calls[t].intent == id && st.calls[t].stage == Paid
  }

  ghost predicate IntentOk(st: State, id: string) {
    && Count(st.credits, id) <= 1
    && (id in st.intents && st.intents[id].status == SETTLED ==> Count(st.credits, id) == 1)
    && (Count(st.credits, id) == 1 ==> id in st.intents && (st.intents[id].status == SETTLED || Marking(st, id)))
  }

  /** Every credit went to the user and in the amount its intent names. */
  ghost predicate CreditsOk(st: State) {
    forall k :: 0 <= k < |st.credits| ==> CreditOk(st.intents, st.credits[k])
  }

  ghost predicate CreditOk(intents: map<string, Intent>, c: Credit) {
    c.intent in intents && intents[c.intent].user == c.user && intents[c.intent].amount == c.amount
  }

  ghost predicate Sound(st: State) {
    && Inv(st.locks) && |st.calls| == |st.locks.tasks|
    && (forall t :: 0 <= t < |st.calls| ==> CallOk(st, t))
    && (forall id :: IntentOk(st, id))
    && CreditsOk(st)
  }

  /** At most one call is past its checks on one intent. */
  lemma OneAtATime(st: State, t: nat, u: nat)
    requires Sound(st) && t < |st.calls| && u < |st.calls| && st.calls[t].intent == st.calls[u].intent
    requires st.locks.tasks[t].phase == Running && st.locks.tasks[u].phase == Running
    ensures t == u
  {
    assert CallOk(st, t) && CallOk(st, u);
    if t < u {
      MutualExclusion(st.locks, t, u);
    } else if u < t {
      MutualExclusion(st.locks, u, t);
    }
  }

  lemma CreateKeeps(st: State, id: string, user: int, amount: real, expiresAt: int)
    requires Sound(st) && Enabled(st, Create(id, user, amount, expiresAt))
    ensures Sound(Next(st, Create(id, user, amount, expiresAt)))
  {
    var r := Next(st, Create(id, user, amount, expiresAt));
    forall t | 0 <= t < |r.calls| ensures CallOk(r, t) {
      assert CallOk(st, t);
    }
    forall k ensures IntentOk(r, k) {
      assert IntentOk(st, k);
      assert Marking(st, k) == Marking(r, k);
    }
    forall k | 0 <= k < |r.credits| ensures CreditOk(r.intents, r.credits[k]) {
      assert CreditOk(st.intents, st.credits[k]);
    }
  }

  lemma PruneKeeps(st: State, now: int)
    requires Sound(st)
    ensures Sound(st.(intents := Swept(st.intents, now)))
  {
    var r := st.(intents := Swept(st.intents, now));
    forall t | 0 <= t < |r.calls| ensures CallOk(r, t) {
      assert CallOk(st, t);
    }
    forall k ensures IntentOk(r, k) {
      assert IntentOk(st, k);
      assert Marking(st, k) == Marking(r, k);
    }
    forall k | 0 <= k < |r.credits| ensures CreditOk(r.intents, r.credits[k]) {
      assert CreditOk(st.intents, st.credits[k]);
    }
  }

  lemma SettleKeeps(st: State, id: string, user: int)
    requires Sound(st)
    ensures Sound(Next(st, Settle(id, user)))
  {
    var r := Next(st, Settle(id, user));
    EnterKeeps(st.locks, LockKey(id));
    forall t | 0 <= t < |r.calls| ensures CallOk(r, t) {
      if t < |st.calls| {
        assert CallOk(st, t);
      }
    }
    forall k ensures IntentOk(r, k) {
      assert IntentOk(st, k);
      MarkingStays(st, r, k);
    }
  }

  lemma MarkingStays(a: State, b: State, id: string)
    requires a.calls <= b.calls
    ensures Marking(a, id) ==> Marking(b, id)
  {
    if Marking(a, id) {
      var t :| 0 <= t < |a.calls| && a.calls[t].intent == id && a.calls[t].stage == Paid;
      assert b.calls[t].intent == id && b.calls[t].stage == Paid;
    }
  }

  lemma StartKeeps(st: State, t: nat)
    requires Sound(st) && MayRun(st.locks, t)
    ensures Sound(Next(st, Start(t)))
  {
    var r := Next(st, Start(t));
    AcquireKeeps(st.locks, t);
    forall u | 0 <= u < |r.calls| ensures CallOk(r, u) {
      assert CallOk(st, u);
    }
    forall k ensures IntentOk(r, k) {
      assert IntentOk(st, k);
      MarkingStays(st, r, k);
    }
  }

  /** A call that has credited nothing yet may end at any time. */
  lemma EndKeeps(st: State, t: nat)
    requires Sound(st) && t < |st.calls| && st.locks.tasks[t].phase == Running && st.calls[t].stage != Paid
    ensures Sound(Ended(st, t))
  {
    var r := Ended(st, t);
    ReleaseKeeps(st.locks, t);
    forall u | 0 <= u < |r.calls| ensures CallOk(r, u) {
      assert CallOk(st, u);
    }
    forall k ensures IntentOk(r, k) {
      assert IntentOk(st, k);
      if Marking(st, k) {
        var u :| 0 <= u < |st.calls| && st.calls[u].intent == k && st.calls[u].stage == Paid;
        assert r.calls[u].intent == k && r.calls[u].stage == Paid;
      }
    }
  }

  lemma CheckKeeps(st: State, t: nat, now: int, signed: bool)
    requires Sound(st) && Enabled(st, Check(t, now, signed))
    ensures Sound(Next(st, Check(t, now, signed)))
  {
    var swept := st.(intents := Swept(st.intents, now));
    PruneKeeps(st, now);
    if Payable(swept.intents, st.calls[t], now, signed) {
      BeginPaying(swept, t);
    } else {
      EndKeeps(swept, t);
    }
  }

  /** A pending intent whose lock is held has not been credited: nobody else can be between credit and mark. */
  lemma BeginPaying(st: State, t: nat)
    requires Sound(st) && AtStage(st, t, Queued) && st.calls[t].intent in st.intents
    requires st.intents[st.calls[t].intent].status == PENDING && st.intents[st.calls[t].intent].user == st.calls[t].user
    ensures Sound(Moved(st, t, Paying))
  {
    var r := Moved(st, t, Paying);
    var id := st.calls[t].intent;
    assert IntentOk(st, id);
    if Marking(st, id) {
      var u :| 0 <= u < |st.calls| && st.calls[u].intent == id && st.calls[u].stage == Paid;
      assert CallOk(st, u);
      OneAtATime(st, t, u);
    }
    forall u | 0 <= u < |r.calls| ensures CallOk(r, u) {
      assert CallOk(st, u);
    }
    forall k ensures IntentOk(r, k) {
      assert IntentOk(st, k);
      if Marking(st, k) {
        var u :| 0 <= u < |st.calls| && st.calls[u].intent == k && st.calls[u].stage == Paid;
        assert r.calls[u].intent == k && r.calls[u].stage == Paid;
      }
    }
  }

  lemma CreditKeeps(st: State, t: nat)
    requires Sound(st) && Enabled(st, TopupCredits(t))
    ensures Sound(Next(st, TopupCredits(t)))
  {
    var r := Next(st, TopupCredits(t));
    var id := st.calls[t].intent;
    var credit := Credit(id, st.calls[t].user, st.intents[id].amount);
    assert CallOk(st, t);
    forall u | 0 <= u < |r.calls| ensures CallOk(r, u) {
      assert CallOk(st, u);
      CountPush(st.credits, credit, st.calls[u].intent);
      if u != t && st.calls[u].intent == id && st.calls[u].stage in {Paying, Paid} {
        OneAtATime(st, t, u);
      }
    }
    assert r.calls[t].intent == id && r.calls[t].stage == Paid;
    forall k ensures IntentOk(r, k) {
      assert IntentOk(st, k);
      CountPush(st.credits, credit, k);
      if k != id && Marking(st, k) {
        var u :| 0 <= u < |st.calls| && st.calls[u].intent == k && st.calls[u].stage == Paid;
        assert r.calls[u].intent == k && r.calls[u].stage == Paid;
      }
    }
  }

  lemma FinishKeeps(st: State, t: nat)
    requires Sound(st) && Enabled(st, Finish(t))
    ensures Sound(Next(st, Finish(t)))
  {
    var r := Next(st, Finish(t));
    var id := st.calls[t].intent;
    assert CallOk(st, t);
    ReleaseKeeps(st.locks, t);
    forall u | 0 <= u < |r.calls| ensures CallOk(r, u) {
      assert CallOk(st, u);
    }
    forall k ensures IntentOk(r, k) {
      assert IntentOk(st, k);
      if k != id && Marking(st, k) {
        var u :| 0 <= u < |st.calls| && st.calls[u].intent == k && st.calls[u].stage == Paid;
        assert r.calls[u].intent == k && r.calls[u].stage == Paid;
      }
    }
    forall k | 0 <= k < |r.credits| ensures CreditOk(r.intents, r.credits[k]) {
      assert CreditOk(st.intents, st.credits[k]);
    }
  }

  lemma StepKeeps(st: State, step: Step)
    requires Sound(st) && Enabled(st, step)
    ensures Sound(Next(st, step))
  {
    match step {
      case Create(id, user, amount, expiresAt) => CreateKeeps(st, id, user, amount, expiresAt);
      case Settle(id, user) => SettleKeeps(st, id, user);
      case Start(t) => StartKeeps(st, t);
      case Check(t, now, signed) => CheckKeeps(st, t, now, signed);
      case TopupFails(t) => EndKeeps(st, t);
      case TopupCredits(t) => CreditKeeps(st, t);
      case Finish(t) => FinishKeeps(st, t);
      case Prune(now) => PruneKeeps(st, now);
    }
  }

  ghost predicate Run(states: seq<State>, steps: seq<Step>) {
    && |states| == |steps| + 1 && states[0] == State(LockState(map[], []), map[], [], [])
    && forall k :: 0 <= k < |steps| ==> Enabled(states[k], steps[k]) && states[k + 1] == Next(states[k], steps[k])
  }

  lemma {:induction false} RunKeeps(states: seq<State>, steps: seq<Step>, k: nat)
    requires Run(states, steps) && k <= |steps|
    ensures Sound(states[k])
  {
    if k > 0 {
      RunKeeps(states, steps, k - 1);
      StepKeeps(states[k - 1], steps[k - 1]);
    }
  }

  /** In every run every intent is credited at most once, to its own user and amount; and while nobody holds its lock it
      is settled exactly when it has been credited. */
  lemma CreditedOnce(states: seq<State>, steps: seq<Step>, k: nat, id: string)
    requires Run(states, steps) && k <= |steps|
    ensures var st := states[k];
            && Count(st.credits, id) <= 1 && CreditsOk(st)
            && (Unlocked(st, id) ==> (Count(st.credits, id) == 1
                 <==> id in st.intents && st.intents[id].status == SETTLED))
  {
    RunKeeps(states, steps, k);
    var st := states[k];
    assert IntentOk(st, id);
    if Marking(st, id) {
      var t :| 0 <= t < |st.calls| && st.calls[t].intent == id && st.calls[t].stage == Paid;
      assert CallOk(st, t);
    }
  }

  ghost predicate Unlocked(st: State, id: string) {
    forall t :: 0 <= t < |st.locks.tasks| && st.locks.tasks[t].key == LockKey(id) ==> st.locks.tasks[t].phase != Running
  }

  /** A second settle of a settled intent is refused: its check ends the call and credits nothing. */
  lemma SecondSettleRefused(st: State, t: nat, now: int, signed: bool)
    requires Sound(st) && Enabled(st, Check(t, now, signed))
    requires st.calls[t].intent in st.intents && st.intents[st.calls[t].intent].status == SETTLED
    ensures var r := Next(st, Check(t, now, signed));
            r.credits == st.credits && r.calls[t].stage == Over
              && r.intents[st.calls[t].intent] == st.intents[st.calls[t].intent]
  {
  }
}
