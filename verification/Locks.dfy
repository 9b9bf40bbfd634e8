/** The promise-chain mutex: one chain of turns per key, forgotten as soon as the last turn is over. */
module Locks {
  /** A promise: already resolved, or resolved once `prev` is and task `cur` has released. */
  datatype Promise = Ready | Chained(prev: Promise, cur: nat)

  datatype Phase = Waiting | Running | Released

  /** A call of run: the key it locks and the promise it awaits. */
  datatype Task = Task(key: string, prev: Promise, phase: Phase)

  /** `q` is the map of chains; `tasks` lists every call in arrival order. */
  datatype LockState = LockState(q: map<string, Promise>, tasks: seq<Task>)

  predicate Over(tasks: seq<Task>, t: nat) {
    t < |tasks| && tasks[t].phase == Released
  }

  predicate Resolved(tasks: seq<Task>, p: Promise) {
    match p
    case Ready => true
    case Chained(prev, cur) => Resolved(tasks, prev) && Over(tasks, cur)
  }

  function Members(p: Promise): set<nat> {
    match p
    case Ready => {}
    case Chained(prev, cur) => Members(prev) + {cur}
  }

  // ---- steps ----

  function Entered(m: LockState, key: string): LockState {
    var prev := if key in m.q then m.q[key] else Ready;
    LockState(m.q[key := Chained(prev, |m.tasks|)], m.tasks + [Task(key, prev, Waiting)])
  }

  predicate MayRun(m: LockState, t: nat) {
    t < |m.tasks| && m.tasks[t].phase == Waiting && Resolved(m.tasks, m.tasks[t].prev)
  }

  function Acquired(m: LockState, t: nat): LockState
    requires MayRun(m, t)
  {
    m.(tasks := m.tasks[t := m.tasks[t].(phase := Running)])
  }

  /** The chain of task t itself. */
  function ChainOf(m: LockState, t: nat): Promise
    requires t < |m.tasks|
  {
    Chained(m.tasks[t].prev, t)
  }

  function Freed(m: LockState, t: nat): LockState
    requires t < |m.tasks| && m.tasks[t].phase == Running
  {
    var key := m.tasks[t].key;
    LockState(if key in m.q && m.q[key] == ChainOf(m, t) then m.q - {key}
      else m.q, m.tasks[t := m.tasks[t].(phase := Released)])
  }

  // ---- the invariant ----

  /** p waits for every task with this key before position n that is not over, and for nothing else. */
  ghost predicate Awaits(tasks: seq<Task>, key: string, n: nat, p: Promise)
    requires n <= |tasks|
  {
    && (forall t :: t in Members(p) ==> t < n && tasks[t].key == key)
    && (forall t: nat :: t < n && tasks[t].key == key ==> t in Members(p) || tasks[t].phase == Released)
  }

  ghost predicate TaskOk(m: LockState, t: nat)
    requires t < |m.tasks|
  {
    && Awaits(m.tasks, m.tasks[t].key, t, m.tasks[t].prev)
    && (m.tasks[t].phase != Waiting ==> Resolved(m.tasks, m.tasks[t].prev))
  }

  /** The map holds, for exactly the keys with an unfinished task, the chain of the last such task. */
  ghost predicate KeyOk(m: LockState, key: string) {
    if key in m.q then
      && m.q[key].Chained? && m.q[key].cur < |m.tasks| && m.q[key] == ChainOf(m, m.q[key].cur)
      && m.tasks[m.q[key].cur].key == key && m.tasks[m.q[key].cur].phase != Released
      && Awaits(m.tasks, key, |m.tasks|, m.q[key])
    else forall t :: 0 <= t < |m.tasks| && m.tasks[t].key == key ==> m.tasks[t].phase == Released
  }

  ghost predicate Inv(m: LockState) {
    && (forall t :: 0 <= t < |m.tasks| ==> TaskOk(m, t))
    && (forall key :: KeyOk(m, key))
  }

  lemma {:induction false} ResolvedIff(tasks: seq<Task>, p: Promise)
    ensures Resolved(tasks, p) <==> forall t :: t in Members(p) ==> Over(tasks, t)
  {
    if p.Chained? {
      ResolvedIff(tasks, p.prev);
    }
  }

  /** Tasks only move forward, and new ones only join at the end. */
  ghost predicate Later(a: seq<Task>, b: seq<Task>) {
    && |a| <= |b|
    && forall t :: 0 <= t < |a| ==>
         b[t].key == a[t].key && b[t].prev == a[t].prev && (a[t].phase == Released ==> b[t].phase == Released)
  }

  lemma ResolvedStays(a: seq<Task>, b: seq<Task>, p: Promise)
    requires Later(a, b) && Resolved(a, p)
    ensures Resolved(b, p)
  {
    ResolvedIff(a, p);
    ResolvedIff(b, p);
  }

  lemma AwaitsStays(a: seq<Task>, b: seq<Task>, key: string, n: nat, p: Promise)
    requires Later(a, b) && n <= |a| && Awaits(a, key, n, p)
    ensures Awaits(b, key, n, p)
  {
  }

  lemma TaskStays(a: LockState, b: LockState, t: nat)
    requires Later(a.tasks, b.tasks) && t < |a.tasks| && TaskOk(a, t)
    requires b.tasks[t].phase == a.tasks[t].phase || Resolved(a.tasks, a.tasks[t].prev)
    ensures TaskOk(b, t)
  {
    AwaitsStays(a.tasks, b.tasks, a.tasks[t].key, t, a.tasks[t].prev);
    if Resolved(a.tasks, a.tasks[t].prev) {
      ResolvedStays(a.tasks, b.tasks, a.tasks[t].prev);
    }
  }

  lemma EnterKeeps(m: LockState, key: string)
    requires Inv(m)
    ensures Inv(Entered(m, key))
  {
    var r := Entered(m, key);
    var n := |m.tasks|;
    assert KeyOk(m, key);
    forall t | 0 <= t < |r.tasks| ensures TaskOk(r, t) {
      if t < n {
        assert TaskOk(m, t);
        TaskStays(m, r, t);
      }
    }
    forall k ensures KeyOk(r, k) {
      assert KeyOk(m, k);
    }
  }

  lemma AcquireKeeps(m: LockState, t: nat)
    requires Inv(m) && MayRun(m, t)
    ensures Inv(Acquired(m, t))
  {
    var r := Acquired(m, t);
    forall u | 0 <= u < |r.tasks| ensures TaskOk(r, u) {
      assert TaskOk(m, u);
      TaskStays(m, r, u);
    }
    forall k ensures KeyOk(r, k) {
      assert KeyOk(m, k);
    }
  }

  lemma ReleaseKeeps(m: LockState, t: nat)
    requires Inv(m) && t < |m.tasks| && m.tasks[t].phase == Running
    ensures Inv(Freed(m, t))
  {
    var r := Freed(m, t);
    assert TaskOk(m, t);
    forall u | 0 <= u < |r.tasks| ensures TaskOk(r, u) {
      assert TaskOk(m, u);
      TaskStays(m, r, u);
    }
    forall k ensures KeyOk(r, k) {
      assert KeyOk(m, k);
      if k in r.q {
        AwaitsStays(m.tasks, r.tasks, k, |m.tasks|, m.q[k]);
      } else if k in m.q {
        LastIsOver(m, t);
      }
    }
  }

  /** When the last task of a chain runs, everybody else with its key is over. */
  lemma LastIsOver(m: LockState, t: nat)
    requires t < |m.tasks| && m.tasks[t].phase == Running && TaskOk(m, t)
    requires Awaits(m.tasks, m.tasks[t].key, |m.tasks|, ChainOf(m, t))
    ensures forall u ::
      0 <= u < |m.tasks| && u != t && m.tasks[u].key == m.tasks[t].key ==> m.tasks[u].phase == Released
  {
    ResolvedIff(m.tasks, m.tasks[t].prev);
    forall u: nat | u < |m.tasks| && u != t && m.tasks[u].key == m.tasks[t].key ensures m.tasks[u].phase == Released {
      if u in Members(ChainOf(m, t)) {
        assert u in Members(m.tasks[t].prev);
        assert Over(m.tasks, u);
      }
    }
  }

  // ---- what the mutex promises ----

  /** At most one task per key runs. */
  lemma MutualExclusion(m: LockState, t: nat, u: nat)
    requires Inv(m) && t < u < |m.tasks| && m.tasks[t].key == m.tasks[u].key
    ensures !(m.tasks[t].phase == Running && m.tasks[u].phase == Running)
  {
    if m.tasks[u].phase == Running {
      ArrivalOrder(m, t, u);
    }
  }

  /** Turns are taken in arrival order: whoever runs or has run came after everybody with the same key who is not
      over. */
  lemma ArrivalOrder(m: LockState, t: nat, u: nat)
    requires Inv(m) && t < u < |m.tasks| && m.tasks[t].key == m.tasks[u].key && m.tasks[u].phase != Waiting
    ensures m.tasks[t].phase == Released
  {
    assert TaskOk(m, u);
    BeforeIsOver(m.tasks, m.tasks[u].key, u, m.tasks[u].prev, t);
  }

  lemma BeforeIsOver(tasks: seq<Task>, key: string, n: nat, p: Promise, t: nat)
    requires n <= |tasks| && Awaits(tasks, key, n, p) && Resolved(tasks, p) && t < n && tasks[t].key == key
    ensures tasks[t].phase == Released
  {
    ResolvedIff(tasks, p);
    if t in Members(p) {
      assert Over(tasks, t);
    }
  }

  /** Idle keys are forgotten, and only they. */
  lemma ForgetsIdle(m: LockState, key: string)
    requires Inv(m)
    ensures key in m.q <==> exists t :: 0 <= t < |m.tasks| && m.tasks[t].key == key && m.tasks[t].phase != Released
  {
    assert KeyOk(m, key);
  }

  /** Nobody waits in vain: among the unfinished tasks of a key the first one runs or may run. */
  lemma NoDeadlock(m: LockState, t: nat)
    requires Inv(m) && t < |m.tasks| && m.tasks[t].phase != Released
    requires forall u :: 0 <= u < t && m.tasks[u].key == m.tasks[t].key ==> m.tasks[u].phase == Released
    ensures m.tasks[t].phase == Running || MayRun(m, t)
  {
    assert TaskOk(m, t);
    ResolvedIff(m.tasks, m.tasks[t].prev);
  }

  // ---- runs ----

  datatype LockStep = Enter(key: string) | Acquire(t: nat) | Release(t: nat)

  predicate LockEnabled(m: LockState, step: LockStep) {
    match step
    case Enter(_) => true
    case Acquire(t) => MayRun(m, t)
    case Release(t) => t < |m.tasks| && m.tasks[t].phase == Running
  }

  function LockNext(m: LockState, step: LockStep): LockState
    requires LockEnabled(m, step)
  {
    match step
    case Enter(key) => Entered(m, key)
    case Acquire(t) => Acquired(m, t)
    case Release(t) => Freed(m, t)
  }

  lemma LockStepKeeps(m: LockState, step: LockStep)
    requires Inv(m) && LockEnabled(m, step)
    ensures Inv(LockNext(m, step))
  {
    match step {
      case Enter(key) => EnterKeeps(m, key);
      case Acquire(t) => AcquireKeeps(m, t);
      case Release(t) => ReleaseKeeps(m, t);
    }
  }

  ghost predicate LockRun(states: seq<LockState>, steps: seq<LockStep>) {
    && |states| == |steps| + 1 && states[0] == LockState(map[], [])
    && forall k :: 0 <= k < |steps| ==>
         LockEnabled(states[k], steps[k]) && states[k + 1] == LockNext(states[k], steps[k])
  }

  /** The invariant holds in every state of every run, so everything above is true throughout. */
  lemma {:induction false} LockRunKeeps(states: seq<LockState>, steps: seq<LockStep>, k: nat)
    requires LockRun(states, steps) && k <= |steps|
    ensures Inv(states[k])
  {
    if k > 0 {
      LockRunKeeps(states, steps, k - 1);
      LockStepKeeps(states[k - 1], steps[k - 1]);
    }
  }

  /** The mutex as an object: the map of chains, with the history of calls beside it. */
  class Mutex {
    var q: map<string, Promise>
    ghost var tasks: seq<Task>
    var calls: nat

    ghost predicate Valid()
      reads this
    {
      Inv(LockState(q, tasks)) && calls == |tasks|
    }

    constructor ()
      ensures Valid() && q == map[] && tasks == []
    {
      q, tasks, calls := map[], [], 0;
    }

    /** The synchronous front half of run: join the chain of the key; `prev` is the promise to await. */
    method Enter(key: string) returns (t: nat, prev: Promise, chained: Promise)
      requires Valid()
      modifies this
      ensures Valid() && LockState(q, tasks) == Entered(old(LockState(q, tasks)), key)
      ensures t == |old(tasks)| && prev == tasks[t].prev && chained == ChainOf(LockState(q, tasks), t)
    {
      EnterKeeps(LockState(q, tasks), key);
      prev := if key in q then q[key] else Ready;
      t := calls;
      chained := Chained(prev, t);
      q := q[key := chained];
      tasks := tasks + [Task(key, prev, Waiting)];
      calls := calls + 1;
    }

    /** The awaited promise resolved. */
    ghost method Acquire(t: nat)
      requires Valid() && MayRun(LockState(q, tasks), t)
      modifies this`tasks
      ensures Valid() && LockState(q, tasks) == Acquired(old(LockState(q, tasks)), t)
    {
      AcquireKeeps(LockState(q, tasks), t);
      tasks := tasks[t := tasks[t].(phase := Running)];
    }

    /** The finally block: release, and forget the key unless somebody joined the chain. */
    method Release(t: nat, key: string, chained: Promise)
      requires Valid() && t < |tasks| && tasks[t].phase == Running && tasks[t].key == key
      requires chained == ChainOf(LockState(q, tasks), t)
      modifies this
      ensures Valid() && LockState(q, tasks) == Freed(old(LockState(q, tasks)), t)
    {
      ReleaseKeeps(LockState(q, tasks), t);
      tasks := tasks[t := tasks[t].(phase := Released)];
      if key in q && q[key] == chained {
        q := q - {key};
      }
    }
  }
}
