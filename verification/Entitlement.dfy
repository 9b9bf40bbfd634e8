/** What entitles to a credit: a signed settle call, by the intent's own user, checked in time while the intent was
    pending. */
module Entitlement {
  import opened Reals
  import opened Locks
  import opened Settlement

  /** The intent as call t finds it: known, the caller's own, pending and not past its expiry. */
  ghost predicate Open(st: State, t: nat, now: int)
    requires t < |st.calls|
  {
    var call := st.calls[t];
    && call.intent in st.intents && st.intents[call.intent].user == call.user
    && st.intents[call.intent].status == PENDING && now <= st.intents[call.intent].expiresAt
  }

  /** A check lets a call through to payment exactly when the signature is good and the intent open; any other check
      ends the call. It credits nothing itself, and expires exactly the pending intents past their time. */
  lemma CheckIs(st: State, t: nat, now: int, signed: bool)
    requires Enabled(st, Check(t, now, signed))
    ensures var r := Next(st, Check(t, now, signed));
            && |r.calls| == |st.calls| && r.credits == st.credits
            && r.calls[t].stage == (if signed && Open(st, t, now) then Paying else Over)
            && (forall u :: 0 <= u < |st.calls| && u != t ==> r.calls[u] == st.calls[u])
            && r.intents.Keys == st.intents.Keys
            && (forall id :: id in st.intents ==> Aged(st.intents[id], r.intents[id], now))
  {
  }

  /** An intent after a sweep. */
  ghost predicate Aged(a: Intent, b: Intent, now: int) {
    if a.status == PENDING && a.expiresAt < now then b == a.(status := EXPIRED) else b == a
  }

  // ---- what runs keep ----

  /** Calls keep their intent and user, intents their user, amount and expiry. */
  ghost predicate Continues(a: State, b: State) {
    && |a.calls| <= |b.calls|
    && (forall t :: 0 <= t < |a.calls| ==> SameCall(a.calls[t], b.calls[t]))
    && (forall id :: id in a.intents ==> id in b.intents && SameTerms(a.intents[id], b.intents[id]))
  }

  ghost predicate SameCall(a: Call, b: Call) {
    b.intent == a.intent && b.user == a.user && (a.stage == Over ==> b.stage == Over)
  }

  ghost predicate SameTerms(a: Intent, b: Intent) {
    b.user == a.user && b.amount == a.amount && b.expiresAt == a.expiresAt
  }

  lemma ContinuesOn(a: State, b: State, c: State)
    requires Continues(a, b) && Continues(b, c)
    ensures Continues(a, c)
  {
    forall t | 0 <= t < |a.calls| ensures SameCall(a.calls[t], c.calls[t]) {
      assert SameCall(b.calls[t], c.calls[t]);
    }
  }

  lemma StepContinues(st: State, step: Step)
    requires Enabled(st, step)
    ensures Continues(st, Next(st, step))
  {
  }

  lemma {:induction false} RunContinues(states: seq<State>, steps: seq<Step>, c: nat, k: nat)
    requires Run(states, steps) && c <= k <= |steps|
    ensures Continues(states[c], states[k])
    decreases k
  {
    if c < k {
      RunContinues(states, steps, c, k - 1);
      StepContinues(states[k - 1], steps[k - 1]);
      ContinuesOn(states[c], states[k - 1], states[k]);
    }
  }

  /** At step c call t was checked with a good signature and found its intent open. */
  ghost predicate Entitled(states: seq<State>, steps: seq<Step>, c: nat, t: nat) {
    && c < |steps| < |states| && t < |states[c].calls| && steps[c].Check? && steps[c].t == t && steps[c].signed
    && Open(states[c], t, steps[c].now)
  }

  ghost predicate EntitledBefore(states: seq<State>, steps: seq<Step>, k: nat, t: nat) {
    exists c: nat :: c < k && Entitled(states, steps, c, t)
  }

  lemma {:induction false} PayingEntitled(states: seq<State>, steps: seq<Step>, k: nat, t: nat)
    requires Run(states, steps) && k <= |steps| && t < |states[k].calls| && states[k].calls[t].stage == Paying
    ensures EntitledBefore(states, steps, k, t)
    decreases k
  {
    var st := states[k - 1];
    match steps[k - 1] {
      case Check(u, now, signed) =>
        CheckIs(st, u, now, signed);
        if u == t {
          assert Entitled(states, steps, k - 1, t);
        } else {
          PayingEntitled(states, steps, k - 1, t);
        }
      case _ => PayingEntitled(states, steps, k - 1, t);
    }
  }

  /** Step p paid `credit` for call t, which had been entitled at step c. */
  ghost predicate PaidFor(states: seq<State>, steps: seq<Step>, c: nat, p: nat, t: nat, credit: Credit) {
    && c < p < |steps| && Entitled(states, steps, c, t) && steps[p] == TopupCredits(t)
    && states[p + 1].credits == states[p].credits + [credit]
    && credit.intent == states[c].calls[t].intent && credit.user == states[c].calls[t].user
    && credit.amount == states[c].intents[credit.intent].amount
  }

  lemma CreditStep(states: seq<State>, steps: seq<Step>, p: nat, t: nat) returns (c: nat)
    requires Run(states, steps) && p < |steps| && steps[p] == TopupCredits(t)
    ensures |states[p + 1].credits| == |states[p].credits| + 1
    ensures PaidFor(states, steps, c, p, t, states[p + 1].credits[|states[p].credits|])
  {
    assert Enabled(states[p], steps[p]);
    PayingEntitled(states, steps, p, t);
    c :| c < p && Entitled(states, steps, c, t);
    RunContinues(states, steps, c, p);
  }

  /** Every credit of every run was entitled: some settle call by the intent's own user was checked, with a good
      signature, no later than the intent's expiry and while it was pending; and it is of that intent's amount. */
  lemma {:induction false} EveryCreditEntitled(states: seq<State>, steps: seq<Step>, k: nat, j: nat)
    returns (c: nat, p: nat, t: nat)
    requires Run(states, steps) && k <= |steps| && j < |states[k].credits|
    ensures p < k && |states[p].credits| == j && PaidFor(states, steps, c, p, t, states[k].credits[j])
    decreases k
  {
    var st := states[k - 1];
    if j < |st.credits| {
      c, p, t := EveryCreditEntitled(states, steps, k - 1, j);
      assert states[k].credits[j] == st.credits[j];
    } else {
      assert steps[k - 1].TopupCredits?;
      p, t := k - 1, steps[k - 1].t;
      c := CreditStep(states, steps, p, t);
    }
  }

  /** Step c created the intent on these terms. */
  ghost predicate CreatedBy(steps: seq<Step>, c: nat, id: string, i: Intent) {
    c < |steps| && steps[c].Create? && steps[c].id == id
      && steps[c].user == i.user && steps[c].amount == i.amount && steps[c].expiresAt == i.expiresAt
  }

  /** Every intent of every run keeps the user, amount and expiry it was created with. */
  lemma {:induction false} EveryIntentCreated(states: seq<State>, steps: seq<Step>, k: nat, id: string)
    returns (c: nat)
    requires Run(states, steps) && k <= |steps| && id in states[k].intents
    ensures c < k && CreatedBy(steps, c, id, states[k].intents[id])
    decreases k
  {
    StepContinues(states[k - 1], steps[k - 1]);
    if id in states[k - 1].intents {
      c := EveryIntentCreated(states, steps, k - 1, id);
      assert SameTerms(states[k - 1].intents[id], states[k].intents[id]);
    } else {
      c := k - 1;
    }
  }

  /** Every call of every run settles the intent, and is of the user, it was made with. */
  lemma {:induction false} EveryCallMade(states: seq<State>, steps: seq<Step>, k: nat, t: nat) returns (c: nat)
    requires Run(states, steps) && k <= |steps| && t < |states[k].calls|
    ensures c < k && |states[c].calls| == t
    ensures steps[c] == Settle(states[k].calls[t].intent, states[k].calls[t].user)
    decreases k
  {
    StepContinues(states[k - 1], steps[k - 1]);
    if t < |states[k - 1].calls| {
      c := EveryCallMade(states, steps, k - 1, t);
      assert SameCall(states[k - 1].calls[t], states[k].calls[t]);
    } else {
      c := k - 1;
    }
  }

  /** A check without a good signature, or of an intent that is unknown, somebody else's, settled, expired or past its
      time, is the end of the call: it never pays. */
  lemma RefusedNeverPays(states: seq<State>, steps: seq<Step>, c: nat, t: nat, k: nat)
    requires Run(states, steps) && c < |steps| && c < k <= |steps|
    requires steps[c].Check? && steps[c].t == t && !(steps[c].signed && Open(states[c], t, steps[c].now))
    ensures t < |states[k].calls| && states[k].calls[t].stage == Over
    ensures k < |steps| ==> steps[k] != TopupCredits(t)
  {
    CheckIs(states[c], t, steps[c].now, steps[c].signed);
    RunContinues(states, steps, c + 1, k);
    if k < |steps| {
      assert Enabled(states[k], steps[k]);
    }
  }
}
