/** Wallets, the ledger, invoices and payments: what every run keeps of the money. */
module Billing {
  import opened Reals

  datatype Entry = Entry(user: int, seqNo: nat, amount: real, balanceAfter: real, payment: Option<nat>)

  datatype Session = Session(completed: bool, billed: bool, startMeter: real, endMeter: real)

  datatype Invoice = Invoice(session: nat, paid: bool, total: real)

  datatype Line = Line(invoice: nat, amount: real)

  datatype Payment = Payment(invoice: nat, amount: real, success: bool)

  datatype Error =
    INVALID_AMOUNT | NOT_FOUND | BILL_CONFLICT | BILLING_CONFLICT | NO_TARIFF_BAND | PAY_CONFLICT | INSUFFICIENT_FUNDS

  /** Session, invoice and payment k + 1 are at position k. A user without a wallet has none in `balances`. */
  datatype State = State(
    balances: map<int, real>,
    ledger: seq<Entry>,
    sessions: seq<Session>,
    invoices: seq<Invoice>,
    lines: seq<Line>,
    payments: seq<Payment>)

  const TOPUP_CAP: real := 10000.0

  // ---- money with two decimals ----

  function Paise(n: int): real {
    n as real / 100.0
  }

  ghost predicate Whole(amount: real) {
    exists n :: amount == Paise(n)
  }

  lemma ToFixed2Whole(amount: real)
    ensures Whole(ToFixed2(amount))
    ensures amount >= 0.0 ==> ToFixed2(amount) >= 0.0
  {
    assert ToFixed2(amount) == Paise(RoundAway(amount * 100.0));
  }

  lemma RoundAwayWhole(n: int)
    ensures RoundAway(n as real) == n
  {
    RoundWhole(n);
    RoundWhole(-n);
  }

  /** Two decimals leave an amount alone exactly when it is whole. */
  lemma ToFixed2Exact(amount: real)
    ensures ToFixed2(amount) == amount <==> Whole(amount)
  {
    if Whole(amount) {
      var n :| amount == Paise(n);
      assert amount * 100.0 == n as real;
      RoundAwayWhole(n);
    } else {
      ToFixed2Whole(amount);
    }
  }

  lemma WholeSum(a: real, b: real)
    requires Whole(a)
    ensures Whole(a + b) <==> Whole(b)
  {
    var m :| a == Paise(m);
    if Whole(b) {
      var n :| b == Paise(n);
      assert a + b == Paise(m + n);
    }
    if Whole(a + b) {
      var n :| a + b == Paise(n);
      assert b == Paise(n - m);
    }
  }

  lemma WholeNegated(a: real)
    requires Whole(a)
    ensures Whole(-a)
  {
    var n :| a == Paise(n);
    assert -a == Paise(-n);
  }

  lemma WholeDifference(a: real, b: real)
    requires Whole(a) && Whole(b)
    ensures ToFixed2(a - b) == a - b && Whole(a - b)
  {
    WholeNegated(b);
    WholeSum(a, -b);
    assert a - b == a + -b;
    ToFixed2Exact(a - b);
  }

  // ---- one user's part of the ledger ----

  function CountOf(ledger: seq<Entry>, user: int): nat {
    if ledger == [] then 0
    else CountOf(ledger[..|ledger| - 1], user) + if ledger[|ledger| - 1].user == user then 1 else 0
  }

  function SumOf(ledger: seq<Entry>, user: int): real {
    if ledger == [] then 0.0
    else SumOf(ledger[..|ledger| - 1], user) + if ledger[|ledger| - 1].user == user
      then ledger[|ledger| - 1].amount else 0.0
  }

  /** Ledger entries of one payment. */
  function DebitsOf(ledger: seq<Entry>, payment: nat): nat {
    if ledger == [] then 0
    else DebitsOf(ledger[..|ledger| - 1], payment) + if ledger[|ledger| - 1].payment == Some(payment) then 1 else 0
  }

  function SuccessesOf(payments: seq<Payment>, invoice: nat): nat {
    if payments == [] then 0
    else
      SuccessesOf(payments[..|payments| - 1], invoice)
        + if payments[|payments| - 1].invoice == invoice && payments[|payments| - 1].success then 1 else 0
  }

  function LinesOf(lines: seq<Line>, invoice: nat): real {
    if lines == [] then 0.0
    else LinesOf(lines[..|lines| - 1], invoice) + if lines[|lines| - 1].invoice == invoice
      then lines[|lines| - 1].amount else 0.0
  }

  lemma LedgerPush(ledger: seq<Entry>, e: Entry, user: int)
    ensures CountOf(ledger + [e], user) == CountOf(ledger, user) + if e.user == user then 1 else 0
    ensures SumOf(ledger + [e], user) == SumOf(ledger, user) + if e.user == user then e.amount else 0.0
  {
    assert (ledger + [e])[..|ledger|] == ledger;
  }

  lemma DebitPush(ledger: seq<Entry>, e: Entry, p: nat)
    ensures DebitsOf(ledger + [e], p) == DebitsOf(ledger, p) + if e.payment == Some(p) then 1 else 0
  {
    assert (ledger + [e])[..|ledger|] == ledger;
  }

  lemma PaymentPush(payments: seq<Payment>, p: Payment, i: nat)
    ensures SuccessesOf(payments + [p], i) == SuccessesOf(payments, i) + if p.invoice == i && p.success then 1 else 0
  {
    assert (payments + [p])[..|payments|] == payments;
  }

  lemma LinePush(lines: seq<Line>, l: Line, i: nat)
    ensures LinesOf(lines + [l], i) == LinesOf(lines, i) + if l.invoice == i then l.amount else 0.0
  {
    assert (lines + [l])[..|lines|] == lines;
  }

  // ---- operations ----

  function BalanceOf(st: State, user: int): real {
    if user in st.balances then st.balances[user] else 0.0
  }

  function TopupError(amount: real): Option<Error> {
    if !(amount > 0.0) || amount > TOPUP_CAP then Some(INVALID_AMOUNT) else None
  }

  function Credited(st: State, user: int, amount: real, balance: real): State {
    st.(balances := st.balances[user := balance],
        ledger := st.ledger + [Entry(user, CountOf(st.ledger, user) + 1, amount, balance, None)])
  }

  /** The balance is kept in two decimals, the ledger entry in the amount as given. */
  function ToppedUp(st: State, user: int, amount: real): State {
    Credited(st, user, amount, ToFixed2(BalanceOf(st, user) + amount))
  }

  /** `price` is the band price at the session's start, `None` when no band covers it. */
  function BillError(st: State, sid: nat, price: Option<real>): Option<Error> {
    if sid >= |st.sessions| then Some(NOT_FOUND)
    else if !st.sessions[sid].completed then Some(BILL_CONFLICT)
    else if st.sessions[sid].billed then Some(BILLING_CONFLICT)
    else if price.None? then Some(NO_TARIFF_BAND)
    else None
  }

  /** The energy a session delivered, priced. */
  function Charge(s: Session, price: real): real {
    Max(s.endMeter - s.startMeter, 0.0) * price
  }

  function EnergyAmount(s: Session, price: real): real {
    ToFixed2(Charge(s, price))
  }

  function InvoiceTotal(s: Session, price: real, fee: real): real {
    ToFixed2(EnergyAmount(s, price) + fee)
  }

  function Billed(st: State, sid: nat, price: real, fee: real): State
    requires sid < |st.sessions|
  {
    var energy := EnergyAmount(st.sessions[sid], price);
    var id := |st.invoices|;
    st.(invoices := st.invoices + [Invoice(sid, false, InvoiceTotal(st.sessions[sid], price, fee))],
        lines := st.lines + [Line(id, energy)] + (if fee > 0.0 then [Line(id, fee)] else []),
        sessions := st.sessions[sid := st.sessions[sid].(billed := true)])
  }

  /** Paying moves the money, or records a failed payment and leaves the invoice due. */
  function PayError(st: State, inv: nat, user: int): Option<Error> {
    if inv >= |st.invoices| then Some(NOT_FOUND)
    else if st.invoices[inv].paid then Some(PAY_CONFLICT)
    else if BalanceOf(st, user) < st.invoices[inv].total then Some(INSUFFICIENT_FUNDS)
    else None
  }

  function Paid(st: State, inv: nat, user: int): State {
    if inv >= |st.invoices| || st.invoices[inv].paid then st
    else if BalanceOf(st, user) < st.invoices[inv].total then Refused(st, inv, user)
    else Debited(st, inv, user, ToFixed2(BalanceOf(st, user) - st.invoices[inv].total))
  }

  function Refused(st: State, inv: nat, user: int): State
    requires inv < |st.invoices|
  {
    st.(balances := st.balances[user := BalanceOf(st, user)],
        payments := st.payments + [Payment(inv, st.invoices[inv].total, false)])
  }

  function Debited(st: State, inv: nat, user: int, balance: real): State
    requires inv < |st.invoices|
  {
    var total := st.invoices[inv].total;
    st.(balances := st.balances[user := balance],
        payments := st.payments + [Payment(inv, total, true)],
        ledger := st.ledger + [Entry(user, CountOf(st.ledger, user) + 1, -total, balance, Some(|st.payments|))],
        invoices := st.invoices[inv := st.invoices[inv].(paid := true)])
  }

  class Accounts {
    var balances: map<int, real>
    var ledger: seq<Entry>
    var sessions: seq<Session>
    var invoices: seq<Invoice>
    var lines: seq<Line>
    var payments: seq<Payment>

    ghost function Now(): State
      reads this
    {
      State(balances, ledger, sessions, invoices, lines, payments)
    }

    constructor ()
      ensures Now() == State(map[], [], [], [], [], [])
    {
      balances, ledger, sessions, invoices, lines, payments := map[], [], [], [], [], [];
    }

    /** The user's entries so far, counted by filtering the ledger. */
    method EntriesOf(user: int) returns (n: nat)
      ensures n == CountOf(ledger, user)
    {
      n := 0;
      for i := 0 to |ledger|
        invariant n == CountOf(ledger[..i], user)
      {
        assert ledger[..i + 1][..i] == ledger[..i];
        if ledger[i].user == user {
          n := n + 1;
        }
      }
      assert ledger[..|ledger|] == ledger;
    }

    method Topup(user: int, amount: real) returns (error: Option<Error>)
      modifies this
      ensures error == TopupError(amount)
      ensures error.None? <==> 0.0 < amount <= 10000.0
      ensures Now() == if error.Some? then old(Now()) else ToppedUp(old(Now()), user, amount)
    {
      if !(amount > 0.0) || amount > TOPUP_CAP {
        return Some(INVALID_AMOUNT);
      }
      var balance := if user in balances then balances[user] else 0.0;
      var n := EntriesOf(user);
      balance := ToFixed2(balance + amount);
      balances := balances[user := balance];
      ledger := ledger + [Entry(user, n + 1, amount, balance, None)];
      error := None;
    }

    method BillSession(sid: nat, price: Option<real>, fee: real) returns (error: Option<Error>)
      modifies this
      ensures error == BillError(old(Now()), sid, price)
      ensures error.None? <==>
                sid < |old(sessions)| && old(sessions)[sid].completed && !old(sessions)[sid].billed && price.Some?
      ensures Now() == if error.Some? then old(Now()) else Billed(old(Now()), sid, price.value, fee)
    {
      if sid >= |sessions| {
        return Some(NOT_FOUND);
      }
      if !sessions[sid].completed {
        return Some(BILL_CONFLICT);
      }
      if sessions[sid].billed {
        return Some(BILLING_CONFLICT);
      }
      if price.None? {
        return Some(NO_TARIFF_BAND);
      }
      var energyAmount := EnergyAmount(sessions[sid], price.value);
      var id := |invoices|;
      invoices := invoices + [Invoice(sid, false, ToFixed2(energyAmount + fee))];
      lines := lines + [Line(id, energyAmount)];
      if fee > 0.0 {
        lines := lines + [Line(id, fee)];
      }
      sessions := sessions[sid := sessions[sid].(billed := true)];
      error := None;
    }

    method PayInvoice(inv: nat, user: int) returns (error: Option<Error>)
      modifies this
      ensures error == PayError(old(Now()), inv, user)
      ensures error.None? <==>
                && inv < |old(invoices)| && !old(invoices)[inv].paid
                && old(invoices)[inv].total <= if user in old(balances) then old(balances)[user] else 0.0
      ensures Now() == Paid(old(Now()), inv, user)
    {
      if inv >= |invoices| {
        return Some(NOT_FOUND);
      }
      if invoices[inv].paid {
        return Some(PAY_CONFLICT);
      }
      var balance := if user in balances then balances[user] else 0.0;
      balances := balances[user := balance];
      var total := invoices[inv].total;
      if balance < total {
        payments := payments + [Payment(inv, total, false)];
        return Some(INSUFFICIENT_FUNDS);
      }
      var n := EntriesOf(user);
      var id := |payments|;
      payments := payments + [Payment(inv, total, true)];
      ledger := ledger + [Entry(user, n + 1, -total, ToFixed2(balance - total), Some(id))];
      balances := balances[user := ToFixed2(balance - total)];
      invoices := invoices[inv := invoices[inv].(paid := true)];
      error := None;
    }
  }

  // ---- what every run keeps ----

  /** The user's sequence numbers count 1, 2, 3, ... and every wallet is a whole, non-negative amount. */
  ghost predicate Numbered(st: State) {
    && (forall i :: 0 <= i < |st.ledger| ==> st.ledger[i].seqNo == CountOf(st.ledger[..i], st.ledger[i].user) + 1)
    && (forall u :: u in st.balances ==> Whole(st.balances[u]) && st.balances[u] >= 0.0)
    && (forall i :: 0 <= i < |st.ledger| ==> st.ledger[i].user in st.balances)
    && (forall i :: 0 <= i < |st.invoices| ==> Whole(st.invoices[i].total))
  }

  /** A billed session has exactly one invoice, an unbilled one has none. */
  ghost predicate OneInvoiceEach(st: State) {
    && (forall i :: 0 <= i < |st.invoices| ==> InvoiceOfBilled(st, st.invoices[i]))
    && (forall i, j :: 0 <= i < j < |st.invoices| ==> st.invoices[i].session != st.invoices[j].session)
    && (forall s :: 0 <= s < |st.sessions| && st.sessions[s].billed ==> HasInvoice(st, s))
  }

  ghost predicate InvoiceOfBilled(st: State, inv: Invoice) {
    inv.session < |st.sessions| && st.sessions[inv.session].billed
  }

  ghost predicate HasInvoice(st: State, s: nat) {
    exists i :: 0 <= i < |st.invoices| && st.invoices[i].session == s
  }

  /** An invoice is paid exactly when it has one successful payment, and due when it has none. */
  ghost predicate InvoicePaid(st: State, i: nat)
    requires i < |st.invoices|
  {
    SuccessesOf(st.payments, i) == if st.invoices[i].paid then 1 else 0
  }

  /** A payment is of its invoice's total; a successful one is one ledger entry, a failed one none. */
  ghost predicate PaymentOk(st: State, p: nat)
    requires p < |st.payments|
  {
    && st.payments[p].invoice < |st.invoices|
    && st.payments[p].amount == st.invoices[st.payments[p].invoice].total
    && DebitsOf(st.ledger, p) == if st.payments[p].success then 1 else 0
  }

  /** A debit is of the amount of its (successful) payment. */
  ghost predicate DebitOk(st: State, e: Entry) {
    e.payment.Some? ==> e.payment.value < |st.payments| && e.amount == -st.payments[e.payment.value].amount
  }

  ghost predicate PaymentsMatch(st: State) {
    && (forall i :: 0 <= i < |st.invoices| ==> InvoicePaid(st, i))
    && (forall p :: 0 <= p < |st.payments| ==> PaymentOk(st, p))
    && (forall k :: 0 <= k < |st.ledger| ==> DebitOk(st, st.ledger[k]))
    && (forall p: nat :: p >= |st.payments| ==> DebitsOf(st.ledger, p) == 0)
    && (forall i: nat :: i >= |st.invoices| ==> SuccessesOf(st.payments, i) == 0)
  }

  ghost predicate Kept(st: State) {
    Numbered(st) && OneInvoiceEach(st) && PaymentsMatch(st)
  }

  lemma NumberedPush(st: State, r: State, e: Entry)
    requires Numbered(st) && r.ledger == st.ledger + [e] && e.seqNo == CountOf(st.ledger, e.user) + 1
    requires st.balances.Keys <= r.balances.Keys && e.user in r.balances
    requires forall u :: u in r.balances ==> Whole(r.balances[u]) && r.balances[u] >= 0.0
    requires forall i :: 0 <= i < |r.invoices| ==> Whole(r.invoices[i].total)
    ensures Numbered(r)
  {
    forall i | 0 <= i < |r.ledger| ensures r.ledger[i].seqNo == CountOf(r.ledger[..i], r.ledger[i].user) + 1 {
      if i < |st.ledger| {
        assert r.ledger[..i] == st.ledger[..i];
      } else {
        assert r.ledger[..i] == st.ledger;
      }
    }
  }

  lemma TopupKeeps(st: State, user: int, amount: real)
    requires Kept(st) && TopupError(amount).None?
    ensures Kept(ToppedUp(st, user, amount))
  {
    var r := ToppedUp(st, user, amount);
    var e := r.ledger[|st.ledger|];
    ToFixed2Whole(BalanceOf(st, user) + amount);
    NumberedPush(st, r, e);
    EntryKeepsPayments(st, r, e);
    forall i | 0 <= i < |r.invoices| ensures InvoiceOfBilled(r, r.invoices[i]) {
      assert InvoiceOfBilled(st, st.invoices[i]);
    }
    forall s | 0 <= s < |r.sessions| && r.sessions[s].billed ensures HasInvoice(r, s) {
      assert HasInvoice(st, s);
    }
  }

  /** An entry that is no debit leaves the payments matched. */
  lemma EntryKeepsPayments(st: State, r: State, e: Entry)
    requires PaymentsMatch(st) && r == st.(ledger := st.ledger + [e], balances := r.balances) && e.payment.None?
    ensures PaymentsMatch(r)
  {
    forall i | 0 <= i < |r.invoices| ensures InvoicePaid(r, i) {
      assert InvoicePaid(st, i);
    }
    forall p: nat ensures DebitsOf(r.ledger, p) == DebitsOf(st.ledger, p) {
      DebitPush(st.ledger, e, p);
    }
    forall p | 0 <= p < |r.payments| ensures PaymentOk(r, p) {
      assert PaymentOk(st, p);
    }
    forall k | 0 <= k < |r.ledger| ensures DebitOk(r, r.ledger[k]) {
      if k < |st.ledger| {
        assert DebitOk(st, st.ledger[k]);
      }
    }
  }

  lemma BillKeeps(st: State, sid: nat, price: real, fee: real)
    requires Kept(st) && BillError(st, sid, Some(price)).None?
    ensures Kept(Billed(st, sid, price, fee))
  {
    var r := Billed(st, sid, price, fee);
    var n := |st.invoices|;
    ToFixed2Whole(EnergyAmount(st.sessions[sid], price) + fee);
    forall i | 0 <= i < n ensures st.invoices[i].session != sid {
      assert InvoiceOfBilled(st, st.invoices[i]);
    }
    forall i | 0 <= i < |r.invoices| ensures InvoiceOfBilled(r, r.invoices[i]) {
      if i < n {
        assert InvoiceOfBilled(st, st.invoices[i]);
      }
    }
    forall s | 0 <= s < |r.sessions| && r.sessions[s].billed ensures HasInvoice(r, s) {
      if s == sid {
        assert r.invoices[n].session == s;
      } else {
        assert HasInvoice(st, s);
        var i :| 0 <= i < n && st.invoices[i].session == s;
        assert r.invoices[i].session == s;
      }
    }
    forall i | 0 <= i < |r.invoices| ensures InvoicePaid(r, i) {
      if i < n {
        assert InvoicePaid(st, i);
      }
    }
    forall p | 0 <= p < |r.payments| ensures PaymentOk(r, p) {
      assert PaymentOk(st, p);
    }
    forall k | 0 <= k < |r.ledger| ensures DebitOk(r, r.ledger[k]) {
      assert DebitOk(st, st.ledger[k]);
    }
  }

  /** Marking an invoice paid leaves it the one invoice of its session. */
  lemma InvoicesStay(st: State, r: State)
    requires OneInvoiceEach(st) && r.sessions == st.sessions && |r.invoices| == |st.invoices|
    requires forall i :: 0 <= i < |st.invoices| ==> r.invoices[i].session == st.invoices[i].session
    ensures OneInvoiceEach(r)
  {
    forall i | 0 <= i < |r.invoices| ensures InvoiceOfBilled(r, r.invoices[i]) {
      assert InvoiceOfBilled(st, st.invoices[i]);
    }
    forall s | 0 <= s < |r.sessions| && r.sessions[s].billed ensures HasInvoice(r, s) {
      assert HasInvoice(st, s);
      var i :| 0 <= i < |st.invoices| && st.invoices[i].session == s;
      assert r.invoices[i].session == s;
    }
  }

  lemma RefusedKeeps(st: State, inv: nat, user: int)
    requires Kept(st) && inv < |st.invoices| && !st.invoices[inv].paid
    ensures Kept(Refused(st, inv, user))
  {
    var r := Refused(st, inv, user);
    assert 0.0 == Paise(0);
    InvoicesStay(st, r);
    forall i: nat ensures SuccessesOf(r.payments, i) == SuccessesOf(st.payments, i) {
      PaymentPush(st.payments, r.payments[|st.payments|], i);
    }
    forall i | 0 <= i < |r.invoices| ensures InvoicePaid(r, i) {
      assert InvoicePaid(st, i);
    }
    forall p | 0 <= p < |r.payments| ensures PaymentOk(r, p) {
      if p < |st.payments| {
        assert PaymentOk(st, p);
      }
    }
    forall k | 0 <= k < |r.ledger| ensures DebitOk(r, r.ledger[k]) {
      assert DebitOk(st, st.ledger[k]);
    }
  }

  /** What a payment adds to the counts: one success and one debit. */
  lemma DebitCounts(st: State, inv: nat, user: int, balance: real)
    requires inv < |st.invoices|
    ensures var r := Debited(st, inv, user, balance);
            && (forall i: nat :: SuccessesOf(r.payments, i) == SuccessesOf(st.payments, i) + if i == inv then 1 else 0)
            && (forall p: nat :: DebitsOf(r.ledger, p) == DebitsOf(st.ledger, p) + if p == |st.payments| then 1 else 0)
  {
    var r := Debited(st, inv, user, balance);
    forall i: nat ensures SuccessesOf(r.payments, i) == SuccessesOf(st.payments, i) + if i == inv then 1 else 0 {
      PaymentPush(st.payments, r.payments[|st.payments|], i);
    }
    forall p: nat ensures DebitsOf(r.ledger, p) == DebitsOf(st.ledger, p) + if p == |st.payments| then 1 else 0 {
      DebitPush(st.ledger, r.ledger[|st.ledger|], p);
    }
  }

  lemma DebitMatches(st: State, inv: nat, user: int, balance: real)
    requires PaymentsMatch(st) && inv < |st.invoices| && !st.invoices[inv].paid
    ensures PaymentsMatch(Debited(st, inv, user, balance))
  {
    var r := Debited(st, inv, user, balance);
    DebitCounts(st, inv, user, balance);
    forall i | 0 <= i < |r.invoices| ensures InvoicePaid(r, i) {
      assert InvoicePaid(st, i);
    }
    forall p | 0 <= p < |r.payments| ensures PaymentOk(r, p) {
      DebitPayment(st, inv, user, balance, p);
    }
    forall k | 0 <= k < |r.ledger| ensures DebitOk(r, r.ledger[k]) {
      DebitEntry(st, inv, user, balance, k);
    }
  }

  lemma DebitPayment(st: State, inv: nat, user: int, balance: real, p: nat)
    requires inv < |st.invoices| && !st.invoices[inv].paid && p <= |st.payments|
    requires if p < |st.payments| then PaymentOk(st, p) else DebitsOf(st.ledger, p) == 0
    ensures PaymentOk(Debited(st, inv, user, balance), p)
  {
    DebitPush(st.ledger, Debited(st, inv, user, balance).ledger[|st.ledger|], p);
  }

  lemma DebitEntry(st: State, inv: nat, user: int, balance: real, k: nat)
    requires inv < |st.invoices| && k <= |st.ledger| && (k < |st.ledger| ==> DebitOk(st, st.ledger[k]))
    ensures DebitOk(Debited(st, inv, user, balance), Debited(st, inv, user, balance).ledger[k])
  {
  }

  lemma DebitKeeps(st: State, inv: nat, user: int, balance: real)
    requires Kept(st) && inv < |st.invoices| && !st.invoices[inv].paid && Whole(balance) && balance >= 0.0
    ensures Kept(Debited(st, inv, user, balance))
  {
    var r := Debited(st, inv, user, balance);
    NumberedPush(st, r, r.ledger[|st.ledger|]);
    InvoicesStay(st, r);
    DebitMatches(st, inv, user, balance);
  }

  /** Between whole amounts the rounding of a payment does nothing. */
  lemma PaidIs(st: State, inv: nat, user: int)
    requires Numbered(st) && inv < |st.invoices| && !st.invoices[inv].paid
    ensures var left := BalanceOf(st, user) - st.invoices[inv].total;
            Whole(left) && Paid(st, inv, user) == if left < 0.0 then Refused(st, inv, user)
              else Debited(st, inv, user, left)
  {
    assert 0.0 == Paise(0);
    WholeDifference(BalanceOf(st, user), st.invoices[inv].total);
  }

  lemma PayKeeps(st: State, inv: nat, user: int)
    requires Kept(st)
    ensures Kept(Paid(st, inv, user))
  {
    if inv < |st.invoices| && !st.invoices[inv].paid {
      PaidIs(st, inv, user);
      RefusedKeeps(st, inv, user);
      if BalanceOf(st, user) - st.invoices[inv].total >= 0.0 {
        DebitKeeps(st, inv, user, BalanceOf(st, user) - st.invoices[inv].total);
      }
    }
  }

  // ---- runs ----

  datatype Step =
    | Join(user: int)
    | Session(session: Session)
    | Complete(sid: nat, endMeter: real)
    | Topup(user: int, amount: real)
    | Bill(sid: nat, price: real, fee: real)
    | Pay(inv: nat, user: int)

  predicate Enabled(st: State, step: Step) {
    match step
    case Join(user) => user !in st.balances
    case Session(s) => !s.completed && !s.billed
    case Complete(sid, _) => sid < |st.sessions| && !st.sessions[sid].completed
    case Topup(_, amount) => TopupError(amount).None?
    case Bill(sid, price, fee) => BillError(st, sid, Some(price)).None? && fee >= 0.0
    case Pay(_, _) => true
  }

  function Next(st: State, step: Step): State
    requires Enabled(st, step)
  {
    match step
    case Join(user) => st.(balances := st.balances[user := 0.0])
    case Session(s) => st.(sessions := st.sessions + [s])
    case Complete(sid, endMeter) =>
      st.(sessions := st.sessions[sid := st.sessions[sid].(completed := true, endMeter := endMeter)])
    case Topup(user, amount) => ToppedUp(st, user, amount)
    case Bill(sid, price, fee) => Billed(st, sid, price, fee)
    case Pay(inv, user) => Paid(st, inv, user)
  }

  lemma SessionsKeep(st: State, r: State)
    requires Kept(st) && |st.sessions| <= |r.sessions|
    requires r == st.(sessions := r.sessions, balances := r.balances)
    requires forall s :: 0 <= s < |r.sessions| ==>
      (r.sessions[s].billed <==> s < |st.sessions| && st.sessions[s].billed)
    requires st.balances.Keys <= r.balances.Keys && forall u ::
      u in r.balances ==> Whole(r.balances[u]) && r.balances[u] >= 0.0
    ensures Kept(r)
  {
    forall i | 0 <= i < |r.invoices| ensures InvoiceOfBilled(r, r.invoices[i]) && InvoicePaid(r, i) {
      assert InvoiceOfBilled(st, st.invoices[i]) && InvoicePaid(st, i);
    }
    forall s | 0 <= s < |r.sessions| && r.sessions[s].billed ensures HasInvoice(r, s) {
      assert HasInvoice(st, s);
    }
    forall p | 0 <= p < |r.payments| ensures PaymentOk(r, p) {
      assert PaymentOk(st, p);
    }
    forall k | 0 <= k < |r.ledger| ensures DebitOk(r, r.ledger[k]) {
      assert DebitOk(st, st.ledger[k]);
    }
  }

  lemma StepKeeps(st: State, step: Step)
    requires Kept(st) && Enabled(st, step)
    ensures Kept(Next(st, step))
  {
    assert 0.0 == Paise(0);
    match step {
      case Join(user) => SessionsKeep(st, Next(st, step));
      case Session(s) => SessionsKeep(st, Next(st, step));
      case Complete(sid, _) => SessionsKeep(st, Next(st, step));
      case Topup(user, amount) => TopupKeeps(st, user, amount);
      case Bill(sid, price, fee) => BillKeeps(st, sid, price, fee);
      case Pay(inv, user) => PayKeeps(st, inv, user);
    }
  }

  ghost predicate Run(states: seq<State>, steps: seq<Step>) {
    && |states| == |steps| + 1 && states[0] == State(map[], [], [], [], [], [])
    && forall k :: 0 <= k < |steps| ==> Enabled(states[k], steps[k]) && states[k + 1] == Next(states[k], steps[k])
  }

  /** In every state of every run: sequence numbers 1..n per user, balances never negative, at most one invoice per
      session, and an invoice is paid exactly when it has one successful payment, which is one ledger debit of its
      total. */
  lemma {:induction false} RunKeeps(states: seq<State>, steps: seq<Step>, k: nat)
    requires Run(states, steps) && k <= |steps|
    ensures Kept(states[k])
  {
    if k > 0 {
      RunKeeps(states, steps, k - 1);
      StepKeeps(states[k - 1], steps[k - 1]);
    }
  }

  // ---- what one call does, field by field ----

  ghost function Wallet(st: State, user: int): real {
    if user in st.balances then st.balances[user] else 0.0
  }

  /** The first reason that applies, for a billing and for a payment. */
  lemma RefusalsAre(st: State, sid: nat, price: Option<real>, inv: nat, user: int)
    ensures var e := BillError(st, sid, price);
            && (e == Some(NOT_FOUND) <==> sid >= |st.sessions|)
            && (e == Some(BILL_CONFLICT) <==> sid < |st.sessions| && !st.sessions[sid].completed)
            && (e == Some(BILLING_CONFLICT) <==>
                 sid < |st.sessions| && st.sessions[sid].completed && st.sessions[sid].billed)
            && (e == Some(NO_TARIFF_BAND) <==>
                 sid < |st.sessions| && st.sessions[sid].completed && !st.sessions[sid].billed && price.None?)
            && (e == None <==>
                 sid < |st.sessions| && st.sessions[sid].completed && !st.sessions[sid].billed && price.Some?)
    ensures var e := PayError(st, inv, user);
            && (e == Some(NOT_FOUND) <==> inv >= |st.invoices|)
            && (e == Some(PAY_CONFLICT) <==> inv < |st.invoices| && st.invoices[inv].paid)
            && (e == Some(INSUFFICIENT_FUNDS) <==>
                 inv < |st.invoices| && !st.invoices[inv].paid && Wallet(st, user) < st.invoices[inv].total)
            && (e == None <==>
                 inv < |st.invoices| && !st.invoices[inv].paid && Wallet(st, user) >= st.invoices[inv].total)
  {
  }

  /** Nothing is paid twice or without the money: a payment that goes through moves exactly the total, is recorded,
      and is one ledger entry; one that does not is recorded as failed and moves nothing. */
  lemma PayIs(st: State, inv: nat, user: int)
    requires Kept(st) && inv < |st.invoices| && !st.invoices[inv].paid
    ensures var r, total := Paid(st, inv, user), st.invoices[inv].total;
            && var through := Wallet(st, user) >= total;
            && r.payments == st.payments + [Payment(inv, total, through)]
            && Wallet(r, user) == Wallet(st, user) - (if through then total else 0.0)
            && (forall u :: u != user ==> Wallet(r, u) == Wallet(st, u))
            && r.invoices == st.invoices[inv := st.invoices[inv].(paid := through)]
            && |r.ledger| == |st.ledger| + (if through then 1 else 0) && st.ledger <= r.ledger
            && (through ==> LastEntry(r.ledger, user, -total, Wallet(r, user), Some(|st.payments|)))
            && r.sessions == st.sessions && r.lines == st.lines
  {
    PaidIs(st, inv, user);
  }

  ghost predicate LastEntry(ledger: seq<Entry>, user: int, amount: real, balance: real, payment: Option<nat>) {
    && |ledger| > 0 && var e := ledger[|ledger| - 1];
    e.user == user && e.amount == amount && e.balanceAfter == balance && e.payment == payment
  }

  /** A top-up adds its amount, in two decimals, to one wallet, and one entry of the amount as given. */
  lemma TopupIs(st: State, user: int, amount: real)
    ensures var r := ToppedUp(st, user, amount);
            && Wallet(st, user) + amount - 0.005 <= Wallet(r, user) <= Wallet(st, user) + amount + 0.005
            && Whole(Wallet(r, user)) && (forall u :: u != user ==> Wallet(r, u) == Wallet(st, u))
            && |r.ledger| == |st.ledger| + 1 && st.ledger <= r.ledger
            && LastEntry(r.ledger, user, amount, Wallet(r, user), None)
            && r == st.(balances := r.balances, ledger := r.ledger)
  {
    ToFixed2Near(Wallet(st, user) + amount);
    ToFixed2Whole(Wallet(st, user) + amount);
  }

  /** Billing marks the session and issues one due invoice, with a line for the energy between the registers (to half a
      paisa) and one for the fee if there is one. */
  lemma BillIs(st: State, sid: nat, price: real, fee: real)
    requires sid < |st.sessions|
    ensures var r, s, id := Billed(st, sid, price, fee), st.sessions[sid], |st.invoices|;
            && |r.invoices| == id + 1 && r.invoices[..id] == st.invoices
            && r.invoices[id].session == sid && !r.invoices[id].paid
            && WithinPaisa(r.invoices[id].total, Owed(s, price, fee))
            && |r.lines| == |st.lines| + (if fee > 0.0 then 2 else 1) && st.lines <= r.lines
            && r.lines[|st.lines|].invoice == id
            && Owed(s, price, 0.0) - 0.005 <= r.lines[|st.lines|].amount <= Owed(s, price, 0.0) + 0.005
            && (fee > 0.0 ==> r.lines[|st.lines| + 1] == Line(id, fee))
            && r == st.(invoices := r.invoices, lines := r.lines, sessions := st.sessions[sid := s.(billed := true)])
  {
    InvoiceFair(st.sessions[sid], price, fee);
    OwedIs(st.sessions[sid], price, 0.0);
    ToFixed2Near(Charge(st.sessions[sid], price));
  }

  // ---- sequence numbers and sums without the counters ----

  ghost predicate HasNumber(ledger: seq<Entry>, n: nat, user: int, seqNo: int) {
    exists i :: 0 <= i < n && i < |ledger| && ledger[i].user == user && ledger[i].seqNo == seqNo
  }

  lemma {:induction false} CountHasNumbers(st: State, n: nat, user: int, seqNo: int)
    requires Numbered(st) && n <= |st.ledger| && 1 <= seqNo <= CountOf(st.ledger[..n], user)
    ensures HasNumber(st.ledger, n, user, seqNo)
    decreases n
  {
    assert st.ledger[..n][..n - 1] == st.ledger[..n - 1];
    if seqNo <= CountOf(st.ledger[..n - 1], user) {
      CountHasNumbers(st, n - 1, user, seqNo);
    } else {
      assert st.ledger[n - 1].user == user && st.ledger[n - 1].seqNo == seqNo;
    }
  }

  lemma {:induction false} CountAscends(ledger: seq<Entry>, m: nat, n: nat, user: int)
    requires m <= n <= |ledger|
    ensures CountOf(ledger[..m], user) <= CountOf(ledger[..n], user)
    ensures m < n && ledger[m].user == user ==> CountOf(ledger[..m], user) < CountOf(ledger[..n], user)
    decreases n
  {
    if m < n {
      assert ledger[..n][..n - 1] == ledger[..n - 1];
      CountAscends(ledger, m, n - 1, user);
    }
  }

  /** A user's entries are numbered 1, 2, 3, ... in the order they were written: each later one is higher, the first
      is 1, and no number is left out. */
  lemma NumbersRun(st: State, j: nat)
    requires Numbered(st) && j < |st.ledger|
    ensures var e := st.ledger[j];
            && e.seqNo >= 1
            && (forall i :: 0 <= i < j && st.ledger[i].user == e.user ==> st.ledger[i].seqNo < e.seqNo)
            && (e.seqNo > 1 ==> HasNumber(st.ledger, j, e.user, e.seqNo - 1))
  {
    var e := st.ledger[j];
    forall i | 0 <= i < j && st.ledger[i].user == e.user ensures st.ledger[i].seqNo < e.seqNo {
      CountAscends(st.ledger, i, j, e.user);
    }
    if e.seqNo > 1 {
      CountHasNumbers(st, j, e.user, e.seqNo - 1);
    }
  }

  /** The user's amounts, and nothing in the place of everybody else's. */
  ghost function AmountsOf(ledger: seq<Entry>, user: int): seq<real> {
    seq(|ledger|, i requires 0 <= i < |ledger| => if ledger[i].user == user then ledger[i].amount else 0.0)
  }

  lemma {:induction false} SumOfIs(ledger: seq<Entry>, user: int)
    ensures SumOf(ledger, user) == Sum(AmountsOf(ledger, user))
  {
    if ledger != [] {
      var n := |ledger| - 1;
      SumOfIs(ledger[..n], user);
      assert AmountsOf(ledger, user) == AmountsOf(ledger[..n], user) + [AmountsOf(ledger, user)[n]];
      SumPush(AmountsOf(ledger[..n], user), AmountsOf(ledger, user)[n]);
    }
  }

  // ---- conservation ----

  /** Every wallet is the sum of its user's ledger, and every balance written beside an entry is the sum up to it. */
  ghost predicate Conserved(st: State) {
    && (forall u :: u in st.balances ==> st.balances[u] == SumOf(st.ledger, u))
    && (forall i :: 0 <= i < |st.ledger| ==> st.ledger[i].balanceAfter == SumOf(st.ledger[..i + 1], st.ledger[i].user))
    && (forall u :: u !in st.balances ==> SumOf(st.ledger, u) == 0.0)
  }

  lemma ConservedPush(st: State, r: State, e: Entry)
    requires Conserved(st) && r.ledger == st.ledger + [e] && r.balances == st.balances[e.user := e.balanceAfter]
    ensures Conserved(r) <==> e.balanceAfter == SumOf(st.ledger, e.user) + e.amount
  {
    forall u ensures SumOf(r.ledger, u) == SumOf(st.ledger, u) + if e.user == u then e.amount else 0.0 {
      LedgerPush(st.ledger, e, u);
    }
    assert r.ledger[..|st.ledger| + 1] == r.ledger;
    forall i | 0 <= i < |st.ledger| ensures r.ledger[i].balanceAfter == SumOf(r.ledger[..i + 1], r.ledger[i].user) {
      assert r.ledger[..i + 1] == st.ledger[..i + 1];
    }
  }

  /** A whole balance moves by exactly the amount when, and only when, the amount is whole. */
  lemma RoundedSum(balance: real, amount: real)
    requires Whole(balance)
    ensures ToFixed2(balance + amount) == balance + amount <==> Whole(amount)
  {
    WholeSum(balance, amount);
    ToFixed2Exact(balance + amount);
  }

  lemma WholeBalance(st: State, user: int)
    requires Numbered(st) && Conserved(st)
    ensures Whole(BalanceOf(st, user)) && BalanceOf(st, user) == SumOf(st.ledger, user)
  {
    assert 0.0 == Paise(0);
  }

  lemma CreditConserves(st: State, user: int, amount: real, balance: real)
    requires Conserved(st)
    ensures Conserved(Credited(st, user, amount, balance)) <==> balance == SumOf(st.ledger, user) + amount
  {
    var r := Credited(st, user, amount, balance);
    ConservedPush(st, r, r.ledger[|st.ledger|]);
  }

  /** The new balance is the exact sum when, and only when, the amount is whole. */
  lemma CreditedBalance(st: State, user: int, amount: real) returns (balance: real)
    requires Numbered(st) && Conserved(st)
    ensures ToppedUp(st, user, amount) == Credited(st, user, amount, balance)
    ensures balance == SumOf(st.ledger, user) + amount <==> Whole(amount)
  {
    WholeBalance(st, user);
    RoundedSum(BalanceOf(st, user), amount);
    balance := ToFixed2(BalanceOf(st, user) + amount);
  }

  /** A top-up conserves money exactly when its amount is a whole number of paise. */
  lemma TopupConserves(st: State, user: int, amount: real)
    requires Kept(st) && Conserved(st)
    ensures Conserved(ToppedUp(st, user, amount)) <==> Whole(amount)
  {
    var balance := CreditedBalance(st, user, amount);
    CreditConserves(st, user, amount, balance);
  }

  lemma PayConserves(st: State, inv: nat, user: int)
    requires Kept(st) && Conserved(st)
    ensures Conserved(Paid(st, inv, user))
  {
    if inv < |st.invoices| && !st.invoices[inv].paid {
      PaidIs(st, inv, user);
      OutcomeConserves(st, Paid(st, inv, user), inv, user, BalanceOf(st, user) - st.invoices[inv].total);
    }
  }

  lemma OutcomeConserves(st: State, r: State, inv: nat, user: int, left: real)
    requires Conserved(st) && inv < |st.invoices| && left == BalanceOf(st, user) - st.invoices[inv].total
    requires r == if left < 0.0 then Refused(st, inv, user) else Debited(st, inv, user, left)
    ensures Conserved(r)
  {
    if left < 0.0 {
      RefusedConserves(st, inv, user);
    } else {
      DebitConserves(st, inv, user, left);
    }
  }

  lemma RefusedConserves(st: State, inv: nat, user: int)
    requires Conserved(st) && inv < |st.invoices|
    ensures Conserved(Refused(st, inv, user))
  {
  }

  lemma DebitConserves(st: State, inv: nat, user: int, balance: real)
    requires Conserved(st) && inv < |st.invoices| && balance == BalanceOf(st, user) - st.invoices[inv].total
    ensures Conserved(Debited(st, inv, user, balance))
  {
    var r := Debited(st, inv, user, balance);
    ConservedPush(st, r, r.ledger[|st.ledger|]);
  }

  ghost predicate WholeStep(step: Step) {
    step.Topup? ==> Whole(step.amount)
  }

  lemma StepConserves(st: State, step: Step)
    requires Kept(st) && Conserved(st) && Enabled(st, step)
    ensures Conserved(Next(st, step)) <==> WholeStep(step)
  {
    match step {
      case Topup(user, amount) => TopupConserves(st, user, amount);
      case Pay(inv, user) => PayConserves(st, inv, user);
      case _ =>
    }
  }

  lemma {:induction false} WholeRunConserves(states: seq<State>, steps: seq<Step>, k: nat)
    requires Run(states, steps) && k <= |steps| && forall i :: 0 <= i < k ==> WholeStep(steps[i])
    ensures Conserved(states[k])
  {
    if k > 0 {
      WholeRunConserves(states, steps, k - 1);
      RunKeeps(states, steps, k - 1);
      StepConserves(states[k - 1], steps[k - 1]);
    }
  }

  /** Money is conserved throughout a run exactly when every top-up of the run was a whole number of paise. */
  lemma ConservedIff(states: seq<State>, steps: seq<Step>)
    requires Run(states, steps)
    ensures (forall k :: 0 <= k < |states| ==> Conserved(states[k]))
      <==> forall i :: 0 <= i < |steps| ==> WholeStep(steps[i])
  {
    if forall i :: 0 <= i < |steps| ==> WholeStep(steps[i]) {
      forall k | 0 <= k < |states| ensures Conserved(states[k]) {
        WholeRunConserves(states, steps, k);
      }
    }
    if forall k :: 0 <= k < |states| ==> Conserved(states[k]) {
      forall i | 0 <= i < |steps| ensures WholeStep(steps[i]) {
        RunKeeps(states, steps, i);
        assert Conserved(states[i]) && Conserved(states[i + 1]);
        StepConserves(states[i], steps[i]);
      }
    }
  }

  // ---- invoices and their lines ----

  ghost predicate LinesTotal(st: State) {
    && (forall i :: 0 <= i < |st.invoices| ==> st.invoices[i].total == LinesOf(st.lines, i))
    && (forall i: nat :: i >= |st.invoices| ==> LinesOf(st.lines, i) == 0.0)
  }

  /** An invoice is the sum of its lines exactly when the session fee is a whole number of paise. */
  lemma BillTotals(st: State, sid: nat, price: real, fee: real)
    requires LinesTotal(st) && sid < |st.sessions| && fee >= 0.0
    ensures LinesTotal(Billed(st, sid, price, fee)) <==> Whole(fee)
  {
    var energy, id := EnergyAmount(st.sessions[sid], price), |st.invoices|;
    var r := Billed(st, sid, price, fee);
    assert st.lines + [Line(id, energy)] + [] == st.lines + [Line(id, energy)];
    forall i: nat ensures LinesOf(r.lines, i) == LinesOf(st.lines, i) + if i == id then energy + fee else 0.0 {
      LinePush(st.lines, Line(id, energy), i);
      LinePush(st.lines + [Line(id, energy)], Line(id, fee), i);
    }
    ToFixed2Whole(Charge(st.sessions[sid], price));
    WholeSum(energy, fee);
    ToFixed2Exact(energy + fee);
    forall i | 0 <= i < id ensures r.invoices[i].total == LinesOf(r.lines, i) {
      assert st.invoices[i].total == LinesOf(st.lines, i);
    }
    assert r.invoices[id].total == ToFixed2(energy + fee);
  }

  lemma ToFixed2Near(amount: real)
    ensures amount - 0.005 <= ToFixed2(amount) <= amount + 0.005
  {
  }

  /** What a session owes: the energy between its two registers at the price, and the fee. */
  ghost function Owed(s: Session, price: real, fee: real): real {
    OwedFor(s.startMeter, s.endMeter, price, fee)
  }

  ghost function OwedFor(start: real, end: real, price: real, fee: real): real {
    (if end > start then (end - start) * price else 0.0) + fee
  }

  ghost predicate WithinPaisa(total: real, owed: real) {
    owed - 0.01 <= total <= owed + 0.01
  }

  /** An invoice differs from what the registers say by at most a paisa. */
  lemma InvoiceFair(s: Session, price: real, fee: real)
    ensures WithinPaisa(InvoiceTotal(s, price, fee), Owed(s, price, fee))
  {
    RoundedTwice(Charge(s, price), fee);
    OwedIs(s, price, fee);
  }

  lemma OwedIs(s: Session, price: real, fee: real)
    ensures Owed(s, price, fee) == Charge(s, price) + fee
  {
    if s.endMeter <= s.startMeter {
      NothingTimes(Max(s.endMeter - s.startMeter, 0.0), price);
    }
  }

  lemma NothingTimes(kwh: real, price: real)
    requires kwh == 0.0
    ensures kwh * price == 0.0
  {
  }

  /** Only the difference of the registers counts. */
  lemma RegistersShift(s: Session, shift: real, price: real, fee: real)
    ensures InvoiceTotal(s.(startMeter := s.startMeter + shift, endMeter := s.endMeter + shift), price, fee)
            == InvoiceTotal(s, price, fee)
  {
    var r := s.(startMeter := s.startMeter + shift, endMeter := s.endMeter + shift);
    assert r.endMeter - r.startMeter == s.endMeter - s.startMeter;
    SamePriced(Max(r.endMeter - r.startMeter, 0.0), Max(s.endMeter - s.startMeter, 0.0), price);
    assert Charge(r, price) == Charge(s, price);
  }

  lemma SamePriced(a: real, b: real, price: real)
    requires a == b
    ensures a * price == b * price
  {
  }

  /** Completed sessions keep their registers and invoices their session and total, whatever happens next. */
  lemma StepLeaves(st: State, step: Step)
    requires Enabled(st, step)
    ensures var r := Next(st, step);
            && |st.sessions| <= |r.sessions| && |st.invoices| <= |r.invoices|
            && (forall s :: 0 <= s < |st.sessions| && st.sessions[s].completed ==>
                 SameRegisters(st.sessions[s], r.sessions[s]))
            && (forall i :: 0 <= i < |st.invoices| ==>
                 r.invoices[i].session == st.invoices[i].session && r.invoices[i].total == st.invoices[i].total)
  {
  }

  ghost predicate SameRegisters(a: Session, b: Session) {
    b.completed && b.startMeter == a.startMeter && b.endMeter == a.endMeter
  }

  /** The invoice is of a completed session and, within a paisa, of what its registers owe at this price and fee. */
  ghost predicate FairlyBilled(st: State, inv: Invoice, price: real, fee: real) {
    && inv.session < |st.sessions| && st.sessions[inv.session].completed
    && WithinPaisa(inv.total, Owed(st.sessions[inv.session], price, fee))
  }

  lemma FairStays(st: State, step: Step, inv: Invoice, r: Invoice, price: real, fee: real)
    requires Enabled(st, step) && FairlyBilled(st, inv, price, fee)
    requires r.session == inv.session && r.total == inv.total
    ensures FairlyBilled(Next(st, step), r, price, fee)
  {
    StepLeaves(st, step);
    assert SameRegisters(st.sessions[inv.session], Next(st, step).sessions[inv.session]);
  }

  lemma BillFair(st: State, sid: nat, price: real, fee: real)
    requires sid < |st.sessions| && st.sessions[sid].completed
    ensures var r := Billed(st, sid, price, fee);
            |r.invoices| == |st.invoices| + 1 && r.invoices[|st.invoices|].session == sid
              && FairlyBilled(r, r.invoices[|st.invoices|], price, fee)
  {
    InvoiceFair(st.sessions[sid], price, fee);
  }

  /** In every run every invoice was issued by one earlier billing of its session, and is within a paisa of the energy
      between that session's registers at the price it was billed with, plus the fee. */
  lemma {:induction false} EveryInvoiceFair(states: seq<State>, steps: seq<Step>, k: nat, i: nat) returns (c: nat)
    requires Run(states, steps) && k <= |steps| && i < |states[k].invoices|
    ensures c < k && steps[c].Bill? && steps[c].sid == states[k].invoices[i].session
    ensures |states[c].invoices| == i && FairlyBilled(states[k], states[k].invoices[i], steps[c].price, steps[c].fee)
    decreases k
  {
    var st, step := states[k - 1], steps[k - 1];
    StepLeaves(st, step);
    if i < |st.invoices| {
      c := EveryInvoiceFair(states, steps, k - 1, i);
      FairStays(st, step, st.invoices[i], states[k].invoices[i], steps[c].price, steps[c].fee);
    } else {
      c := k - 1;
      BillFair(st, step.sid, step.price, step.fee);
    }
  }

  /** A session that delivered nothing pays only the (rounded) fee. */
  lemma NothingDeliveredNothingCharged(s: Session, price: real, fee: real)
    requires s.endMeter <= s.startMeter
    ensures InvoiceTotal(s, price, fee) == ToFixed2(fee)
  {
    NothingDelivered(Max(s.endMeter - s.startMeter, 0.0), price);
    assert EnergyAmount(s, price) == 0.0;
  }

  lemma RoundedTwice(amount: real, fee: real)
    ensures amount + fee - 0.01 <= ToFixed2(ToFixed2(amount) + fee) <= amount + fee + 0.01
  {
    ToFixed2Near(amount);
    ToFixed2Near(ToFixed2(amount) + fee);
  }

  lemma NothingDelivered(kwh: real, price: real)
    requires kwh == 0.0
    ensures ToFixed2(kwh * price) == 0.0
  {
    assert kwh * price == 0.0;
    RoundAwayWhole(0);
  }

  ghost predicate WholeFee(step: Step) {
    step.Bill? ==> Whole(step.fee)
  }

  lemma StepTotals(st: State, step: Step)
    requires LinesTotal(st) && Enabled(st, step)
    ensures LinesTotal(Next(st, step)) <==> WholeFee(step)
  {
    if step.Bill? {
      BillTotals(st, step.sid, step.price, step.fee);
    } else if step.Pay? {
      PayLeavesTotals(st, step.inv, step.user);
    }
  }

  lemma PayLeavesTotals(st: State, inv: nat, user: int)
    ensures var r := Paid(st, inv, user);
            && r.lines == st.lines && |r.invoices| == |st.invoices|
            && forall i :: 0 <= i < |st.invoices| ==> r.invoices[i].total == st.invoices[i].total
  {
  }

  lemma {:induction false} WholeRunTotals(states: seq<State>, steps: seq<Step>, k: nat)
    requires Run(states, steps) && k <= |steps| && forall i :: 0 <= i < k ==> WholeFee(steps[i])
    ensures LinesTotal(states[k])
  {
    if k > 0 {
      WholeRunTotals(states, steps, k - 1);
      StepTotals(states[k - 1], steps[k - 1]);
    }
  }

  /** Every invoice of a run is the sum of its lines throughout exactly when every session fee billed was a whole number
      of paise. */
  lemma TotalsIff(states: seq<State>, steps: seq<Step>)
    requires Run(states, steps)
    ensures (forall k :: 0 <= k < |states| ==> LinesTotal(states[k]))
      <==> forall i :: 0 <= i < |steps| ==> WholeFee(steps[i])
  {
    if forall i :: 0 <= i < |steps| ==> WholeFee(steps[i]) {
      forall k | 0 <= k < |states| ensures LinesTotal(states[k]) {
        WholeRunTotals(states, steps, k);
      }
    }
    if forall k :: 0 <= k < |states| ==> LinesTotal(states[k]) {
      forall i | 0 <= i < |steps| ensures WholeFee(steps[i]) {
        assert LinesTotal(states[i]) && LinesTotal(states[i + 1]);
        StepTotals(states[i], steps[i]);
      }
    }
  }
}
