/** The ledger screen (components/FinancialManager.tsx): the income,
    expense and balance totals over the listed transactions, the row a new
    transaction inserts, marking a pending transaction paid, and deletion.
    The table effects of pay and delete are modelled on the list itself,
    which is what the screen shows after it refetches. */
module FinancialManager {
  import opened Types
  import opened Seqs
  import Text

  // ---------------------------------------------------------------------
  // Totals
  // ---------------------------------------------------------------------

  /** `reduce((acc, t) => acc + t.amount, 0)`: a left fold over the amounts. */
  function Sum(ts: seq<Transaction>): real
    decreases |ts|
  {
    if |ts| == 0 then 0.0 else Sum(ts[..|ts| - 1]) + ts[|ts| - 1].amount
  }

  /** The filter by kind used for both totals. */
  function OfKind(kind: TransactionKind): Transaction -> bool {
    (t: Transaction) => t.kind == kind
  }

  /** The total of one kind: the sum over the transactions of that kind. */
  function Total(ts: seq<Transaction>, kind: TransactionKind): real {
    Sum(Filter(ts, OfKind(kind)))
  }

  /** What one transaction adds to the total of a kind. */
  function Contribution(t: Transaction, kind: TransactionKind): real {
    if t.kind == kind then t.amount else 0.0
  }

  /** The sum of a concatenation is the sum of the parts. */
  lemma {:induction false} SumAppend(a: seq<Transaction>, b: seq<Transaction>)
    ensures Sum(a + b) == Sum(a) + Sum(b)
    decreases |b|
  {
    if |b| == 0 {
      assert a + b == a;
    } else {
      var b' := b[..|b| - 1];
      assert (a + b)[..|a + b| - 1] == a + b';
      SumAppend(a, b');
    }
  }

  /** Totals add up over a concatenation. */
  lemma TotalAppend(a: seq<Transaction>, b: seq<Transaction>, kind: TransactionKind)
    ensures Total(a + b, kind) == Total(a, kind) + Total(b, kind)
  {
    FilterAppend(a, b, OfKind(kind));
    SumAppend(Filter(a, OfKind(kind)), Filter(b, OfKind(kind)));
  }

  /** The total of a single transaction is its contribution. */
  lemma TotalSingle(t: Transaction, kind: TransactionKind)
    ensures Total([t], kind) == Contribution(t, kind)
  {
    assert [t][1..] == [];
    if t.kind == kind {
      assert Filter([t], OfKind(kind)) == [t];
      assert [t][..0] == [];
      assert Sum([t]) == Sum([]) + t.amount;
    }
  }

  /** Appending one transaction adds its contribution to a total. */
  lemma TotalSnoc(ts: seq<Transaction>, t: Transaction, kind: TransactionKind)
    ensures Total(ts + [t], kind) == Total(ts, kind) + Contribution(t, kind)
  {
    TotalAppend(ts, [t], kind);
    TotalSingle(t, kind);
  }

  /** The total over one more element of a list. */
  lemma TotalStep(ts: seq<Transaction>, i: nat, kind: TransactionKind)
    requires i < |ts|
    ensures Total(ts[..i + 1], kind) == Total(ts[..i], kind) + Contribution(ts[i], kind)
  {
    assert ts[..i + 1] == ts[..i] + [ts[i]];
    TotalSnoc(ts[..i], ts[i], kind);
  }

  /** The income and expense totals and the balance, computed in one pass
      over the list; the result agrees with filtering by kind and summing. */
  method Totals(ts: seq<Transaction>) returns (income: real, expense: real, balance: real)
    ensures income == Total(ts, Income)
    ensures expense == Total(ts, Expense)
    ensures balance == Total(ts, Income) - Total(ts, Expense)
  {
    income, expense := 0.0, 0.0;
    var i := 0;
    while i < |ts|
      invariant 0 <= i <= |ts|
      invariant income == Total(ts[..i], Income)
      invariant expense == Total(ts[..i], Expense)
    {
      TotalStep(ts, i, Income);
      TotalStep(ts, i, Expense);
      income := income + Contribution(ts[i], Income);
      expense := expense + Contribution(ts[i], Expense);
      i := i + 1;
    }
    assert ts[..|ts|] == ts;
    balance := income - expense;
  }

  /** A transaction listed at any position raises the total of its kind by
      its amount and leaves the other kind's total unchanged. */
  lemma InsertRaisesTotal(ts: seq<Transaction>, k: nat, t: Transaction)
    requires k <= |ts|
    ensures Total(ts[..k] + [t] + ts[k..], t.kind) == Total(ts, t.kind) + t.amount
    ensures forall other: TransactionKind :: other != t.kind ==>
      Total(ts[..k] + [t] + ts[k..], other) == Total(ts, other)
  {
    assert ts == ts[..k] + ts[k..];
    forall kind: TransactionKind
      ensures Total(ts[..k] + [t] + ts[k..], kind) == Total(ts, kind) + Contribution(t, kind)
    {
      TotalAppend(ts[..k] + [t], ts[k..], kind);
      TotalAppend(ts[..k], [t], kind);
      TotalAppend(ts[..k], ts[k..], kind);
      TotalSingle(t, kind);
    }
  }

  // ---------------------------------------------------------------------
  // Adding a transaction
  // ---------------------------------------------------------------------

  /** The form fields; the amount is the text of its number input. */
  datatype TransactionForm = TransactionForm(
    description: string,
    amount: string,
    kind: TransactionKind,
    category: string,
    dueDate: string)

  /** The row inserted into `financial_transactions`. */
  datatype NewTransaction = NewTransaction(
    description: string,
    amount: real,
    kind: TransactionKind,
    category: string,
    dueDate: string,
    status: TransactionStatus)

  /** The outcome of `handleAdd`: the row sent, whether the form stays
      shown, and the next form. */
  datatype AddOutcome = AddOutcome(insert: NewTransaction, showForm: bool, form: TransactionForm)

  /** The blank form: an expense due today, where today is the date part
      of the injected ISO timestamp of "now". */
  function BlankForm(nowIso: string): (f: TransactionForm)
    ensures f.description == "" && f.amount == "" && f.category == ""
    ensures f.kind == Expense
    ensures Text.StartsWith(nowIso, f.dueDate) && 'T' !in f.dueDate
    ensures |f.dueDate| < |nowIso| ==> nowIso[|f.dueDate|] == 'T'
  {
    TransactionForm("", "", Expense, "", Text.DatePart(nowIso))
  }

  /** At `day` + "T" + `time`, the blank form is due on `day`. */
  lemma BlankFormDueToday(day: string, time: string)
    requires 'T' !in day
    ensures BlankForm(day + "T" + time).dueDate == day
  {
    Text.DatePartOfTimestamp(day, time);
  }

  /** `handleAdd`, given `parseFloat`, whether the insert succeeds and the
      timestamp of "now": the row always starts PENDING; a success hides
      the form and resets it, a failure keeps both. */
  function HandleAdd(form: TransactionForm, showForm: bool, parse: string -> real, insertSucceeds: bool, nowIso: string): (r: AddOutcome)
    ensures r.insert.status == Pending
    ensures r.insert.description == form.description && r.insert.amount == parse(form.amount)
    ensures r.insert.kind == form.kind && r.insert.category == form.category && r.insert.dueDate == form.dueDate
    ensures insertSucceeds ==> !r.showForm && r.form == BlankForm(nowIso)
    ensures !insertSucceeds ==> r.showForm == showForm && r.form == form
  {
    var row := NewTransaction(form.description, parse(form.amount), form.kind, form.category, form.dueDate, Pending);
    if insertSucceeds then AddOutcome(row, false, BlankForm(nowIso)) else AddOutcome(row, showForm, form)
  }

  // ---------------------------------------------------------------------
  // Paying and deleting
  // ---------------------------------------------------------------------

  /** The pay button is shown only on pending transactions. */
  predicate PayOffered(t: Transaction) {
    t.status == Pending
  }

  /** `handlePay`, given whether the update succeeds: the transactions the
      refetch lists. On success every transaction with the id becomes PAID
      and nothing else changes; the returned error is ignored, so a failed
      update lists the transactions as they were. */
  function Pay(ts: seq<Transaction>, id: string, succeeded: bool): (r: seq<Transaction>)
    ensures |r| == |ts|
    ensures !succeeded ==> r == ts
    ensures forall i :: 0 <= i < |ts| && ts[i].id == id && succeeded ==> r[i] == ts[i].(status := Paid)
    ensures forall i :: 0 <= i < |ts| && ts[i].id != id ==> r[i] == ts[i]
  {
    if succeeded then
      seq(|ts|, i requires 0 <= i < |ts| => if ts[i].id == id then ts[i].(status := Paid) else ts[i])
    else
      ts
  }

  /** After paying, no transaction with the id offers the pay action any more. */
  lemma PayWithdrawsOffer(ts: seq<Transaction>, id: string)
    ensures forall i :: 0 <= i < |ts| && ts[i].id == id ==> !PayOffered(Pay(ts, id, true)[i])
  {
  }

  /** Paying moves no money between the totals, whether or not the update
      succeeds. */
  lemma {:induction false} PayKeepsTotals(ts: seq<Transaction>, id: string, succeeded: bool, kind: TransactionKind)
    ensures Total(Pay(ts, id, succeeded), kind) == Total(ts, kind)
    decreases |ts|
  {
    if succeeded && |ts| != 0 {
      var n := |ts| - 1;
      var init := ts[..n];
      var paid := Pay(ts, id, true);
      assert ts == init + [ts[n]];
      assert paid == Pay(init, id, true) + [paid[n]];
      calc {
        Total(paid, kind);
      == { TotalSnoc(Pay(init, id, true), paid[n], kind); }
        Total(Pay(init, id, true), kind) + Contribution(paid[n], kind);
      == { PayKeepsTotals(init, id, true, kind); }
        Total(init, kind) + Contribution(ts[n], kind);
      == { TotalSnoc(init, ts[n], kind); }
        Total(ts, kind);
      }
    }
  }

  /** `handleDelete`, given the answer to the confirmation dialog and
      whether the delete succeeds: the transactions the refetch lists. A
      failed delete, whose error is ignored, lists them as they were. */
  function Delete(ts: seq<Transaction>, id: string, confirmed: bool, succeeded: bool): (r: seq<Transaction>)
    ensures !(confirmed && succeeded) ==> r == ts
    ensures confirmed && succeeded ==> forall i :: 0 <= i < |r| ==> r[i].id != id && r[i] in ts
    ensures confirmed && succeeded ==> forall i :: 0 <= i < |ts| && ts[i].id != id ==> ts[i] in r
  {
    if confirmed && succeeded then Filter(ts, DiffersById(id)) else ts
  }

  function DiffersById(id: string): Transaction -> bool {
    (t: Transaction) => t.id != id
  }

  /** Deleting the only transaction with an id removes exactly that
      position. */
  lemma DeleteUnique(ts: seq<Transaction>, k: nat)
    requires k < |ts|
    requires forall j :: 0 <= j < |ts| && j != k ==> ts[j].id != ts[k].id
    ensures Delete(ts, ts[k].id, true, true) == ts[..k] + ts[k + 1..]
  {
    var keep := DiffersById(ts[k].id);
    var before, after := ts[..k], ts[k + 1..];
    assert ts == before + [ts[k]] + after;
    assert forall i :: 0 <= i < |before| ==> keep(before[i]);
    assert forall i :: 0 <= i < |after| ==> keep(after[i]);
    calc {
      Filter(ts, keep);
    == { FilterAppend(before + [ts[k]], after, keep); FilterAppend(before, [ts[k]], keep); }
      Filter(before, keep) + Filter([ts[k]], keep) + Filter(after, keep);
    == { FilterKeepsAll(before, keep); FilterKeepsAll(after, keep); FilterRejectsSingle(ts[k], keep); }
      before + [] + after;
    == { assert before + [] == before; }
      before + after;
    }
  }

  /** Deleting the only transaction with an id lowers the total of its
      kind by its amount and leaves the other kind unchanged. */
  lemma DeleteLowersTotal(ts: seq<Transaction>, k: nat, kind: TransactionKind)
    requires k < |ts|
    requires forall j :: 0 <= j < |ts| && j != k ==> ts[j].id != ts[k].id
    ensures Total(Delete(ts, ts[k].id, true, true), kind) == Total(ts, kind) - Contribution(ts[k], kind)
  {
    var before, after := ts[..k], ts[k + 1..];
    assert ts == before + [ts[k]] + after;
    DeleteUnique(ts, k);
    calc {
      Total(ts, kind);
    == { TotalAppend(before + [ts[k]], after, kind); }
      Total(before + [ts[k]], kind) + Total(after, kind);
    == { TotalSnoc(before, ts[k], kind); }
      Total(before, kind) + Contribution(ts[k], kind) + Total(after, kind);
    == { TotalAppend(before, after, kind); }
      Total(before + after, kind) + Contribution(ts[k], kind);
    }
  }
}
