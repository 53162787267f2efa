/**
 * The accounting book's transaction list: non-voided invoices become income,
 * every expense becomes an expense, then an inclusive date range, a type
 * selector and a newest-first ordering are applied. The three date-range
 * filters used by the book's reports live here too.
 */
module Transactions {
  import opened Outcomes
  import opened Domain
  import opened Sorting

  /** The document a transaction was projected from. */
  datatype Doc = InvoiceDoc(invoice: Invoice) | ExpenseDoc(expense: Expense)

  datatype TxType = Ingreso | Gasto

  /** A transaction; its type is read off the document so the two cannot disagree. */
  datatype Transaction = Transaction(
    id: string, date: Date, description: string, amount: real, status: string, originalDoc: Doc)
  {
    function Type(): TxType
    {
      if originalDoc.InvoiceDoc? then Ingreso else Gasto
    }
  }

  const INCOME_PREFIX := "inc-"
  const EXPENSE_PREFIX := "exp-"

  function IncomeTransaction(inv: Invoice): Transaction
  {
    Transaction(INCOME_PREFIX + inv.id, inv.date, "Ingreso por Factura N° " + inv.invoiceNumber,
                inv.totalAmount, inv.status, InvoiceDoc(inv))
  }

  function ExpenseTransaction(exp: Expense): Transaction
  {
    Transaction(EXPENSE_PREFIX + exp.id, exp.date, exp.description, exp.amount, exp.status, ExpenseDoc(exp))
  }

  predicate NotVoided(inv: Invoice)
  {
    inv.status != STATUS_ANULADA
  }

  /** One income transaction per non-voided invoice, in invoice order. */
  function IncomeTransactions(invoices: seq<Invoice>): (r: seq<Transaction>)
    ensures |r| <= |invoices|
    ensures forall i :: 0 <= i < |r| ==>
      && r[i].Type() == Ingreso
      && r[i].originalDoc.invoice in invoices
      && NotVoided(r[i].originalDoc.invoice)
      && r[i].id == INCOME_PREFIX + r[i].originalDoc.invoice.id
      && r[i].amount == r[i].originalDoc.invoice.totalAmount
      && r[i].date == r[i].originalDoc.invoice.date
    ensures forall i :: 0 <= i < |invoices| && NotVoided(invoices[i]) ==> IncomeTransaction(invoices[i]) in r
    ensures |r| == |Filter(invoices, NotVoided)|
    ensures forall i :: 0 <= i < |r| ==> r[i] == IncomeTransaction(Filter(invoices, NotVoided)[i])
  {
    var kept := Filter(invoices, NotVoided);
    var r := seq(|kept|, i requires 0 <= i < |kept| => IncomeTransaction(kept[i]));
    assert forall i :: 0 <= i < |kept| ==> kept[i] in invoices by {
      forall i | 0 <= i < |kept| ensures kept[i] in invoices {
        FilterMembership(invoices, NotVoided, kept[i]);
      }
    }
    assert forall i :: 0 <= i < |invoices| && NotVoided(invoices[i]) ==> IncomeTransaction(invoices[i]) in r by {
      forall i | 0 <= i < |invoices| && NotVoided(invoices[i])
        ensures IncomeTransaction(invoices[i]) in r
      {
        FilterMembership(invoices, NotVoided, invoices[i]);
        var k :| 0 <= k < |kept| && kept[k] == invoices[i];
        assert r[k] == IncomeTransaction(invoices[i]);
      }
    }
    r
  }

  /** Exactly one expense transaction per expense, in expense order. */
  function ExpenseTransactions(expenses: seq<Expense>): (r: seq<Transaction>)
    ensures |r| == |expenses|
    ensures forall i :: 0 <= i < |r| ==>
      && r[i].Type() == Gasto
      && r[i].originalDoc.expense == expenses[i]
      && r[i].id == EXPENSE_PREFIX + expenses[i].id
      && r[i].amount == expenses[i].amount
      && r[i].date == expenses[i].date
  {
    seq(|expenses|, i requires 0 <= i < |expenses| => ExpenseTransaction(expenses[i]))
  }

  /** Start and end are whole days and both ends are included; a missing end is open. */
  predicate InDateRange(d: Date, start: Option<Date>, end: Option<Date>)
  {
    (start.None? || start.value <= d) && (end.None? || d <= end.value)
  }

  function Dated(start: Option<Date>, end: Option<Date>): Transaction -> bool
  {
    (t: Transaction) => InDateRange(t.date, start, end)
  }

  function DateFilter(ts: seq<Transaction>, start: Option<Date>, end: Option<Date>): seq<Transaction>
  {
    Filter(ts, Dated(start, end))
  }

  const IS_INCOME := (t: Transaction) => t.Type() == Ingreso
  const IS_EXPENSE := (t: Transaction) => t.Type() == Gasto

  /** The type selector: "ingresos", "gastos", or anything else for all. */
  function TypeFilter(ts: seq<Transaction>, selector: string): seq<Transaction>
  {
    if selector == "ingresos" then Filter(ts, IS_INCOME)
    else if selector == "gastos" then Filter(ts, IS_EXPENSE)
    else ts
  }

  /** What survives the type selector: exactly the elements of the selected type. */
  lemma TypeFilterMembership(ts: seq<Transaction>, selector: string, t: Transaction)
    ensures t in TypeFilter(ts, selector) <==>
      t in ts && (selector == "ingresos" ==> t.Type() == Ingreso) && (selector == "gastos" ==> t.Type() == Gasto)
  {
    if selector == "ingresos" {
      FilterMembership(ts, IS_INCOME, t);
    } else if selector == "gastos" {
      FilterMembership(ts, IS_EXPENSE, t);
    }
  }

  /** The comparator: `b.date - a.date`, i.e. a may precede b when it is not older. */
  const NEWEST_FIRST := (a: Transaction, b: Transaction) => a.date >= b.date

  /** `filteredTransactions`. */
  function FilteredTransactions(invoices: seq<Invoice>, expenses: seq<Expense>,
                                start: Option<Date>, end: Option<Date>, selector: string): seq<Transaction>
  {
    var combined := IncomeTransactions(invoices) + ExpenseTransactions(expenses);
    Sort(TypeFilter(DateFilter(combined, start, end), selector), NEWEST_FIRST)
  }

  // ---------------------------------------------------------------------------
  // Properties

  lemma NewestFirstIsTotalPreorder()
    ensures TotalPreorder(NEWEST_FIRST)
  {
  }

  /** A transaction passes the date filter exactly when its day lies in the inclusive range. */
  lemma DateFilterExact(ts: seq<Transaction>, start: Option<Date>, end: Option<Date>, t: Transaction)
    ensures t in DateFilter(ts, start, end) <==> t in ts && InDateRange(t.date, start, end)
  {
    FilterMembership(ts, Dated(start, end), t);
  }

  /** The "ingresos" and "gastos" views split the date-filtered set between them. */
  lemma TypedViewsPartition(ts: seq<Transaction>)
    ensures multiset(TypeFilter(ts, "ingresos")) + multiset(TypeFilter(ts, "gastos")) == multiset(ts)
    ensures forall i :: 0 <= i < |TypeFilter(ts, "ingresos")| ==> TypeFilter(ts, "ingresos")[i].Type() == Ingreso
    ensures forall i :: 0 <= i < |TypeFilter(ts, "gastos")| ==> TypeFilter(ts, "gastos")[i].Type() == Gasto
    ensures TypeFilter(ts, "todos") == ts
  {
    FilterPartition(ts, IS_INCOME, IS_EXPENSE);
  }

  /**
   * The book's list: newest first, exactly the projected transactions in the
   * range and of the selected type, each once, with same-day transactions in
   * their projected order (incomes before expenses, then source order).
   */
  lemma FilteredTransactionsSpec(invoices: seq<Invoice>, expenses: seq<Expense>,
                                 start: Option<Date>, end: Option<Date>, selector: string)
    ensures var r := FilteredTransactions(invoices, expenses, start, end, selector);
      var shown := TypeFilter(DateFilter(IncomeTransactions(invoices) + ExpenseTransactions(expenses), start, end), selector);
      && (forall i, j :: 0 <= i < j < |r| ==> r[i].date >= r[j].date)
      && multiset(r) == multiset(shown)
      && (forall y :: Ties(r, NEWEST_FIRST, y) == Ties(shown, NEWEST_FIRST, y))
      && (forall i :: 0 <= i < |r| ==> InDateRange(r[i].date, start, end))
      && (selector == "ingresos" ==> forall i :: 0 <= i < |r| ==> r[i].Type() == Ingreso)
      && (selector == "gastos" ==> forall i :: 0 <= i < |r| ==> r[i].Type() == Gasto)
  {
    var combined := IncomeTransactions(invoices) + ExpenseTransactions(expenses);
    var dated := DateFilter(combined, start, end);
    var shown := TypeFilter(dated, selector);
    NewestFirstIsTotalPreorder();
    SortIsStableSort(shown, NEWEST_FIRST);
    var r := Sort(shown, NEWEST_FIRST);
    forall i | 0 <= i < |r|
      ensures InDateRange(r[i].date, start, end)
      ensures selector == "ingresos" ==> r[i].Type() == Ingreso
      ensures selector == "gastos" ==> r[i].Type() == Gasto
    {
      assert r[i] in multiset(shown);
      TypeFilterMembership(dated, selector, r[i]);
      DateFilterExact(combined, start, end, r[i]);
    }
  }

  lemma VoidedNeverListed(invoices: seq<Invoice>, expenses: seq<Expense>,
                          start: Option<Date>, end: Option<Date>, selector: string, inv: Invoice)
    requires !NotVoided(inv)
    ensures var r := FilteredTransactions(invoices, expenses, start, end, selector);
      forall i :: 0 <= i < |r| ==> r[i].originalDoc != InvoiceDoc(inv)
  {
    var combined := IncomeTransactions(invoices) + ExpenseTransactions(expenses);
    var dated := DateFilter(combined, start, end);
    var shown := TypeFilter(dated, selector);
    var r := Sort(shown, NEWEST_FIRST);
    forall i | 0 <= i < |r|
      ensures r[i].originalDoc != InvoiceDoc(inv)
    {
      assert r[i] in multiset(shown);
      TypeFilterMembership(dated, selector, r[i]);
      DateFilterExact(combined, start, end, r[i]);
      if r[i] in IncomeTransactions(invoices) {
        var k :| 0 <= k < |IncomeTransactions(invoices)| && IncomeTransactions(invoices)[k] == r[i];
      } else {
        assert r[i] in ExpenseTransactions(expenses);
      }
    }
  }

  lemma InRangeListed(invoices: seq<Invoice>, expenses: seq<Expense>,
                      start: Option<Date>, end: Option<Date>, selector: string, inv: Invoice)
    requires inv in invoices
    requires selector != "gastos"
    requires NotVoided(inv) && InDateRange(inv.date, start, end)
    ensures IncomeTransaction(inv) in FilteredTransactions(invoices, expenses, start, end, selector)
  {
    var combined := IncomeTransactions(invoices) + ExpenseTransactions(expenses);
    var dated := DateFilter(combined, start, end);
    var r := Sort(TypeFilter(dated, selector), NEWEST_FIRST);
    var t := IncomeTransaction(inv);
    assert t in combined;
    DateFilterExact(combined, start, end, t);
    TypeFilterMembership(dated, selector, t);
    assert t in multiset(r);
  }

  /** A voided invoice never reaches the list; any other invoice in range does, when incomes are shown. */
  lemma VoidedInvoicesExcluded(invoices: seq<Invoice>, expenses: seq<Expense>,
                               start: Option<Date>, end: Option<Date>, selector: string, inv: Invoice)
    requires inv in invoices
    requires selector != "gastos"
    ensures var r := FilteredTransactions(invoices, expenses, start, end, selector);
      && (!NotVoided(inv) ==> forall i :: 0 <= i < |r| ==> r[i].originalDoc != InvoiceDoc(inv))
      && (NotVoided(inv) && InDateRange(inv.date, start, end) ==> IncomeTransaction(inv) in r)
  {
    if !NotVoided(inv) {
      VoidedNeverListed(invoices, expenses, start, end, selector, inv);
    } else if InDateRange(inv.date, start, end) {
      InRangeListed(invoices, expenses, start, end, selector, inv);
    }
  }

  /** The report filters: invoices, expenses and manual entries in the same inclusive range. */
  function InvoicesInRange(invoices: seq<Invoice>, start: Option<Date>, end: Option<Date>): seq<Invoice>
  {
    Filter(invoices, (inv: Invoice) => InDateRange(inv.date, start, end))
  }

  function ExpensesInRange(expenses: seq<Expense>, start: Option<Date>, end: Option<Date>): seq<Expense>
  {
    Filter(expenses, (e: Expense) => InDateRange(e.date, start, end))
  }

  function AsientosInRange(asientos: seq<AsientoManual>, start: Option<Date>, end: Option<Date>): seq<AsientoManual>
  {
    Filter(asientos, (a: AsientoManual) => InDateRange(a.fecha, start, end))
  }

  /** The report filters keep exactly the records dated in range; voided invoices are not dropped. */
  lemma ReportFiltersExact(invoices: seq<Invoice>, expenses: seq<Expense>, asientos: seq<AsientoManual>,
                           start: Option<Date>, end: Option<Date>)
    ensures forall inv :: inv in InvoicesInRange(invoices, start, end) <==> inv in invoices && InDateRange(inv.date, start, end)
    ensures forall e :: e in ExpensesInRange(expenses, start, end) <==> e in expenses && InDateRange(e.date, start, end)
    ensures forall a :: a in AsientosInRange(asientos, start, end) <==> a in asientos && InDateRange(a.fecha, start, end)
  {
    forall inv ensures inv in InvoicesInRange(invoices, start, end) <==> inv in invoices && InDateRange(inv.date, start, end) {
      FilterMembership(invoices, (inv: Invoice) => InDateRange(inv.date, start, end), inv);
    }
    forall e ensures e in ExpensesInRange(expenses, start, end) <==> e in expenses && InDateRange(e.date, start, end) {
      FilterMembership(expenses, (e: Expense) => InDateRange(e.date, start, end), e);
    }
    forall a ensures a in AsientosInRange(asientos, start, end) <==> a in asientos && InDateRange(a.fecha, start, end) {
      FilterMembership(asientos, (a: AsientoManual) => InDateRange(a.fecha, start, end), a);
    }
  }
}
