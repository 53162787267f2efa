/**
 * The auxiliary ledger (libro auxiliar): every transaction and manual entry
 * becomes a journal entry (asiento) under fixed account-naming rules; the
 * distinct account names are listed in order; and for one selected account
 * its movements are put in date order with a running balance of debit minus
 * credit.
 */
module Ledger {
  import opened Outcomes
  import opened Numbers
  import opened Text
  import opened Domain
  import opened Sorting
  import opened Financials
  import opened Transactions

  datatype AsientoEntry = AsientoEntry(accountName: string, debit: real, credit: real)
  datatype Asiento = Asiento(id: string, date: Date, description: string, entries: seq<AsientoEntry>)

  const CASH_FALLBACK := "Caja/Banco"
  const UNKNOWN_ACCOUNT := "Cuenta Desconocida"
  const RECEIVABLE_PREFIX := "Cuentas por Cobrar - "
  const PAYABLE_PREFIX := "Cuentas por Pagar - "
  const EXPENSE_ACCOUNT_PREFIX := "Gasto - "
  const MANUAL_PREFIX := "manual-"
  const FREIGHT_INCOME := "Ingresos por Servicios de Flete"
  const HANDLING_INCOME := "Ingresos por Manejo"
  const INSURANCE_INCOME := "Ingresos por Seguro"
  const SALES_DISCOUNT := "Descuentos en Ventas"
  const VAT_DEBIT := "IVA Débito Fiscal"
  const IPOSTEL_PAYABLE := "Retenciones IPOSTEL por Pagar"
  const IGTF_PAYABLE := "IGTF por Pagar"
  const VAT_CREDIT := "IVA Crédito Fiscal"

  /** The payment method's name, or "Caja/Banco" when it is unknown or has an empty name. */
  function PaymentMethodName(methods: seq<PaymentMethod>, id: string): (name: string)
    ensures (forall i :: 0 <= i < |methods| ==> methods[i].id != id) ==> name == CASH_FALLBACK
    ensures forall i :: (0 <= i < |methods| && methods[i].id == id
                         && (forall j :: 0 <= j < i ==> methods[j].id != id)) ==>
      name == if methods[i].name != "" then methods[i].name else CASH_FALLBACK
  {
    match FindFirst(methods, (m: PaymentMethod) => m.id == id)
    case None => CASH_FALLBACK
    case Some(i) => if methods[i].name != "" then methods[i].name else CASH_FALLBACK
  }

  /** The account's name, or "Cuenta Desconocida" when it is unknown or has an empty name. */
  function AccountName(cuentas: seq<CuentaContable>, id: string): (name: string)
    ensures (forall i :: 0 <= i < |cuentas| ==> cuentas[i].id != id) ==> name == UNKNOWN_ACCOUNT
    ensures forall i :: (0 <= i < |cuentas| && cuentas[i].id == id
                         && (forall j :: 0 <= j < i ==> cuentas[j].id != id)) ==>
      name == if cuentas[i].nombre != "" then cuentas[i].nombre else UNKNOWN_ACCOUNT
  {
    match FindFirst(cuentas, (c: CuentaContable) => c.id == id)
    case None => UNKNOWN_ACCOUNT
    case Some(i) => if cuentas[i].nombre != "" then cuentas[i].nombre else UNKNOWN_ACCOUNT
  }

  /** A line that only appears when its amount is positive. */
  function IfPositive(account: string, amount: real, isDebit: bool): seq<AsientoEntry>
  {
    if amount > 0.0 then [if isDebit then AsientoEntry(account, amount, 0.0) else AsientoEntry(account, 0.0, amount)]
    else []
  }

  /**
   * The fixed lines of a sale entry, given the invoice's amounts, the
   * payment account, the client's receivable account, whether it is paid and
   * who pays the freight: the debit of the total, the collection of a paid
   * freight-at-destination invoice, then freight and handling revenue.
   */
  function HeadLines(f: Financials, payment: string, receivable: string, paid: bool, paymentType: PaymentType)
    : seq<AsientoEntry>
  {
    var first := if paid && paymentType == FletePagado then AsientoEntry(payment, f.total, 0.0)
                 else AsientoEntry(receivable, f.total, 0.0);
    var collected := if paymentType == FleteDestino && paid
                     then [AsientoEntry(payment, f.total, 0.0), AsientoEntry(receivable, 0.0, f.total)]
                     else [];
    [first] + collected + [AsientoEntry(FREIGHT_INCOME, 0.0, f.freight), AsientoEntry(HANDLING_INCOME, 0.0, f.handling)]
  }

  /** The lines of a sale entry that only appear for a positive amount. */
  function OptionalLines(f: Financials): seq<AsientoEntry>
  {
    IfPositive(INSURANCE_INCOME, f.insuranceCost, false) + IfPositive(SALES_DISCOUNT, f.discount, true)
    + IfPositive(VAT_DEBIT, f.iva, false) + IfPositive(IPOSTEL_PAYABLE, f.ipostel, false)
    + IfPositive(IGTF_PAYABLE, f.igtf, false)
  }

  function SaleEntries(f: Financials, payment: string, receivable: string, paid: bool, paymentType: PaymentType)
    : seq<AsientoEntry>
  {
    HeadLines(f, payment, receivable, paid, paymentType) + OptionalLines(f)
  }

  /** The sale entry of a non-voided invoice. */
  function IncomeAsiento(t: Transaction, inv: Invoice, costPerKg: Num, methods: seq<PaymentMethod>): Asiento
  {
    Asiento(t.id, t.date, "Venta según Factura " + inv.invoiceNumber,
            SaleEntries(CalculateFinancialDetails(Some(inv.guide), costPerKg),
                        PaymentMethodName(methods, inv.guide.paymentMethodId),
                        RECEIVABLE_PREFIX + inv.clientName,
                        inv.paymentStatus == PAYMENT_PAGADA, inv.guide.paymentType))
  }

  /** `taxableBase || amount || 0`. */
  function ExpenseDebit(exp: Expense): real
  {
    if exp.taxableBase.Some? && exp.taxableBase.value != 0.0 then exp.taxableBase.value else exp.amount
  }

  /** The purchase entry of an expense. */
  function ExpenseAsiento(t: Transaction, exp: Expense, methods: seq<PaymentMethod>): Asiento
  {
    var payment := PaymentMethodName(methods, exp.paymentMethodId);
    var settlement := if exp.status == EXPENSE_PAGADO then AsientoEntry(payment, 0.0, exp.amount)
                      else AsientoEntry(PAYABLE_PREFIX + exp.supplierName, 0.0, exp.amount);
    Asiento(t.id, t.date, "Compra s/g Factura " + exp.invoiceNumber + " de " + exp.supplierName,
            [AsientoEntry(EXPENSE_ACCOUNT_PREFIX + exp.category, ExpenseDebit(exp), 0.0)]
            + IfPositive(VAT_CREDIT, exp.vatAmount.GetOr(0.0), true)
            + [settlement])
  }

  /** The entry a transaction contributes; a voided invoice contributes none. */
  function TransactionAsiento(t: Transaction, costPerKg: Num, methods: seq<PaymentMethod>): (r: Option<Asiento>)
    ensures r.None? <==> t.originalDoc.InvoiceDoc? && t.originalDoc.invoice.status == STATUS_ANULADA
    ensures r.Some? ==> r.value.id == t.id && r.value.date == t.date
  {
    match t.originalDoc
    case InvoiceDoc(inv) => if inv.status == STATUS_ANULADA then None else Some(IncomeAsiento(t, inv, costPerKg, methods))
    case ExpenseDoc(exp) => Some(ExpenseAsiento(t, exp, methods))
  }

  function TransactionAsientos(ts: seq<Transaction>, costPerKg: Num, methods: seq<PaymentMethod>): seq<Asiento>
  {
    if ts == [] then []
    else
      var rest := TransactionAsientos(ts[..|ts| - 1], costPerKg, methods);
      match TransactionAsiento(ts[|ts| - 1], costPerKg, methods)
      case None => rest
      case Some(a) => rest + [a]
  }

  /** A manual entry keeps its date, description and line order; accounts are looked up by id. */
  function ManualAsiento(m: AsientoManual, cuentas: seq<CuentaContable>): (a: Asiento)
    ensures a.id == MANUAL_PREFIX + m.id && a.date == m.fecha && a.description == m.descripcion
    ensures |a.entries| == |m.entries|
    ensures forall i :: 0 <= i < |m.entries| ==>
      a.entries[i] == AsientoEntry(AccountName(cuentas, m.entries[i].cuentaId), m.entries[i].debe, m.entries[i].haber)
  {
    Asiento(MANUAL_PREFIX + m.id, m.fecha, m.descripcion,
            seq(|m.entries|, i requires 0 <= i < |m.entries| =>
              AsientoEntry(AccountName(cuentas, m.entries[i].cuentaId), m.entries[i].debe, m.entries[i].haber)))
  }

  function ManualAsientos(manuals: seq<AsientoManual>, cuentas: seq<CuentaContable>): (r: seq<Asiento>)
    ensures |r| == |manuals|
    ensures forall i :: 0 <= i < |manuals| ==> r[i] == ManualAsiento(manuals[i], cuentas)
  {
    seq(|manuals|, i requires 0 <= i < |manuals| => ManualAsiento(manuals[i], cuentas))
  }

  /** All journal entries: the transactions' first, then the manual ones. */
  function AllAsientos(ts: seq<Transaction>, manuals: seq<AsientoManual>, cuentas: seq<CuentaContable>,
                       costPerKg: Num, methods: seq<PaymentMethod>): seq<Asiento>
  {
    TransactionAsientos(ts, costPerKg, methods) + ManualAsientos(manuals, cuentas)
  }

  function TransactionDates(ts: seq<Transaction>): seq<Date>
  {
    seq(|ts|, i requires 0 <= i < |ts| => ts[i].date)
  }

  function ManualDates(manuals: seq<AsientoManual>): seq<Date>
  {
    seq(|manuals|, i requires 0 <= i < |manuals| => manuals[i].fecha)
  }

  /** Every date the period range looks at: voided invoices' dates included. */
  function AllDates(ts: seq<Transaction>, manuals: seq<AsientoManual>): seq<Date>
  {
    TransactionDates(ts) + ManualDates(manuals)
  }

  predicate IsLeast(m: Option<Date>, ds: seq<Date>)
  {
    (m.Some? <==> ds != []) && (m.Some? ==> m.value in ds && forall i :: 0 <= i < |ds| ==> m.value <= ds[i])
  }

  predicate IsGreatest(m: Option<Date>, ds: seq<Date>)
  {
    (m.Some? <==> ds != []) && (m.Some? ==> m.value in ds && forall i :: 0 <= i < |ds| ==> ds[i] <= m.value)
  }

  lemma TransactionAsientosSnoc(ts: seq<Transaction>, i: nat, costPerKg: Num, methods: seq<PaymentMethod>)
    requires i < |ts|
    ensures TransactionAsientos(ts[..i + 1], costPerKg, methods)
      == TransactionAsientos(ts[..i], costPerKg, methods)
         + (match TransactionAsiento(ts[i], costPerKg, methods) case None => [] case Some(a) => [a])
  {
    assert ts[..i + 1][..i] == ts[..i];
  }

  lemma TransactionDatesSnoc(ts: seq<Transaction>, i: nat)
    requires i < |ts|
    ensures TransactionDates(ts[..i + 1]) == TransactionDates(ts[..i]) + [ts[i].date]
  {
    var a, b := TransactionDates(ts[..i + 1]), TransactionDates(ts[..i]) + [ts[i].date];
    forall k | 0 <= k < |a|
      ensures a[k] == b[k]
    {
      assert ts[..i + 1][k] == ts[k];
    }
  }

  lemma ManualDatesSnoc(manuals: seq<AsientoManual>, j: nat)
    requires j < |manuals|
    ensures ManualDates(manuals[..j + 1]) == ManualDates(manuals[..j]) + [manuals[j].fecha]
  {
    var a, b := ManualDates(manuals[..j + 1]), ManualDates(manuals[..j]) + [manuals[j].fecha];
    forall k | 0 <= k < |a|
      ensures a[k] == b[k]
    {
      assert manuals[..j + 1][k] == manuals[k];
    }
  }

  /** Widens the period range `[minDate, maxDate]` so that it covers `d`. */
  method WidenRange(minDate: Option<Date>, maxDate: Option<Date>, ghost seen: seq<Date>, d: Date)
    returns (newMin: Option<Date>, newMax: Option<Date>)
    requires IsLeast(minDate, seen) && IsGreatest(maxDate, seen)
    ensures IsLeast(newMin, seen + [d]) && IsGreatest(newMax, seen + [d])
  {
    newMin, newMax := minDate, maxDate;
    if newMin.None? || d < newMin.value { newMin := Some(d); }
    if newMax.None? || d > newMax.value { newMax := Some(d); }
  }

  /** The `transactions.forEach`: pushes each transaction's entry and widens the period. */
  method BookTransactions(ts: seq<Transaction>, costPerKg: Num, methods: seq<PaymentMethod>)
    returns (asientos: seq<Asiento>, minDate: Option<Date>, maxDate: Option<Date>)
    ensures asientos == TransactionAsientos(ts, costPerKg, methods)
    ensures IsLeast(minDate, TransactionDates(ts)) && IsGreatest(maxDate, TransactionDates(ts))
  {
    asientos := [];
    minDate, maxDate := None, None;
    var i := 0;
    while i < |ts|
      invariant 0 <= i <= |ts|
      invariant asientos == TransactionAsientos(ts[..i], costPerKg, methods)
      invariant IsLeast(minDate, TransactionDates(ts[..i])) && IsGreatest(maxDate, TransactionDates(ts[..i]))
    {
      var t := ts[i];
      TransactionDatesSnoc(ts, i);
      minDate, maxDate := WidenRange(minDate, maxDate, TransactionDates(ts[..i]), t.date);
      TransactionAsientosSnoc(ts, i, costPerKg, methods);
      match TransactionAsiento(t, costPerKg, methods) {
        case None =>
        case Some(a) => asientos := asientos + [a];
      }
      i := i + 1;
    }
    assert ts[..|ts|] == ts;
  }

  /**
   * The `asientosManuales.map`: converts each manual entry, widening the
   * period range `[minDate, maxDate]`, which so far covers `seen`.
   */
  method BookManuals(manuals: seq<AsientoManual>, cuentas: seq<CuentaContable>,
                     minDate: Option<Date>, maxDate: Option<Date>, ghost seen: seq<Date>)
    returns (asientos: seq<Asiento>, newMin: Option<Date>, newMax: Option<Date>)
    requires IsLeast(minDate, seen) && IsGreatest(maxDate, seen)
    ensures asientos == ManualAsientos(manuals, cuentas)
    ensures IsLeast(newMin, seen + ManualDates(manuals)) && IsGreatest(newMax, seen + ManualDates(manuals))
  {
    newMin, newMax := minDate, maxDate;
    ghost var covered := seen;
    var j := 0;
    while j < |manuals|
      invariant 0 <= j <= |manuals|
      invariant covered == seen + ManualDates(manuals[..j])
      invariant IsLeast(newMin, covered) && IsGreatest(newMax, covered)
    {
      ManualDatesSnoc(manuals, j);
      newMin, newMax := WidenRange(newMin, newMax, covered, manuals[j].fecha);
      covered := covered + [manuals[j].fecha];
      j := j + 1;
    }
    assert manuals[..|manuals|] == manuals;
    asientos := ManualAsientos(manuals, cuentas);
  }

  /**
   * Step 1 of the view: books every transaction, then appends the manual
   * entries, widening the period range on every record.
   */
  method BuildAsientos(ts: seq<Transaction>, manuals: seq<AsientoManual>, cuentas: seq<CuentaContable>,
                       costPerKg: Num, methods: seq<PaymentMethod>)
    returns (asientos: seq<Asiento>, minDate: Option<Date>, maxDate: Option<Date>)
    ensures asientos == AllAsientos(ts, manuals, cuentas, costPerKg, methods)
    ensures IsLeast(minDate, AllDates(ts, manuals))
    ensures IsGreatest(maxDate, AllDates(ts, manuals))
  {
    var booked, manualAsientos;
    booked, minDate, maxDate := BookTransactions(ts, costPerKg, methods);
    manualAsientos, minDate, maxDate := BookManuals(manuals, cuentas, minDate, maxDate, TransactionDates(ts));
    asientos := booked + manualAsientos;
  }

  // ---------------------------------------------------------------------------
  // Account list

  /** Every line's account name, entry by entry, line by line. */
  function EntryNames(asientos: seq<Asiento>): seq<string>
  {
    if asientos == [] then []
    else
      var last := asientos[|asientos| - 1];
      EntryNames(asientos[..|asientos| - 1]) + seq(|last.entries|, j requires 0 <= j < |last.entries| => last.entries[j].accountName)
  }

  const BY_CODE_POINTS := (a: string, b: string) => StrLe(a, b)

  lemma CodePointOrderIsTotalPreorder()
    ensures TotalPreorder(BY_CODE_POINTS)
  {
    forall a, b ensures StrLe(a, b) || StrLe(b, a) {
      StrLeTotal(a, b);
    }
    forall a, b, c | StrLe(a, b) && StrLe(b, c) ensures StrLe(a, c) {
      StrLeTransitive(a, b, c);
    }
  }

  /** The sorted list of distinct account names. */
  function AccountList(asientos: seq<Asiento>): seq<string>
  {
    Sort(Dedupe(EntryNames(asientos)), BY_CODE_POINTS)
  }

  lemma {:induction false} DistinctCount<T>(s: seq<T>, x: T)
    requires Distinct(s)
    ensures multiset(s)[x] <= 1
    decreases |s|
  {
    if s != [] {
      var front := s[..|s| - 1];
      DistinctCount(front, x);
      assert s == front + [s[|s| - 1]];
      if x == s[|s| - 1] {
        assert x !in front;
      }
    }
  }

  lemma RepeatCount<T>(s: seq<T>, i: int, j: int)
    requires 0 <= i < j < |s| && s[i] == s[j]
    ensures multiset(s)[s[i]] >= 2
  {
    assert s == s[..j] + s[j..];
    assert s[i] in s[..j];
    assert s[j] in s[j..];
  }

  lemma PermutationKeepsDistinct<T>(s: seq<T>, r: seq<T>)
    requires Distinct(s) && multiset(r) == multiset(s)
    ensures Distinct(r)
  {
    forall i, j | 0 <= i < j < |r| ensures r[i] != r[j] {
      if r[i] == r[j] {
        RepeatCount(r, i, j);
        DistinctCount(s, r[i]);
      }
    }
  }

  /**
   * The account list is strictly ascending in code-point order (so free of
   * repeats) and names exactly the accounts that some line uses.
   */
  lemma AccountListSpec(asientos: seq<Asiento>)
    ensures var r := AccountList(asientos);
      && (forall i, j :: 0 <= i < j < |r| ==> StrLt(r[i], r[j]))
      && (forall x :: x in r <==> x in EntryNames(asientos))
  {
    var d := Dedupe(EntryNames(asientos));
    var r := Sort(d, BY_CODE_POINTS);
    CodePointOrderIsTotalPreorder();
    SortIsStableSort(d, BY_CODE_POINTS);
    PermutationKeepsDistinct(d, r);
    forall i, j | 0 <= i < j < |r| ensures StrLt(r[i], r[j]) {
      assert StrLe(r[i], r[j]);
    }
    forall x ensures x in r <==> x in EntryNames(asientos) {
      assert x in r <==> x in multiset(r);
      assert x in d <==> x in multiset(d);
    }
  }

  /** A name is listed exactly when some line of some entry uses it. */
  lemma {:induction false} EntryNamesExact(asientos: seq<Asiento>, x: string)
    ensures x in EntryNames(asientos) <==>
      exists k, j :: 0 <= k < |asientos| && 0 <= j < |asientos[k].entries| && asientos[k].entries[j].accountName == x
    decreases |asientos|
  {
    if asientos != [] {
      var front := asientos[..|asientos| - 1];
      var last := asientos[|asientos| - 1];
      EntryNamesExact(front, x);
      var tail := seq(|last.entries|, j requires 0 <= j < |last.entries| => last.entries[j].accountName);
      assert EntryNames(asientos) == EntryNames(front) + tail;
      if x in tail {
        var j :| 0 <= j < |tail| && tail[j] == x;
        assert asientos[|asientos| - 1].entries[j].accountName == x;
      }
      if exists k, j :: 0 <= k < |asientos| && 0 <= j < |asientos[k].entries| && asientos[k].entries[j].accountName == x {
        var k, j :| 0 <= k < |asientos| && 0 <= j < |asientos[k].entries| && asientos[k].entries[j].accountName == x;
        if k < |front| {
          assert front[k] == asientos[k];
        } else {
          assert tail[j] == x;
        }
      }
    }
  }

  // ---------------------------------------------------------------------------
  // Movements of one account and the running balance

  datatype Movement = Movement(date: Date, description: string, debit: real, credit: real)

  /** The selected account's lines of one entry, as movements. */
  function LinesFor(a: Asiento, account: string): seq<Movement>
  {
    var own := Filter(a.entries, (e: AsientoEntry) => e.accountName == account);
    seq(|own|, i requires 0 <= i < |own| => Movement(a.date, a.description, own[i].debit, own[i].credit))
  }

  /** The `flatMap` over all entries. */
  function AccountMovements(asientos: seq<Asiento>, account: string): seq<Movement>
  {
    if asientos == [] then []
    else AccountMovements(asientos[..|asientos| - 1], account) + LinesFor(asientos[|asientos| - 1], account)
  }

  const OLDEST_FIRST := (a: Movement, b: Movement) => a.date <= b.date

  function SortedMovements(asientos: seq<Asiento>, account: string): seq<Movement>
  {
    Sort(AccountMovements(asientos, account), OLDEST_FIRST)
  }

  /** The selected account's movements are in date order, same-day ones in entry order. */
  lemma SortedMovementsSpec(asientos: seq<Asiento>, account: string)
    ensures var r := SortedMovements(asientos, account);
      var ms := AccountMovements(asientos, account);
      && (forall i, j :: 0 <= i < j < |r| ==> r[i].date <= r[j].date)
      && multiset(r) == multiset(ms)
      && (forall y :: Ties(r, OLDEST_FIRST, y) == Ties(ms, OLDEST_FIRST, y))
  {
    SortIsStableSort(AccountMovements(asientos, account), OLDEST_FIRST);
  }

  /** One entry's movements for the account: exactly its lines on that account. */
  lemma LinesForExact(a: Asiento, account: string, m: Movement)
    ensures m in LinesFor(a, account) <==>
      exists j :: 0 <= j < |a.entries| && a.entries[j].accountName == account
        && m == Movement(a.date, a.description, a.entries[j].debit, a.entries[j].credit)
  {
    var p := (e: AsientoEntry) => e.accountName == account;
    var own := Filter(a.entries, p);
    var lines := LinesFor(a, account);
    if m in lines {
      var i :| 0 <= i < |lines| && lines[i] == m;
      FilterMembership(a.entries, p, own[i]);
      var j :| 0 <= j < |a.entries| && a.entries[j] == own[i];
      assert a.entries[j].accountName == account;
    }
    if exists j :: 0 <= j < |a.entries| && a.entries[j].accountName == account
                   && m == Movement(a.date, a.description, a.entries[j].debit, a.entries[j].credit) {
      var j :| 0 <= j < |a.entries| && a.entries[j].accountName == account
               && m == Movement(a.date, a.description, a.entries[j].debit, a.entries[j].credit);
      FilterMembership(a.entries, p, a.entries[j]);
      var i :| 0 <= i < |own| && own[i] == a.entries[j];
      assert lines[i] == m;
    }
  }

  /** Every line of the account becomes a movement, and every movement is such a line. */
  lemma {:induction false} AccountMovementsExact(asientos: seq<Asiento>, account: string, m: Movement)
    ensures m in AccountMovements(asientos, account) <==>
      exists k, j :: 0 <= k < |asientos| && 0 <= j < |asientos[k].entries|
        && asientos[k].entries[j].accountName == account
        && m == Movement(asientos[k].date, asientos[k].description, asientos[k].entries[j].debit, asientos[k].entries[j].credit)
    decreases |asientos|
  {
    if asientos != [] {
      var n := |asientos| - 1;
      var front, a := asientos[..n], asientos[n];
      AccountMovementsExact(front, account, m);
      LinesForExact(a, account, m);
      if m in LinesFor(a, account) {
        var j :| 0 <= j < |a.entries| && a.entries[j].accountName == account
                 && m == Movement(a.date, a.description, a.entries[j].debit, a.entries[j].credit);
        assert asientos[n].entries[j].accountName == account;
      }
      if exists k, j :: (0 <= k < |asientos| && 0 <= j < |asientos[k].entries|
                          && asientos[k].entries[j].accountName == account
                          && m == Movement(asientos[k].date, asientos[k].description, asientos[k].entries[j].debit, asientos[k].entries[j].credit))
      {
        var k, j :| 0 <= k < |asientos| && 0 <= j < |asientos[k].entries|
          && asientos[k].entries[j].accountName == account
          && m == Movement(asientos[k].date, asientos[k].description, asientos[k].entries[j].debit, asientos[k].entries[j].credit);
        if k < n {
          assert front[k] == asientos[k];
        }
      }
    }
  }

  function SumDebit(ms: seq<Movement>): real
  {
    if ms == [] then 0.0 else SumDebit(ms[..|ms| - 1]) + ms[|ms| - 1].debit
  }

  function SumCredit(ms: seq<Movement>): real
  {
    if ms == [] then 0.0 else SumCredit(ms[..|ms| - 1]) + ms[|ms| - 1].credit
  }

  /** The running balance after all of `ms`, starting from 0. */
  function Balance(ms: seq<Movement>): real
  {
    if ms == [] then 0.0 else Balance(ms[..|ms| - 1]) + ms[|ms| - 1].debit - ms[|ms| - 1].credit
  }

  /** The balance after a prefix is its debits minus its credits. */
  lemma {:induction false} BalanceIsDebitMinusCredit(ms: seq<Movement>)
    ensures Balance(ms) == SumDebit(ms) - SumCredit(ms)
    decreases |ms|
  {
    if ms != [] {
      BalanceIsDebitMinusCredit(ms[..|ms| - 1]);
    }
  }

  lemma PrefixSnoc(ms: seq<Movement>, i: nat)
    requires i < |ms|
    ensures Balance(ms[..i + 1]) == Balance(ms[..i]) + ms[i].debit - ms[i].credit
    ensures SumDebit(ms[..i + 1]) == SumDebit(ms[..i]) + ms[i].debit
    ensures SumCredit(ms[..i + 1]) == SumCredit(ms[..i]) + ms[i].credit
  {
    assert ms[..i + 1][..i] == ms[..i];
  }

  datatype LedgerEntry = LedgerEntry(date: Date, description: string, debit: real, credit: real, balance: real)
  datatype LedgerData = LedgerData(accountName: string, entries: seq<LedgerEntry>,
                                   totalDebit: real, totalCredit: real, finalBalance: real)

  /** What the ledger of `account` over the ordered movements `ms` must hold. */
  predicate IsLedgerOf(l: LedgerData, account: string, ms: seq<Movement>)
  {
    && l.accountName == account
    && |l.entries| == |ms|
    && (forall i :: 0 <= i < |ms| ==>
          l.entries[i] == LedgerEntry(ms[i].date, ms[i].description, ms[i].debit, ms[i].credit, Balance(ms[..i + 1])))
    && l.totalDebit == SumDebit(ms) && l.totalCredit == SumCredit(ms)
    && l.finalBalance == Balance(ms)
  }

  /** The running-balance loop. */
  method BuildLedger(account: string, ms: seq<Movement>) returns (l: LedgerData)
    ensures IsLedgerOf(l, account, ms)
    ensures l.finalBalance == l.totalDebit - l.totalCredit
    ensures forall i :: 0 < i < |ms| ==> l.entries[i].balance == l.entries[i - 1].balance + ms[i].debit - ms[i].credit
    ensures |ms| > 0 ==> l.entries[0].balance == ms[0].debit - ms[0].credit
  {
    var runningBalance, totalDebit, totalCredit := 0.0, 0.0, 0.0;
    var entries: seq<LedgerEntry> := [];
    var i := 0;
    while i < |ms|
      invariant 0 <= i <= |ms|
      invariant |entries| == i
      invariant forall k :: 0 <= k < i ==>
        entries[k] == LedgerEntry(ms[k].date, ms[k].description, ms[k].debit, ms[k].credit, Balance(ms[..k + 1]))
      invariant runningBalance == Balance(ms[..i])
      invariant totalDebit == SumDebit(ms[..i]) && totalCredit == SumCredit(ms[..i])
    {
      PrefixSnoc(ms, i);
      runningBalance := runningBalance + ms[i].debit - ms[i].credit;
      totalDebit := totalDebit + ms[i].debit;
      totalCredit := totalCredit + ms[i].credit;
      entries := entries + [LedgerEntry(ms[i].date, ms[i].description, ms[i].debit, ms[i].credit, runningBalance)];
      i := i + 1;
    }
    assert ms[..|ms|] == ms;
    BalanceIsDebitMinusCredit(ms);
    l := LedgerData(account, entries, totalDebit, totalCredit, runningBalance);
    forall i | 0 < i < |ms|
      ensures l.entries[i].balance == l.entries[i - 1].balance + ms[i].debit - ms[i].credit
    {
      PrefixSnoc(ms, i);
    }
    if |ms| > 0 {
      assert ms[..1][..0] == [];
    }
  }

  // ---------------------------------------------------------------------------
  // The whole view

  datatype LibroView = LibroView(accountList: seq<string>, ledger: Option<LedgerData>, dateRange: Option<(Date, Date)>)

  /** The view's memo: account list, the selected account's ledger, and the period. */
  method ComputeLibroAuxiliar(ts: seq<Transaction>, manuals: seq<AsientoManual>, cuentas: seq<CuentaContable>,
                              costPerKg: Num, methods: seq<PaymentMethod>, selected: string)
    returns (v: LibroView)
    ensures ts == [] && manuals == [] ==> v == LibroView([], None, None)
    ensures ts != [] || manuals != [] ==>
      var asientos := AllAsientos(ts, manuals, cuentas, costPerKg, methods);
      && v.accountList == AccountList(asientos)
      && v.dateRange.Some?
      && IsLeast(Some(v.dateRange.value.0), AllDates(ts, manuals))
      && IsGreatest(Some(v.dateRange.value.1), AllDates(ts, manuals))
      && (v.ledger.Some? <==> selected != "")
      && (v.ledger.Some? ==> IsLedgerOf(v.ledger.value, selected, SortedMovements(asientos, selected)))
  {
    if ts == [] && manuals == [] {
      return LibroView([], None, None);
    }
    var asientos, minDate, maxDate := BuildAsientos(ts, manuals, cuentas, costPerKg, methods);
    var range := (minDate.value, maxDate.value);
    var accounts := AccountList(asientos);
    if selected == "" {
      return LibroView(accounts, None, Some(range));
    }
    var ledger := BuildLedger(selected, SortedMovements(asientos, selected));
    v := LibroView(accounts, Some(ledger), Some(range));
  }

  // ---------------------------------------------------------------------------
  // Properties of the entries

  function TotalDebit(es: seq<AsientoEntry>): real
  {
    if es == [] then 0.0 else TotalDebit(es[..|es| - 1]) + es[|es| - 1].debit
  }

  function TotalCredit(es: seq<AsientoEntry>): real
  {
    if es == [] then 0.0 else TotalCredit(es[..|es| - 1]) + es[|es| - 1].credit
  }

  lemma {:induction false} TotalsConcat(a: seq<AsientoEntry>, b: seq<AsientoEntry>)
    ensures TotalDebit(a + b) == TotalDebit(a) + TotalDebit(b)
    ensures TotalCredit(a + b) == TotalCredit(a) + TotalCredit(b)
    decreases |b|
  {
    if b == [] {
      assert a + b == a;
    } else {
      assert (a + b)[..|a + b| - 1] == a + b[..|b| - 1];
      TotalsConcat(a, b[..|b| - 1]);
    }
  }

  lemma SingleTotals(e: AsientoEntry)
    ensures TotalDebit([e]) == e.debit && TotalCredit([e]) == e.credit
  {
    assert [e][..0] == [];
  }

  lemma PairTotals(e: AsientoEntry, e': AsientoEntry)
    ensures TotalDebit([e, e']) == e.debit + e'.debit && TotalCredit([e, e']) == e.credit + e'.credit
  {
    assert [e, e'][..1] == [e];
    SingleTotals(e);
  }

  lemma IfPositiveTotals(account: string, amount: real, isDebit: bool)
    ensures TotalDebit(IfPositive(account, amount, isDebit)) == (if isDebit && amount > 0.0 then amount else 0.0)
    ensures TotalCredit(IfPositive(account, amount, isDebit)) == (if !isDebit && amount > 0.0 then amount else 0.0)
  {
    if amount > 0.0 {
      SingleTotals(IfPositive(account, amount, isDebit)[0]);
    }
  }

  lemma HeadLinesTotals(f: Financials, payment: string, receivable: string, paid: bool, paymentType: PaymentType)
    ensures var es := HeadLines(f, payment, receivable, paid, paymentType);
      var collect := if paymentType == FleteDestino && paid then f.total else 0.0;
      && TotalDebit(es) == f.total + collect
      && TotalCredit(es) == collect + f.freight + f.handling
  {
    var first := if paid && paymentType == FletePagado then AsientoEntry(payment, f.total, 0.0)
                 else AsientoEntry(receivable, f.total, 0.0);
    var collected := if paymentType == FleteDestino && paid
                     then [AsientoEntry(payment, f.total, 0.0), AsientoEntry(receivable, 0.0, f.total)]
                     else [];
    var revenue := [AsientoEntry(FREIGHT_INCOME, 0.0, f.freight), AsientoEntry(HANDLING_INCOME, 0.0, f.handling)];
    TotalsConcat([first], collected);
    TotalsConcat([first] + collected, revenue);
    SingleTotals(first);
    PairTotals(revenue[0], revenue[1]);
    if paymentType == FleteDestino && paid {
      PairTotals(collected[0], collected[1]);
    }
  }

  lemma OptionalLinesTotals(f: Financials)
    requires f.discount >= 0.0 && f.insuranceCost >= 0.0 && f.iva >= 0.0 && f.ipostel >= 0.0 && f.igtf >= 0.0
    ensures TotalDebit(OptionalLines(f)) == f.discount
    ensures TotalCredit(OptionalLines(f)) == f.insuranceCost + f.iva + f.ipostel + f.igtf
  {
    var o1, o2, o3 := IfPositive(INSURANCE_INCOME, f.insuranceCost, false), IfPositive(SALES_DISCOUNT, f.discount, true),
                      IfPositive(VAT_DEBIT, f.iva, false);
    var o4, o5 := IfPositive(IPOSTEL_PAYABLE, f.ipostel, false), IfPositive(IGTF_PAYABLE, f.igtf, false);
    IfPositiveTotals(INSURANCE_INCOME, f.insuranceCost, false);
    IfPositiveTotals(SALES_DISCOUNT, f.discount, true);
    IfPositiveTotals(VAT_DEBIT, f.iva, false);
    IfPositiveTotals(IPOSTEL_PAYABLE, f.ipostel, false);
    IfPositiveTotals(IGTF_PAYABLE, f.igtf, false);
    TotalsConcat(o1, o2);
    TotalsConcat(o1 + o2, o3);
    TotalsConcat(o1 + o2 + o3, o4);
    TotalsConcat(o1 + o2 + o3 + o4, o5);
  }

  /**
   * A sale entry balances when discount, insurance, IVA, IPOSTEL and IGTF
   * are non-negative and the total is their sum with freight and handling
   * (less the discount): the debited total equals the credited revenue lines
   * plus the debited discount.
   */
  lemma SaleEntriesBalance(f: Financials, payment: string, receivable: string, paid: bool, paymentType: PaymentType)
    requires f.discount >= 0.0 && f.insuranceCost >= 0.0 && f.iva >= 0.0 && f.ipostel >= 0.0 && f.igtf >= 0.0
    requires f.total == f.freight - f.discount + f.insuranceCost + f.handling + f.ipostel + f.iva + f.igtf
    ensures var es := SaleEntries(f, payment, receivable, paid, paymentType);
      TotalDebit(es) == TotalCredit(es)
  {
    HeadLinesTotals(f, payment, receivable, paid, paymentType);
    OptionalLinesTotals(f);
    TotalsConcat(HeadLines(f, payment, receivable, paid, paymentType), OptionalLines(f));
  }

  /** With non-negative guide inputs every sale entry balances. */
  lemma IncomeAsientoBalances(t: Transaction, inv: Invoice, costPerKg: Num, methods: seq<PaymentMethod>)
    requires NonNegativeGuide(inv.guide, costPerKg)
    ensures var es := IncomeAsiento(t, inv, costPerKg, methods).entries;
      TotalDebit(es) == TotalCredit(es)
  {
    var f := CalculateFinancialDetails(Some(inv.guide), costPerKg);
    NonNegativeFinancials(inv.guide, costPerKg);
    SaleEntriesBalance(f, PaymentMethodName(methods, inv.guide.paymentMethodId), RECEIVABLE_PREFIX + inv.clientName,
                       inv.paymentStatus == PAYMENT_PAGADA, inv.guide.paymentType);
  }

  /**
   * The first line of a sale entry debits the invoice total, to the payment
   * account when it is paid at origin and to the client's receivable
   * otherwise; a paid freight-at-destination invoice adds the collection;
   * freight and handling revenue follow.
   */
  lemma HeadLinesSpec(f: Financials, payment: string, receivable: string, paid: bool, paymentType: PaymentType)
    ensures var es := HeadLines(f, payment, receivable, paid, paymentType);
      var n := if paymentType == FleteDestino && paid then 3 else 1;
      && |es| == n + 2
      && (paid && paymentType == FletePagado ==> es[0] == AsientoEntry(payment, f.total, 0.0))
      && (!(paid && paymentType == FletePagado) ==> es[0] == AsientoEntry(receivable, f.total, 0.0))
      && (n == 3 ==> es[1] == AsientoEntry(payment, f.total, 0.0) && es[2] == AsientoEntry(receivable, 0.0, f.total))
      && es[n] == AsientoEntry(FREIGHT_INCOME, 0.0, f.freight)
      && es[n + 1] == AsientoEntry(HANDLING_INCOME, 0.0, f.handling)
  {
  }

  /**
   * The optional revenue and tax lines: each appears exactly when its amount
   * is positive, and no other line is there.
   */
  lemma OptionalLinesSpec(f: Financials)
    ensures var es := OptionalLines(f);
      && (AsientoEntry(INSURANCE_INCOME, 0.0, f.insuranceCost) in es <==> f.insuranceCost > 0.0)
      && (AsientoEntry(SALES_DISCOUNT, f.discount, 0.0) in es <==> f.discount > 0.0)
      && (AsientoEntry(VAT_DEBIT, 0.0, f.iva) in es <==> f.iva > 0.0)
      && (AsientoEntry(IPOSTEL_PAYABLE, 0.0, f.ipostel) in es <==> f.ipostel > 0.0)
      && (AsientoEntry(IGTF_PAYABLE, 0.0, f.igtf) in es <==> f.igtf > 0.0)
      && (forall i :: 0 <= i < |es| ==> es[i].debit + es[i].credit > 0.0)
  {
  }

  /**
   * A purchase entry debits the expense account with the taxable base (or
   * the amount), adds the VAT credit line only when VAT is positive, and
   * credits the amount to the payment method when paid or to the supplier's
   * payable otherwise. It balances exactly when base plus VAT is the amount.
   */
  lemma ExpenseAsientoSpec(t: Transaction, exp: Expense, methods: seq<PaymentMethod>)
    ensures var es := ExpenseAsiento(t, exp, methods).entries;
      var vat := exp.vatAmount.GetOr(0.0);
      && |es| == (if vat > 0.0 then 3 else 2)
      && es[0] == AsientoEntry(EXPENSE_ACCOUNT_PREFIX + exp.category, ExpenseDebit(exp), 0.0)
      && (vat > 0.0 ==> es[1] == AsientoEntry(VAT_CREDIT, vat, 0.0))
      && (exp.status == EXPENSE_PAGADO ==> es[|es| - 1] == AsientoEntry(PaymentMethodName(methods, exp.paymentMethodId), 0.0, exp.amount))
      && (exp.status != EXPENSE_PAGADO ==> es[|es| - 1] == AsientoEntry(PAYABLE_PREFIX + exp.supplierName, 0.0, exp.amount))
      && (TotalDebit(es) == TotalCredit(es) <==> ExpenseDebit(exp) + (if vat > 0.0 then vat else 0.0) == exp.amount)
  {
    var es := ExpenseAsiento(t, exp, methods).entries;
    var vat := exp.vatAmount.GetOr(0.0);
    var head := [es[0]];
    var vatLine := IfPositive(VAT_CREDIT, vat, true);
    var last := es[|es| - 1];
    assert es == head + vatLine + [last];
    TotalsConcat(head, vatLine);
    TotalsConcat(head + vatLine, [last]);
    SingleTotals(es[0]);
    SingleTotals(last);
    IfPositiveTotals(VAT_CREDIT, vat, true);
  }
}
