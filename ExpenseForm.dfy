/**
 * The expense form: its initial data, the field edits (numeric inputs go
 * through `Number`), the error map `validate` fills (the supplier block is
 * checked only while it is shown), the submit, and the USD equivalent shown
 * under the amount.
 */
module ExpenseForm {
  import opened Outcomes
  import opened Numbers
  import opened Text
  import opened Domain

  /** The form's data: an expense whose date may be cleared and whose amount may be NaN. */
  datatype Draft = Draft(
    id: string, date: Option<Date>, description: string, category: string,
    amount: Num, taxableBase: Option<real>, vatAmount: Option<real>,
    status: string, officeId: string, paymentMethodId: string,
    supplierName: string, supplierRif: string,
    invoiceNumber: string, controlNumber: string)

  function FromExpense(e: Expense): Draft
  {
    Draft(e.id, Some(e.date), e.description, e.category, Num(e.amount), e.taxableBase, e.vatAmount,
          e.status, e.officeId, e.paymentMethodId, e.supplierName, e.supplierRif,
          e.invoiceNumber, e.controlNumber)
  }

  /** The expense a complete draft stands for. */
  function ToExpense(d: Draft): (e: Expense)
    requires d.date.Some? && d.amount.Num?
    ensures FromExpense(e) == d
  {
    Expense(d.id, d.date.value, d.description, d.category, d.amount.v, d.taxableBase, d.vatAmount,
            d.status, d.officeId, d.paymentMethodId, d.supplierName, d.supplierRif,
            d.invoiceNumber, d.controlNumber)
  }

  /** Turning an expense into form data and back gives the same expense. */
  lemma ExpenseRoundTrip(e: Expense)
    ensures FromExpense(e).date.Some? && FromExpense(e).amount.Num?
    ensures ToExpense(FromExpense(e)) == e
  {
  }

  /** Administrators and technicians are not operators. */
  predicate IsOperator(roleId: string)
  {
    roleId != "role-admin" && roleId != "role-tech"
  }

  /**
   * A new expense: today's date, the first category and payment method (or
   * ""), amount 0, status 'Pendiente', and an operator's own office.
   */
  function NewDraft(today: Date, categories: seq<string>, paymentMethods: seq<PaymentMethod>,
                    roleId: string, userOfficeId: string): (d: Draft)
    ensures d.id == "" && d.date == Some(today) && d.amount == Num(0.0) && d.status == STATUS_PENDIENTE
    ensures d.category == (if categories == [] then "" else categories[0])
    ensures d.paymentMethodId == (if paymentMethods == [] then "" else paymentMethods[0].id)
    ensures d.officeId == (if IsOperator(roleId) then userOfficeId else "")
    ensures d.description == d.supplierName == d.supplierRif == d.invoiceNumber == d.controlNumber == ""
    ensures d.taxableBase.None? && d.vatAmount.None?
  {
    Draft("", Some(today), "", if categories == [] then "" else categories[0], Num(0.0), None, None,
          STATUS_PENDIENTE, if IsOperator(roleId) && userOfficeId != "" then userOfficeId else "",
          if paymentMethods == [] then "" else paymentMethods[0].id, "", "", "", "")
  }

  /** The supplier block starts open when the draft already names a RIF or an invoice number. */
  predicate FiscalInitiallyVisible(d: Draft)
  {
    d.supplierRif != "" || d.invoiceNumber != ""
  }

  predicate BasicValid(d: Draft)
  {
    d.date.Some? && !IsBlank(d.description) && d.amount.Num? && d.amount.v > 0.0
  }

  predicate FiscalValid(d: Draft, fiscalVisible: bool)
  {
    fiscalVisible ==>
      !IsBlank(d.supplierRif) && !IsBlank(d.supplierName)
      && !IsBlank(d.invoiceNumber) && !IsBlank(d.controlNumber)
  }

  /** What `validate` demands, given whether the supplier block is shown. */
  predicate ExpenseValid(d: Draft, fiscalVisible: bool)
  {
    BasicValid(d) && FiscalValid(d, fiscalVisible)
  }

  /** `amount / bcvRate` when the rate is positive, else 0; missing values count as 0. */
  function UsdEquivalent(amount: Num, bcvRate: Num): (usd: real)
    ensures OrZero(bcvRate) > 0.0 ==> usd * OrZero(bcvRate) == OrZero(amount)
    ensures OrZero(bcvRate) <= 0.0 ==> usd == 0.0
    ensures OrZero(bcvRate) > 0.0 && OrZero(amount) >= 0.0 ==> usd >= 0.0
  {
    var rate := OrZero(bcvRate);
    if rate > 0.0 then OrZero(amount) / rate else 0.0
  }

  const DATE_REQUIRED := "La fecha es requerida."
  const DESCRIPTION_REQUIRED := "La descripción es requerida."
  const AMOUNT_POSITIVE := "El monto debe ser mayor a cero."
  const RIF_REQUIRED := "El RIF del proveedor es requerido."
  const SUPPLIER_REQUIRED := "El nombre del proveedor es requerido."
  const INVOICE_NUMBER_REQUIRED := "El N° de factura es requerido."
  const CONTROL_NUMBER_REQUIRED := "El N° de control es requerido."

  /** The inputs `validate` checks: the keys of the error map. */
  datatype Field =
    | DateField | DescriptionField | AmountField
    | SupplierRifField | SupplierNameField | InvoiceNumberField | ControlNumberField

  /** An entry exactly for each failing date, description and amount check. */
  predicate ReportsBasic(errors: map<Field, string>, d: Draft)
  {
    && (DateField in errors <==> d.date.None?)
    && (DescriptionField in errors <==> IsBlank(d.description))
    && (AmountField in errors <==> !(d.amount.Num? && d.amount.v > 0.0))
  }

  /** An entry exactly for each blank supplier-block field, and none while the block is hidden. */
  predicate ReportsFiscal(errors: map<Field, string>, d: Draft, fiscalVisible: bool)
  {
    && (SupplierRifField in errors <==> fiscalVisible && IsBlank(d.supplierRif))
    && (SupplierNameField in errors <==> fiscalVisible && IsBlank(d.supplierName))
    && (InvoiceNumberField in errors <==> fiscalVisible && IsBlank(d.invoiceNumber))
    && (ControlNumberField in errors <==> fiscalVisible && IsBlank(d.controlNumber))
  }

  /** The error map `validate` leaves: an entry exactly for each failing check. */
  predicate ReportsExpense(errors: map<Field, string>, d: Draft, fiscalVisible: bool)
  {
    ReportsBasic(errors, d) && ReportsFiscal(errors, d, fiscalVisible)
  }

  /** The two groups of checks use disjoint keys, so their union reports both. */
  lemma JoinReports(basic: map<Field, string>, fiscal: map<Field, string>, d: Draft, fiscalVisible: bool)
    requires basic.Keys <= {DateField, DescriptionField, AmountField} && ReportsBasic(basic, d)
    requires fiscal.Keys <= {SupplierRifField, SupplierNameField, InvoiceNumberField, ControlNumberField}
    requires ReportsFiscal(fiscal, d, fiscalVisible)
    ensures ReportsExpense(basic + fiscal, d, fiscalVisible)
  {
  }

  datatype Edit =
    | SetDate(date: Option<Date>)
    | SetDescription(description: string)
    | SetCategory(category: string)
    | SetAmount(amount: Num)
    | SetOffice(officeId: string)
    | SetPaymentMethod(paymentMethodId: string)
    | SetStatus(status: string)
    | SetSupplierRif(supplierRif: string)
    | SetSupplierName(supplierName: string)
    | SetInvoiceNumber(invoiceNumber: string)
    | SetControlNumber(controlNumber: string)

  function ApplyEdit(d: Draft, edit: Edit): Draft
  {
    match edit
    case SetDate(x) => d.(date := x)
    case SetDescription(x) => d.(description := x)
    case SetCategory(x) => d.(category := x)
    case SetAmount(x) => d.(amount := x)
    case SetOffice(x) => d.(officeId := x)
    case SetPaymentMethod(x) => d.(paymentMethodId := x)
    case SetStatus(x) => d.(status := x)
    case SetSupplierRif(x) => d.(supplierRif := x)
    case SetSupplierName(x) => d.(supplierName := x)
    case SetInvoiceNumber(x) => d.(invoiceNumber := x)
    case SetControlNumber(x) => d.(controlNumber := x)
  }

  class Form {
    var formData: Draft
    var fiscalVisible: bool
    var errors: map<Field, string>

    /** Opening: the expense being edited, or a new one; the supplier block is open when it has data. */
    constructor(expense: Option<Expense>, today: Date, categories: seq<string>,
                paymentMethods: seq<PaymentMethod>, roleId: string, userOfficeId: string)
      ensures formData == match expense
        case Some(e) => FromExpense(e)
        case None => NewDraft(today, categories, paymentMethods, roleId, userOfficeId)
      ensures fiscalVisible == FiscalInitiallyVisible(formData)
      ensures errors == map[]
    {
      var initial := match expense
        case Some(e) => FromExpense(e)
        case None => NewDraft(today, categories, paymentMethods, roleId, userOfficeId);
      formData := initial;
      fiscalVisible := initial.supplierRif != "" || initial.invoiceNumber != "";
      errors := map[];
    }

    method Change(edit: Edit)
      modifies this
      ensures formData == ApplyEdit(old(formData), edit)
      ensures fiscalVisible == old(fiscalVisible) && errors == old(errors)
    {
      formData := ApplyEdit(formData, edit);
    }

    /** Picking a supplier from the search fills its RIF and name. */
    method SelectSupplier(idNumber: string, name: string)
      modifies this
      ensures formData == old(formData).(supplierRif := idNumber, supplierName := name)
      ensures fiscalVisible == old(fiscalVisible) && errors == old(errors)
    {
      formData := formData.(supplierRif := idNumber, supplierName := name);
    }

    method ToggleFiscal()
      modifies this
      ensures fiscalVisible == !old(fiscalVisible)
      ensures formData == old(formData) && errors == old(errors)
    {
      fiscalVisible := !fiscalVisible;
    }

    /** The date, description and amount checks of `validate`. */
    method BasicErrors() returns (found: map<Field, string>)
      ensures found.Keys <= {DateField, DescriptionField, AmountField}
      ensures ReportsBasic(found, formData)
      ensures found == map[] <==> BasicValid(formData)
    {
      found := map[];
      if formData.date.None? {
        found := found[DateField := DATE_REQUIRED];
      }
      if IsBlank(formData.description) {
        found := found[DescriptionField := DESCRIPTION_REQUIRED];
      }
      if formData.amount.NaN? || formData.amount.v == 0.0 || formData.amount.v <= 0.0 {
        found := found[AmountField := AMOUNT_POSITIVE];
      }
    }

    /** The supplier-block checks of `validate`, run only while the block is shown. */
    method FiscalErrors() returns (found: map<Field, string>)
      ensures found.Keys <= {SupplierRifField, SupplierNameField, InvoiceNumberField, ControlNumberField}
      ensures ReportsFiscal(found, formData, fiscalVisible)
      ensures found == map[] <==> FiscalValid(formData, fiscalVisible)
    {
      found := map[];
      if fiscalVisible {
        if IsBlank(formData.supplierRif) {
          found := found[SupplierRifField := RIF_REQUIRED];
        }
        if IsBlank(formData.supplierName) {
          found := found[SupplierNameField := SUPPLIER_REQUIRED];
        }
        if IsBlank(formData.invoiceNumber) {
          found := found[InvoiceNumberField := INVOICE_NUMBER_REQUIRED];
        }
        if IsBlank(formData.controlNumber) {
          found := found[ControlNumberField := CONTROL_NUMBER_REQUIRED];
        }
      }
    }

    /** `validate`: one entry per failing check; the supplier checks only while the block is shown. */
    method Validate() returns (ok: bool)
      modifies this
      ensures formData == old(formData) && fiscalVisible == old(fiscalVisible)
      ensures ReportsExpense(errors, formData, fiscalVisible)
      ensures ok <==> errors == map[]
      ensures ok <==> ExpenseValid(formData, fiscalVisible)
    {
      var basic := BasicErrors();
      var fiscal := FiscalErrors();
      JoinReports(basic, fiscal, formData, fiscalVisible);
      errors := basic + fiscal;
      ok := basic == map[] && fiscal == map[];
      assert ok <==> errors == map[] by {
        if errors == map[] {
          assert basic.Keys == {} && fiscal.Keys == {};
        }
      }
    }

    /** `handleSubmit`: the expense is forwarded only when the form validates. */
    method Submit() returns (saved: Option<Expense>)
      modifies this
      ensures formData == old(formData) && fiscalVisible == old(fiscalVisible)
      ensures saved.Some? <==> ExpenseValid(formData, fiscalVisible)
      ensures saved.Some? ==> FromExpense(saved.value) == formData
      ensures ReportsExpense(errors, formData, fiscalVisible)
    {
      var ok := Validate();
      if ok {
        saved := Some(ToExpense(formData));
      } else {
        saved := None;
      }
    }
  }
}
