/**
 * The invoice form: the shipping guide being edited, its derived financials,
 * the validation errors, and the invoice object the form hands to `onSave`.
 * Each handler replaces the guide; the two effects that follow a change
 * (re-pricing, and keeping the read-only declared value equal to the
 * merchandise freight) are applied at the end of the handler.
 */
module InvoiceForms {
  import opened Outcomes
  import opened Numbers
  import opened Text
  import opened Domain
  import opened Financials

  const NOT_AVAILABLE := "N/A"
  const COMPANY_PREFIX := "J-"

  // ---------------------------------------------------------------------------
  // Parties

  datatype Party = Sender | Receiver
  datatype ClientField = IdNumberField | NameField | PhoneField | AddressField | EmailField

  /** An identity document opens with `J-` (any case) exactly when it names a company. */
  function ClientTypeFor(idNumber: string): (t: ClientType)
    ensures t == Empresa <==> |idNumber| >= 2 && (idNumber[0] == 'J' || idNumber[0] == 'j') && idNumber[1] == '-'
  {
    if StartsWith(Upper(idNumber), COMPANY_PREFIX) then Empresa else Persona
  }

  /** `handleClientChange` on one party: the field takes the value; an id number also sets the client type. */
  function EditClient(c: Client, field: ClientField, value: string): (r: Client)
    ensures field == IdNumberField ==> r == c.(idNumber := value, clientType := ClientTypeFor(value))
    ensures field != IdNumberField ==> r.clientType == c.clientType && r.id == c.id
    ensures field == NameField ==> r == c.(name := value)
    ensures field == PhoneField ==> r == c.(phone := value)
    ensures field == AddressField ==> r == c.(address := value)
    ensures field == EmailField ==> r == c.(email := value)
  {
    match field
    case IdNumberField => c.(idNumber := value, clientType := ClientTypeFor(value))
    case NameField => c.(name := value)
    case PhoneField => c.(phone := value)
    case AddressField => c.(address := value)
    case EmailField => c.(email := value)
  }

  // ---------------------------------------------------------------------------
  // Merchandise

  /** One edit of an item; numeric fields carry what `parseFloat` made of the input. */
  datatype ItemEdit =
    | SetQuantity(q: Num) | SetWeight(w: Num) | SetLength(l: Num) | SetWidth(wd: Num) | SetHeight(h: Num)
    | SetDescription(text: string) | SetCategory(categoryId: string)

  /** `parseFloat(value) || 0`: what a numeric field stores. */
  function Stored(parsed: Num): (r: Num)
    ensures r.Num?
    ensures parsed.Num? ==> r == parsed
    ensures parsed.NaN? ==> r == Num(0.0)
  {
    Num(OrZero(parsed))
  }

  function EditItem(item: Merchandise, edit: ItemEdit): Merchandise
  {
    match edit
    case SetQuantity(q) => item.(quantity := Stored(q))
    case SetWeight(w) => item.(weight := Stored(w))
    case SetLength(l) => item.(length := Stored(l))
    case SetWidth(wd) => item.(width := Stored(wd))
    case SetHeight(h) => item.(height := Stored(h))
    case SetDescription(text) => item.(description := text)
    case SetCategory(c) => item.(categoryId := c)
  }

  /** A numeric edit stores a number (never NaN) in its field and leaves the others alone. */
  lemma EditItemSpec(item: Merchandise, edit: ItemEdit)
    ensures var r := EditItem(item, edit);
      && (edit.SetQuantity? ==> r.quantity.Num? && r.quantity.v == OrZero(edit.q) && r.(quantity := item.quantity) == item)
      && (edit.SetWeight? ==> r.weight.Num? && r.weight.v == OrZero(edit.w) && r.(weight := item.weight) == item)
      && (edit.SetLength? ==> r.length.Num? && r.length.v == OrZero(edit.l) && r.(length := item.length) == item)
      && (edit.SetWidth? ==> r.width.Num? && r.width.v == OrZero(edit.wd) && r.(width := item.width) == item)
      && (edit.SetHeight? ==> r.height.Num? && r.height.v == OrZero(edit.h) && r.(height := item.height) == item)
      && (edit.SetDescription? ==> r == item.(description := edit.text))
      && (edit.SetCategory? ==> r == item.(categoryId := edit.categoryId))
  {
  }

  function EditAt(items: seq<Merchandise>, index: int, edit: ItemEdit): (r: seq<Merchandise>)
    ensures |r| == |items|
    ensures forall i :: 0 <= i < |items| && i != index ==> r[i] == items[i]
    ensures 0 <= index < |items| ==> r[index] == EditItem(items[index], edit)
  {
    seq(|items|, i requires 0 <= i < |items| => if i == index then EditItem(items[i], edit) else items[i])
  }

  /** `filter((_, i) => i !== index)`. */
  function RemoveAt(items: seq<Merchandise>, index: int): (r: seq<Merchandise>)
    ensures 0 <= index < |items| ==> |r| == |items| - 1
    ensures 0 <= index < |items| ==> forall i :: 0 <= i < |r| ==> r[i] == if i < index then items[i] else items[i + 1]
    ensures !(0 <= index < |items|) ==> r == items
  {
    if 0 <= index < |items| then items[..index] + items[index + 1..] else items
  }

  /** A new item: one unit, no weight or size, no description, the first category. */
  function NewItem(defaultCategory: string): Merchandise
  {
    Merchandise(Num(1.0), Num(0.0), Num(0.0), Num(0.0), Num(0.0), "", defaultCategory)
  }

  // ---------------------------------------------------------------------------
  // The declared-value effect

  /**
   * One line of the effect's own weight sum: `Number(weight) || 0` for the
   * real weight, but the volumetric product without `|| 0`, so a NaN
   * dimension makes the line (and with it the sum) NaN.
   */
  function FormLineWeight(item: Merchandise): Num
  {
    if item.length.NaN? || item.width.NaN? || item.height.NaN? then NaN
    else Num(Max(OrZero(item.weight), item.length.v * item.width.v * item.height.v / 5000.0) * OrOne(item.quantity))
  }

  function FormTotalWeight(items: seq<Merchandise>): Num
  {
    if items == [] then Num(0.0)
    else NumAdd(FormTotalWeight(items[..|items| - 1]), FormLineWeight(items[|items| - 1]))
  }

  /** The freight the effect writes into the read-only declared value. */
  function DeclaredFreight(items: seq<Merchandise>, costPerKg: Num): Num
  {
    match FormTotalWeight(items)
    case NaN => NaN
    case Num(w) => Num(w * OrZero(costPerKg))
  }

  predicate Dimensioned(item: Merchandise)
  {
    item.length.Num? && item.width.Num? && item.height.Num?
  }

  lemma {:induction false} FormTotalWeightAgrees(items: seq<Merchandise>)
    requires forall i :: 0 <= i < |items| ==> Dimensioned(items[i])
    ensures FormTotalWeight(items) == Num(TotalWeight(items))
    decreases |items|
  {
    if items != [] {
      var front := items[..|items| - 1];
      assert forall i :: 0 <= i < |front| ==> front[i] == items[i];
      FormTotalWeightAgrees(front);
    }
  }

  /**
   * With every dimension a number, the declared value the form keeps is the
   * freight the calculator charges for the same guide.
   */
  lemma DeclaredValueIsFreight(g: ShippingGuide, costPerKg: Num)
    requires g.merchandise.Some?
    requires forall i :: 0 <= i < |g.merchandise.value| ==> Dimensioned(g.merchandise.value[i])
    ensures DeclaredFreight(g.merchandise.value, costPerKg) == Num(CalculateFinancialDetails(Some(g), costPerKg).freight)
  {
    FormTotalWeightAgrees(g.merchandise.value);
    FreightRule(g, costPerKg);
  }

  // ---------------------------------------------------------------------------
  // Validation

  datatype PartyErrors = PartyErrors(idNumber: bool, name: bool, phone: bool, address: bool)
  datatype ItemErrors = ItemErrors(description: bool, quantity: bool, weight: bool)
  datatype FormErrors = FormErrors(sender: PartyErrors, receiver: PartyErrors, destination: bool, merchandise: seq<ItemErrors>)

  const NO_PARTY_ERRORS := PartyErrors(false, false, false, false)

  /** `x > 0` on a JavaScript number: false for NaN. */
  predicate Positive(n: Num)
  {
    n.Num? && n.v > 0.0
  }

  /** `x <= 0` on a JavaScript number: false for NaN. */
  predicate NotPositive(n: Num)
  {
    n.Num? && n.v <= 0.0
  }

  function PartyErrorsOf(c: Client): PartyErrors
  {
    PartyErrors(IsBlank(c.idNumber), IsBlank(c.name), IsBlank(c.phone), IsBlank(c.address))
  }

  function ItemErrorsOf(item: Merchandise): ItemErrors
  {
    var hasWeight := Positive(item.weight);
    var hasDimensions := Positive(item.length) && Positive(item.width) && Positive(item.height);
    ItemErrors(IsBlank(item.description), NotPositive(item.quantity), !hasWeight && !hasDimensions)
  }

  predicate NoItemErrors(e: ItemErrors)
  {
    !e.description && !e.quantity && !e.weight
  }

  /** What `validateForm` accepts, field by field. */
  predicate FormValid(g: ShippingGuide)
  {
    && !IsBlank(g.sender.idNumber) && !IsBlank(g.sender.name) && !IsBlank(g.sender.phone) && !IsBlank(g.sender.address)
    && !IsBlank(g.receiver.idNumber) && !IsBlank(g.receiver.name) && !IsBlank(g.receiver.phone) && !IsBlank(g.receiver.address)
    && g.originOfficeId != g.destinationOfficeId
    && (g.merchandise.Some? ==> forall i :: 0 <= i < |g.merchandise.value| ==>
          var item := g.merchandise.value[i];
          && !IsBlank(item.description)
          && !NotPositive(item.quantity)
          && (Positive(item.weight) || (Positive(item.length) && Positive(item.width) && Positive(item.height))))
  }

  function Items(g: ShippingGuide): seq<Merchandise>
  {
    if g.merchandise.Some? then g.merchandise.value else []
  }

  /** The error map the form shows: one flag per checked field. */
  function ErrorsOf(g: ShippingGuide): (e: FormErrors)
    ensures |e.merchandise| == |Items(g)|
  {
    FormErrors(PartyErrorsOf(g.sender), PartyErrorsOf(g.receiver), g.originOfficeId == g.destinationOfficeId,
               seq(|Items(g)|, i requires 0 <= i < |Items(g)| => ItemErrorsOf(Items(g)[i])))
  }

  /** The form is valid exactly when its error map holds no flag. */
  lemma ErrorsOfSpec(g: ShippingGuide)
    ensures var e := ErrorsOf(g);
      FormValid(g) <==>
        && e.sender == NO_PARTY_ERRORS && e.receiver == NO_PARTY_ERRORS && !e.destination
        && forall i :: 0 <= i < |e.merchandise| ==> NoItemErrors(e.merchandise[i])
  {
    var e := ErrorsOf(g);
    if g.merchandise.Some? {
      var items := g.merchandise.value;
      assert forall i :: 0 <= i < |items| ==> e.merchandise[i] == ItemErrorsOf(items[i]);
    }
  }

  // ---------------------------------------------------------------------------
  // The invoice handed to `onSave`

  /** The identifiers a new invoice gets (built from the clock in the form). */
  datatype NewIds = NewIds(id: string, invoiceNumber: string, controlNumber: string)

  datatype NewInvoice = NewInvoice(
    id: string, invoiceNumber: string, controlNumber: string, date: Date,
    clientName: string, clientIdNumber: string, totalAmount: real, guide: ShippingGuide)

  datatype SaveRequest = UpdateInvoice(invoice: Invoice) | CreateInvoice(draft: NewInvoice)

  /** `x || 'N/A'`. */
  function OrNotAvailable(s: string): (r: string)
    ensures r != ""
    ensures s != "" ==> r == s
  {
    if s == "" then NOT_AVAILABLE else s
  }

  /** `buildInvoiceObject`. */
  function BuildInvoice(existing: Option<Invoice>, g: ShippingGuide, f: Financials, ids: NewIds): (r: SaveRequest)
    ensures existing.Some? <==> r.UpdateInvoice?
    ensures r.UpdateInvoice? ==>
      var inv, prior := r.invoice, existing.value;
      && inv.guide == g && inv.date == g.date && inv.totalAmount == f.total
      && inv.clientName == OrNotAvailable(g.sender.name) && inv.clientIdNumber == OrNotAvailable(g.sender.idNumber)
      && inv.id == prior.id && inv.invoiceNumber == prior.invoiceNumber && inv.controlNumber == prior.controlNumber
      && inv.status == prior.status && inv.paymentStatus == prior.paymentStatus
      && inv.shippingStatus == prior.shippingStatus && inv.vehicleId == prior.vehicleId
    ensures r.CreateInvoice? ==>
      var d := r.draft;
      && d.guide == g && d.date == g.date && d.totalAmount == f.total
      && d.clientName == OrNotAvailable(g.sender.name) && d.clientIdNumber == OrNotAvailable(g.sender.idNumber)
      && d.id == ids.id && d.invoiceNumber == ids.invoiceNumber && d.controlNumber == ids.controlNumber
  {
    var name, idNumber := OrNotAvailable(g.sender.name), OrNotAvailable(g.sender.idNumber);
    match existing
    case Some(inv) =>
      UpdateInvoice(inv.(date := g.date, clientName := name, clientIdNumber := idNumber, totalAmount := f.total, guide := g))
    case None =>
      CreateInvoice(NewInvoice(ids.id, ids.invoiceNumber, ids.controlNumber, g.date, name, idNumber, f.total, g))
  }

  // ---------------------------------------------------------------------------
  // The form

  class InvoiceForm {
    var guide: ShippingGuide
    var financials: Financials
    var errors: FormErrors
    const existing: Option<Invoice>
    const costPerKg: Num
    const defaultCategory: string

    /** The effects have run: the guide is priced and the declared value follows the merchandise. */
    ghost predicate Valid()
      reads this
    {
      && guide.merchandise.Some?
      && guide.declaredValue == DeclaredFreight(guide.merchandise.value, costPerKg)
      && financials == CalculateFinancialDetails(Some(guide), costPerKg)
    }

    /** The form opened on a guide (the invoice's own, or the example one), with its effects run. */
    constructor(initial: ShippingGuide, existing: Option<Invoice>, costPerKg: Num, defaultCategory: string)
      requires initial.merchandise.Some?
      requires existing.Some? ==> initial == existing.value.guide
      ensures Valid()
      ensures guide == initial.(declaredValue := DeclaredFreight(initial.merchandise.value, costPerKg))
      ensures errors == FormErrors(NO_PARTY_ERRORS, NO_PARTY_ERRORS, false, [])
      ensures this.existing == existing && this.costPerKg == costPerKg && this.defaultCategory == defaultCategory
    {
      this.existing := existing;
      this.costPerKg := costPerKg;
      this.defaultCategory := defaultCategory;
      var g := initial.(declaredValue := DeclaredFreight(initial.merchandise.value, costPerKg));
      guide := g;
      financials := CalculateFinancialDetails(Some(g), costPerKg);
      errors := FormErrors(NO_PARTY_ERRORS, NO_PARTY_ERRORS, false, []);
    }

    /** Installs a new guide and runs the effects it triggers. */
    method Commit(g: ShippingGuide)
      requires g.merchandise.Some?
      modifies this
      ensures Valid()
      ensures guide == g.(declaredValue := DeclaredFreight(g.merchandise.value, costPerKg))
      ensures errors == old(errors)
    {
      guide := g.(declaredValue := DeclaredFreight(g.merchandise.value, costPerKg));
      financials := CalculateFinancialDetails(Some(guide), costPerKg);
    }

    /** `handleClientChange`: one field of one party; the other party and the rest of the guide are unchanged. */
    method ChangeClient(party: Party, field: ClientField, value: string)
      requires Valid()
      modifies this
      ensures Valid()
      ensures party == Sender ==> guide == old(guide).(sender := EditClient(old(guide).sender, field, value))
      ensures party == Receiver ==> guide == old(guide).(receiver := EditClient(old(guide).receiver, field, value))
      ensures errors == old(errors)
    {
      var g := if party == Sender then guide.(sender := EditClient(guide.sender, field, value))
               else guide.(receiver := EditClient(guide.receiver, field, value));
      Commit(g);
    }

    /** `handleSelectClient`: the party becomes the chosen client. */
    method SelectClient(party: Party, client: Client)
      requires Valid()
      modifies this
      ensures Valid()
      ensures party == Sender ==> guide == old(guide).(sender := client)
      ensures party == Receiver ==> guide == old(guide).(receiver := client)
      ensures errors == old(errors)
    {
      var g := if party == Sender then guide.(sender := client) else guide.(receiver := client);
      Commit(g);
    }

    /** `handleMerchandiseChange`: only the item at `index` changes; the declared value follows. */
    method ChangeMerchandise(index: int, edit: ItemEdit)
      requires Valid()
      modifies this
      ensures Valid()
      ensures guide.merchandise == Some(EditAt(old(guide).merchandise.value, index, edit))
      ensures guide == old(guide).(merchandise := guide.merchandise, declaredValue := guide.declaredValue)
      ensures errors == old(errors)
    {
      Commit(guide.(merchandise := Some(EditAt(guide.merchandise.value, index, edit))));
    }

    /** `addMerchandiseItem`: appends a fresh item. */
    method AddItem()
      requires Valid()
      modifies this
      ensures Valid()
      ensures guide.merchandise == Some(old(guide).merchandise.value + [NewItem(defaultCategory)])
      ensures guide == old(guide).(merchandise := guide.merchandise, declaredValue := guide.declaredValue)
      ensures errors == old(errors)
    {
      Commit(guide.(merchandise := Some(guide.merchandise.value + [NewItem(defaultCategory)])));
    }

    /** `removeMerchandiseItem`: only while more than one item remains, so a non-empty list stays non-empty. */
    method RemoveItem(index: int)
      requires Valid()
      modifies this
      ensures Valid()
      ensures |old(guide).merchandise.value| > 1 ==> guide.merchandise == Some(RemoveAt(old(guide).merchandise.value, index))
      ensures |old(guide).merchandise.value| <= 1 ==> guide == old(guide)
      ensures |old(guide).merchandise.value| >= 1 ==> |guide.merchandise.value| >= 1
      ensures guide == old(guide).(merchandise := guide.merchandise, declaredValue := guide.declaredValue)
      ensures errors == old(errors)
    {
      if |guide.merchandise.value| > 1 {
        Commit(guide.(merchandise := Some(RemoveAt(guide.merchandise.value, index))));
      }
    }

    /** `validateForm`: records the error map and reports whether it is empty. */
    method ValidateForm() returns (isValid: bool)
      requires Valid()
      modifies this
      ensures Valid()
      ensures guide == old(guide) && financials == old(financials)
      ensures errors == ErrorsOf(guide)
      ensures isValid <==> FormValid(guide)
    {
      var items := guide.merchandise.value;
      var sender, receiver := PartyErrorsOf(guide.sender), PartyErrorsOf(guide.receiver);
      isValid := sender == NO_PARTY_ERRORS && receiver == NO_PARTY_ERRORS;
      var sameOffice := guide.originOfficeId == guide.destinationOfficeId;
      if sameOffice {
        isValid := false;
      }
      var itemErrors: seq<ItemErrors> := [];
      var i := 0;
      while i < |items|
        invariant 0 <= i <= |items|
        invariant |itemErrors| == i
        invariant forall j :: 0 <= j < i ==> itemErrors[j] == ItemErrorsOf(items[j])
        invariant isValid <==> sender == NO_PARTY_ERRORS && receiver == NO_PARTY_ERRORS && !sameOffice
                               && forall j :: 0 <= j < i ==> NoItemErrors(ItemErrorsOf(items[j]))
      {
        var e := ItemErrorsOf(items[i]);
        if !NoItemErrors(e) {
          isValid := false;
        }
        itemErrors := itemErrors + [e];
        i := i + 1;
      }
      errors := FormErrors(sender, receiver, sameOffice, itemErrors);
      ErrorsOfSpec(guide);
    }

    /** `handleSave`: validation first; only a valid form yields the invoice for `onSave`. */
    method HandleSave(ids: NewIds) returns (request: Option<SaveRequest>)
      requires Valid()
      modifies this
      ensures Valid()
      ensures guide == old(guide) && errors == ErrorsOf(guide)
      ensures request.Some? <==> FormValid(guide)
      ensures request.Some? ==> request.value == BuildInvoice(existing, guide, financials, ids)
    {
      var ok := ValidateForm();
      if !ok {
        return None;
      }
      request := Some(BuildInvoice(existing, guide, financials, ids));
    }
  }
}
