/**
 * The records the engine works on: parties, merchandise, shipping guides,
 * invoices, expenses, manual journal entries, accounts, offices and remesas.
 * Dates are `YYYY-MM-DD` day keys, modelled as totally ordered integers.
 * Statuses keep the source's string values.
 */
module Domain {
  import opened Outcomes
  import opened Numbers

  type Date = int

  const STATUS_ANULADA := "Anulada"
  const PAYMENT_PAGADA := "Pagada"
  const EXPENSE_PAGADO := "Pagado"
  const STATUS_PENDIENTE := "Pendiente"

  datatype ClientType = Persona | Empresa

  /** A client, or the sender/receiver snapshot on a guide; "" stands for a missing field. */
  datatype Client = Client(
    id: string, idNumber: string, name: string, phone: string,
    address: string, clientType: ClientType, email: string)

  /** One merchandise line; its numeric fields are whatever `parseFloat` makes of them. */
  datatype Merchandise = Merchandise(
    quantity: Num, weight: Num, length: Num, width: Num, height: Num,
    description: string, categoryId: string)

  datatype PaymentType = FletePagado | FleteDestino
  datatype Currency = VES | USD

  datatype ShippingGuide = ShippingGuide(
    guideNumber: string, date: Date,
    originOfficeId: string, destinationOfficeId: string,
    sender: Client, receiver: Client,
    merchandise: Option<seq<Merchandise>>,
    shippingTypeId: string, paymentMethodId: string,
    paymentType: PaymentType, paymentCurrency: Currency,
    hasInsurance: bool, declaredValue: Num, insurancePercentage: Num,
    hasDiscount: bool, discountPercentage: Num)

  datatype Invoice = Invoice(
    id: string, invoiceNumber: string, controlNumber: string, date: Date,
    clientName: string, clientIdNumber: string, totalAmount: real,
    guide: ShippingGuide,
    status: string, paymentStatus: string, shippingStatus: string,
    vehicleId: string)

  datatype Expense = Expense(
    id: string, date: Date, description: string, category: string,
    amount: real, taxableBase: Option<real>, vatAmount: Option<real>,
    status: string, officeId: string, paymentMethodId: string,
    supplierName: string, supplierRif: string,
    invoiceNumber: string, controlNumber: string)

  datatype AsientoManualEntry = AsientoManualEntry(id: string, cuentaId: string, debe: real, haber: real)
  datatype AsientoManual = AsientoManual(id: string, fecha: Date, descripcion: string, entries: seq<AsientoManualEntry>)

  datatype CuentaContable = CuentaContable(id: string, codigo: string, nombre: string, tipo: string)
  datatype PaymentMethod = PaymentMethod(id: string, name: string)
  datatype Office = Office(id: string, code: string, name: string)

  datatype Remesa = Remesa(
    id: string, remesaNumber: string, date: Date, invoiceIds: seq<string>,
    asociadoId: string, vehicleId: string)
}
