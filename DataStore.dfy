/**
 * The client-side collection store. Every server call is abstracted to its
 * outcome (`ApiResult`): a failed call leaves the collections as they were,
 * a successful one is followed by the list update the store performs:
 * replace by id, append, prepend, delete by id, or merge a batch by id.
 */
module DataStore {
  import opened Outcomes
  import opened Domain
  import opened Sorting

  /** The answer of one server call: the parsed body, or a failure (network, HTTP error, unexpected shape). */
  datatype ApiResult<T> = Ok(value: T) | Failed

  /** An entity whose fields the store never looks at besides its id. */
  datatype Record = Record(id: string, content: string)

  const INVOICE_ID := (x: Invoice) => x.id
  const CLIENT_ID := (x: Client) => x.id
  const EXPENSE_ID := (x: Expense) => x.id
  const RECORD_ID := (x: Record) => x.id
  const REMESA_ID := (x: Remesa) => x.id
  const ASIENTO_ID := (x: AsientoManual) => x.id

  // ---------------------------------------------------------------------------
  // List updates

  /** `prev.map(i => i.id === saved.id ? saved : i)`. */
  function ReplaceById<T>(s: seq<T>, saved: T, key: T -> string): (r: seq<T>)
    ensures |r| == |s|
    ensures forall i :: 0 <= i < |s| && key(s[i]) != key(saved) ==> r[i] == s[i]
    ensures forall i :: 0 <= i < |s| && key(s[i]) == key(saved) ==> r[i] == saved
  {
    seq(|s|, i requires 0 <= i < |s| => if key(s[i]) == key(saved) then saved else s[i])
  }

  /** Replacing is idempotent, and replacing an id the list lacks changes nothing. */
  lemma ReplaceByIdProperties<T>(s: seq<T>, saved: T, key: T -> string)
    ensures ReplaceById(ReplaceById(s, saved, key), saved, key) == ReplaceById(s, saved, key)
    ensures (forall i :: 0 <= i < |s| ==> key(s[i]) != key(saved)) ==> ReplaceById(s, saved, key) == s
  {
  }

  /** `prev.filter(item => item.id !== id)`. */
  function RemoveById<T>(s: seq<T>, id: string, key: T -> string): seq<T>
  {
    Filter(s, (x: T) => key(x) != id)
  }

  /** Deleting keeps exactly the elements with another id, in order, and a second delete changes nothing. */
  lemma RemoveByIdProperties<T>(s: seq<T>, id: string, key: T -> string)
    ensures forall x :: x in RemoveById(s, id, key) <==> x in s && key(x) != id
    ensures forall i :: 0 <= i < |RemoveById(s, id, key)| ==> key(RemoveById(s, id, key)[i]) != id
    ensures RemoveById(RemoveById(s, id, key), id, key) == RemoveById(s, id, key)
    ensures (forall i :: 0 <= i < |s| ==> key(s[i]) != id) ==> RemoveById(s, id, key) == s
  {
    var p := (x: T) => key(x) != id;
    forall x ensures x in RemoveById(s, id, key) <==> x in s && key(x) != id {
      FilterMembership(s, p, x);
    }
    FilterAll(RemoveById(s, id, key), p);
    if forall i :: 0 <= i < |s| ==> key(s[i]) != id {
      FilterAll(s, p);
    }
  }

  /** `new Map(updates.map(u => [u.id, u]))`: a later entry with the same id overwrites an earlier one. */
  function IdMap(updates: seq<Invoice>): (m: map<string, Invoice>)
    ensures forall k :: k in m ==> m[k].id == k && m[k] in updates
    ensures forall i :: 0 <= i < |updates| ==> updates[i].id in m
  {
    if updates == [] then map[]
    else
      var front, last := updates[..|updates| - 1], updates[|updates| - 1];
      assert forall i :: 0 <= i < |front| ==> front[i] == updates[i];
      IdMap(front)[last.id := last]
  }

  /** The map keeps the last update for each id. */
  lemma {:induction false} IdMapLastWins(updates: seq<Invoice>, i: nat)
    requires i < |updates|
    requires forall j :: i < j < |updates| ==> updates[j].id != updates[i].id
    ensures IdMap(updates)[updates[i].id] == updates[i]
    decreases |updates|
  {
    if i < |updates| - 1 {
      var front := updates[..|updates| - 1];
      assert forall j :: i < j < |front| ==> front[j] == updates[j];
      IdMapLastWins(front, i);
    }
  }

  /** `prev.map(inv => updatedInvoicesMap.get(inv.id) || inv)`. */
  function MergeBatch(s: seq<Invoice>, updates: seq<Invoice>): (r: seq<Invoice>)
    ensures |r| == |s|
    ensures forall i :: 0 <= i < |s| ==> r[i].id == s[i].id
    ensures forall i :: 0 <= i < |s| && (forall j :: 0 <= j < |updates| ==> updates[j].id != s[i].id) ==> r[i] == s[i]
    ensures forall i :: 0 <= i < |s| && s[i].id in IdMap(updates) ==> r[i] in updates
  {
    var m := IdMap(updates);
    seq(|s|, i requires 0 <= i < |s| => if s[i].id in m then m[s[i].id] else s[i])
  }

  /** A batch naming each id once replaces each listed invoice by its update, whatever the batch's order. */
  lemma MergeBatchReplaces(s: seq<Invoice>, updates: seq<Invoice>, i: nat, j: nat)
    requires i < |s| && j < |updates| && updates[j].id == s[i].id
    requires forall k :: j < k < |updates| ==> updates[k].id != updates[j].id
    ensures MergeBatch(s, updates)[i] == updates[j]
  {
    IdMapLastWins(updates, j);
  }

  // ---------------------------------------------------------------------------
  // Save and delete calls

  datatype Verb = Post | Put | Delete

  /** What a generic save sends: PUT to `endpoint/id` with the id, or POST to `endpoint` without it. */
  datatype Call = Call(verb: Verb, path: string, sendsId: bool)

  function SaveCall(id: string, endpoint: string): (c: Call)
    ensures c.verb == Put <==> id != ""
    ensures c.sendsId <==> id != ""
    ensures id == "" ==> c.path == endpoint
    ensures id != "" ==> c.path == endpoint + "/" + id
  {
    if id != "" then Call(Put, endpoint + "/" + id, true) else Call(Post, endpoint, false)
  }

  /** The list after a successful save: the saved item replaces its id, or is appended when new. */
  function AfterSave<T>(prev: seq<T>, isUpdating: bool, saved: T, key: T -> string): (r: seq<T>)
    ensures isUpdating ==> |r| == |prev|
    ensures isUpdating ==> forall i :: 0 <= i < |prev| && key(prev[i]) == key(saved) ==> r[i] == saved
    ensures isUpdating ==> forall i :: 0 <= i < |prev| && key(prev[i]) != key(saved) ==> r[i] == prev[i]
    ensures !isUpdating ==> r == prev + [saved]
  {
    if isUpdating then ReplaceById(prev, saved, key) else prev + [saved]
  }

  // ---------------------------------------------------------------------------
  // The store

  /** The fourteen collections. */
  datatype Collections = Collections(
    invoices: seq<Invoice>, clients: seq<Client>, suppliers: seq<Record>, vehicles: seq<Record>,
    expenses: seq<Expense>, inventory: seq<Record>, assets: seq<Record>, assetCategories: seq<Record>,
    asociados: seq<Record>, certificados: seq<Record>, pagosAsociados: seq<Record>,
    recibosPagoAsociados: seq<Record>, remesas: seq<Remesa>, asientosManuales: seq<AsientoManual>)

  const EMPTY := Collections([], [], [], [], [], [], [], [], [], [], [], [], [], [])

  /** The collections whose elements the store handles only by id. */
  datatype RecordKind = Suppliers | Vehicles | Assets | AssetCategories | Asociados | Certificados | PagosAsociados | Recibos

  function RecordsOf(c: Collections, kind: RecordKind): seq<Record>
  {
    match kind
    case Suppliers => c.suppliers
    case Vehicles => c.vehicles
    case Assets => c.assets
    case AssetCategories => c.assetCategories
    case Asociados => c.asociados
    case Certificados => c.certificados
    case PagosAsociados => c.pagosAsociados
    case Recibos => c.recibosPagoAsociados
  }

  /** The server path each id-only collection is saved to and deleted from. */
  function EndpointOf(kind: RecordKind): string
  {
    match kind
    case Suppliers => "/suppliers"
    case Vehicles => "/vehicles"
    case Assets => "/assets"
    case AssetCategories => "/asset-categories"
    case Asociados => "/asociados"
    case Certificados => "/asociados/certificados"
    case PagosAsociados => "/asociados/pagos"
    case Recibos => "/asociados/recibos"
  }

  /** Sets one record collection; every other collection is left as it was. */
  function WithRecords(c: Collections, kind: RecordKind, s: seq<Record>): (r: Collections)
    ensures RecordsOf(r, kind) == s
    ensures forall k :: k != kind ==> RecordsOf(r, k) == RecordsOf(c, k)
    ensures r.invoices == c.invoices && r.clients == c.clients && r.expenses == c.expenses
    ensures r.inventory == c.inventory && r.remesas == c.remesas && r.asientosManuales == c.asientosManuales
  {
    match kind
    case Suppliers => c.(suppliers := s)
    case Vehicles => c.(vehicles := s)
    case Assets => c.(assets := s)
    case AssetCategories => c.(assetCategories := s)
    case Asociados => c.(asociados := s)
    case Certificados => c.(certificados := s)
    case PagosAsociados => c.(pagosAsociados := s)
    case Recibos => c.(recibosPagoAsociados := s)
  }

  /** The two batches of the initial load. */
  datatype FirstBatch = FirstBatch(
    invoices: seq<Invoice>, clients: seq<Client>, suppliers: seq<Record>, vehicles: seq<Record>,
    expenses: seq<Expense>, assets: seq<Record>, assetCategories: seq<Record>, asociados: seq<Record>,
    remesas: seq<Remesa>, asientosManuales: seq<AsientoManual>)
  datatype SecondBatch = SecondBatch(certificados: seq<Record>, pagosAsociados: seq<Record>, recibosPagoAsociados: seq<Record>)

  /** The server's answer to a dispatch or a trip's end; a missing part makes the answer unexpected. */
  datatype VehicleUpdate = VehicleUpdate(vehicle: Record, invoices: seq<Invoice>)

  /** The status fields a status change may carry. */
  datatype StatusPatch = StatusPatch(paymentStatus: Option<string>, shippingStatus: Option<string>, status: Option<string>)

  /** `{...invoice, ...patch}`: the supplied statuses overwrite, everything else is the invoice's. */
  function Overlay(inv: Invoice, patch: StatusPatch): (r: Invoice)
    ensures r.paymentStatus == patch.paymentStatus.GetOr(inv.paymentStatus)
    ensures r.shippingStatus == patch.shippingStatus.GetOr(inv.shippingStatus)
    ensures r.status == patch.status.GetOr(inv.status)
    ensures r.(paymentStatus := inv.paymentStatus, shippingStatus := inv.shippingStatus, status := inv.status) == inv
  {
    inv.(paymentStatus := patch.paymentStatus.GetOr(inv.paymentStatus),
         shippingStatus := patch.shippingStatus.GetOr(inv.shippingStatus),
         status := patch.status.GetOr(inv.status))
  }

  /** The body of a status change: the stored invoice overlaid with the patch, or the patch alone. */
  datatype StatusBody = Overlaid(invoice: Invoice) | PatchOnly(patch: StatusPatch)

  function FindInvoice(invoices: seq<Invoice>, id: string): (r: Option<Invoice>)
    ensures r.Some? ==> r.value in invoices && r.value.id == id
    ensures r.None? ==> forall i :: 0 <= i < |invoices| ==> invoices[i].id != id
  {
    match FindFirst(invoices, (x: Invoice) => x.id == id)
    case None => None
    case Some(k) => Some(invoices[k])
  }

  class Store {
    var data: Collections
    var isLoading: bool

    constructor()
      ensures data == EMPTY && isLoading
    {
      data := EMPTY;
      isLoading := true;
    }

    /** The initial load: nothing changes unless the first batch arrives; the second batch is set only if it arrives too. */
    method Load(first: ApiResult<FirstBatch>, second: ApiResult<SecondBatch>, derivedInventory: seq<Record>)
      modifies this
      ensures !isLoading
      ensures first.Failed? ==> data == old(data)
      ensures first.Ok? ==>
        var b := first.value;
        var loaded := old(data).(invoices := b.invoices, clients := b.clients, suppliers := b.suppliers,
          vehicles := b.vehicles, expenses := b.expenses, assets := b.assets, assetCategories := b.assetCategories,
          asociados := b.asociados, remesas := b.remesas, asientosManuales := b.asientosManuales,
          inventory := derivedInventory);
        && (second.Failed? ==> data == loaded)
        && (second.Ok? ==> data == loaded.(certificados := second.value.certificados,
              pagosAsociados := second.value.pagosAsociados, recibosPagoAsociados := second.value.recibosPagoAsociados))
    {
      isLoading := true;
      if first.Ok? {
        var b := first.value;
        data := data.(invoices := b.invoices, clients := b.clients, suppliers := b.suppliers,
          vehicles := b.vehicles, expenses := b.expenses, assets := b.assets, assetCategories := b.assetCategories,
          asociados := b.asociados, remesas := b.remesas, asientosManuales := b.asientosManuales,
          inventory := derivedInventory);
        if second.Ok? {
          data := data.(certificados := second.value.certificados,
            pagosAsociados := second.value.pagosAsociados, recibosPagoAsociados := second.value.recibosPagoAsociados);
        }
      }
      isLoading := false;
    }

    /** Signing out empties every collection and ends loading. */
    method Clear()
      modifies this
      ensures data == EMPTY && !isLoading
    {
      data := EMPTY;
      isLoading := false;
    }

    /** The effect on a session change: load when signed in with a user, clear when signed out. */
    method SyncWithSession(isAuthenticated: bool, hasUser: bool,
                           first: ApiResult<FirstBatch>, second: ApiResult<SecondBatch>, derivedInventory: seq<Record>)
      modifies this
      ensures !isAuthenticated ==> data == EMPTY && !isLoading
      ensures isAuthenticated && !hasUser ==> data == old(data) && isLoading == old(isLoading)
      ensures isAuthenticated && hasUser && first.Failed? ==> data == old(data) && !isLoading
      ensures isAuthenticated && hasUser && first.Ok? ==>
        var b := first.value;
        var loaded := old(data).(invoices := b.invoices, clients := b.clients, suppliers := b.suppliers,
          vehicles := b.vehicles, expenses := b.expenses, assets := b.assets, assetCategories := b.assetCategories,
          asociados := b.asociados, remesas := b.remesas, asientosManuales := b.asientosManuales,
          inventory := derivedInventory);
        && !isLoading
        && (second.Failed? ==> data == loaded)
        && (second.Ok? ==> data == loaded.(certificados := second.value.certificados,
              pagosAsociados := second.value.pagosAsociados, recibosPagoAsociados := second.value.recibosPagoAsociados))
    {
      if isAuthenticated && hasUser {
        Load(first, second, derivedInventory);
      } else if !isAuthenticated {
        Clear();
      }
    }

    method SaveClient(item: Client, response: ApiResult<Client>) returns (call: Call)
      modifies this
      ensures call == SaveCall(item.id, "/clients")
      ensures response.Failed? ==> data == old(data)
      ensures response.Ok? ==> data == old(data).(clients := AfterSave(old(data).clients, item.id != "", response.value, CLIENT_ID))
      ensures isLoading == old(isLoading)
    {
      call := SaveCall(item.id, "/clients");
      if response.Ok? {
        data := data.(clients := AfterSave(data.clients, item.id != "", response.value, CLIENT_ID));
      }
    }

    method DeleteClient(id: string, response: ApiResult<()>)
      modifies this
      ensures response.Failed? ==> data == old(data)
      ensures response.Ok? ==> data == old(data).(clients := RemoveById(old(data).clients, id, CLIENT_ID))
      ensures isLoading == old(isLoading)
    {
      if response.Ok? {
        data := data.(clients := RemoveById(data.clients, id, CLIENT_ID));
      }
    }

    method SaveExpense(item: Expense, response: ApiResult<Expense>) returns (call: Call)
      modifies this
      ensures call == SaveCall(item.id, "/expenses")
      ensures response.Failed? ==> data == old(data)
      ensures response.Ok? ==> data == old(data).(expenses := AfterSave(old(data).expenses, item.id != "", response.value, EXPENSE_ID))
      ensures isLoading == old(isLoading)
    {
      call := SaveCall(item.id, "/expenses");
      if response.Ok? {
        data := data.(expenses := AfterSave(data.expenses, item.id != "", response.value, EXPENSE_ID));
      }
    }

    method DeleteExpense(id: string, response: ApiResult<()>)
      modifies this
      ensures response.Failed? ==> data == old(data)
      ensures response.Ok? ==> data == old(data).(expenses := RemoveById(old(data).expenses, id, EXPENSE_ID))
      ensures isLoading == old(isLoading)
    {
      if response.Ok? {
        data := data.(expenses := RemoveById(data.expenses, id, EXPENSE_ID));
      }
    }

    method SaveAsientoManual(item: AsientoManual, response: ApiResult<AsientoManual>) returns (call: Call)
      modifies this
      ensures call == SaveCall(item.id, "/asientos-manuales")
      ensures response.Failed? ==> data == old(data)
      ensures response.Ok? ==> data == old(data).(asientosManuales := AfterSave(old(data).asientosManuales, item.id != "", response.value, ASIENTO_ID))
      ensures isLoading == old(isLoading)
    {
      call := SaveCall(item.id, "/asientos-manuales");
      if response.Ok? {
        data := data.(asientosManuales := AfterSave(data.asientosManuales, item.id != "", response.value, ASIENTO_ID));
      }
    }

    method DeleteAsientoManual(id: string, response: ApiResult<()>)
      modifies this
      ensures response.Failed? ==> data == old(data)
      ensures response.Ok? ==> data == old(data).(asientosManuales := RemoveById(old(data).asientosManuales, id, ASIENTO_ID))
      ensures isLoading == old(isLoading)
    {
      if response.Ok? {
        data := data.(asientosManuales := RemoveById(data.asientosManuales, id, ASIENTO_ID));
      }
    }

    /** The generic save on one of the id-only collections, sent to that collection's path. */
    method SaveRecord(kind: RecordKind, item: Record, response: ApiResult<Record>) returns (call: Call)
      modifies this
      ensures call == SaveCall(item.id, EndpointOf(kind))
      ensures response.Failed? ==> data == old(data)
      ensures response.Ok? ==> data == WithRecords(old(data), kind, AfterSave(RecordsOf(old(data), kind), item.id != "", response.value, RECORD_ID))
      ensures isLoading == old(isLoading)
    {
      call := SaveCall(item.id, EndpointOf(kind));
      if response.Ok? {
        data := WithRecords(data, kind, AfterSave(RecordsOf(data, kind), item.id != "", response.value, RECORD_ID));
      }
    }

    /** The generic delete on one of the id-only collections; receipts have no delete handler. */
    method DeleteRecord(kind: RecordKind, id: string, response: ApiResult<()>)
      requires kind != Recibos
      modifies this
      ensures response.Failed? ==> data == old(data)
      ensures response.Ok? ==> data == WithRecords(old(data), kind, RemoveById(RecordsOf(old(data), kind), id, RECORD_ID))
      ensures isLoading == old(isLoading)
    {
      if response.Ok? {
        data := WithRecords(data, kind, RemoveById(RecordsOf(data, kind), id, RECORD_ID));
      }
    }

    /** `handleSaveInvoice`: the created invoice goes first; the inventory is re-derived. */
    method SaveInvoice(hasUser: bool, response: ApiResult<Invoice>, derivedInventory: seq<Record>) returns (saved: Option<Invoice>)
      modifies this
      ensures !hasUser || response.Failed? ==> data == old(data) && saved.None?
      ensures hasUser && response.Ok? ==>
        && saved == Some(response.value)
        && data == old(data).(invoices := [response.value] + old(data).invoices, inventory := derivedInventory)
      ensures isLoading == old(isLoading)
    {
      if !hasUser || response.Failed? {
        return None;
      }
      data := data.(invoices := [response.value] + data.invoices, inventory := derivedInventory);
      saved := Some(response.value);
    }

    /** `handleUpdateInvoice`: the saved invoice replaces the one with its id. */
    method UpdateInvoice(hasUser: bool, response: ApiResult<Invoice>, derivedInventory: seq<Record>) returns (saved: Option<Invoice>)
      modifies this
      ensures !hasUser || response.Failed? ==> data == old(data) && saved.None?
      ensures hasUser && response.Ok? ==>
        && saved == Some(response.value)
        && data == old(data).(invoices := ReplaceById(old(data).invoices, response.value, INVOICE_ID), inventory := derivedInventory)
      ensures isLoading == old(isLoading)
    {
      if !hasUser || response.Failed? {
        return None;
      }
      data := data.(invoices := ReplaceById(data.invoices, response.value, INVOICE_ID), inventory := derivedInventory);
      saved := Some(response.value);
    }

    /** `handleUpdateInvoiceStatuses`: sends the stored invoice overlaid with the patch, then stores the answer. */
    method UpdateInvoiceStatuses(hasUser: bool, invoiceId: string, patch: StatusPatch, response: ApiResult<Invoice>)
      returns (body: Option<StatusBody>)
      modifies this
      ensures !hasUser ==> body.None? && data == old(data)
      ensures hasUser ==> body.Some?
      ensures hasUser && FindInvoice(old(data).invoices, invoiceId).Some? ==>
        body == Some(Overlaid(Overlay(FindInvoice(old(data).invoices, invoiceId).value, patch)))
      ensures hasUser && FindInvoice(old(data).invoices, invoiceId).None? ==> body == Some(PatchOnly(patch))
      ensures hasUser && response.Failed? ==> data == old(data)
      ensures hasUser && response.Ok? ==> data == old(data).(invoices := ReplaceById(old(data).invoices, response.value, INVOICE_ID))
      ensures isLoading == old(isLoading)
    {
      if !hasUser {
        return None;
      }
      match FindInvoice(data.invoices, invoiceId) {
        case Some(inv) => body := Some(Overlaid(Overlay(inv, patch)));
        case None => body := Some(PatchOnly(patch));
      }
      if response.Ok? {
        data := data.(invoices := ReplaceById(data.invoices, response.value, INVOICE_ID));
      }
    }

    method DeleteInvoice(id: string, response: ApiResult<()>)
      modifies this
      ensures response.Failed? ==> data == old(data)
      ensures response.Ok? ==> data == old(data).(invoices := RemoveById(old(data).invoices, id, INVOICE_ID))
      ensures isLoading == old(isLoading)
    {
      if response.Ok? {
        data := data.(invoices := RemoveById(data.invoices, id, INVOICE_ID));
      }
    }

    /** `handleAssignToVehicle`: the returned invoices are merged by id. */
    method AssignToVehicle(response: ApiResult<seq<Invoice>>)
      modifies this
      ensures response.Failed? ==> data == old(data)
      ensures response.Ok? ==> data == old(data).(invoices := MergeBatch(old(data).invoices, response.value))
      ensures isLoading == old(isLoading)
    {
      if response.Ok? {
        data := data.(invoices := MergeBatch(data.invoices, response.value));
      }
    }

    /** `handleUnassignInvoice`: only an invoice on a vehicle is sent; the answer replaces it by id. */
    method UnassignInvoice(invoiceId: string, response: ApiResult<Invoice>) returns (sent: bool)
      modifies this
      ensures sent <==> FindInvoice(old(data).invoices, invoiceId).Some? && FindInvoice(old(data).invoices, invoiceId).value.vehicleId != ""
      ensures !sent || response.Failed? ==> data == old(data)
      ensures sent && response.Ok? ==> data == old(data).(invoices := ReplaceById(old(data).invoices, response.value, INVOICE_ID))
      ensures isLoading == old(isLoading)
    {
      var found := FindInvoice(data.invoices, invoiceId);
      if found.None? || found.value.vehicleId == "" {
        return false;
      }
      sent := true;
      if response.Ok? {
        data := data.(invoices := ReplaceById(data.invoices, response.value, INVOICE_ID));
      }
    }

    /** `handleDispatchVehicle`: updates the vehicle, merges the invoices, and puts the new remesa first. */
    method DispatchVehicle(hasUser: bool, response: ApiResult<(VehicleUpdate, Remesa)>) returns (remesa: Option<Remesa>)
      modifies this
      ensures !hasUser || response.Failed? ==> data == old(data) && remesa.None?
      ensures hasUser && response.Ok? ==>
        var (update, r) := response.value;
        && remesa == Some(r)
        && data == old(data).(vehicles := ReplaceById(old(data).vehicles, update.vehicle, RECORD_ID),
                              invoices := MergeBatch(old(data).invoices, update.invoices),
                              remesas := [r] + old(data).remesas)
      ensures isLoading == old(isLoading)
    {
      if !hasUser || response.Failed? {
        return None;
      }
      var (update, r) := response.value;
      data := data.(vehicles := ReplaceById(data.vehicles, update.vehicle, RECORD_ID),
                    invoices := MergeBatch(data.invoices, update.invoices),
                    remesas := [r] + data.remesas);
      remesa := Some(r);
    }

    /** `handleFinalizeTrip`: updates the vehicle and merges the invoices. */
    method FinalizeTrip(response: ApiResult<VehicleUpdate>)
      modifies this
      ensures response.Failed? ==> data == old(data)
      ensures response.Ok? ==>
        data == old(data).(vehicles := ReplaceById(old(data).vehicles, response.value.vehicle, RECORD_ID),
                           invoices := MergeBatch(old(data).invoices, response.value.invoices))
      ensures isLoading == old(isLoading)
    {
      if response.Ok? {
        data := data.(vehicles := ReplaceById(data.vehicles, response.value.vehicle, RECORD_ID),
                      invoices := MergeBatch(data.invoices, response.value.invoices));
      }
    }

    /**
     * `handleDeleteRemesa`: nothing without a user and a confirmation; on
     * success the remesa goes, and the vehicle and invoices the server
     * returns (each optional) are stored.
     */
    method DeleteRemesa(hasUser: bool, confirmed: bool, remesaId: string,
                        response: ApiResult<(Option<Record>, Option<seq<Invoice>>)>)
      modifies this
      ensures !hasUser || !confirmed || response.Failed? ==> data == old(data)
      ensures hasUser && confirmed && response.Ok? ==>
        var (vehicle, invoices) := response.value;
        && data.remesas == RemoveById(old(data).remesas, remesaId, REMESA_ID)
        && data.vehicles == (if vehicle.Some? then ReplaceById(old(data).vehicles, vehicle.value, RECORD_ID) else old(data).vehicles)
        && data.invoices == (if invoices.Some? then MergeBatch(old(data).invoices, invoices.value) else old(data).invoices)
        && data.(remesas := old(data).remesas, vehicles := old(data).vehicles, invoices := old(data).invoices) == old(data)
      ensures isLoading == old(isLoading)
    {
      if !hasUser || !confirmed || response.Failed? {
        return;
      }
      var (vehicle, invoices) := response.value;
      data := data.(remesas := RemoveById(data.remesas, remesaId, REMESA_ID));
      if vehicle.Some? {
        data := data.(vehicles := ReplaceById(data.vehicles, vehicle.value, RECORD_ID));
      }
      if invoices.Some? {
        data := data.(invoices := MergeBatch(data.invoices, invoices.value));
      }
    }
  }
}
