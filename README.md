# Sistema Cooperativa: a verified model of the freight cooperative's core

This project is a Dafny model of the business logic of a freight
cooperative's web application. The cooperative issues shipping invoices
(guides with merchandise, priced per chargeable kilogram with discount,
insurance, handling, IPOSTEL and IGTF) and settles consignments (remesas)
with its associates. It also keeps an accounting book: transactions, a
journal with an auxiliary ledger, manual entries, a chart of accounts and
expenses. The model covers:

- the shared data store of the application;
- the session lifecycle, with its idle warning;
- the forms that capture clients, suppliers, expenses and associate payments;
- the navigation sidebar.

The model follows the program's structure, one module per source file:

| module | source file | form |
|---|---|---|
| `Financials` | `utils/financials.ts` | pure functions and lemmas |
| `Transactions` | `LibroContableView.tsx` | pure functions and lemmas |
| `Ledger` | `LibroAuxiliarModal.tsx` | functions, plus methods for the loops |
| `ManualEntry` | `AsientoManualModal.tsx` | class `Editor` |
| `Remesas` | `RemesaDocumentModal.tsx` | functions, plus methods for the `reduce` loops |
| `InvoiceForms` | `InvoiceForm.tsx` | class `InvoiceForm` |
| `DataStore` | `DataContext.tsx` | class `Store` |
| `Session` | `AuthContext.tsx` | class `Auth` |
| `SessionWarning` | `SessionWarningModal.tsx` | functions |
| `ClientForm`, `SupplierForm`, `ExpenseForm`, `PagoAsociadoForm` | the four form modals | classes `Form` |
| `PlanContable` | `PlanContableManagementModal.tsx` | class `Manager` |
| `Sidebar` | `Sidebar.tsx` | class `State` |

Shared helpers live in their own modules:

- `Outcomes`: Option.
- `Numbers`: a JavaScript number is a real or NaN; the `|| 0` and `|| 1` idioms; `toFixed(2)` rounding.
- `Text`: `trim` blankness, `startsWith`, `toUpperCase` on Basic Latin and Latin-1 letters, code-point string order, `padStart`.
- `Sorting`: filter, `findIndex`, `Set` de-duplication, and the stable `Array.prototype.sort`.
- `Domain`: the record types.

React state that a component updates becomes a class field. Each handler
becomes a method whose `ensures` states the whole new state; a field the
class invariant `Valid()` derives from the others, such as the invoice form's
financials, is stated through that invariant. What a
`useMemo` computes becomes a function, and each of its loops becomes a
method proved equal to that function. Server answers, the clock, `Date.now()`
identifiers and timers become parameters or events.

## Model

| member | source | states |
|---|---|---|
| Financials.CalculateFinancialDetails | utils/financials.ts:11-81 | A missing guide or a missing merchandise list prices to all zeros. IVA is always 0. The total is freight less discount plus insurance, handling, IPOSTEL, IVA and IGTF. |
| Financials.PricingRules | utils/financials.ts:17-68 | Each amount follows its own rule. Freight is total chargeable weight times cost per kg. The discount is a percentage of the freight and applies only when enabled. Insurance is a percentage of the declared value. Handling is 10 exactly when the weight is positive. IPOSTEL is 6% of the eligible lines' freight. |
| Financials.IgtfRule | utils/financials.ts:73-78 | IGTF is 3% of subtotal + IPOSTEL + IVA when paying in USD and 0 in VES; it is non-zero only for a priced USD guide with a non-zero base. |
| Financials.EmptyMerchandiseKeepsInsurance | utils/financials.ts:13-15 | An empty (but present) merchandise list still prices the guide: freight, handling, discount and IPOSTEL are 0, but insurance is charged. |
| Financials.NonNegativeFinancials | utils/financials.ts:17-78 | With non-negative inputs and a discount of at most 100%, every amount is non-negative, the discount never exceeds the freight, and IPOSTEL is at most 6% of the freight. |
| Financials.IpostelBaseBounded | utils/financials.ts:51-66 | The IPOSTEL base lies between 0 and the whole freight. |
| Financials.IpostelBaseScaled | utils/financials.ts:51-66 | The IPOSTEL base is the weight of the eligible lines (units of more than 0 and at most 30.99 kg) priced at the cost per kg. |
| Financials.EligibleWeightWithin | utils/financials.ts:19-66 | With non-negative numbers the eligible weight lies between 0 and the total chargeable weight. |
| Financials.FreightRule | utils/financials.ts:30 | The freight is the total chargeable weight times the cost per kg (`|| 0`). |
| Financials.LineFreightsTotal | utils/financials.ts:20-31 | Pricing the lines one by one gives the same freight as pricing the total weight. |
| Financials.IpostelBoundary | utils/financials.ts:61 | The 30.99 kg per-unit bound: a 30 kg unit pays IPOSTEL, a 31 kg unit does not. |
| Financials.WorkedExample | utils/financials.ts:11-81 | A concrete guide prices to freight 10, handling 10, IPOSTEL 0.6 and total 20.6. Paid in USD, it adds 0.618 of IGTF. |
| Financials.ChargeableWeightPricesFreight | utils/financials.ts:89-102 | The invoice's chargeable weight times the cost per kg is exactly the calculator's freight. A missing invoice weighs 0. |
| Transactions.IncomeTransactions | components/libro-contable/LibroContableView.tsx:64-74 | Each income transaction comes from a non-voided invoice and carries its id (prefixed `inc-`), date and total. The list is exactly one transaction per non-voided invoice, in invoice order: same length as the filtered invoices, and the i-th transaction is built from the i-th of them. |
| Transactions.ExpenseTransactions | components/libro-contable/LibroContableView.tsx:76-84 | There is one expense transaction per expense, in order, with its id (prefixed `exp-`), date and amount. |
| Transactions.DateFilterExact | components/libro-contable/LibroContableView.tsx:88-94 | A transaction passes the date filter exactly when its day is within the inclusive range. A missing bound is open. |
| Transactions.TypeFilterMembership | components/libro-contable/LibroContableView.tsx:96-101 | The selector keeps exactly the transactions of the selected type; any other selector keeps all of them. |
| Transactions.TypedViewsPartition | components/libro-contable/LibroContableView.tsx:96-101 | The income and expense views split the list as a multiset. |
| Transactions.FilteredTransactionsSpec | components/libro-contable/LibroContableView.tsx:60-104 | The list is newest first and a permutation of the filtered transactions. Same-day transactions keep their order. Every entry is in range and of the selected type. |
| Transactions.VoidedInvoicesExcluded | components/libro-contable/LibroContableView.tsx:64-65 | A voided invoice never reaches the list. A non-voided invoice in range always does, unless only expenses are shown. |
| Transactions.ReportFiltersExact | components/libro-contable/LibroContableView.tsx:115-140 | The report filters keep exactly the invoices, expenses and manual entries dated in range. Voided invoices are kept. |
| Ledger.PaymentMethodName | components/libro-contable/LibroAuxiliarModal.tsx:78 | No method with the id gives "Caja/Banco". Otherwise the first method with the id decides: its name, or "Caja/Banco" when that name is empty. |
| Ledger.AccountName | components/libro-contable/LibroAuxiliarModal.tsx:118 | No account with the id gives "Cuenta Desconocida". Otherwise the first account with the id decides: its name, or "Cuenta Desconocida" when that name is empty. |
| Ledger.TransactionAsiento | components/libro-contable/LibroAuxiliarModal.tsx:72-75 | A transaction yields no journal entry exactly when it is a voided invoice. Otherwise the entry keeps the transaction's id and date. |
| Ledger.HeadLinesSpec | components/libro-contable/LibroAuxiliarModal.tsx:81-93 | The sale entry first debits the total, to the payment account when paid at origin and to the client's receivable otherwise. A paid freight-at-destination invoice adds the collection. Freight and handling revenue follow. |
| Ledger.OptionalLinesSpec | components/libro-contable/LibroAuxiliarModal.tsx:94-98 | The insurance, discount, IVA, IPOSTEL and IGTF lines each appear exactly when their amount is positive. |
| Ledger.ExpenseAsientoSpec | components/libro-contable/LibroAuxiliarModal.tsx:100-109 | A purchase entry debits the expense with the taxable base (or the amount). It adds VAT only when VAT is positive. It credits the payment method when paid and the supplier's payable otherwise. It balances exactly when base plus VAT equals the amount. |
| Ledger.SaleEntriesBalance | components/libro-contable/LibroAuxiliarModal.tsx:81-98 | With non-negative charges, and the total their sum, the sale entry's debits equal its credits. |
| Ledger.IncomeAsientoBalances | components/libro-contable/LibroAuxiliarModal.tsx:73-98 | With non-negative guide inputs, every sale entry balances. |
| Ledger.ManualAsiento | components/libro-contable/LibroAuxiliarModal.tsx:114-129 | A manual entry keeps its date, description and lines (id prefixed `manual-`). Accounts are looked up by id. |
| Ledger.WidenRange | components/libro-contable/LibroAuxiliarModal.tsx:68-70 | After the step, the period range is the least and greatest of every date seen. |
| Ledger.BuildAsientos | components/libro-contable/LibroAuxiliarModal.tsx:62-130 | The loop books exactly the specified entries: the transactions' entries, then the manual ones. The period covers every date seen, voided invoices included. |
| Ledger.AccountListSpec | components/libro-contable/LibroAuxiliarModal.tsx:136-138 | The account list is strictly ascending, so it has no repeats. It names exactly the accounts some line uses. |
| Ledger.SortedMovementsSpec | components/libro-contable/LibroAuxiliarModal.tsx:144-155 | The selected account's movements are in date order. Same-day movements keep their entry order. They are a permutation of the account's movements. |
| Ledger.LinesForExact | components/libro-contable/LibroAuxiliarModal.tsx:146-153 | One entry contributes exactly its lines on the selected account, each with the entry's date and description. |
| Ledger.AccountMovementsExact | components/libro-contable/LibroAuxiliarModal.tsx:144-154 | Every line of the selected account becomes a movement, and every movement is such a line. |
| Ledger.BalanceIsDebitMinusCredit | components/libro-contable/LibroAuxiliarModal.tsx:157-167 | The running balance after any prefix is its debits minus its credits. |
| Ledger.BuildLedger | components/libro-contable/LibroAuxiliarModal.tsx:157-175 | Each entry's balance is the previous balance plus debit minus credit. The totals are the sums. The final balance is total debit minus total credit. |
| Ledger.ComputeLibroAuxiliar | components/libro-contable/LibroAuxiliarModal.tsx:57-179 | With nothing to book, the view is empty. Otherwise it gives the account list and the period. When an account is selected, it also gives that account's ledger. |
| ManualEntry.ApplyEdit | components/libro-contable/AsientoManualModal.tsx:47-56 | An edit keeps the line's id. A positive debit clears the credit and vice versa, so a one-sided line stays one-sided. |
| ManualEntry.EditLines | components/libro-contable/AsientoManualModal.tsx:47-56 | Only the line with that id changes. |
| ManualEntry.WithoutLineSpec | components/libro-contable/AsientoManualModal.tsx:39-41 | Removing an id from lines with distinct ids drops at most that one line. The ids stay distinct. Every other line is kept. |
| ManualEntry.SubmitCheckSpec | components/libro-contable/AsientoManualModal.tsx:59-81 | An entry is saved exactly when it is balanced, every line has an account and the description is not blank. Each failure is reported only when the earlier checks pass. |
| ManualEntry.EnabledSaveIsBalanced | components/libro-contable/AsientoManualModal.tsx:143 | When the save button is enabled, the balance check passes and the debit total is non-zero. |
| ManualEntry.AddLineKeepsTotals | components/libro-contable/AsientoManualModal.tsx:29-37 | Adding an empty line changes neither total nor the balance. |
| ManualEntry.SetCuentaKeepsTotals | components/libro-contable/AsientoManualModal.tsx:29-33 | Choosing a line's account changes neither total. |
| ManualEntry.Editor.constructor | components/libro-contable/AsientoManualModal.tsx:22-27 | A fresh form: today's date, no description, two empty lines. |
| ManualEntry.Editor.SetFecha | components/libro-contable/AsientoManualModal.tsx:100 | The date input sets only the date. |
| ManualEntry.Editor.SetDescripcion | components/libro-contable/AsientoManualModal.tsx:103 | The description input sets only the description. |
| ManualEntry.Editor.AddEntry | components/libro-contable/AsientoManualModal.tsx:35-37 | Appends one empty line and keeps at least two lines with distinct ids. |
| ManualEntry.Editor.RemoveEntry | components/libro-contable/AsientoManualModal.tsx:39-45 | Removes the line only while more than two remain, and reports whether it did. |
| ManualEntry.Editor.ChangeEntry | components/libro-contable/AsientoManualModal.tsx:47-57 | Edits the line with that id and preserves the form invariant (at least two one-sided lines, distinct ids). |
| ManualEntry.Editor.Submit | components/libro-contable/AsientoManualModal.tsx:59-81 | Reports the outcome the submission rules give for the current form. |
| ManualEntry.Editor.Reset | components/libro-contable/AsientoManualModal.tsx:84-93 | Closing resets to a fresh form. |
| Remesas.RemesaInvoicesSpec | components/remesas/RemesaDocumentModal.tsx:98 | An invoice is on the sheet exactly when the remesa lists its id. Listing an id twice does not repeat it. |
| Remesas.OfficeName | components/remesas/RemesaDocumentModal.tsx:104 | The office's name, or the raw id when the office is unknown or unnamed. |
| Remesas.SucursalText | components/remesas/RemesaDocumentModal.tsx:100-102 | The first invoice's origin office as `CODE-NAME`: the code, a hyphen, then exactly the office name up to its first " - ", upper-cased. It is "SUCURSAL DESCONOCIDA" when there is no invoice or no such office. |
| Remesas.GroupsSpec | components/remesas/RemesaDocumentModal.tsx:106-113 | The grouping has one group per destination, in order of first appearance. Each group holds exactly that destination's invoices, in order. |
| Remesas.EachInOneGroup | components/remesas/RemesaDocumentModal.tsx:106-113 | Every invoice lands in exactly one group. |
| Remesas.GroupByDestination | components/remesas/RemesaDocumentModal.tsx:106-113 | The in-place `reduce` computes that grouping. |
| Remesas.Tally | components/remesas/RemesaDocumentModal.tsx:115-122 | The totals loop yields the sum of each invoice's freight, insurance and total, and the pieces. |
| Remesas.AddRow | components/remesas/RemesaDocumentModal.tsx:116-119 | One turn of the accumulator adds the next row's three columns, so the running totals stay the sum of the prefix. |
| Remesas.Subtotals | components/remesas/RemesaDocumentModal.tsx:193-200 | One subtotal per destination group, each the sum of that group's rows. |
| Remesas.GroupSubtotalsAddUp | components/remesas/RemesaDocumentModal.tsx:194-200 | The per-destination subtotals add up to the table totals. |
| Remesas.SummarizeSplit | components/remesas/RemesaDocumentModal.tsx:128-138 | The prepaid and collect accumulators together sum every settlement column over all invoices. |
| Remesas.SplitByPaymentType | components/remesas/RemesaDocumentModal.tsx:128-138 | The loop yields the prepaid and collect sums. Their freight adds up to the table freight. |
| Remesas.Liquidate | components/remesas/RemesaDocumentModal.tsx:140-148 | The amount to settle is the prepaid subtotal less the retention. Equivalently, it is 75% of all freight less the collect freight and every charge. |
| Remesas.AllPrepaidRetainsNothing | components/remesas/RemesaDocumentModal.tsx:145-148 | With only prepaid invoices, nothing is retained and the whole prepaid subtotal is settled. |
| Remesas.BuildSheet | components/remesas/RemesaDocumentModal.tsx:96-148 | The sheet has the remesa's invoices, the branch caption and a destination grouping. Each group's subtotal is its sum, and the subtotals add up to the table totals. It also has the pieces, the prepaid/collect split and the liquidation. |
| InvoiceForms.ClientTypeFor | components/invoices/InvoiceForm.tsx:156-162 | An id number names a company exactly when it starts with `J-` in either case. |
| InvoiceForms.EditClient | components/invoices/InvoiceForm.tsx:152-169 | The field takes the value. An id number also sets the client type. No other field changes. |
| InvoiceForms.Stored | components/invoices/InvoiceForm.tsx:184 | A numeric field stores the parsed number, or 0 for NaN: never NaN. |
| InvoiceForms.EditItemSpec | components/invoices/InvoiceForm.tsx:178-191 | A numeric edit stores a number in its field and leaves the others alone. |
| InvoiceForms.EditAt | components/invoices/InvoiceForm.tsx:179-191 | Only the item at the index changes. |
| InvoiceForms.RemoveAt | components/invoices/InvoiceForm.tsx:204 | Removes exactly the item at the index and shifts the rest. An out-of-range index removes nothing. |
| InvoiceForms.FormTotalWeightAgrees | components/invoices/InvoiceForm.tsx:139-143 | With numeric dimensions, the form's own weight sum equals the calculator's total weight. |
| InvoiceForms.DeclaredValueIsFreight | components/invoices/InvoiceForm.tsx:138-149 | With numeric dimensions, the declared value the form keeps is the calculator's freight. |
| InvoiceForms.ErrorsOfSpec | components/invoices/InvoiceForm.tsx:209-247 | The form is valid exactly when its error map holds no flag. Each flag is set exactly when its check fails. |
| InvoiceForms.OrNotAvailable | components/invoices/InvoiceForm.tsx:254-255 | The caption is never empty and keeps a non-empty value. |
| InvoiceForms.BuildInvoice | components/invoices/InvoiceForm.tsx:249-271 | Editing updates the existing invoice (date, client, total, guide). Creating builds a new invoice from the fresh ids. |
| InvoiceForms.InvoiceForm.constructor | components/invoices/InvoiceForm.tsx:105-149 | Opens on the guide with its effects run: priced, and the declared value set to the freight. |
| InvoiceForms.InvoiceForm.ChangeClient | components/invoices/InvoiceForm.tsx:152-169 | Only the chosen party changes, by that field's edit. The guide stays priced. |
| InvoiceForms.InvoiceForm.SelectClient | components/invoices/InvoiceForm.tsx:171-176 | The party becomes the chosen client. |
| InvoiceForms.InvoiceForm.ChangeMerchandise | components/invoices/InvoiceForm.tsx:178-193 | Only the item at the index changes. The declared value follows. |
| InvoiceForms.InvoiceForm.AddItem | components/invoices/InvoiceForm.tsx:195-200 | Appends a fresh item. |
| InvoiceForms.InvoiceForm.RemoveItem | components/invoices/InvoiceForm.tsx:202-207 | Removes an item only while more than one remains, so the list never becomes empty. |
| InvoiceForms.InvoiceForm.ValidateForm | components/invoices/InvoiceForm.tsx:209-247 | Records the error map. The form is valid exactly when the guide passes every check. |
| InvoiceForms.InvoiceForm.HandleSave | components/invoices/InvoiceForm.tsx:274-284 | Only a valid form hands an invoice to the save callback, and it is the invoice built from the guide. |
| DataStore.ReplaceByIdProperties | contexts/DataContext.tsx:145 | Replacing by id is idempotent, and is a no-op when the id is absent. |
| DataStore.RemoveByIdProperties | contexts/DataContext.tsx:154 | Deleting by id keeps exactly the elements with other ids. It is idempotent, and a no-op when the id is absent. |
| DataStore.SaveCall | contexts/DataContext.tsx:134-141 | A save with an id is a PUT to `endpoint/id` sending the id. Without an id it is a POST to the endpoint without one. |
| DataStore.AfterSave | contexts/DataContext.tsx:145 | An update keeps the length, puts the saved item at every position holding its id, and keeps every other element where it was. A creation appends the saved item. |
| DataStore.IdMapLastWins | contexts/DataContext.tsx:229-241 | In a batch, the last answer for an id wins. |
| DataStore.MergeBatchReplaces | contexts/DataContext.tsx:229-241 | Merging a batch keeps every id and position. An invoice with an id in the batch becomes the batch's version. |
| DataStore.Store.constructor | contexts/DataContext.tsx:69-83 | All collections start empty, and the store is loading. |
| DataStore.Store.Load | contexts/DataContext.tsx:85-121 | Loading ends in every case. A failed first batch changes nothing. A successful one installs its ten collections and the derived inventory. The three associate collections are installed only when the second batch arrives too. |
| DataStore.Store.Clear | contexts/DataContext.tsx:122-127 | Logout empties every collection. |
| DataStore.Store.SyncWithSession | contexts/DataContext.tsx:85-131 | Signed in with a user: the store holds exactly what `Load` would set from the two batches (nothing changes if the first fails) and loading ends. Signed out: every collection is emptied and loading ends. Signed in without a user: nothing changes. |
| DataStore.Store.SaveClient | contexts/DataContext.tsx:133-149 | Sends the save call. On success only the clients change, by replace or append. On failure nothing changes. |
| DataStore.Store.DeleteClient | contexts/DataContext.tsx:151-157 | On success only the clients change, losing that id. On failure nothing changes. |
| DataStore.Store.SaveExpense | contexts/DataContext.tsx:165 | Sends the save call to `/expenses`. On success only the expenses change, by replace or append. On failure nothing changes. |
| DataStore.Store.DeleteExpense | contexts/DataContext.tsx:166 | On success only the expenses change, losing that id. On failure nothing changes. |
| DataStore.Store.SaveAsientoManual | contexts/DataContext.tsx:178 | Sends the save call to `/asientos-manuales`. On success only the manual entries change, by replace or append. On failure nothing changes. |
| DataStore.Store.DeleteAsientoManual | contexts/DataContext.tsx:179 | On success only the manual entries change, losing that id. On failure nothing changes. |
| DataStore.Store.SaveRecord | contexts/DataContext.tsx:133-177 | The generic save on one id-only collection, sent to that collection's own path (`/suppliers`, `/asociados/pagos`, ...). On success only that collection changes, by replace or append. On failure nothing changes. |
| DataStore.Store.DeleteRecord | contexts/DataContext.tsx:151-157 | The generic delete on one id-only collection other than receipts, which have no delete handler. On success only that collection loses the id. On failure nothing changes. |
| DataStore.Store.SaveInvoice | contexts/DataContext.tsx:181-198 | On success the new invoice is prepended and the inventory is re-derived. Otherwise nothing changes. |
| DataStore.Store.UpdateInvoice | contexts/DataContext.tsx:200-215 | On success the invoice is replaced by id and the inventory is re-derived. Otherwise nothing changes. |
| DataStore.Store.UpdateInvoiceStatuses | contexts/DataContext.tsx:217-225 | Sends the invoice overlaid with the patch when it is found, else only the patch. On success the invoice is replaced by id. |
| DataStore.Store.DeleteInvoice | contexts/DataContext.tsx:227 | On success the invoice with that id is removed. |
| DataStore.Store.AssignToVehicle | contexts/DataContext.tsx:229-241 | On success the answered batch is merged into the invoices by id. |
| DataStore.Store.UnassignInvoice | contexts/DataContext.tsx:243-256 | Calls the server exactly when the invoice exists and has a vehicle. On success it replaces it by id. |
| DataStore.Store.DispatchVehicle | contexts/DataContext.tsx:258-282 | On success it updates the vehicle, merges the invoices and prepends the remesa. Otherwise nothing changes. |
| DataStore.Store.FinalizeTrip | contexts/DataContext.tsx:286-302 | On success it updates the vehicle and merges the invoices. |
| DataStore.Store.DeleteRemesa | contexts/DataContext.tsx:304-328 | Only a confirmed delete with a user calls the server. On success the remesa is removed, and the vehicle and invoices are updated when answered. |
| Session.TicksSaturate | contexts/AuthContext.tsx:64-73 | After n ticks from s the countdown is s - n, and it stays at 0 once there. |
| Session.WarningExpires | contexts/AuthContext.tsx:64-73 | From 20 seconds the countdown reaches 0 exactly after 20 ticks. |
| Session.Auth.constructor | contexts/AuthContext.tsx:19-25 | The initial state: not authenticated, no user, loading, no warning, a full countdown, no timers. |
| Session.Auth.ResetIdleTimer | contexts/AuthContext.tsx:40-45 | Arms the idle timer and stops the countdown. Nothing else changes. |
| Session.Auth.SetAuthenticated | contexts/AuthContext.tsx:47-62 | The effect runs only when the flag changes: signing in arms the idle timer, signing out clears the timers and closes the warning, and setting the current value touches no timer. Nothing else changes. |
| Session.Auth.ValidateSession | contexts/AuthContext.tsx:93-117 | Without a token, nothing but the loading flag changes. With a token and a profile that has an id, the user is set and authenticated. Otherwise both tokens are dropped and the session is cleared. Timers follow `SetAuthenticated`, and loading ends in every case. |
| Session.Auth.UserActivity | contexts/AuthContext.tsx:40-62 | Activity re-arms the idle timer and stops the countdown, only while authenticated. |
| Session.Auth.IdleTimeout | contexts/AuthContext.tsx:35-38 | An armed idle timer opens the warning and starts the countdown from 20, if the warning was closed. |
| Session.Auth.CountdownTick | contexts/AuthContext.tsx:64-73 | A running countdown goes down by one second and stops at 0. |
| Session.Auth.ExtendSession | contexts/AuthContext.tsx:75-90 | A successful call closes the warning, stops the countdown at its full value and re-arms the idle timer, whether or not the user is signed in. A failed call changes nothing. |
| SessionWarning.SplitRecomposes | components/auth/SessionWarningModal.tsx:18-19 | Minutes times 60 plus seconds recompose the countdown, and the seconds are in 0..59. |
| SessionWarning.Clock | components/auth/SessionWarningModal.tsx:14-16 | There is a face exactly when the warning is open. |
| SessionWarning.PartReadsBack | components/auth/SessionWarningModal.tsx:30 | A zero-padded part is all digits and reads back as the number. |
| SessionWarning.ClockFace | components/auth/SessionWarningModal.tsx:18-30 | Under 100 minutes, the face is `MM:SS`: five characters, with a colon in the middle. Its halves read back as the minutes and the seconds. |
| ClientForm.IdMatchesSpec | components/clients/ClientFormModal.tsx:38 | The scanner accepts exactly the strings of one allowed letter, an optional dash and at least one digit. |
| ClientForm.EmailScanSpec | components/clients/ClientFormModal.tsx:45 | The scanner accepts exactly the strings without whitespace that have an `@` after a first character and a later `.` with characters between and after. |
| ClientForm.TestId | components/clients/ClientFormModal.tsx:38-39 | The identification test passes exactly for the strings the pattern describes. |
| ClientForm.TestEmail | components/clients/ClientFormModal.tsx:44 | The e-mail test passes exactly for the strings the pattern describes. |
| ClientForm.CheckClient | components/clients/ClientFormModal.tsx:33-46 | One error per failing check and no other key: a blank name, phone or address; a blank id (required message) or one off the pattern (format message); a non-empty e-mail off the pattern. |
| ClientForm.Form.constructor | components/clients/ClientFormModal.tsx:20-25 | Opens on the client, or the empty person, with no errors. |
| ClientForm.Form.Change | components/clients/ClientFormModal.tsx:27-30 | Only the named field changes. |
| ClientForm.Form.ChangeType | components/clients/ClientFormModal.tsx:27-30 | The client-type select sets only the type; the other fields and the errors are kept. |
| ClientForm.Form.Validate | components/clients/ClientFormModal.tsx:32-51 | Each error key is present exactly when its check fails, with the required or format message. The result is true exactly when there is no error, exactly when the client is valid. |
| ClientForm.Form.Submit | components/clients/ClientFormModal.tsx:54-59 | Only a valid form is saved, and it is saved as it stands. The error map is left as `validate` fills it. |
| SupplierForm.RifIsClientId | components/proveedores/SupplierFormModal.tsx:36 | Every supplier RIF is also a valid client id. |
| SupplierForm.CedulaIsNoRif | components/proveedores/SupplierFormModal.tsx:36 | The converse fails: `V-12345678` is a client id but not a RIF. |
| SupplierForm.Form.constructor | components/proveedores/SupplierFormModal.tsx:18-23 | Opens on the supplier, or the empty one, with no errors. |
| SupplierForm.Form.Change | components/proveedores/SupplierFormModal.tsx:25-28 | Only the named field changes. |
| SupplierForm.Form.Validate | components/proveedores/SupplierFormModal.tsx:30-43 | A name error when the name is blank. An id error when the id is blank or not a J/G RIF, with the matching message. The result is true exactly when valid. |
| SupplierForm.Form.Submit | components/proveedores/SupplierFormModal.tsx:45-50 | Only a valid form is saved, as it stands. The error map is left as `validate` fills it. |
| ExpenseForm.ExpenseRoundTrip | components/libro-contable/ExpenseFormModal.tsx:29-49 | Loading an expense into the form and reading it back gives the same expense. |
| ExpenseForm.NewDraft | components/libro-contable/ExpenseFormModal.tsx:32-44 | A new expense gets today's date, 0, pending status, the first category and payment method, and the operator's office. |
| ExpenseForm.UsdEquivalent | components/libro-contable/ExpenseFormModal.tsx:92-94 | With a positive rate, the USD amount times the rate is the amount. Otherwise it is 0. |
| ExpenseForm.Form.constructor | components/libro-contable/ExpenseFormModal.tsx:29-49 | Opens on the expense, or the new draft. The fiscal section is visible when the expense has fiscal data. There are no errors. |
| ExpenseForm.Form.Change | components/libro-contable/ExpenseFormModal.tsx:51-54 | Only the edited field changes. |
| ExpenseForm.Form.SelectSupplier | components/libro-contable/ExpenseFormModal.tsx:56-62 | Copies the supplier's RIF and name. |
| ExpenseForm.Form.ToggleFiscal | components/libro-contable/ExpenseFormModal.tsx:104 | Flips the fiscal section's visibility. |
| ExpenseForm.Form.BasicErrors | components/libro-contable/ExpenseFormModal.tsx:70-72 | Date, description and amount errors appear exactly when their checks fail. |
| ExpenseForm.Form.FiscalErrors | components/libro-contable/ExpenseFormModal.tsx:74-79 | The fiscal errors appear only while the fiscal section is visible, each exactly when its field is blank. |
| ExpenseForm.Form.Validate | components/libro-contable/ExpenseFormModal.tsx:68-83 | Every key is present exactly when its check fails. The result is true exactly when there is no error. |
| ExpenseForm.Form.Submit | components/libro-contable/ExpenseFormModal.tsx:85-90 | Only a valid form is saved, and the expense saved is the form's. The error map is left as `validate` fills it. |
| PagoAsociadoForm.EffectiveRate | components/asociados/PagoAsociadoFormModal.tsx:22 | The rate is the BCV rate, or 1 when that is missing or 0. It is never 0. |
| PagoAsociadoForm.ToUsd | components/asociados/PagoAsociadoFormModal.tsx:42-46 | The USD amount is whole cents, within half a cent of bolívares divided by the rate. NaN gives NaN. |
| PagoAsociadoForm.ToBs | components/asociados/PagoAsociadoFormModal.tsx:48-52 | The bolívar amount is whole cents, within half a cent of USD times the rate. NaN gives NaN. |
| PagoAsociadoForm.InitialUsd | components/asociados/PagoAsociadoFormModal.tsx:37 | The stored USD amount, else bolívares over the rate, else blank. |
| PagoAsociadoForm.Form.constructor | components/asociados/PagoAsociadoFormModal.tsx:24-46 | Opens on the payment, or a new one, with the bolívar side as the last edited. |
| PagoAsociadoForm.Form.EditBs | components/asociados/PagoAsociadoFormModal.tsx:60-63 | Typing bolívares recomputes the USD side when the rate is positive. The last-edited side determines the other. |
| PagoAsociadoForm.Form.EditUsd | components/asociados/PagoAsociadoFormModal.tsx:65-68 | Typing USD recomputes the bolívar side when the rate is positive. |
| PagoAsociadoForm.Form.Change | components/asociados/PagoAsociadoFormModal.tsx:55-58 | Only the named field changes; the amounts are untouched. |
| PagoAsociadoForm.Form.Submit | components/asociados/PagoAsociadoFormModal.tsx:71-79 | The saved payment is the form with the two amounts, 0 for a blank one. |
| PlanContable.SortedCuentasSpec | components/libro-contable/PlanContableManagementModal.tsx:31 | The accounts are in ascending code order and a permutation of the input. Equal codes keep their order. |
| PlanContable.EmptyStateSpec | components/libro-contable/PlanContableManagementModal.tsx:74-80 | The empty state shows exactly when there are no accounts. |
| PlanContable.Manager.OpenForm | components/libro-contable/PlanContableManagementModal.tsx:21-24 | Opens the form on the account, or a new one. |
| PlanContable.Manager.Save | components/libro-contable/PlanContableManagementModal.tsx:26-29 | Forwards the account unchanged and closes the form. |
| PlanContable.Manager.CloseForm | components/libro-contable/PlanContableManagementModal.tsx:87 | Closes the form. |
| Sidebar.VisibleItemsSpec | components/layout/Sidebar.tsx:44-47 | An item shows exactly when its permission is granted; a missing key is not granted. |
| Sidebar.MorePermissionsShowMore | components/layout/Sidebar.tsx:44-47 | Granting more permissions never hides an item. |
| Sidebar.IsActiveSpec | components/layout/Sidebar.tsx:80 | The dashboard is active only on itself. Any other item is active on every page its id prefixes. |
| Sidebar.State.ToggleCollapsed | components/layout/Sidebar.tsx:108 | Flips the collapsed state only. |
| Sidebar.State.NavClick | components/layout/Sidebar.tsx:20-25 | Navigates to the page, and closes the sidebar below the 1024 px breakpoint. |
| Sidebar.State.BackdropClick | components/layout/Sidebar.tsx:54 | Closes the sidebar. |
| Sorting.SortIsStableSort | components/libro-contable/LibroContableView.tsx:103 | The sort every view uses is ordered, a permutation, and keeps ties in input order. |
| Sorting.Dedupe | components/libro-contable/LibroAuxiliarModal.tsx:136-138 | The distinct names: no repeats, exactly the input's values. |
| Text.PadZero | components/auth/SessionWarningModal.tsx:30 | Left-pads with zeros to the width and keeps the string as its suffix. |
| Text.Upper | components/remesas/RemesaDocumentModal.tsx:102 | Same length; each Basic Latin or Latin-1 lower-case letter (so á, é, ñ, ü) becomes its capital in place, and every other character is kept. |
| Text.UpperIdempotent | components/remesas/RemesaDocumentModal.tsx:102 | Upper-casing twice is upper-casing once. |

## Left out

- HTTP, the `api.ts` wrapper, toasts, `logAction` auditing, PDF/XLSX export, printing and fiscal-printer calls. Server answers are parameters (`ApiResult`); `utils/api.ts` is not part of this model.
- Pagination, locale number and date formatting, and everything about layout and styling.
- Floating point. Amounts are exact reals, `toFixed(2)` is exact half-away-from-zero rounding, and NaN is explicit.
- `localeCompare`, which is approximated by code-point order. The model proves sortedness, permutation and stability for that order.
- The default `Array.prototype.sort()` of the account codes in `Ledger.AccountListSpec`, which compares UTF-16 code units; the model compares code points. The two orders differ only between characters above U+FFFF and those in U+E000..U+FFFF, which account codes do not contain.
- Text.Upper: covers Basic Latin and Latin-1 letters only. `toUpperCase` maps every Unicode letter, and turns ß into the two letters SS, which this one-for-one model does not.
- Date parsing. Dates are whole days compared as integers, so the `T00:00:00`/`T23:59:59` bounds become an inclusive day range.
- Timers and intervals. `setTimeout`/`setInterval` firings are events: `IdleTimeout`, `CountdownTick`. The sidebar's click-outside listener and the invoice form's one-second clock are not modelled.
- `Date.now()` identifiers, today's date and the logged-in user. They are inputs; new manual-entry line ids are required to be fresh.
- `deriveInventoryFromInvoices`, which is not part of this model. Its result is a parameter of the invoice-saving methods.
- `onUndoDispatch`, which is a no-op in the source.
- The key order of `groupedInvoices`. The model proves groups come in order of first appearance, which is what `Object.entries` gives for non-integer keys.
- Remesas.Tally: a guide with no merchandise list counts 0 pieces, where the source would throw reading `reduce` of undefined.
- DataStore: the eight collections the store handles only by id are `Record(id, content)` values. The `Array.isArray` checks on fetched lists fold into a `Failed` answer.
- InvoiceForms: the defaults effect that fills blank office, shipping-type, payment-method and category selections is not modelled. The constructor takes the already-filled guide.
- ManualEntry.Editor.Submit follows `handleSubmit`, which does not reject a zero total. Only the disabled button does (`EnabledSaveIsBalanced`).
- PagoAsociadoForm.Form.constructor assumes the bolívar effect fires right after opening, as React runs it. A Bs-to-USD-to-Bs round-trip bound is not proved; each conversion's half-cent bound is.
- Session: tokens in `localStorage` are booleans; the profile request and the refresh request are parameters.
- Financials: the comment at utils/financials.ts:12 says financials are zeroed when there is no merchandise, but the test at line 13 is `!guide.merchandise`. An empty but present list is truthy in JavaScript, so it is not zeroed and insurance is still charged. The model follows the code (`EmptyMerchandiseKeepsInsurance`).
