# Inventory front-end: a verified model of its rules

The system is the browser front-end of a warehouse inventory service for
generator parts. Store staff use it to:

- keep a list of equipments, with their stock and a minimum threshold;
- log consumption of an equipment;
- place orders of materials, with receipt files attached;
- browse the stock-movement history.

Administrators are told apart from staff by a role in the user's metadata.
All data comes from a REST back-end through one authenticated request
function.

This project models the deterministic rules of that front-end in Dafny:

- **Typed request layer** (`Api`, `ApiResources`):
  - which bearer token is sent, and when nothing is sent at all;
  - what happens to the stored token;
  - how a failed answer becomes an error message, and which errors are
    rewritten as network errors;
  - how filters become query strings;
  - how response envelopes are unwrapped.
- **Form validators** (`OrderForm`, `EquipmentForm`, `ConsumptionForm`). Each
  one's error record is empty exactly when the form is acceptable. The
  model also covers the submitted values and each form's starting values.
- **List and set operations of the order screens** (`MaterialsTable`,
  `ReceiptUpload`, `OrdersTable`): material rows, pending receipt files and
  attachments, and the set of expanded orders.
- **The autocomplete widget** (`Autocomplete`): a state machine whose
  highlight index never leaves the shown list.
- **The session hook and the two fetch hooks** (`Auth`, `EquipmentsHook`,
  `ConsumptionHook`).
- **The display rules of the equipment table and the history table**
  (`EquipmentTable`, `HistoryTable`).

Shared record types and enumerations are in `Types`. `Strings` defines the
string operations JavaScript provides (`trim`, `toLowerCase`, `includes`,
`slice`, `String(n)`) and the `||` fallbacks. `Wrappers` holds `Option`
and `Result`.

How the source's code becomes Dafny:

- **Mutable state.** Component and hook state that the source updates step
  by step is a `class`, with one method per event handler. Each method
  states the whole new state.
- **Outside effects.**
  - Stored-token writes go through `Storage.TokenStore`, one object shared
    by the request function and the session hook.
  - Alerts, callback invocations and navigation are recorded in sequences
    kept in the class (`alerts`, `fileReports`, `notices`, `effects`).
- **Outside callers and outcomes.**
  - Everything the code receives from outside is an input datatype: the
    session lookup, the HTTP outcome, the upload replies, whether
    `confirm` was accepted, and whether a callback was passed.
  - JavaScript's thrown values are `Types.Thrown`. `err instanceof Error ?
    err.message : fallback` is `Thrown.MessageOr`.

The model follows the code where the design description of the system says
more than the code does:

- The fetch hooks make one attempt. There is no retry with delay and no
  optimistic deletion.
- `fetchAPI` hands any 2xx envelope back unchanged, `success: false`
  included. It is not treated as a failure.
- The equipment form submits its fields unchanged. "Total = available +
  new quantity" appears only as a comment, so no sum is modelled.
- Non-`TypeError` errors thrown by `fetch` propagate unchanged.

## Model

| member | source | states |
|---|---|---|
| Types.EquipmentType.Name | src/types/index.ts:1 | an equipment type is exactly `electrical` or `manual` |
| Types.NotificationType.Name | src/types/index.ts:2 | a notification type is exactly `email`, `dashboard` or `whatsapp` |
| Types.UserRole.Name | src/types/index.ts:3 | a role is exactly `admin` or `staff` |
| Types.MovementType.Name | src/types/index.ts:88 | a movement type is exactly `IN` or `OUT` |
| Types.ParseEquipmentType | src/types/index.ts:1 | a string is an equipment type iff it is one of the two names. The parsed value carries that name |
| Types.ParseNotificationType | src/types/index.ts:2 | a string is a notification type iff it is one of the three names. The parsed value carries it |
| Types.ParseUserRole | src/types/index.ts:3 | a string is a role iff it is `admin` or `staff` |
| Types.ParseMovementType | src/types/index.ts:88 | a string is a movement type iff it is `IN` or `OUT`. This covers the filter's `type` too |
| Types.EnumerationsRoundTrip | src/types/index.ts:1-3 | parsing the name of each enumeration value gives that value back |
| Types.Thrown.MessageOr | src/hooks/useEquipments.ts:17 | an `Error`'s own message, and the fallback for any other thrown value |
| Types.FindEquipment | src/components/orders/MaterialsTable.tsx:41-43 | none iff no equipment has the id. Otherwise the first equipment with that id |
| Storage.TokenStore.constructor | src/lib/api.ts:35 | the stored token starts as given |
| Storage.TokenStore.Set | src/lib/api.ts:25 | after a write, the stored token is the written one |
| Storage.TokenStore.Remove | src/lib/api.ts:28 | after a removal, no token is stored |
| Storage.TokenStore.Get | src/lib/api.ts:35 | a read returns the stored token |
| Api.FailureMessage | src/lib/api.ts:57-66 | JSON body: `error`, else `message`, else "API request failed with status N". Non-JSON body: `statusText`, else the same default. Never empty |
| Api.Rewrite | src/lib/api.ts:97-109 | a `TypeError` mentioning `fetch` becomes the fixed CORS network error. Every other error is unchanged |
| Api.FetchApi | src/lib/api.ts:10-110 | one call: the result, the Authorization header sent, the stored token afterwards and the redirect flag, all equal to the `Fetch` specification |
| Api.OwnNoSessionErrorIsExcluded | src/lib/api.ts:29-34 | the client's own "No active session" error is the kind excluded from the fallback |
| Api.NoWindowNoRequest | src/lib/api.ts:12-48 | without a window nothing is sent, the call fails with "Authentication required. Please login.", the stored token is untouched and no redirect is scheduled |
| Api.RequestIffToken | src/lib/api.ts:46-53 | a request is sent iff a non-empty token was chosen, and its header is `Bearer <token>`. Otherwise the call fails with the login message |
| Api.SessionTokenUsedAndStored | src/lib/api.ts:22-25 | a session token is sent and becomes the stored token, unless a 401 then clears it |
| Api.NoSessionNoFallback | src/lib/api.ts:26-34 | a session without a token removes the stored token, sends nothing and never uses the stored value |
| Api.FallbackOnlyOnOtherError | src/lib/api.ts:31-37 | a lookup that throws uses the stored token iff the error is not "No active session" and a token is stored |
| Api.UnauthorizedClearsToken | src/lib/api.ts:69-78 | a 401 always fails and removes the stored token. The login redirect is scheduled iff the path does not contain `/login` |
| Api.NetworkFailureRewritten | src/lib/api.ts:81-89 | status 0, or a message with "CORS" or "Failed to fetch", gives the fixed network error |
| Api.OtherFailurePropagated | src/lib/api.ts:81-91 | any other non-OK answer fails with its own message, unchanged |
| Api.TransportFailures | src/lib/api.ts:97-109 | a thrown `TypeError` mentioning `fetch` becomes the CORS message. Anything else thrown propagates |
| Api.StoreHoldsLatestToken | src/lib/api.ts:22-25 | after calls that each retrieved a session token without a 401, the store holds the latest call's token |
| ApiResources.QueryString | src/lib/api.ts:180 | the query string is empty iff there are no parameters |
| ApiResources.WithQuery | src/lib/api.ts:180-181 | with no parameters the endpoint is the base, with no `?`. Otherwise it is base `?` query |
| ApiResources.ConsumptionHistoryEndpoint | src/lib/api.ts:171-181 | the appends build exactly the endpoint of the consumption parameters: the truthy fields in fixed order |
| ApiResources.StockMovementsEndpoint | src/lib/api.ts:276-287 | the appends build exactly the endpoint of the movement parameters |
| ApiResources.NotificationsEndpoint | src/lib/api.ts:196-202 | the appends build exactly the endpoint of the notification parameters |
| ApiResources.PredictionsEndpoint | src/lib/api.ts:219-222 | bare `/predictions` without a non-empty id. Otherwise it has one `equipment_id` parameter |
| ApiResources.ZeroPagingDropped | src/lib/api.ts:177-178 | a `limit` or `offset` of 0 gives the same query as none |
| ApiResources.NoParamsNoQuestionMark | src/lib/api.ts:179-181 | with no filter, each list endpoint has no `?` |
| ApiResources.SentFalseIncluded | src/lib/api.ts:199 | `sent=false` is sent, because it is tested against `undefined` |
| ApiResources.ConsumptionParamsOrder | src/lib/api.ts:173-178 | each present field is named once, in the order equipment_id, user_id, start_date, end_date, limit, offset |
| ApiResources.ListData | src/lib/api.ts:117 | a list getter yields the data, `[]` when data is missing, and passes failures on |
| ApiResources.RecordData | src/lib/api.ts:122 | a record getter yields the data, throws its fixed message when data is missing, and passes failures on |
| ApiResources.Discard | src/lib/api.ts:144-148 | a delete fails iff the request failed, with the same error |
| ApiResources.RecordCall.Method | src/lib/api.ts:120-265 | `GET` exactly for the three record getters, `POST` for the three creations, `PUT` for the three updates |
| ApiResources.RecordCall.Endpoint | src/lib/api.ts:120-265 | each record wrapper requests an absolute path under its resource |
| ApiResources.ListCall.Endpoint | src/lib/api.ts:115-296 | each list wrapper requests an absolute path, with the query string its filter builds |
| ApiResources.DeleteCall.Endpoint | src/lib/api.ts:144-302 | each delete wrapper requests an absolute path |
| ApiResources.RecordRequestIdentifiesCall | src/lib/api.ts:120-265 | the method and path of a record request determine the wrapper and its argument |
| ApiResources.RecordPathsShared | src/lib/api.ts:120-274 | an equipment, and an order, is read, updated and deleted at one path |
| ApiResources.RecordCall.MissingMessage | src/lib/api.ts:122-266 | each record wrapper has its own non-empty missing-data message |
| ApiResources.MissingDataHandling | src/lib/api.ts:117-140 | a missing `data` gives `[]` for a list getter. It gives the wrapper's own error for a record getter |
| OrderForm.OrderErrorKey.KeyName | src/components/orders/OrderForm.tsx:70-93 | the error-record property names: `order_reference`, `receiver_name`, `materials`, `material_<i>_equipment`, `material_<i>_quantity` |
| OrderForm.KeyNameInjective | src/components/orders/OrderForm.tsx:70-93 | distinct entries have distinct property names, so no write overwrites another entry |
| OrderForm.InitialHeader | src/components/orders/OrderForm.tsx:25-30 | each draft field when non-empty. Otherwise model `Perkins` and empty text |
| OrderForm.InitialRows | src/components/orders/OrderForm.tsx:32-41 | one row per draft material, in order, with the id `material-<i>-<equipment>-<stamp>`. None without draft materials |
| OrderForm.RowStep | src/components/orders/OrderForm.tsx:81-95 | writing one row's two entries keeps the header entries and those of earlier rows |
| OrderForm.NoErrorsIffAcceptable | src/components/orders/OrderForm.tsx:97-98 | the record validation writes is empty iff the order is acceptable |
| OrderForm.CheckRow | src/components/orders/OrderForm.tsx:81-95 | a row with no equipment gets its entry. A non-positive quantity gets the quantity entry, which the stock message overwrites when a listed equipment has less stock. Nothing else changes |
| OrderForm.ValidateOrder | src/components/orders/OrderForm.tsx:66-99 | blank reference, blank receiver and no rows each give their entry, with every row's entries. The result is true iff the record is empty, iff the order is acceptable |
| OrderForm.BuildOrderDto | src/components/orders/OrderForm.tsx:106-115 | the three header fields, one line per row in order without the row id, and empty notes as absent |
| OrderForm.AcceptedOrderLinesValid | src/components/orders/OrderForm.tsx:66-115 | a submitted order has a reference, a receiver and lines. Every line has an equipment and a positive quantity within a listed equipment's stock |
| OrderForm.TableFlagMatchesStockError | src/components/orders/MaterialsTable.tsx:82 | for a listed equipment, the table's flag and the form's stock error agree. For an unlisted one, the table flags any positive quantity and the form checks no stock |
| OrderForm.Submit | src/components/orders/OrderForm.tsx:101-117 | the order is handed on iff there is no error, and it is the built DTO |
| MaterialsTable.Ids | src/components/orders/MaterialsTable.tsx:31-39 | the row ids, in order |
| MaterialsTable.AddMaterial | src/components/orders/MaterialsTable.tsx:22-29 | the old rows unchanged, then one new row with no equipment and quantity 1 |
| MaterialsTable.RemoveMaterial | src/components/orders/MaterialsTable.tsx:31-33 | only rows with another id remain, and every such row remains |
| MaterialsTable.RemoveMaterialAppend | src/components/orders/MaterialsTable.tsx:31-33 | removal keeps the order: removing from a concatenation is removing from each part |
| MaterialsTable.RemoveAbsentId | src/components/orders/MaterialsTable.tsx:31-33 | removing an id no row has changes nothing |
| MaterialsTable.AddThenRemove | src/components/orders/MaterialsTable.tsx:22-33 | adding a row under a fresh id and removing that id restores the rows |
| MaterialsTable.ApplyUpdate | src/components/orders/MaterialsTable.tsx:37 | only the named field takes the new value |
| MaterialsTable.UpdateMaterial | src/components/orders/MaterialsTable.tsx:35-39 | same length. Rows with the id get the update, every other row is unchanged in place |
| MaterialsTable.UpdateKeepsIds | src/components/orders/MaterialsTable.tsx:35-39 | updating the equipment or the quantity keeps every row id |
| MaterialsTable.Available | src/components/orders/MaterialsTable.tsx:41-81 | the available stock of the first equipment with the id, or 0 when none has it |
| MaterialsTable.UnknownEquipmentFlagged | src/components/orders/MaterialsTable.tsx:80-82 | a chosen but unlisted equipment with a positive quantity is flagged |
| MaterialsTable.FindByName | src/components/orders/MaterialsTable.tsx:91 | none iff no equipment has exactly that name. Otherwise the first with it |
| MaterialsTable.OnNameTyped | src/components/orders/MaterialsTable.tsx:89-98 | typing sets the row's equipment to the id of the equipment with that exact name, else to empty |
| MaterialsTable.OnOptionSelected | src/components/orders/MaterialsTable.tsx:99-103 | selecting sets the row's equipment to the option's equipment id |
| MaterialsTable.OptionLabel | src/components/orders/MaterialsTable.tsx:48 | the label is the name, then " (Stock: ", the available count written in decimal (`IntToString`) and ")", each at its stated position |
| MaterialsTable.Options | src/components/orders/MaterialsTable.tsx:46-50 | one option per equipment, in order, valued by its id and carrying it |
| MaterialsTable.SelectingOptionSetsEquipment | src/components/orders/MaterialsTable.tsx:46-103 | selecting the option of equipment i sets the row's equipment to that equipment's id |
| MaterialsTable.QuantityFromInput | src/components/orders/MaterialsTable.tsx:120 | a non-zero parsed quantity, else 1. Never 0 |
| EquipmentForm.NumberOr | src/components/equipments/EquipmentForm.tsx:21-23 | `value || fallback` for a number: 0 takes the fallback |
| EquipmentForm.PriceOrZero | src/components/equipments/EquipmentForm.tsx:24 | the price when present, else 0 |
| EquipmentForm.InitialFormAsWritten | src/components/equipments/EquipmentForm.tsx:18-26 | the initial fields as written: the stored threshold with `|| 10` |
| EquipmentForm.InitialFormAsWrittenReplacesZeroThreshold | src/components/equipments/EquipmentForm.tsx:23 | an equipment stored with threshold 0 is edited, and saved, with threshold 10 |
| EquipmentForm.InitialForm | src/components/equipments/EquipmentForm.tsx:18-26 | a new equipment: empty name, electrical, quantities 0, threshold 10, price 0, empty location. An edited one: its stored values, a null price as 0 and a null location as empty |
| EquipmentForm.InitialFormsAgreeOtherwise | src/components/equipments/EquipmentForm.tsx:18-26 | the two initial forms differ only in the threshold of an equipment stored with 0 |
| EquipmentForm.FindDuplicate | src/components/equipments/EquipmentForm.tsx:57-60 | none iff no other listed equipment has the same trimmed, lower-cased name. Otherwise the first that does |
| EquipmentForm.Entry | src/components/equipments/EquipmentForm.tsx:67-84 | one check's entry: present iff the check failed, with its message |
| EquipmentForm.NameEntry | src/components/equipments/EquipmentForm.tsx:53-65 | a blank name gives "Equipment name is required" and no duplicate check. Otherwise an entry iff a duplicate exists, naming it |
| EquipmentForm.NoEquipmentErrorsIffAcceptable | src/components/equipments/EquipmentForm.tsx:86-87 | a record with these entries is empty iff the form is acceptable |
| EquipmentForm.NumberEntries | src/components/equipments/EquipmentForm.tsx:67-84 | each negative number gets its own entry, zero is accepted, and the name entry is kept |
| EquipmentForm.ValidateEquipment | src/components/equipments/EquipmentForm.tsx:50-88 | exactly the name and number entries. Empty iff acceptable. No comparison of available with total |
| EquipmentForm.WithPicked | src/components/equipments/EquipmentForm.tsx:127-138 | picking copies name, type, available and threshold, a null price as 0 and a null location as empty. The total is kept |
| EquipmentForm.NameOptions | src/components/equipments/EquipmentForm.tsx:102-106 | one option per existing equipment, in order, labelled by its name |
| EquipmentForm.PickedEquipmentIsDuplicate | src/components/equipments/EquipmentForm.tsx:57-138 | picking an existing equipment while creating always gives a duplicate-name error |
| EquipmentForm.NoListNoDuplicate | src/components/equipments/EquipmentForm.tsx:33-58 | with no loaded list, no duplicate can be found |
| EquipmentForm.EquipmentFormState.constructor | src/components/equipments/EquipmentForm.tsx:18-30 | the corrected start: the form starts from `InitialForm`, which keeps a stored threshold of 0, with no list and no errors |
| EquipmentForm.EquipmentFormState.AsWritten | src/components/equipments/EquipmentForm.tsx:18-30 | the start as written: the form starts from `InitialFormAsWritten`, with its `\|\| 10` on the threshold, with no list and no errors |
| EquipmentForm.EquipmentFormState.LoadExisting | src/components/equipments/EquipmentForm.tsx:33-48 | the list is loaded only when creating and only on success. The list stays empty when editing |
| EquipmentForm.EquipmentFormState.SetName | src/components/equipments/EquipmentForm.tsx:116 | only the name changes |
| EquipmentForm.EquipmentFormState.SetKind | src/components/equipments/EquipmentForm.tsx:155 | only the type changes |
| EquipmentForm.EquipmentFormState.SetCount | src/components/equipments/EquipmentForm.tsx:168-174 | only the edited count changes, to the parsed value or 0 |
| EquipmentForm.EquipmentFormState.SetPrice | src/components/equipments/EquipmentForm.tsx:211 | only the price changes, to the parsed value or 0 |
| EquipmentForm.EquipmentFormState.SetLocation | src/components/equipments/EquipmentForm.tsx:219 | only the location changes |
| EquipmentForm.EquipmentFormState.SelectOption | src/components/equipments/EquipmentForm.tsx:127-138 | the fields become those of the picked equipment, except the total |
| EquipmentForm.EquipmentFormState.Submit | src/components/equipments/EquipmentForm.tsx:86-95 | the shown error record holds exactly validation's entries (`EquipmentEntries`), and the fields are handed on unchanged iff it is empty. When editing, no duplicate is ever found |
| EquipmentForm.SubmitUnchangedAsWritten | src/components/equipments/EquipmentForm.tsx:18-95 | on the form as written, editing an otherwise acceptable equipment stored with threshold 0 and submitting it unchanged saves threshold 10 |
| EquipmentForm.SubmitUnchanged | src/components/equipments/EquipmentForm.tsx:18-95 | on the corrected form, the same edit saves every stored field unchanged, threshold 0 included |
| ConsumptionForm.SelectedEquipment | src/components/consumption/ConsumptionForm.tsx:28 | none iff no listed equipment has the chosen id. Otherwise the first listed one with it, as `find` returns |
| ConsumptionForm.ValidateConsumption | src/components/consumption/ConsumptionForm.tsx:30-47 | no equipment gives its entry. A non-positive quantity gives its entry, replaced by "Only N units available" when a listed equipment has less stock. Empty iff acceptable |
| ConsumptionForm.InitialFormNeedsEquipmentOnly | src/components/consumption/ConsumptionForm.tsx:19-23 | the initial fields fail only for lack of an equipment |
| ConsumptionForm.ConsumptionFormState.constructor | src/components/consumption/ConsumptionForm.tsx:19-25 | no equipment, quantity 1, no purpose, no errors |
| ConsumptionForm.ConsumptionFormState.ChooseEquipment | src/components/consumption/ConsumptionForm.tsx:71 | only the equipment id changes |
| ConsumptionForm.ConsumptionFormState.SetQuantity | src/components/consumption/ConsumptionForm.tsx:93 | only the quantity changes: the parsed value, or 1 when unparsable or zero |
| ConsumptionForm.ConsumptionFormState.SetPurpose | src/components/consumption/ConsumptionForm.tsx:101 | only the purpose changes |
| ConsumptionForm.ConsumptionFormState.Submit | src/components/consumption/ConsumptionForm.tsx:30-55 | the shown error record holds the equipment entry iff no equipment is chosen, and the quantity entry iff the quantity is not positive or over the stock, with the stock message replacing the positivity one. The fields are handed on unchanged iff the record is empty, iff the form is acceptable |
| Autocomplete.FilterOptions | src/components/ui/Autocomplete.tsx:52 | only options the filter accepts, and all of them |
| Autocomplete.FilterOptionsAppend | src/components/ui/Autocomplete.tsx:52 | filtering keeps the order |
| Autocomplete.ShownOptions | src/components/ui/Autocomplete.tsx:51-53 | every option for an empty term. Otherwise the filtered ones |
| Autocomplete.EmptyTermFiltersNothing | src/components/ui/Autocomplete.tsx:45-47 | the default filter accepts every option for an empty term |
| Autocomplete.AutocompleteWidget.constructor | src/components/ui/Autocomplete.tsx:39-41 | closed, the term is the value, no highlight |
| Autocomplete.AutocompleteWidget.InputChange | src/components/ui/Autocomplete.tsx:75-81 | the term is typed and reported, the list opens and the highlight clears |
| Autocomplete.AutocompleteWidget.Select | src/components/ui/Autocomplete.tsx:83-91 | the corrected `handleSelect`: the term becomes the label and is reported, the list closes and `onSelect` is called when given. The highlight clears |
| Autocomplete.AutocompleteWidget.SelectAsWritten | src/components/ui/Autocomplete.tsx:83-91 | the same, with the highlight left where it was |
| Autocomplete.AutocompleteWidget.KeyDown | src/components/ui/Autocomplete.tsx:93-114 | the corrected key handler, whose Enter runs the corrected `Select`: closed with an arrow: only open. ArrowDown stops at the last option. ArrowUp goes from 0 to -1. Enter selects the highlighted option iff there is one. Escape closes. The highlight stays in range, which every corrected handler keeps |
| Autocomplete.AutocompleteWidget.KeyDownAsWritten | src/components/ui/Autocomplete.tsx:93-114 | the key handler as written, from any highlight: the same arrows and Escape. Enter picks the highlighted option through `SelectAsWritten` iff it is shown, and reads past the end of the list iff the highlight is at or beyond its length |
| Autocomplete.AutocompleteWidget.Focus | src/components/ui/Autocomplete.tsx:116-118 | the list opens, nothing else changes |
| Autocomplete.AutocompleteWidget.ClickOutside | src/components/ui/Autocomplete.tsx:60-68 | the list closes, nothing else changes |
| Autocomplete.AutocompleteWidget.MouseEnter | src/components/ui/Autocomplete.tsx:166-170 | hovering a shown option highlights it |
| Autocomplete.AutocompleteWidget.ValueChanged | src/components/ui/Autocomplete.tsx:55-57 | the corrected value effect: the term follows the value and the highlight clears |
| Autocomplete.AutocompleteWidget.ValueChangedAsWritten | src/components/ui/Autocomplete.tsx:55-57 | the term follows the value, with the highlight left where it was |
| Autocomplete.SelectAsWrittenLeavesStaleHighlight | src/components/ui/Autocomplete.tsx:83-109 | after choosing the third of three options, the highlight is at least as large as the one-option list |
| Autocomplete.SecondEnterAsWrittenReadsPastEnd | src/components/ui/Autocomplete.tsx:83-109 | as written, with options A, B, C: focus, ArrowDown three times and Enter pick C. Focus and Enter again read past the end of the one-option list |
| Autocomplete.SecondEnterSelectsNothing | src/components/ui/Autocomplete.tsx:83-109 | the corrected widget, under the same keys: the first Enter picks C and the second selects nothing |
| Autocomplete.ValueChangedAsWrittenLeavesStaleHighlight | src/components/ui/Autocomplete.tsx:55-57 | after a value change that filters the list to one option, the highlight points past it |
| ReceiptUpload.UploadReply.Failed | src/components/orders/ReceiptUpload.tsx:88-102 | a reply fails iff it is not OK or the request threw |
| ReceiptUpload.FailureAlert | src/components/orders/ReceiptUpload.tsx:89-104 | a non-OK answer alerts "Failed to upload <name>". A throw alerts its message, or "Failed to upload files" |
| ReceiptUpload.RejectionMessage | src/components/orders/ReceiptUpload.tsx:39-47 | no alert iff the file is valid. The wrong-type alert comes before the too-large one |
| ReceiptUpload.ValidFiles | src/components/orders/ReceiptUpload.tsx:35-50 | only files of an accepted type and at most 10 MB, and every such file |
| ReceiptUpload.ValidFilesAppend | src/components/orders/ReceiptUpload.tsx:35-50 | the filter keeps the order |
| ReceiptUpload.RejectionAlerts | src/components/orders/ReceiptUpload.tsx:39-47 | one alert per rejected file: as many alerts as files the filter drops |
| ReceiptUpload.RejectionAlertsMembers | src/components/orders/ReceiptUpload.tsx:39-47 | every rejected file's message is raised, and every alert raised is the message of one of the files |
| ReceiptUpload.RejectionAlertsOfOne | src/components/orders/ReceiptUpload.tsx:39-47 | a single file raises its rejection message, or nothing when it is valid |
| ReceiptUpload.RejectionAlertsAppend | src/components/orders/ReceiptUpload.tsx:39-47 | the alerts follow the files' order: those of a concatenation are those of each part, in turn |
| ReceiptUpload.FirstFailure | src/components/orders/ReceiptUpload.tsx:76-96 | every reply before it succeeded, and the one at it failed, when there is one |
| ReceiptUpload.Gained | src/components/orders/ReceiptUpload.tsx:93-95 | a reply adds an attachment iff it succeeded with data |
| ReceiptUpload.PrependedKeepsOld | src/components/orders/ReceiptUpload.tsx:94 | uploads never lose a listed attachment: the old list is the tail, and at most one is added per reply |
| ReceiptUpload.AllUploadsListed | src/components/orders/ReceiptUpload.tsx:76-96 | when every reply succeeds with data, every uploaded attachment is listed, newest first |
| ReceiptUpload.RemoveAt | src/components/orders/ReceiptUpload.tsx:125 | exactly position i is removed and the rest keep their order. An index out of range changes nothing |
| ReceiptUpload.WithoutAttachment | src/components/orders/ReceiptUpload.tsx:115 | only attachments with another id remain, and all of them, in their order (WithoutAttachmentAppend) |
| ReceiptUpload.WithoutAttachmentAppend | src/components/orders/ReceiptUpload.tsx:115 | the filter keeps the shown order: removing from a concatenation removes from each part, in turn |
| ReceiptUpload.UnitFor | src/components/orders/ReceiptUpload.tsx:132-136 | bytes iff below 1024, KB iff below 1024², MB otherwise |
| ReceiptUpload.UnitMonotonic | src/components/orders/ReceiptUpload.tsx:132-136 | a larger size never shows in a smaller unit |
| ReceiptUpload.AttachmentSizeUnit | src/components/orders/ReceiptUpload.tsx:221 | unknown iff the size is missing or 0. Otherwise the size's unit |
| ReceiptUpload.ReceiptUploader.constructor | src/components/orders/ReceiptUpload.tsx:21-23 | no pending files, and the attachments are the existing ones |
| ReceiptUpload.ReceiptUploader.UploadFiles | src/components/orders/ReceiptUpload.tsx:71-108 | nothing for an unsaved order. Otherwise replies are prepended up to the first failure, which alerts and stops. Only full success clears and reports the pending list |
| ReceiptUpload.ReceiptUploader.SelectFiles | src/components/orders/ReceiptUpload.tsx:31-63 | one alert per rejected file. Valid files are uploaded for a saved order, and otherwise are appended to the pending list and reported |
| ReceiptUpload.ReceiptUploader.RemovePendingFile | src/components/orders/ReceiptUpload.tsx:124-130 | the pending list loses exactly that position and is reported |
| ReceiptUpload.ReceiptUploader.Delete | src/components/orders/ReceiptUpload.tsx:110-122 | without confirmation nothing changes. A successful delete removes the attachment by id and tells the owner. A failure alerts |
| ReceiptUpload.ReceiptUploader.ExistingAttachmentsChanged | src/components/orders/ReceiptUpload.tsx:27-29 | the list becomes the new existing attachments |
| OrdersTable.Toggled | src/components/orders/OrdersTable.tsx:26-33 | the id's membership flips and every other id keeps its own |
| OrdersTable.ToggleTwice | src/components/orders/OrdersTable.tsx:26-33 | toggling twice restores the set |
| OrdersTable.ExpandedOrders.constructor | src/components/orders/OrdersTable.tsx:24 | no order is expanded |
| OrdersTable.ExpandedOrders.ToggleExpand | src/components/orders/OrdersTable.tsx:25-34 | the stored set becomes the toggled one |
| OrdersTable.TotalQuantity | src/components/orders/OrdersTable.tsx:65-68 | 0 for no materials |
| OrdersTable.QuantitySumSnoc | src/components/orders/OrdersTable.tsx:65-68 | the sum grows by the quantity of an added material |
| OrdersTable.TotalIsSum | src/components/orders/OrdersTable.tsx:65-68 | the left fold is the sum of the quantities |
| OrdersTable.TotalAppend | src/components/orders/OrdersTable.tsx:65-68 | splitting the materials splits the total |
| OrdersTable.TotalBounds | src/components/orders/OrdersTable.tsx:65-68 | non-negative quantities give a non-negative total, at least each single quantity |
| OrdersTable.MaterialName | src/components/orders/OrdersTable.tsx:179 | the equipment's name, or "Unknown Material" |
| OrdersTable.UnitText | src/components/orders/OrdersTable.tsx:183 | the unit, or "pcs" |
| OrdersTable.OrderRow | src/components/orders/OrdersTable.tsx:63-198 | the row shows the order's fields, item count and total. Its delete is disabled iff it is being deleted. Details are shown iff expanded, with notes iff non-empty, one line per material |
| OrdersTable.Render | src/components/orders/OrdersTable.tsx:36-45 | the empty-state card iff there are no orders. Otherwise one row per order, in order |
| OrdersTable.OnlyDeletingRowDisabled | src/components/orders/OrdersTable.tsx:117 | only the row of the order being deleted is disabled |
| OrdersTable.ToggleShowsOnlyThatOrder | src/components/orders/OrdersTable.tsx:26-126 | toggling an order opens or closes its own details and leaves every other row unchanged |
| OrdersTable.FormatFileSize | src/components/orders/OrdersTable.tsx:241-246 | unknown iff the size is missing or 0. Otherwise the size's unit |
| OrdersTable.SizeLabelsAgree | src/components/orders/OrdersTable.tsx:241-246 | the list and the upload component agree on unknown sizes and units |
| OrdersTable.AttachmentsList.constructor | src/components/orders/OrdersTable.tsx:211-212 | no receipts, loading |
| OrdersTable.AttachmentsList.Settle | src/components/orders/OrdersTable.tsx:214-228 | a result replaces the list and a failure keeps it. Loading ends either way |
| OrdersTable.AttachmentsList.View | src/components/orders/OrdersTable.tsx:229-239 | the loading line iff loading. Nothing iff no receipts. Otherwise the receipts |
| Auth.UserRole | src/hooks/useAuth.ts:94-96 | the metadata role when present and non-empty, else `staff` |
| Auth.AdminIffAdminMetadata | src/hooks/useAuth.ts:98-100 | admin iff the metadata role is `admin`. No user means staff |
| Auth.SessionUser | src/hooks/useAuth.ts:30-57 | the session's user, or none without a session |
| Auth.MirroredToken | src/hooks/useAuth.ts:61-65 | the stored token is the session's token iff it has a non-empty one. Otherwise none |
| Auth.MirrorEffect | src/hooks/useAuth.ts:61-65 | a write of that token, or a removal |
| Auth.SignOutOrder | src/hooks/useAuth.ts:80-92 | the token is removed before the provider is called. The app goes to `/login` in both outcomes, refreshes iff the provider succeeds, and never stores a token |
| Auth.AuthHook.constructor | src/hooks/useAuth.ts:7-13 | no user, loading, mounted |
| Auth.AuthHook.InitAuth | src/hooks/useAuth.ts:16-47 | after unmount: nothing. An error or throw: no user, token untouched. A session: its user and a mirrored token |
| Auth.AuthHook.MirrorSession | src/hooks/useAuth.ts:61-65 | the stored token is mirrored from the session |
| Auth.AuthHook.OnAuthStateChange | src/hooks/useAuth.ts:54-72 | ignored after unmount. Otherwise the user follows the session and the token is mirrored. `SIGNED_OUT` also removes the token and goes to `/login` |
| Auth.AuthHook.Unmount | src/hooks/useAuth.ts:74-77 | later events are ignored |
| Auth.AuthHook.SignOut | src/hooks/useAuth.ts:80-92 | no token is stored afterwards, and the effects follow the sign-out order |
| EquipmentsHook.EquipmentsState.constructor | src/hooks/useEquipments.ts:6-8 | no equipments, loading, no error |
| EquipmentsHook.EquipmentsState.BeginFetch | src/hooks/useEquipments.ts:12-13 | loading, error cleared, list kept |
| EquipmentsHook.EquipmentsState.FinishFetch | src/hooks/useEquipments.ts:14-20 | success replaces the list. Failure keeps it and records the message or "Failed to fetch equipments". Not loading |
| EquipmentsHook.EquipmentsState.Fetch | src/hooks/useEquipments.ts:10-31 | one fetch: the outcome's list or message, never loading afterwards, and no error left after a success |
| ConsumptionHook.ConsumptionState.constructor | src/hooks/useConsumption.ts:6-8 | no records, loading, no error |
| ConsumptionHook.ConsumptionState.BeginFetch | src/hooks/useConsumption.ts:12-14 | loading, error cleared, and the history is requested with the filter unchanged |
| ConsumptionHook.ConsumptionState.FinishFetch | src/hooks/useConsumption.ts:14-20 | success replaces the list. Failure keeps it and records the message or "Failed to fetch consumption" |
| ConsumptionHook.ConsumptionState.Fetch | src/hooks/useConsumption.ts:10-21 | one fetch with the filter: the outcome's list or message, and not loading afterwards |
| EquipmentTable.StockStatusOf | src/components/equipments/EquipmentTable.tsx:23-28 | low stock iff available ≤ threshold, so equality counts as low |
| EquipmentTable.LowStockMonotonic | src/components/equipments/EquipmentTable.tsx:23-28 | fewer units or a higher threshold keep a low-stock equipment low |
| EquipmentTable.TypeBadge | src/components/equipments/EquipmentTable.tsx:14-15 | blue iff the type is `electrical`, green otherwise |
| EquipmentTable.BadgeOfEachType | src/components/equipments/EquipmentTable.tsx:14-15 | electrical is blue and manual is green |
| EquipmentTable.Headers | src/components/equipments/EquipmentTable.tsx:35-43 | eight headers, and a ninth "Actions" header iff deleting is offered |
| EquipmentTable.Render | src/components/equipments/EquipmentTable.tsx:47-51 | one "No equipments found" cell spanning every column iff there are no equipments. Otherwise one row per equipment |
| EquipmentTable.RowShows | src/components/equipments/EquipmentTable.tsx:64-87 | a null location shows "N/A", the status follows the threshold, and the actions cell exists iff deleting is offered. It is disabled only for the equipment being deleted |
| HistoryTable.Shortened | src/components/orders/HistoryTable.tsx:14 | the first eight characters, then "..." |
| HistoryTable.EquipmentName | src/components/orders/HistoryTable.tsx:12-14 | the first matching equipment's non-empty name. Otherwise the shortened id |
| HistoryTable.EquipmentNameCases | src/components/orders/HistoryTable.tsx:12-14 | a named equipment at its first position is shown by its name. An unknown id is shown shortened |
| HistoryTable.MovementLabel | src/components/orders/HistoryTable.tsx:50 | "OUT" iff the type is `OUT`, else "IN" |
| HistoryTable.MovementLabelOfEachType | src/components/orders/HistoryTable.tsx:50 | each movement type is labelled by its own name |
| HistoryTable.OrderReferenceText | src/components/orders/HistoryTable.tsx:55-61 | a related order id shortened, or "-" |
| HistoryTable.Render | src/components/orders/HistoryTable.tsx:17-23 | loading first, then the empty message iff not loading and no movements. Otherwise one row per movement |
| HistoryTable.ReceiverFallback | src/components/orders/HistoryTable.tsx:53 | a missing or empty receiver shows "-" |
| Strings.TrimSpec | src/components/equipments/EquipmentForm.tsx:53 | `trim` keeps a contiguous part of the text that neither starts nor ends with whitespace. It is empty iff the text is blank |
| Strings.TrimIdempotent | src/components/equipments/EquipmentForm.tsx:57-59 | trimming twice is trimming once |
| Strings.ToLower | src/components/ui/Autocomplete.tsx:46 | `toLowerCase` restricted to ASCII: the length is kept, each of `A`-`Z` becomes its lower-case letter and every other character is kept |
| Strings.ContainsIffOccurs | src/components/ui/Autocomplete.tsx:46 | `includes` holds iff the text occurs at some position |
| Strings.Take | src/components/orders/HistoryTable.tsx:14 | `slice(0, n)` is the first n characters, or all of a shorter text |
| Strings.NatToStringInjective | src/components/orders/OrderForm.tsx:83-93 | distinct row indexes give distinct numerals in the key names |
| Strings.IntToString | src/components/consumption/ConsumptionForm.tsx:42 | `String(n)` starts with a minus sign iff n is negative |
| Strings.ParseIntOr | src/components/consumption/ConsumptionForm.tsx:93 | `parseInt(v) || fallback`: a non-zero parsed value, else the fallback |
| Strings.StringOr | src/components/orders/OrderForm.tsx:26-29 | `value || fallback` for text: a non-empty value, else the fallback |

## Left out

- Real I/O is not executed. This covers `fetch`, the multipart upload, `localStorage`, the router, `alert`/`confirm` and the Supabase client (src/lib/supabase.ts is not part of this model). Each is an input outcome, or a field the model records.
- The 401 redirect happens after a 100 ms timer. The model records only that it was scheduled.
- Stale closures, React batching and races between overlapping fetches are not modelled. One consequence: `onFilesChange([...files, ...validFiles])` reads the `files` of the render. Within one event that is the old pending list, as in the model.
- ReceiptUpload.ReceiptUploader.UploadFiles: the `uploading` flag is not modelled. The raw upload's Authorization header is not modelled either; it sends whatever `localStorage` holds, even `null`.
- URLSearchParams percent-encoding is not modelled. Values are joined as they are.
- Only the unit bucket of `toFixed` file sizes is modelled. `formatDate` and `formatCurrency` are not.
- `parseInt`/`parseFloat` are inputs: the parsed number, or none for NaN.
- `Date.now()` ids are parameters (`newId`, `stamp`). OrderForm.InitialRows takes one `stamp` for every draft row, where the source calls `Date.now()` once per row, so the model does not capture ids that differ in their time stamp.
- OrderForm's `initialData` effect in edit mode is not modelled. It keeps the old rows when the draft has no materials. The global `window.__pendingReceiptFiles` hand-off is not modelled either.
- Auth.UserRole: the `as string` cast is taken at its word. A non-string metadata role is not modelled.
- Strings.ToLower: case folding is ASCII-only. JavaScript's `toLowerCase` also lowers non-ASCII letters (`É` to `é`) and can change a string's length, so the model's duplicate-name check (EquipmentForm.FindDuplicate) treats "GÉNÉRATEUR" and "générateur" as different names where the source finds a duplicate, and the Autocomplete default filter misses matches that differ only in the case of a non-ASCII letter.
- Autocomplete's `filterFn` prop is not modelled; the widget always uses the default filter. No caller in the application passes one (src/components/orders/MaterialsTable.tsx:87, src/components/equipments/EquipmentForm.tsx:123).
- The `console.log`/`console.error` logging in src/lib/api.ts, src/hooks/useAuth.ts and the data hooks is not modelled; it changes no state the model keeps.
- Floating point is not modelled. Prices are `real` and are only compared with 0.
- Auth.AuthHook runs its effect once per hook. In the source the effect at src/hooks/useAuth.ts:12-78 depends on the client that `createSupabaseClient()` returns at each render (line 10). If that is a new object at each render, the cleanup, `initAuth` and the subscription run again after every render; the model does not capture those repeated runs (src/lib/supabase.ts is not part of this model).
- Autocomplete.AutocompleteWidget keeps `options` fixed. In the source it is a prop that can change after mount (EquipmentForm loads its list later), and a list that shrinks can leave even the corrected highlight out of range; the model does not capture option lists that change.
- Markup, styling, the error pages, the charts and the notification and alert lists carry no logic and are not modelled. The DOM hydration fixes (src/lib/fix-hydration.ts) are not part of this model.

## Findings

| source | as written | input that shows it | evidently intended | confidence | as-written member | corrected member |
|---|---|---|---|---|---|---|
| src/components/ui/Autocomplete.tsx:83-109 | `handleSelect` changes the term, and so the shown list, without resetting `highlightedIndex` | options A, B, C. Focus, ArrowDown three times (highlight 2), Enter selects C. The list now shows only C while the highlight is still 2, so a second Enter reads `filteredOptions[2]`, which is undefined | selecting clears the highlight, as typing does | not executed | Autocomplete.AutocompleteWidget.SelectAsWritten, Autocomplete.AutocompleteWidget.KeyDownAsWritten, Autocomplete.SelectAsWrittenLeavesStaleHighlight, Autocomplete.SecondEnterAsWrittenReadsPastEnd | Autocomplete.AutocompleteWidget.Select, Autocomplete.AutocompleteWidget.KeyDown, Autocomplete.SecondEnterSelectsNothing |
| src/components/ui/Autocomplete.tsx:55-57 | the `value` effect changes the term without resetting `highlightedIndex` | options A, B, C. Focus, ArrowDown three times (highlight 2), then the owner passes `A`. The list shows one option while the highlight is 2 | a new value clears the highlight | not executed | Autocomplete.AutocompleteWidget.ValueChangedAsWritten, Autocomplete.ValueChangedAsWrittenLeavesStaleHighlight | Autocomplete.AutocompleteWidget.ValueChanged |
| src/components/equipments/EquipmentForm.tsx:23 | `equipment?.minimum_threshold \|\| 10` treats a stored 0 as missing | edit an equipment whose threshold is 0. The form shows 10 and saves 10 | the stored threshold, 0 included, with 10 only for a new equipment | not executed | EquipmentForm.InitialFormAsWritten, EquipmentForm.InitialFormAsWrittenReplacesZeroThreshold, EquipmentForm.EquipmentFormState.AsWritten, EquipmentForm.SubmitUnchangedAsWritten | EquipmentForm.InitialForm, EquipmentForm.EquipmentFormState.constructor, EquipmentForm.SubmitUnchanged |
