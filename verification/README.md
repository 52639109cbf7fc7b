# Medication label scan: a Dafny model

This project models the decision logic of a medication-reminder app. It covers three pieces.

- **The `extract-medication` edge function.** It takes a photographed label, asks a vision completion service for the medication's fields, and answers with a status and a JSON body.
- **The scan dialog.** The dialog takes that answer into its form and lets the user edit fields. On save it builds the `medications` row, inserts it, and resets itself.
- **The history page's display rules.** These are the stock badge and label, the status icon and badge, the shown timestamp, and the flattening of nested log rows.

All I/O is abstract. The function is a total function of:

- the request's method and the outcome of reading its body;
- the configured key;
- the outcome of the one outbound call, an oracle consulted only if the call is made;
- an opaque `JSON.parse`.

Its result is the response together with the outbound request, if one was sent. "No network call" therefore means that no outbound request appears in the result and that the response does not depend on the oracle. The dialog is a pure transition function over `(formData, extractedData, open)`. A save returns the row handed to the insert, and the insert's success or failure is part of the event.

Modules:

- `Wrappers`: `Option`.
- `Decimal`: integer printing and its inverse.
- `Json`: the `Json` union, JavaScript truthiness and property reads.
- `ExtractMedication`: the edge function.
- `ScanDialog`: the dialog.
- `History`: the page.
- `ClientServer`: how the dialog reads the function's responses.

The code does none of the following, and neither does the model:

- it does not trim the extracted `name`;
- it does not coerce `dosage` or check that it is positive;
- it does not check unit strings against an enumeration;
- it does not alter the parsed completion before passing it to the client;
- it does not report a completion that parses to `null` as a missing name: that case is a parse failure (500).

## Model

| member | source | states |
|---|---|---|
| Decimal.ShowNat | src/pages/History.tsx:180 | An amount prints as a non-empty digit string with no leading zero ("0" only for zero) |
| Decimal.ParseShowInt | src/pages/History.tsx:180 | Printing an integer loses nothing: reading the printed text back gives the same integer |
| Decimal.ShowParseNat | src/pages/History.tsx:180 | Every canonical numeral is exactly what printing its value produces (the inverse direction) |
| Json.Get | supabase/functions/extract-medication/index.ts:88 | Reading a property fails exactly when the receiver is null or undefined, and the failure records which of the two it was; an object answers its own member or undefined |
| Json.GetArrayIndex | supabase/functions/extract-medication/index.ts:88 | Indexing an array with the decimal index `i` yields element `i` |
| ExtractMedication.ReadImage | supabase/functions/extract-medication/index.ts:15 | Destructuring `image` from the body throws exactly when the body is null, with the runtime's message for that site; an object body yields its `image` member or undefined |
| ExtractMedication.Content | supabase/functions/extract-medication/index.ts:87-88 | Reading `choices[0].message.content` throws exactly when the reply, `choices`, `choices[0]` or `message` is null or undefined, at the first such link and with that site's message; otherwise it yields `content` |
| ExtractMedication.Access | supabase/functions/extract-medication/index.ts:88 | A property read throws exactly when the read fails, with the runtime's message for that site, key and null-or-undefined receiver; otherwise it yields the value read |
| ExtractMedication.ContentOfReply | supabase/functions/extract-medication/index.ts:88 | A reply whose first choice has a `message` object with `content: c` yields `c`, whatever other members the reply, the choice and the message have |
| ExtractMedication.MissingFirstChoice | supabase/functions/extract-medication/index.ts:88 | A reply with an empty `choices` array throws when `.message` is read off undefined |
| ExtractMedication.Validate | supabase/functions/extract-medication/index.ts:92-120 | 200 exactly when the parse succeeded, is not null and has a truthy `name`, and then the body wraps the parsed value unchanged; every other outcome is an error body |
| ExtractMedication.Handle | supabase/functions/extract-medication/index.ts:4-129 | Every response carries the CORS headers; the status is 200, 400 or 500; only a preflight has no body; an outbound call carries `Bearer <key>` for a configured key |
| ExtractMedication.PreflightShortCircuit | supabase/functions/extract-medication/index.ts:10-12 | OPTIONS gets 200, the CORS headers and no body, with no call, whatever the body, key or service would do |
| ExtractMedication.NoImageBeforeKey | supabase/functions/extract-medication/index.ts:17-30 | A falsy image gives 400 "No image provided" whether or not a key is configured, and no call is made |
| ExtractMedication.MissingKeyNoRequest | supabase/functions/extract-medication/index.ts:24-34 | With an image but a missing or empty key the answer is 500 "OpenAI API key not configured" and nothing is sent |
| ExtractMedication.OutboundIffGuards | supabase/functions/extract-medication/index.ts:9-76 | The outbound call is made if and only if the method, body, image and key guards all pass, and it sends the key and the image |
| ExtractMedication.NoCallNoDependence | supabase/functions/extract-medication/index.ts:9-34 | When no call is made, the result is the same for every service behaviour and every parser |
| ExtractMedication.UpstreamNotOk | supabase/functions/extract-medication/index.ts:78-85 | A reply with `ok` false gives 500 "Failed to extract medication information" |
| ExtractMedication.UnparsableContent | supabase/functions/extract-medication/index.ts:92-120 | Completion text that fails to parse, or parses to null, gives 500 "Failed to parse medication information from image" |
| ExtractMedication.NamelessContent | supabase/functions/extract-medication/index.ts:97-102 | A parsed value whose `name` is falsy gives 400 "Could not extract medication name from image" |
| ExtractMedication.SuccessIsPassThrough | supabase/functions/extract-medication/index.ts:94-111 | A non-preflight 200 implies every guard and service step succeeded, and its body is `{success: true, medication}` with the parsed value unchanged |
| ExtractMedication.SuccessForward | supabase/functions/extract-medication/index.ts:92-111 | When the guards pass, the reply is ok and readable, and the completion parses to a non-null value with a truthy name, the answer is 200 with that value unchanged |
| ExtractMedication.ExceptionsAre500 | supabase/functions/extract-medication/index.ts:122-127 | An unreadable or null request body, a failed call, an unreadable reply, or a reply without `choices[0].message` gives 500 carrying the exception's message |
| ScanDialog.DefaultForm | src/components/MedicationScanDialog.tsx:33-40 | The default form has falsy name, dosage, instructions and quantity, unit "mg" and quantity unit "pills" |
| ScanDialog.Accepted | src/components/MedicationScanDialog.tsx:57-76 | The dialog takes a medication exactly when the call did not error, the data is not null, and both `success` and `medication` are truthy; what it takes is `data.medication` itself |
| ScanDialog.FormOf | src/components/MedicationScanDialog.tsx:59-61 | For an object, each form field is the object's property under the field's key |
| ScanDialog.NumberOrNull | src/components/MedicationScanDialog.tsx:261 | A numeric input becomes null for NaN or 0, and is otherwise the parsed number itself |
| ScanDialog.ApplyEdit | src/components/MedicationScanDialog.tsx:248-310 | An edit stores its value in its own field and leaves every other field as it was |
| ScanDialog.BuildRow | src/components/MedicationScanDialog.tsx:124-133 | The row carries the user's id, the form's fields verbatim, null for falsy instructions, and a remaining quantity equal to the initial quantity (both may be null) |
| ScanDialog.Next | src/components/MedicationScanDialog.tsx:99-167 | An insert is attempted if and only if a user is signed in and name and dosage are truthy; a successful insert returns to the initial state (default form, no extracted data, closed); otherwise a save changes nothing |
| ScanDialog.ExtractionSync | src/components/MedicationScanDialog.tsx:59-76 | An accepted extraction sets `extractedData` and `formData` to the same value; a failed one changes nothing |
| ScanDialog.OpenChangeKeepsForm | src/components/MedicationScanDialog.tsx:170 | Opening or closing the dialog changes only `open`: the form and extracted data stay, and nothing is inserted |
| ScanDialog.EditTouchesOneField | src/components/MedicationScanDialog.tsx:248-310 | An edit event stores the edit's value in its field, keeps every other field, keeps extracted data and `open`, and inserts nothing |
| ScanDialog.RunRowsWellFormed | src/components/MedicationScanDialog.tsx:109-133 | Across any sequence of events, every stored row has a truthy name and dosage, no empty instructions, and remaining equal to initial quantity |
| ScanDialog.EditsKeepNoZero | src/components/MedicationScanDialog.tsx:261-301 | Without an intervening scan, edits, saves and open changes never put 0 into dosage or initial quantity |
| ScanDialog.SignedOutRunStoresNothing | src/components/MedicationScanDialog.tsx:100-107 | With no signed-in user, no sequence of events stores a row |
| History.RemainingVariant | src/pages/History.tsx:169-177 | The badge is destructive exactly under 5 and default exactly from 5 to under 10; it is secondary when the stock is untracked or 10 and over |
| History.RemainingLabel | src/pages/History.tsx:178-181 | The label is "Not tracked" exactly for untracked stock; otherwise it reads back into the same amount and unit |
| History.AmountLabelRoundTrip | src/pages/History.tsx:180 | The text `"<n> <unit>"` is never "Not tracked" and parses back to `n` and the unit, for every integer and unit |
| History.StatusIcon | src/pages/History.tsx:216-220 | The check icon appears exactly for status "taken" |
| History.StatusVariant | src/pages/History.tsx:230 | The badge is default exactly when the icon is the check, and destructive otherwise |
| History.DisplayTime | src/pages/History.tsx:235-238 | The shown time is `takenat` when it is a non-empty string, and otherwise `createdat` |
| History.Flatten | src/pages/History.tsx:74-84 | A flat log keeps the log's own fields and copies the five medication fields from the nested reminder, schedule and medication record |
| History.TransformLogs | src/pages/History.tsx:74-84 | Missing data gives no logs; otherwise there is one flattened log per row, with the same length and order |
| ClientServer.Invoke | src/components/MedicationScanDialog.tsx:53-57 | The client sees data only for a 2xx status |
| ClientServer.SuccessFillsForm | supabase/functions/extract-medication/index.ts:106-111 | Every 200 from the function passes the dialog's `success && medication` test; both form and extracted data then hold the parsed completion, whose name is truthy |
| ClientServer.FailureKeepsDialog | src/components/MedicationScanDialog.tsx:57-76 | Every non-200 response leaves the dialog state unchanged and inserts nothing |

## Left out

- Network and database calls are not modelled; only their outcomes appear, as inputs. These are the completion service `fetch`, `functions.invoke`, and the `insert`/`select` queries. The ordering and the 50-row limit of the log query belong to the database.
- `JSON.parse`, `req.json`, `response.json`, `response.text`, `parseFloat` and `parseInt` are opaque. Each appears as a given outcome or as a function parameter.
- The TypeError message text is not modelled. The runtime chooses it, so the host supplies it as a function of the site: destructuring or property read, the key, and a null or undefined receiver.
- `ExtractMedication.Handle`: the prompt text, `console` logging and the JSON serialisation of bodies are not modelled. A body is the JSON value itself, because serialising and re-parsing a JSON value is the identity.
- Json.Get: inherited properties are not modelled (`constructor`, `toString` and the like). None of the keys the core reads is one of them. JSON objects are unordered maps, so `JSON.parse`'s duplicate-key rule belongs to the parser.
- Numbers are exact rationals. There is no NaN, Infinity or floating-point rounding; NaN from `parseFloat`/`parseInt` is the `None` input.
- History: the page treats remaining stock as an integer (the database column's type), although the dialog stores whatever JSON value `initial_quantity` holds.
- Decimal.ShowNat: JavaScript prints integers of 10^21 or more in exponent notation; the model always prints plain digits.
- `ClientServer.Invoke` states the client library's status handling; that library's source is not part of this model.
- The `loading` flag, the FileReader/base64 step, toasts and the asynchronous callback order are not modelled. These are the async ordering and rendering concerns.
- Rendering is not modelled: the dialog's tabs, the date format `PPp`, and the medication inventory list (`medicationsData || []`).
- `logIntake` is not modelled. It only shows a toast and refetches; it does not change any stock.
- Not modelled because they hold no decision logic: `AddMedicationDialog.tsx`, `Index.tsx`, `MedicationCard.tsx`, `Header.tsx`, `capacitor.config.ts` and the generated schema types. From the schema only the `Json` union is mirrored.
