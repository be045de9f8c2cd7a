# Vaccine intake form and record gateway, in Dafny

This project models two pieces of a vaccine-inventory web client.

- The **"Receive Vaccines" intake form** (`src/components/pages/ReceiveVaccines.jsx`) is modelled as the class `ReceiveVaccines.FormSession`. Its fields are the page's state: catalog, search text, selected entry, the two create-new flags, dropdown, inputs and error map. It has one method per handler:
  - search typing, entry selection, mode change and create-new;
  - per-input change;
  - `validateForm`;
  - `handleSubmit`.
  The validation rules and the catalog filter are pure functions over that state.
- The **record gateway** (`src/services/api/VaccineService.js`) is modelled as the module `VaccineService`. It covers:
  - the create and update payload builders;
  - how `create`, `update` and `delete` fold the store's reply envelope into one returned value and an ordered list of error toasts;
  - the nested `forEach` that raises those toasts, as loops;
  - the short-circuits of `getAll`, `getById` and `searchByName`.

Each gateway operation receives the hosted record store as a parameter. The parameter is a function from the request the operation sends to the reply it gets back. `Threw(reason)` stands for an exception raised inside the operation's `try`, together with the value thrown. Every catch block logs `error.message`. That read itself throws when the value is `null` or `undefined`, so such an exception escapes the operation, whose promise then rejects (`Outcome.Escaped`). Any other exception is turned into the operation's failure value. A toast is an element of the returned notice sequence.

`JsRuntime` holds the slice of JavaScript that both files rely on:
- truthiness and `||`;
- `String(v)`;
- `parseInt`, with leading whitespace, sign, a `0x` prefix, the longest digit prefix and its NaN result;
- `trim`, ASCII `toLowerCase` / `toUpperCase`, and `includes`.

Numeric form inputs stay strings, as on the page. NaN is modelled explicitly (`Number = NaN | Int(value)`), and every comparison with NaN is false, which is what lets a non-numeric received quantity slip past the quantity rule.

The following quirks of the code are reproduced, not fixed:
- The form sends the dates under `expirationDate` / `receivedDate`, but `create` reads `expirationDate_c` / `receivedDate_c`, so both dates reach the store unset (`SubmittedRecord`).
- `handleSubmit` shows the success toast and resets the form whatever `create` returned (`FormSession.Dispatch`, `FormSession.Submit`). Only an exception escaping `create` reaches its catch block: one failure toast, and the inputs are kept.
- Focusing the search box reopens the dropdown over a kept selection (`FormSession.FocusSearch`, `ReopenAfterSelect`). The session's invariant `FormSession.Valid` therefore allows a selection with the dropdown open. Every handler accepts every state: the search-editing handlers establish `Valid`, and the others preserve it.
- `create`, `update` and `delete` return `undefined` when the store succeeds without per-record results.
- `isCreateNewMode` changes only in `ModeChange`; every other handler's contract keeps it unchanged.

## Model

| member | source | states |
|---|---|---|
| JsRuntime.Or | src/services/api/VaccineService.js:47 | `a \|\| b` is truthy exactly when either operand is |
| JsRuntime.Add | src/components/pages/ReceiveVaccines.jsx:171 | the sum of two counts is a number exactly when both are (NaN is absorbing) |
| JsRuntime.SumEqualsIsStrictEqualsOfAdd | src/components/pages/ReceiveVaccines.jsx:171-172 | the reconciliation test used by the rules is `passed + failed === received` with NaN never equal |
| JsRuntime.TrimStartSpec | src/components/pages/ReceiveVaccines.jsx:52 | trimming the start keeps a suffix not starting with whitespace and drops only whitespace |
| JsRuntime.TrimEndSpec | src/components/pages/ReceiveVaccines.jsx:52 | trimming the end keeps a prefix not ending with whitespace and drops only whitespace |
| JsRuntime.BlankIffAllWhiteSpace | src/components/pages/ReceiveVaccines.jsx:52 | `!s.trim()` holds exactly when every character of `s` is whitespace |
| JsRuntime.DigitPrefixSpec | src/services/api/VaccineService.js:114 | `parseInt` reads the longest digit prefix, stopping at the first non-digit |
| JsRuntime.ParseIntRoundTrip | src/components/pages/ReceiveVaccines.jsx:213-216 | `parseInt(String(n)) === n` for every integer `n` |
| JsRuntime.ParseIntOfNumber | src/services/api/VaccineService.js:114-117 | `parseInt` of an already parsed number (NaN included) gives it back, so parsing twice is parsing once |
| JsRuntime.ParseIntOrZeroOfFalsy | src/services/api/VaccineService.js:118 | `parseInt(v \|\| 0)` is 0 for every falsy `v` |
| JsRuntime.ParseIntOfStringOrZero | src/components/pages/ReceiveVaccines.jsx:167-172 | `parseInt(s \|\| 0)` on an input string is 0 for "" and `parseInt(s)` otherwise |
| JsRuntime.UpperIsNormal | src/components/pages/ReceiveVaccines.jsx:182 | an upper-cased lot number has no lower-case letter, and upper-casing it again changes nothing |
| JsRuntime.ContainsIffSubstring | src/components/pages/ReceiveVaccines.jsx:58-59 | `h.includes(n)` holds exactly when `n` occurs in `h` at some index |
| VaccineService.CreatePayload | src/services/api/VaccineService.js:110-119 | a falsy `administeredDoses_c` is sent as 0, and all three counts are sent as numbers |
| VaccineService.UpdatePayload | src/services/api/VaccineService.js:168-178 | the update record always holds `Id = parseInt(id)`; every other column is present exactly when the input defines it; counts are parsed and other values passed through; nothing else is present |
| VaccineService.Successful | src/services/api/VaccineService.js:133 | holds exactly the succeeded results |
| VaccineService.Failed | src/services/api/VaccineService.js:134 | holds exactly the failed results |
| VaccineService.NotifyFieldErrors | src/services/api/VaccineService.js:140-142 | the inner loop raises one notice per field error, in order |
| VaccineService.NotifyFailures | src/services/api/VaccineService.js:139-144 | the nested loops raise exactly `Notices(Failed(results))`, record by record and in order |
| VaccineService.NoticesAppend | src/services/api/VaccineService.js:139-144 | one more failed record appends exactly its own notices |
| VaccineService.GetAll | src/services/api/VaccineService.js:41-55 | a returned value is always truthy; a caught exception gives `[]` with no toast, but a `null`/`undefined` one escapes; a refusal gives `[]` and one toast with the store's message; success gives `data \|\| []` with no toast |
| VaccineService.GetById | src/services/api/VaccineService.js:82-98 | asks for `parseInt(id)`; returns `null` on a caught exception (a `null`/`undefined` one escapes) or on a refusal (one toast on the refusal); returns the record data on success |
| VaccineService.Create | src/services/api/VaccineService.js:110-157 | the toasts are `BatchNotices` with field errors: none on an exception, the store's message on a refusal, the failed records' notices for a batch; the value is `null` on a refusal or caught exception (a `null`/`undefined` one escapes), `undefined` without per-record results, otherwise the first successful record's data |
| VaccineService.Update | src/services/api/VaccineService.js:168-215 | the same toasts and values as `create`, over the partial update record |
| VaccineService.Delete | src/services/api/VaccineService.js:226-259 | the toasts are `BatchNotices` without field errors, so only failed records' messages; the value is `false` on a refusal or caught exception (a `null`/`undefined` one escapes), `undefined` without results, otherwise whether any deletion succeeded |
| VaccineService.FoldBatch | src/services/api/VaccineService.js:126-156 | the branches shared by create, update and delete: exactly the `BatchNotices` toasts; the failure value on a refusal or caught exception, escaping on a `null`/`undefined` one; `undefined` without results |
| VaccineService.SearchByName | src/services/api/VaccineService.js:262-345 | never toasts, and a returned value is never falsy; a missing, non-string or blank term queries nothing (`query == None`) and gives `[]`; otherwise the store is queried with the term; a refusal or caught exception gives `[]` (a `null`/`undefined` one escapes); success gives `data \|\| []` |
| VaccineService.FirstSuccessIsFirst | src/services/api/VaccineService.js:147 | the returned value is the data of the first result in the batch that succeeded |
| VaccineService.NoSuccessIsNull | src/services/api/VaccineService.js:147 | a batch in which nothing succeeded returns `null` |
| VaccineService.FailedDistributes | src/services/api/VaccineService.js:134 | filtering the failed results distributes over concatenation |
| VaccineService.NoticesDistribute | src/services/api/VaccineService.js:139-144 | the notices of two batches in sequence are the notices of each, in order |
| VaccineService.SuccessesAreSilent | src/services/api/VaccineService.js:133-144 | a succeeded record adds no notice wherever it stands in the batch |
| VaccineService.NoticesComeFromFailures | src/services/api/VaccineService.js:139-144 | every notice is a field error (create and update only) or the message of some failed record |
| VaccineService.NoticeCount | src/services/api/VaccineService.js:139-144 | create and update raise one notice per field error more than delete does; delete raises at most one per failed record |
| VaccineService.SilentWithoutFailure | src/services/api/VaccineService.js:126-148 | a call in which neither the store nor any record failed raises no toast |
| VaccineService.CreateMixedBatch | src/services/api/VaccineService.js:132-147 | one record rejected on one field plus one accepted record gives the accepted record's data and exactly the toast "Lot Number: is invalid" |
| ReceiveVaccines.FormData.With | src/components/pages/ReceiveVaccines.jsx:184-187 | `{...formData, [f]: v}` changes input `f` to `v` and no other input |
| ReceiveVaccines.Matching | src/components/pages/ReceiveVaccines.jsx:57-60 | keeps entries in catalog order; keeps only matching entries; keeps every matching entry as often as it occurs |
| ReceiveVaccines.FilterCatalog | src/components/pages/ReceiveVaccines.jsx:51-62 | a blank search gives nothing; otherwise exactly the entries whose lower-cased commercial or generic name contains the lower-cased, untrimmed search text, in catalog order |
| ReceiveVaccines.OneMoreRule | src/components/pages/ReceiveVaccines.jsx:140-174 | applying one more rule to the errors of the earlier rules gives the errors of all of them |
| ReceiveVaccines.StepsBuildErrors | src/components/pages/ReceiveVaccines.jsx:140-174 | the eight conditionals in source order build exactly the map of broken rules to their messages |
| ReceiveVaccines.RuleOrderHasEveryRule | src/components/pages/ReceiveVaccines.jsx:140-174 | the rules cover every key except the sent quantity, received date and failed count, and those never fail |
| ReceiveVaccines.ValidationCollects | src/components/pages/ReceiveVaccines.jsx:140-177 | errors are collected, not short-circuited: a key is in the map exactly when its rule fails, holding that rule's message |
| ReceiveVaccines.TextRulesReported | src/components/pages/ReceiveVaccines.jsx:143-161 | each name and the lot number errs exactly when blank after trimming; the expiration date errs exactly when empty |
| ReceiveVaccines.CountRulesReported | src/components/pages/ReceiveVaccines.jsx:155-174 | received errs when empty or `<= 0`; passed errs when empty or `< 0`; the reason errs when `failed \|\| 0 > 0` and it is blank; `inspection` errs when passed + failed (empty read as 0) differs from received |
| ReceiveVaccines.RuleMessagesShow | src/components/pages/ReceiveVaccines.jsx:143-174 | every rule's message is non-empty, so a recorded error always shows |
| ReceiveVaccines.ValidIffRulesHold | src/components/pages/ReceiveVaccines.jsx:176-177 | the form is valid (empty map) exactly when every rule holds |
| ReceiveVaccines.ValidExactlyWhenReconciled | src/components/pages/ReceiveVaccines.jsx:143-174 | for integer inputs (empty failed read as 0) the form is valid exactly when: names and lot are not blank, a date is given, received > 0, passed >= 0, failed > 0 comes with a reason, and passed + failed = received |
| ReceiveVaccines.CountRulesRead | src/components/pages/ReceiveVaccines.jsx:155-174 | once the counts are known as numbers, each count rule is the corresponding comparison of those numbers |
| ReceiveVaccines.RulesHoldOnReadings | src/components/pages/ReceiveVaccines.jsx:143-174 | every rule holds exactly when the text rules hold and the count comparisons hold on the read numbers |
| ReceiveVaccines.ValidFormHoldsIntegers | src/components/pages/ReceiveVaccines.jsx:155-174 | a valid form has received > 0, passed >= 0, and passed + failed = received, all integers; failed > 0 comes with a reason |
| ReceiveVaccines.NonNumericReceivedFailsOnlyReconciliation | src/components/pages/ReceiveVaccines.jsx:155-174 | a received quantity that reads as NaN is not reported by the quantity rule but is reported by the reconciliation rule |
| ReceiveVaccines.ZeroPassedAccepted | src/components/pages/ReceiveVaccines.jsx:163-165 | a passed count of "0" raises no passed-count error |
| ReceiveVaccines.EmptyFailedNeedsNoReason | src/components/pages/ReceiveVaccines.jsx:167-169 | an empty failed count never asks for a discrepancy reason |
| ReceiveVaccines.OnlyInspectionBroken | src/components/pages/ReceiveVaccines.jsx:171-177 | when only the reconciliation rule fails, the map holds exactly the `inspection` message |
| ReceiveVaccines.SampleFormFieldsHold | src/components/pages/ReceiveVaccines.jsx:143-161 | the sample names, lot number and date pass their rules |
| ReceiveVaccines.InspectionOnlyExample | src/components/pages/ReceiveVaccines.jsx:171-174 | received 10, passed 7, failed 2 with a reason: the only error is `inspection` |
| ReceiveVaccines.MissingReasonExample | src/components/pages/ReceiveVaccines.jsx:167-169 | failed 3 without a reason gives a discrepancy-reason error |
| ReceiveVaccines.NegativeFailedAccepted | src/components/pages/ReceiveVaccines.jsx:163-174 | no rule looks at the sign of the failed count: received 10, passed 13, failed -3 is valid |
| ReceiveVaccines.SubmitPayloadReads | src/components/pages/ReceiveVaccines.jsx:209-218 | the payload holds the names, lot number and both parsed counts under the keys `create` reads, and no `_c` date or administered key |
| ReceiveVaccines.SubmittedRecord | src/components/pages/ReceiveVaccines.jsx:209-220 | the record reaching the store (`SubmittedRequest`) carries the names, the lot number, `parseInt(received)` as quantity, `parseInt(passed)` as quantity on hand and 0 administered doses; it carries no dates |
| ReceiveVaccines.SubmitNoticesShape | src/components/pages/ReceiveVaccines.jsx:220-240 | at least one toast; the success toast comes last exactly when no exception escaped `create`, after one error toast per gateway notice; every other toast is an error |
| ReceiveVaccines.FormSession.constructor | src/components/pages/ReceiveVaccines.jsx:15-34 | the initial state: loaded catalog, empty search, no selection, both flags off, dropdown closed, empty form dated today, no errors |
| ReceiveVaccines.FormSession.SearchChange | src/components/pages/ReceiveVaccines.jsx:84-97 | the text becomes the search; the selection is dropped; the dropdown opens exactly on non-blank text; outside create-new mode both names are blanked; nothing else changes |
| ReceiveVaccines.FormSession.VaccineSelect | src/components/pages/ReceiveVaccines.jsx:64-82 | the search becomes `name (generic)`; both names are copied and every other input is unchanged; the dropdown closes; neither name error shows and other errors are unchanged |
| ReceiveVaccines.FormSession.ModeChange | src/components/pages/ReceiveVaccines.jsx:99-116 | sets the mode and resets search, selection, dropdown, both names and both name errors |
| ReceiveVaccines.FormSession.CreateNew | src/components/pages/ReceiveVaccines.jsx:118-138 | sets `isCreatingNew`; only a non-blank search seeds the commercial name (trimmed) and blanks the generic name; both name errors are blanked |
| ReceiveVaccines.FormSession.InputChange | src/components/pages/ReceiveVaccines.jsx:180-196 | only the named input changes, a lot number being stored upper-cased; only that input's error is blanked, and only if it was showing |
| ReceiveVaccines.FormSession.FocusSearch | src/components/pages/ReceiveVaccines.jsx:273 | the dropdown opens exactly over a non-blank search, and nothing else changes |
| ReceiveVaccines.FormSession.ValidateForm | src/components/pages/ReceiveVaccines.jsx:140-178 | the eight conditionals commit exactly `ValidationErrors(formData)`, and the result is whether that map is empty |
| ReceiveVaccines.FormSession.Dispatch | src/components/pages/ReceiveVaccines.jsx:209-240 | sends the form's payload; the toasts are `SubmitNotices`: the gateway's error toasts then the success toast, or only the catch toast when an exception escaped `create`; the inputs are reset exactly when none escaped |
| ReceiveVaccines.FormSession.Submit | src/components/pages/ReceiveVaccines.jsx:198-244 | from any state: an invalid form gets one error toast, no `create` call and unchanged inputs; a valid form is dispatched as above; the committed errors are `ValidationErrors` of the submitted inputs; the search state is unchanged |
| ReceiveVaccines.LotNumberExample | src/components/pages/ReceiveVaccines.jsx:182 | the upper-casing applied to a typed lot number turns "abc123" into "ABC123" |
| ReceiveVaccines.FilterExample | src/components/pages/ReceiveVaccines.jsx:51-62 | searching "Daptacel" in {Daptacel SDV / DTaP, Engerix / HepB} offers only the first entry |
| ReceiveVaccines.ReopenAfterSelect | src/components/pages/ReceiveVaccines.jsx:273 | choosing an entry and focusing the search box again leaves the selection kept with the dropdown open, a state `Valid` admits |

## Left out

- Rendering: the JSX markup, widgets, icons and CSS classes are not modelled. The observation that no rendered control calls `handleModeChange` is about markup and is not modelled either.
- Effects: the `useEffect` scheduling and the catalog load on mount (`ReceiveVaccines.jsx:37-48`) are left out. The loaded catalog is the constructor's parameter, and the filter effect is the function `FormSession.FilteredVaccines` of the current state.
- CatalogEntry: catalog entries carry both names as strings, under the names the filter reads, so the optional-chaining case of an entry without a name is not modelled. That case matters: `getAll` asks the store for `commercialName_c` / `genericName_c` (`VaccineService.js:18-19`), while the filter reads `commercialName` / `genericName` (`ReceiveVaccines.jsx:58-59`). On the catalog loaded at `ReceiveVaccines.jsx:40-41`, every entry is therefore nameless and the filter offers nothing, unless the store also returns the unsuffixed keys. The model's catalog is the constructor's parameter, and this mapping is not modelled.
- Async and external effects: `async`/`await`, the `loading` flag, `navigate("/inventory")` and `console.error` are left out. Toasts exist only as the returned notice sequence.
- The SDK: `window.ApperSDK`, the `ApperClient` construction and the environment keys are left out. The store is a function parameter. An exception raised anywhere inside a `try` (the SDK missing, a transport failure) is the reply `Threw(reason)`. Its effect depends only on whether the value thrown is `null`/`undefined`.
- Query parameters of `getAll`, `getById` and `searchByName` (fields, `where`/`whereGroups`, ordering, the page limits 100 and 20) are not modelled. Their effect is decided by the remote store.
- The current date behind `receivedDate` is the parameter `today`.
- Case mapping: `Lower` and `Upper` map ASCII letters only. JavaScript's full Unicode case mapping is not modelled.
- Numbers are NaN or unbounded integers. Rounding of digit strings beyond 2^53, fractions, `-0` and `Infinity` are not modelled. `String(v)` of an object is the fixed text `[object Object]`.
- An exception that escapes an operation is modelled as `Escaped` only, without the `TypeError` it carries.
