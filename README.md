# Access-pass management: a verified model

This project models the logic of an employee access-pass tracker. Each
employee has a status record for two pass types, PC and CC. The record
holds a status, an expiry date and a request date per pass, plus an
`excluded` flag. Staff raise "requests" for batches of passes.

The model covers three parts of the system:

- **Front end** (`frontend/app.js`):
  - normalizing sparse status records;
  - the filtered lists of the dashboard, PC, CC and excluded views;
  - the renewal and new-pass suggestions;
  - the dashboard counters;
  - badge and date formatting;
  - the request modal's selection set and its save guard.
- **Server** (`backend/server.js`):
  - the validators of the employee and state routes;
  - the 404 branches of the lookups by id;
  - request creation;
  - the server's own copy of the suggestion rule, proved equal to the front end's.
- **Persistence** (`backend/db.js`):
  - the three tables as maps inside the class `Db.Database`;
  - whole-row upserts, bulk upsert and reset, deletion;
  - request creation with its defaults, and partial update built from a list of assignments;
  - the order in which listings come back.

Modules, one per file:

- `Wrappers`: generic `Option` and `Result` types.
- `Js`: JSON values, truthiness, `||`, `typeof`, `String(n)`.
- `Seqs`: order-preserving filter, substring test, `split`.
- `Sorting`, `Collation`: `ORDER BY`.
- `Records`: the table rows and request bodies.
- `Dates`: day arithmetic.
- `AppState`, `AppViews`, `AppSuggestions`, `AppCounters`, `AppRequests`: the front end.
- `Db`, `Server`: the back end.

Conventions:

- Dates are JavaScript time values in integer milliseconds.
- "Now" is a parameter.
- `new Date(v).getTime()` is a parameter `toTime: Json -> Option<int>`, where `None` stands for an invalid date (`NaN`).
- `toLowerCase` is a per-character map `lower`.
- `Math.floor(diff / day)` is proved equal to Dafny's `/` on `int` (`Dates.DaysUntil`).
- `isExpiring`'s division is on reals and is proved to mean `0 <= diff < 30 days` (`Dates.IsExpiring`).

Two behaviours of the code worth knowing:

- `createRequest` stores the status the caller sends (`backend/db.js:220`); the front end always sends `PENDING` (`Server.SavedRequestStoredPending`).
- `excluded` removes an employee from the no-pass list only, not from the expiring list (`AppSuggestions.ExpiryIgnoresExclusion`).

## Model

| member | source | states |
|---|---|---|
| AppState.Normalize | frontend/app.js:74-86 | defines `normalizeState` on a stored value: the seven fields read with their `||` defaults |
| AppState.NormalizeFor | frontend/app.js:74-86 | defines `normalizeState(id)`: the stored record of `id`, or `{}`, normalized |
| AppState.NormalizeFields | frontend/app.js:74-86 | every one of the seven fields is the stored value when that is truthy and its default (`NONE`, `""`, `false`) otherwise, and the result is a normal record |
| AppState.NormalizeMissing | frontend/app.js:75 | an id with no stored record, or a falsy one, normalizes to the all-defaults record |
| AppState.NormalizeNonObject | frontend/app.js:75-85 | a stored value that is not an object has none of the keys and normalizes to the defaults |
| AppState.NormalizeEncode | frontend/app.js:74-86 | saving a normal record as an object and normalizing it again gives the same record |
| AppState.NormalizeIdempotent | frontend/app.js:74-86 | normalizing an already-normalized record changes nothing |
| AppState.Badge | frontend/app.js:276-286 | defines `getBadgeHTML` as the label it shows, with the `NONE` fallback |
| AppState.BadgeLabelsDistinct | frontend/app.js:276-286 | two different known statuses never show the same badge |
| AppState.BadgeFallback | frontend/app.js:276-286 | the "-" badge is shown exactly for NONE and for every unknown status |
| AppState.FormatDate | frontend/app.js:288-293 | defines `formatDate`: "-" for an empty date, else the dash-separated parts reversed around "/" |
| AppState.FormatDateReorders | frontend/app.js:288-293 | `Y-M-D` without further dashes becomes `D/M/Y` |
| AppState.FormatDateWithoutDashes | frontend/app.js:288-293 | a non-empty date without a dash reads as the year, with `undefined` for day and month |
| AppViews.Keep | frontend/app.js:111-147 | defines the `.filter` callback of `getFilteredList`: the search test, then the rules of the view context and the dashboard facets |
| AppViews.KeepExactly | frontend/app.js:111-147 | the early-return chain keeps an employee exactly when the search matches and every rule of the view context holds; the dashboard facets are stated independently per mode |
| AppViews.FilteredList | frontend/app.js:108-148 | defines `getFilteredList(viewContext)`: the employees that pass the search, the context and the facet tests |
| AppViews.FilteredInOrder | frontend/app.js:108-148 | the filtered list is an order-preserving subsequence of the employees |
| AppViews.FilteredMembers | frontend/app.js:108-148 | an employee is in the list iff it is in the input, its lower-cased name+id+company+jobTitle+notes contains the lower-cased term, and the context's rules hold |
| AppViews.DashboardUnfiltered | frontend/app.js:108-148 | empty term, dashboard context, a status mode outside the five named ones and company `all` give back the whole list |
| AppViews.FacetsOnlyOnDashboard | frontend/app.js:131-145 | outside the dashboard the status and company selects do not affect the result |
| AppViews.PcTableRows | frontend/app.js:205-208 | defines the PC table's second filter: a PC status other than NONE, or a non-empty search |
| AppViews.PcTableShowsAll | frontend/app.js:205-208 | the PC table's extra filter keeps every employee of the pc_view list |
| AppViews.CcTableRows | frontend/app.js:230-233 | defines the CC table's second filter: a CC status other than NONE, or a non-empty search |
| AppViews.CcTableShowsAll | frontend/app.js:230-233 | the CC table's extra filter keeps every employee of the cc_view list |
| AppViews.ExcludedCards | frontend/app.js:255-258 | defines the excluded grid's second filter: excluded, or with notes, or a non-empty search |
| AppViews.ExcludedGridShowsAll | frontend/app.js:255-258 | the excluded grid's extra filter keeps every employee of the excluded_view list |
| Dates.DaysUntil | frontend/app.js:584 | `Math.floor` of the millisecond difference over a day is the integer quotient by 86400000 |
| Dates.SuggestionWindow | frontend/app.js:585 | `0 <= days <= 30` holds exactly when `0 <= diff < 31` days in milliseconds |
| Dates.IsExpiring | frontend/app.js:314-318 | true exactly for a truthy, parseable date with `0 <= diff < 30` days |
| AppSuggestions.ExpiryEntry | frontend/app.js:582-588 | a renewal entry carries the employee it was computed for |
| AppSuggestions.SuggestionsOf | frontend/app.js:565-592 | defines the pair `calculateSuggestions` returns: the filtered no-pass list and the filtered, annotated expiring list |
| AppSuggestions.Classify | frontend/app.js:570-589 | one employee is appended to the "no pass" list exactly when its status is NONE and it is not excluded, and to the "expiring" list exactly when the renewal test yields an entry; nothing else is added |
| AppSuggestions.CalculateSuggestions | frontend/app.js:565-592 | the loop builds exactly the filtered "no pass" list and the "expiring" list of the chosen pass, where every type other than "PC" selects CC |
| AppSuggestions.NoPassesMembers | frontend/app.js:578-580 | an employee is in `noPasses` iff its selected status is NONE and it is not excluded |
| AppSuggestions.ExpiringMembers | frontend/app.js:582-588 | an entry is in `expiring` iff the employee is ACTIVE with a truthy, parseable date `0 <= diff < 31` days ahead, and the entry's `daysUntilExpire` is the floored day count |
| AppSuggestions.SuggestionsInOrder | frontend/app.js:570-589 | both lists keep the input order of the employees |
| AppSuggestions.SuggestionsDisjoint | frontend/app.js:578-588 | no employee is in both lists |
| AppSuggestions.ExpiredInNeither | frontend/app.js:578-588 | an ACTIVE pass whose date is already past puts the employee in neither list |
| AppSuggestions.ExpiryIgnoresExclusion | frontend/app.js:582-588 | flipping `excluded` does not change the renewal test |
| AppSuggestions.InvalidDateNotExpiring | frontend/app.js:583-585 | an unparseable date never yields a renewal entry |
| AppCounters.Tally | frontend/app.js:295-312 | defines the four counters `updateCounters` shows, each as the size of a filter of the employees |
| AppCounters.UpdateCounters | frontend/app.js:295-312 | the loop's four counters are the numbers of employees each counting test accepts |
| AppCounters.TallySnoc | frontend/app.js:297-306 | one more employee adds one to exactly the counters whose test it passes |
| AppCounters.ExcludedNotCounted | frontend/app.js:299 | an excluded employee changes no counter |
| AppCounters.PayCountedOnce | frontend/app.js:303 | an employee with both passes awaiting payment adds one to `pay`, not two |
| AppCounters.ExpiringWithinActive | frontend/app.js:300-305 | the `exp` counter never exceeds `pc + cc` |
| AppCounters.CountedExpiryIsSuggested | frontend/app.js:314-318 | every date `isExpiring` accepts is also inside the suggestion window |
| AppCounters.BoundaryDiffers | frontend/app.js:314-318 | a date exactly 30 days ahead is suggested for renewal but not counted as expiring |
| AppRequests.Toggled | frontend/app.js:668-673 | defines the Set toggle: delete the id when present, else append it |
| AppRequests.ToggledMembers | frontend/app.js:668-673 | a toggle flips the membership of the toggled id and of no other |
| AppRequests.ToggledNoDuplicates | frontend/app.js:668-673 | a toggle keeps the selection free of duplicates |
| AppRequests.ToggledSize | frontend/app.js:668-674 | the selection size goes down by one when the id was present and up by one otherwise |
| AppRequests.ToggleTwice | frontend/app.js:668-673 | toggling the same id twice restores the set of selected ids and its size |
| AppRequests.ToggleTwiceAbsent | frontend/app.js:668-673 | adding an absent id and removing it again restores the exact selection |
| AppRequests.RequestModal.constructor | frontend/app.js:432-433 | the type starts as PC and the selection empty |
| AppRequests.RequestModal.OpenWithType | frontend/app.js:595-598 | opening the modal sets the type and clears the selection and the notes |
| AppRequests.RequestModal.ChooseType | frontend/app.js:618-634 | the PC/CC buttons change only the type |
| AppRequests.RequestModal.SetNotes | frontend/app.js:451 | typing notes changes only the notes |
| AppRequests.RequestModal.Toggle | frontend/app.js:668-675 | the selection becomes the toggled selection and stays duplicate-free |
| AppRequests.RequestModal.Save | frontend/app.js:708-719 | nothing is sent iff the selection is empty; otherwise the body has status PENDING, the chosen type, the notes and the duplicate-free selection |
| Js.NatToString | backend/db.js:214 | the decimal rendering of a number is non-empty, all digits, with no leading zero |
| Js.DecimalRoundTrip | backend/db.js:214 | reading the rendering back gives the number |
| Js.NatToStringInjective | backend/db.js:214 | distinct times render to distinct strings |
| Db.EmployeeOrder | backend/db.js:135 | ordering by company (NULL first) then name is a total preorder |
| Db.RequestOrder | backend/db.js:188 | newest-first order on `createdAt` is a total preorder |
| Db.Entries | backend/db.js:171 | defines `Object.entries` of the body, or of `{}` when it is falsy, as a key-to-value map |
| Db.IndexEntriesAt | backend/db.js:171 | `Object.entries` of an array has every element under its decimal index |
| Db.UpsertEachMerges | backend/db.js:114-122 | upserting a list of ids one by one merges their entries over the old table |
| Db.BulkIsUpsertPerEntry | backend/db.js:170-179 | a bulk upsert has the effect of one `upsertState` per entry, in any order |
| Db.NewRequestId | backend/db.js:214 | defines the new request's id: the supplied id when truthy, otherwise "REQ-" and the decimal digits of the clock |
| Db.NewRow | backend/db.js:212-227 | defines the row `createRequest` inserts, or the NOT NULL error it raises |
| Db.NewRowDefaults | backend/db.js:212-227 | a created request gets `[]` employees, notes `''` and creator `system` when these are not supplied, `createdAt == updatedAt`, and the supplied status |
| Db.GeneratedIdEncodesTime | backend/db.js:214 | a generated id is `REQ-` followed by digits that spell the creation time |
| Db.BuildAssignments | backend/db.js:229-244 | applying the assignments in order to the row gives the updated row, and the last one sets `updatedAt` |
| Db.Updated | backend/db.js:229-254 | defines the row after `updateRequest`'s SET list is applied |
| Db.UpdateKeepsIdentity | backend/db.js:229-254 | an update never changes id, `createdAt` or `createdBy`, and always sets `updatedAt` |
| Db.UpdateIdempotent | backend/db.js:229-254 | applying the same update twice equals applying it once |
| Db.UpdateFalsyFields | backend/db.js:236-239 | a falsy type or status is ignored, and an empty notes string is still written |
| Db.Database.constructor | backend/db.js:59-101 | all three tables start empty |
| Db.Database.GetAllStates | backend/db.js:103-112 | the object built row by row maps every id to its stored state |
| Db.Database.UpsertState | backend/db.js:114-122 | the state for the id is replaced and nothing else changes |
| Db.Database.BulkUpsertStates | backend/db.js:170-179 | the states become the old states overwritten by the entries, and a null or undefined argument changes nothing |
| Db.Database.ResetStates | backend/db.js:124-131 | the state table is emptied, employees and requests are untouched |
| Db.Database.GetAllEmployees | backend/db.js:133-140 | every employee row once, sorted by company then name |
| Db.Database.EmployeeById | backend/db.js:142-149 | defines `getEmployeeById`: the stored row for the id, or none (`undefined`) |
| Db.Database.UpsertEmployee | backend/db.js:151-159 | the row is inserted or all its non-key columns are overwritten, nothing else changes |
| Db.Database.DeleteEmployee | backend/db.js:161-168 | only that employee row goes; its state and the requests naming it stay |
| Db.Database.GetAllRequests | backend/db.js:186-198 | every request row once, newest first |
| Db.Database.RequestById | backend/db.js:200-210 | defines `getRequestById`: the stored row for the id, or none (`undefined`) |
| Db.Database.CreateRequest | backend/db.js:212-227 | fails, leaving the table unchanged, iff type or status is missing or the id is taken; otherwise inserts the defaulted row under its id |
| Db.Database.UpdateRequest | backend/db.js:229-254 | the row with that id becomes the updated row, and an unknown id changes nothing |
| Db.Database.DeleteRequest | backend/db.js:256-263 | only that row goes, and an absent id changes nothing |
| Server.GetEmployee | backend/server.js:72-76 | 404 iff the employee does not exist, otherwise that row |
| Server.GetRequest | backend/server.js:316-319 | 404 iff the request does not exist, otherwise that row |
| Server.RowOf | backend/server.js:113 | a validated body gives a row with non-empty id and name |
| Server.PostEmployee | backend/server.js:106-118 | 400 and no write iff id or name is not a non-empty string; otherwise the row is upserted |
| Server.PostState | backend/server.js:188-200 | 400 and no write unless id is a non-empty string and state an object; otherwise the state is replaced |
| Server.PostBulk | backend/server.js:222-231 | 400 and no write iff `typeof body` is not "object"; otherwise the bulk upsert |
| Server.BulkAcceptsExactly | backend/server.js:224 | the bulk route accepts exactly null, arrays and objects |
| Server.PostRequest | backend/server.js:356-364 | 201 with the new id when the insert succeeds, 500 and no change otherwise |
| Server.SavedRequestStoredPending | backend/server.js:356-364 | what the front end saves is stored as PENDING under `REQ-<now>`, with its duplicate-free employees and creator `system` |
| Server.ServerExpiry | backend/server.js:469-475 | a renewal entry carries the employee it was computed for |
| Server.ServerSuggestionsOf | backend/server.js:441-476 | defines the two lists the suggestions handler returns |
| Server.ServerClassify | backend/server.js:455-476 | one employee is appended to each of the server's lists exactly when that list's test holds for its stored record |
| Server.ComputeSuggestions | backend/server.js:455-476 | the loop builds exactly the server's two filtered lists |
| Server.GetSuggestions | backend/server.js:441-478 | the employees come in `getAllEmployees` order and the suggestions are computed over them and the stored states |
| Server.ServerAgreesOnEmployee | backend/server.js:455-475 | on one employee, the server's raw-record tests agree with the front end's tests on the normalized record |
| Server.ServerMatchesFrontEnd | backend/server.js:441-476 | on the same employees and states, for the same clock and date parser, the server returns the same two lists as `calculateSuggestions` |
| Server.QueryTypeAgrees | backend/server.js:457-458 | a query type sent by the front end selects the same pass on both sides |

## Left out

- DOM rendering, HTML strings, event listeners, `fetch`, `alert`/`confirm` and tab switching are left out. They are presentation only; the badge is modelled as the label it shows.
- Express, body parsing, the static and SPA fallback and swagger are left out as framework plumbing. Request bodies are typed values.
- Route precedence is left out. `GET /api/requests/:id` (backend/server.js:316) is registered before `/api/requests/suggestions` (backend/server.js:441), so Express probably sends the latter to the `:id` handler. The model computes suggestions as a handler of their own.
- The sqlite driver, callbacks, `db.serialize`, the migrations and the seed data are left out. Tables are maps and each call is atomic.
- Driver errors and the 500 branches are left out, except the failed insert of a request.
- `JSON.stringify`/`JSON.parse` of stored states and of `employeeIds` are assumed to round-trip. Values are stored as the JSON they encode.
- Db.Database.GetAllStates: the id `__proto__` is not modelled. The server's validators accept it as an id. For that id, `obj[r.id] = ...` (`backend/db.js:108`) sets the prototype of `obj` and does not create an entry. `GET /api/state` then sends JSON without it, so the front end normalizes that employee to the defaults. The server's suggestions handler still reads the state through the prototype (`backend/server.js:455`). The model maps every id, `__proto__` included, to its stored state on both sides, so `Server.ServerMatchesFrontEnd` does not cover an employee with that id.
- The Supabase mirror (backend/supabase.js) is not part of this model. It is a network client whose errors are swallowed.
- The clock is a parameter `now`. One value stands for both `Date.now()` and `new Date().toISOString()` in `createRequest`.
- `createdAt` is an integer, not ISO text. For four-digit years (0000 to 9999) ISO text orders the same way as the integers; the six-digit signed years `toISOString` writes outside that range do not, and are not modelled.
- `Date` parsing is the parameter `toTime`. Floating point is modelled by reals, which is exact for the comparisons made. The front end and the server are each given their own `now` and `toTime`. `Server.ServerMatchesFrontEnd` assumes both sides use the same clock and the same parser. In the deployed system these are different machines: a date without an offset is read as local time, and non-ISO formats depend on the engine.
- `toLowerCase` is a per-character map. Unicode case rules that change the length of a string are not modelled.
- Status and date values are any JSON. `formatDate` is modelled only on strings; it throws a TypeError on other truthy values.
- The badge lookup's coercion of non-string keys and its inherited `Object.prototype` keys are not modelled.
- Non-string values in the optional employee columns, and in the request body's string fields, are not modelled. The driver's coercion of them is not modelled either.
- Query parameters given as arrays are not modelled; `type` is a string or absent.
- `express-validator`'s `isObject` is taken with its default strict option, which rejects null and arrays.
- The dashboard's `slice(0, 50)` display limit is presentation and is left out.
- `GET /api/employees`, `GET /api/state`, `GET /api/requests`, `POST /api/reset`, `PUT`/`DELETE /api/requests/:id`, `DELETE /api/employees/:id` and `/api/export` are left out. They pass straight through to the `Db.Database` methods modelled above.
- Db.Database.GetAllEmployees: rows that tie on company and name come back in an unspecified order, as SQL leaves them. The contract states sortedness, not one particular order.
