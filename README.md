# Bank dashboard script: application records and notifications

A Dafny model of the record-handling logic of `script.js`, the user-side
dashboard script of a small banking site. Users fill in one of three forms
(Islamic loan, loan, insurance). The script turns each submission into an
application record and stores it in the browser's local storage under two
keys: a global pending list read by an admin page, and the user's own list.
On a timer it copies statuses from an admin-maintained mirror of all
applications, and it delivers notifications the admin page writes for the user.

The model has eight modules:

- `Records`: the application, terms and notification records. Also the pure
  parts of `ApplicationManager`: the per-type field mapping of
  `createApplication`, the id formats of `generateApplicationId` and
  `getUserId`, the `getStatusColor` table, and the `find`-by-id used by
  `trackApplication` and the status update.
- `Forms`: `collectFormData` as a fold over the form's controls.
- `Reconcile`: one cycle of `updateApplicationStatuses`, on values.
- `Storage`: local storage as a class with one typed field per key. JSON
  encoding is taken out, and an absent list is the empty list. Every
  `setItem` is recorded by key in a write log, so contracts can say when the
  store is written and when it is not.
- `Applications`: the `ApplicationManager` class. Its field `applications` is
  the script's in-memory list. Its methods change that list and the store,
  and each is proved against the functions of `Records`, `Forms` and
  `Reconcile`.
- `Notifications`: the `NotificationSystem` class and the functions
  specifying one poll.
- `Seqs` and `Wrappers`: small helpers. `Option` stands for a value that may
  be `undefined`. `Changed` lists what a pass over a list altered.

The clock and the random generator are inputs. Methods take the already
rendered base-36, upper-cased strings (`clock`, `random`) and the ISO date
text. Each popup and status notification is recorded as the record it is
called with (`statusNotices`, `shown`).

Points where the code behaves differently from what its comments and names suggest (the model follows the code):

- Non-radio controls are keyed by `id`, or by `name` when the id is empty.
- A string status from the mirror is copied whatever its text, not only the
  four known statuses.
- An empty stored user id counts as missing, so a new one is made.
- The notification poll reads the raw `userId` entry and never creates one.
  With no stored user id, none of the notifications modelled here (all have
  a string `userId`) is delivered; see the line on null user ids under
  "Left out".
- The random part of an id is whatever the caller passes. The code's
  `substr(2, 5)` can give fewer than five characters.

## Model

| member | source | states |
|---|---|---|
| Records.TermsFor | script.js:99-145 | The switch of createApplication. Its own contract says only which kind of terms each type gets: loan terms for the two loan types, insurance terms for insurance, and none for any other type. The field-by-field meaning is stated by LoanFormKeys, InsuranceFormKeys, IslamicDurationHasUnit and TermsReadOwnForm. |
| Records.LoanFormKeys | script.js:100-128 | Both loan forms fill the same nine fields from keys `<prefix>` + suffix (`kh-` or `loan-`). The Islamic-loan duration is the source text with " months" appended. The loan duration is copied verbatim, and stays undefined when missing. |
| Records.InsuranceFormKeys | script.js:130-144 | Insurance terms: the nominee comes from the `ins-numni-*` keys and the amount from `ins-taka`. The payment frequency is the `frequency` value when present and non-empty, and "months" when it is missing or empty. It is never empty. |
| Records.IslamicDurationHasUnit | script.js:111 | The Islamic-loan duration is always present and ends in " months". With no duration field it is "undefined months". |
| Records.TermsReadOwnForm | script.js:99-145 | The terms of a type depend only on that form's own keys (plus `frequency` for insurance). An unrecognised type yields no terms, whatever the form holds. |
| Records.GenerateApplicationId | script.js:151-156 | The id is "APP" followed by the clock and random renderings. Its length is their lengths plus 3. |
| Records.DistinctIds | script.js:151-156 | Two ids made from clocks of equal length differ whenever the clock or the random part differs. |
| Records.ResolvedUserId | script.js:159-166 | The resolved user id is never empty. With no stored id, or an empty one, it is "USER" followed by the clock. Otherwise it is the stored id unchanged. |
| Records.UserIdIsStable | script.js:159-166 | Once the resolved id is stored, later resolutions return the same id whatever the clock says, and need no new id. |
| Records.StatusColor | script.js:294-302 | The four known statuses get their table colours. Exactly the other statuses get the grey default. |
| Records.FindById | script.js:258 | None exactly when no record has the id. Otherwise it is a record with the id that no earlier record shares, i.e. the first match. |
| Forms.KeyOf | script.js:74-80 | A control contributes nothing exactly when it is an unchecked radio. Otherwise its key is its id or its name. |
| Forms.Collected | script.js:73-81 | The `forEach` of collectFormData as a fold. Its own contract says only that the map has at most one key per control. Its meaning is stated by CollectedKeys, CollectedLastWins and CollectedStep. |
| Forms.CollectedKeys | script.js:73-81 | A key is in the collected map exactly when some control contributes under it. A checked radio uses its name; any other control uses its id, or its name when the id is empty. |
| Forms.CollectedLastWins | script.js:73-81 | The value under a key is that of the last control contributing under it. |
| Forms.CollectedStep | script.js:74-80 | One more control: an unchecked radio adds nothing; a checked radio sets its name; any other control sets its id, or its name when the id is empty. |
| Reconcile.ReconcileOne | script.js:258-262 | A record takes the status of the first mirror record with its id, and keeps its own status when there is none. Every other field is kept. It changes exactly when a match exists with a different status. |
| Reconcile.Reconciled | script.js:257-263 | The same length and order. Each record has only its status replaced, by its mirror status. |
| Reconcile.StatusChanges | script.js:259-262 | The sequence of notifyStatusChange calls. There is at most one per record, and each carries the status of the first mirror record with its id. StatusChangesAreChangedRecords states that the calls are exactly the changed records. |
| Reconcile.StatusChangesAreChangedRecords | script.js:257-263 | The notifications of a cycle are exactly the records the cycle changed, in order and in their new state. |
| Reconcile.ReconcileIdempotent | script.js:252-266 | A second cycle against the same mirror changes nothing and notifies nothing. |
| Reconcile.ReconcileNoOp | script.js:258-259 | When no mirror record matches, or the statuses already agree, the cycle changes nothing and notifies nothing. |
| Reconcile.ApprovalExample | script.js:257-263 | A pending record whose mirror copy is approved becomes approved, with exactly one notification. |
| Storage.Store.SetUserId | script.js:163 | setItem('userId'): stores the id and logs one write of "userId"; nothing else changes. |
| Storage.Store.SetPendingApplications | script.js:173 | setItem('pendingApplications'): stores the list and logs one write of that key; nothing else changes. |
| Storage.Store.SetUserNotifications | script.js:365 | setItem('userNotifications'): stores the list and logs one write of that key; nothing else changes. |
| Storage.Store.SetUserApplications | script.js:305-315 | After the per-user list of one user is written, reading that user's list gives back exactly what was written, and every other user's list reads as before. |
| Applications.InsuranceFormExample | script.js:130-144 | An insurance form with name "Alice", amount "5000" and duration "12" gives terms with those values, no nominee, and frequency "months". |
| Applications.ApplicationManager.constructor | script.js:6-10 | Loads the stored list of the resolved user, creating the user id if needed, and leaves the manager in sync with the store. |
| Applications.ApplicationManager.CollectFormData | script.js:68-84 | The loop over the controls computes exactly the map `Collected` describes. |
| Applications.ApplicationManager.CreateApplication | script.js:87-148 | The record has a generated id starting with "APP", the given type, status "pending", the given date, the resolved user id and the type's terms. The store changes only as getUserId changes it. |
| Applications.ApplicationManager.GetUserId | script.js:159-166 | Returns the resolved id. It writes "userId" exactly when no non-empty id was stored; nothing else in the store changes. |
| Applications.ApplicationManager.SubmitApplication | script.js:169-177 | The pending list and the in-memory list each grow by exactly the new record, at the end. The stored user list becomes the in-memory list plus the record; on a manager in sync with the store, that is the stored list plus the record. Both lists are written. Nothing else changes, apart from the user id that getUserId creates and writes when none is stored. Afterwards the manager is in sync with the store. |
| Applications.ApplicationManager.UpdateApplicationStatuses | script.js:252-266 | The list becomes the reconciled list, with one notification per changed record. The user's list is written back even when nothing changed. Nothing else in the store changes, apart from the user id that getUserId creates and writes when none is stored. |
| Applications.ApplicationManager.ApplyMirror | script.js:257-263 | The in-place pass over the in-memory list leaves exactly the reconciled list. Its notices are the status changes, in loop order. |
| Applications.ApplicationManager.LoadApplications | script.js:305-309 | Returns the resolved user's stored list, or the empty list. On a manager in sync with the store, that is the in-memory list. |
| Applications.ApplicationManager.SaveApplications | script.js:312-315 | Writes the in-memory list under "userApplications_" + the user id. Nothing else in the store changes, apart from the user id that getUserId creates and writes when none is stored. |
| Applications.ApplicationManager.TrackApplication | script.js:318-330 | Returns the first of the user's records with the id, or not-found exactly when none has it. |
| Notifications.UnreadFor | script.js:353-355 | An entry of the list is delivered exactly when it is unread and belongs to the stored user: every delivered notification is such an entry, and every such entry is delivered. |
| Notifications.UnreadForAppend | script.js:353-355 | Filtering a concatenation is concatenating the filtered parts, so the delivered notifications keep their list order. |
| Notifications.MarkOne | script.js:361 | One entry: `read` becomes true exactly when the entry belongs to the stored user, and the user id and message are kept. |
| Notifications.MarkRead | script.js:359-362 | Same length and order. An entry becomes read exactly when it belongs to the stored user, and nothing else changes. |
| Notifications.DeliveredCountIsFlippedCount | script.js:357-362 | The number of notifications delivered, which is the badge count, equals the number of entries the poll changes. |
| Notifications.DeliveredOnce | script.js:353-362 | After a poll, nothing is left to deliver to that user, so no notification is delivered twice. |
| Notifications.NothingDeliverableNoChange | script.js:357-366 | With nothing to deliver, marking changes nothing, so skipping the write loses nothing. |
| Notifications.TwoOfThreeExample | script.js:353-362 | With two unread notifications for the user and one for another user, exactly the user's two are delivered and marked read. The third stays unread. |
| Notifications.NotificationSystem.constructor | script.js:335-339 | Starts with no badge count and nothing shown. |
| Notifications.NotificationSystem.ScanNotifications | script.js:353-362 | The one pass over the stored list yields exactly the filtered list UnreadFor and the marked list MarkRead. |
| Notifications.NotificationSystem.CheckForNotifications | script.js:348-367 | Shows exactly the user's unread notifications and sets the badge to their number. It writes back the list with exactly those marked read. It writes the store only when that number is positive; otherwise the store is untouched. |
| Notifications.NotificationSystem.UpdateBadge | script.js:369-374 | The badge shows the count only when the page has a badge element. |

## Left out

- DOM and event wiring: listeners, modals, form reset, confirmation popup, CSS injection, and the `window.trackApplication` and `toggleDropdown` globals. They are presentation only.
- The `setInterval` timers and `setTimeout` dismissals. One cycle of each poll is modelled as a method.
- `sendToServer`: network I/O whose failure is swallowed and never affects local state.
- JSON encoding and decoding, and malformed stored JSON. The store holds decoded values.
- `Date.now`, `Math.random`, `toString(36)`, `toUpperCase` and `new Date().toISOString()`. Their rendered strings are inputs.
- The alert text of `trackApplication`; only the lookup result is modelled.
- Races between tabs sharing the store. Execution is single-threaded here.
- The filter and the `forEach` of `checkForNotifications` are fused into one pass over the list. The order of the badge update and the popups within one poll is not modelled.
- JavaScript object quirks: a control whose key is `__proto__` is dropped by the real script, and a status such as `constructor` makes `getStatusColor` return an inherited property instead of the grey default. The model treats these keys like any others.
- Records.DistinctIds: states distinctness only for clocks rendered to the same length; as plain string concatenation, ids from clocks of different lengths can coincide, and the code does nothing to prevent it.
- A mirror record whose status is not a string: the real script copies it and then throws in `notifyStatusChange` when upper-casing it, which stops the pass before the list is saved and leaves the in-memory list partly updated. The model types every status as a string, so this abort is not modelled.
- Notification records with a missing or null `userId` are not modelled (with no stored user id, the real script delivers those whose `userId` is null); every notification carries a string user id.
