# Expense tracker: a verified model of its core

This project models the core of the ShoaibExpenses desktop/web expense tracker in Dafny:

- the dashboard's aggregates: the income, expense and savings totals, expenses grouped by note, and the monthly series;
- the merge that builds an edited record;
- the add/edit record form and its validators;
- the Electron main process, which keeps the SQLite `records` and `users` tables behind an `isDbReady` gate;
- the web build's IndexedDB store and its sample data;
- the storage façade that routes every operation to one of the two backends;
- the session gate: login, the `isLoggedIn` flag, and logout.

The project has one module per source file, plus a module of shared values:

- `Records` (records.dfy) holds the record and credential values, the operation results and errors, the key-ordered listing of a keyed table, and the plain-object view of a record with the spread operator.
- `Dashboard` (dashboard.dfy) models `dashboard.component.ts`. It has a class for the component's totals fields. Grouping and monthly bucketing are methods whose loops are proved against fold functions, and the lemmas are stated about those functions.
- `RecordModal` (record_modal.dfy) models the record dialog's form, validators and events.
- `MainProcess` (main_process.dfy) models `main.js`. The `DesktopStore` class holds the tables, the AUTOINCREMENT counters and the readiness flags. `initDatabase` and the five IPC handlers are its methods.
- `BrowserStore` (browser_store.dfy) models the IndexedDB `records` object store. It covers the key generator, `add`/`put`/`delete`/`getAll`, the upgrade handler and the sample data.
- `DualStorage` (dual_storage.dfy) models `DualStorageService`. The backend is chosen once, and every operation routes on that choice.
- `Auth` (auth.dfy) models `AuthService` and `localStorage`.
- `LoginPage` (login_component.dfy) models `LoginComponent.onLogin`.

A few conventions hold throughout:

- Amounts are exact reals.
- The record's `type` field is called `kind`.
- Date parsing is a parameter `string -> Option<MonthKey>`.
- Each result the source resolves or rejects is a `Result`, whose error names the rejection.

## Model

| member | source | states |
|---|---|---|
| Records.WithId | main.js:166-177 | The stored row keeps the record's date, type, amount and note and carries the new id. |
| Records.ListByKey | main.js:146-153 | A full scan returns every stored record exactly once, with ids strictly ascending, and nothing else. |
| Records.RecordObject | src/app/components/dashboard/dashboard.component.ts:389 | A record's object has `id` exactly when the record has one, holding that id, and the four data fields hold the record's date, type, amount and note (null for no note). |
| Records.RecordObjectInjective | src/app/components/dashboard/dashboard.component.ts:389 | Two records with the same object form are the same record. |
| Records.Spread | src/app/components/dashboard/dashboard.component.ts:394 | `{...base, ...over}` has the keys of both. `over`'s value wins on shared keys, and `base`'s value stays elsewhere. |
| RecordModal.Errors | src/app/components/dashboard/RecordModal/RecordModal/RecordModal.component.ts:20-23 | Each validator reports exactly when its condition fails: date empty, type empty, amount missing, amount below 0. The note has none. |
| RecordModal.FormValid | src/app/components/dashboard/RecordModal/RecordModal/RecordModal.component.ts:37 | The form is valid iff the date is non-empty, the type is non-empty, and the amount is present and at least 0. |
| RecordModal.NoteIsUnchecked | src/app/components/dashboard/RecordModal/RecordModal/RecordModal.component.ts:23 | Changing the note changes neither the errors nor validity. |
| RecordModal.DefaultForm | src/app/components/dashboard/RecordModal/RecordModal/RecordModal.component.ts:19-24 | The new form ('', 'Income', 0, '') reports exactly "date required", so it is invalid. |
| RecordModal.PatchedFrom | src/app/components/dashboard/RecordModal/RecordModal/RecordModal.component.ts:29 | Patching from a record gives each control that record's field of the same name. |
| RecordModal.FormObject | src/app/components/dashboard/RecordModal/RecordModal/RecordModal.component.ts:38 | `form.value` has exactly the keys date, type, amount and note (no `id`), each holding its control's value. |
| RecordModal.RecordModalComponent.constructor | src/app/components/dashboard/RecordModal/RecordModal/RecordModal.component.ts:18-25 | A new dialog has no record, holds the default form, and has emitted nothing. |
| RecordModal.RecordModalComponent.NgOnInit | src/app/components/dashboard/RecordModal/RecordModal/RecordModal.component.ts:27-31 | With a record, the form becomes that record's patch; without one, the form is kept. |
| RecordModal.RecordModalComponent.Save | src/app/components/dashboard/RecordModal/RecordModal/RecordModal.component.ts:36-40 | `onSave` gets the form value once if the form is valid and nothing otherwise. |
| RecordModal.RecordModalComponent.Close | src/app/components/dashboard/RecordModal/RecordModal/RecordModal.component.ts:41-43 | `onClose` fires once, and nothing is added to the saved values. |
| RecordModal.SaveUntouchedNewRecord | src/app/components/dashboard/RecordModal/RecordModal/RecordModal.component.ts:36-40 | Saving an untouched new-record dialog emits nothing. |
| Dashboard.OfKind | src/app/components/dashboard/dashboard.component.ts:52-53 | The filter keeps only records of exactly that type, each drawn from the input. |
| Dashboard.OfKindKeepsAll | src/app/components/dashboard/dashboard.component.ts:52-53 | The filter keeps each record of that type as many times as it occurs, and no other record. |
| Dashboard.SumAmounts | src/app/components/dashboard/dashboard.component.ts:54-58 | The `reduce` sum of amounts is never negative when no amount is. |
| Dashboard.TotalsOf | src/app/components/dashboard/dashboard.component.ts:51-61 | Savings is income minus expense. When income > 0, the percentage times income is savings × 100; otherwise the percentage is 0. |
| Dashboard.OtherKindsIgnored | src/app/components/dashboard/dashboard.component.ts:52-57 | A record whose type is neither 'Income' nor 'Expense' changes none of the four totals, wherever it sits in the list. |
| Dashboard.TotalsAdd | src/app/components/dashboard/dashboard.component.ts:52-57 | Income and expense over a concatenation are the sums over its parts. |
| Dashboard.TotalsOfOne | src/app/components/dashboard/dashboard.component.ts:51-61 | A single record adds its full amount to the total of its own type, and nothing to the other. |
| Dashboard.TotalsOfNoRecords | src/app/components/dashboard/dashboard.component.ts:60-61 | An empty list gives all four values 0. |
| Dashboard.TotalsOfIncomeAndExpense | src/app/components/dashboard/dashboard.component.ts:51-61 | Income 100 and expense 40 give savings 60 and 60%. |
| Dashboard.SavingsPercentageAtMost100 | src/app/components/dashboard/dashboard.component.ts:60-61 | With non-negative amounts, both totals are non-negative and the savings percentage is at most 100. |
| Dashboard.DashboardComponent.constructor | src/app/components/dashboard/dashboard.component.ts:15-19 | The component starts with no records and all four totals 0. |
| Dashboard.DashboardComponent.CalculateTotals | src/app/components/dashboard/dashboard.component.ts:51-61 | The four fields become the totals of the current records. |
| Dashboard.TrimmedEmptyIffBlank | src/app/components/dashboard/dashboard.component.ts:310 | `note.trim() === ''` holds exactly when the note is all ECMAScript white space. |
| Dashboard.Category | src/app/components/dashboard/dashboard.component.ts:310 | The category is the note unchanged when it is present and not blank, and 'Uncategorized' otherwise. |
| Dashboard.DashboardComponent.GroupExpensesByNote | src/app/components/dashboard/dashboard.component.ts:306-319 | The keys are exactly the categories that occur, and each value is the sum of the amounts in that category. |
| Dashboard.CategoryTotalsAddUp | src/app/components/dashboard/dashboard.component.ts:307-318 | The category totals over any duplicate-free list that covers every category add up to the total amount. |
| Dashboard.GroupedValuesAddUp | src/app/components/dashboard/dashboard.component.ts:307-318 | The grouped values together sum to the total input amount. |
| Dashboard.BlankNotesShareUncategorized | src/app/components/dashboard/dashboard.component.ts:310 | An empty note and a blank note fall into the single 'Uncategorized' key, whose total is their sum. |
| Dashboard.GroupAsWritten | src/app/components/dashboard/dashboard.component.ts:306-319 | As written, every category that occurs gets an entry except '__proto__', and no other key appears. |
| Dashboard.InheritedNameBecomesText | src/app/components/dashboard/dashboard.component.ts:311-312 | As written, an expense noted 'toString' makes its grouped value text rather than a number (see Findings). |
| Dashboard.ProtoNoteIsLost | src/app/components/dashboard/dashboard.component.ts:311-314 | As written, an expense noted '__proto__' leaves no entry, although its category total is 5000. |
| Dashboard.AsWrittenAgreesOffPrototype | src/app/components/dashboard/dashboard.component.ts:309-316 | As written, the grouping agrees with the corrected one on every category that names no inherited property. |
| Dashboard.InsertChronological | src/app/components/dashboard/dashboard.component.ts:348-350 | Inserting a new month into a chronological list keeps it chronological and adds exactly that month. |
| Dashboard.SortChronologically | src/app/components/dashboard/dashboard.component.ts:348-350 | The distinct month keys come out in ascending (year, month) order, the same months and as many. |
| Dashboard.ChronologicalIsUnique | src/app/components/dashboard/dashboard.component.ts:348-350 | Two chronological lists of the same months are equal, so the order does not depend on the input order. |
| Dashboard.DashboardComponent.GetMonthlyData | src/app/components/dashboard/dashboard.component.ts:321-356 | The three arrays have equal length. The months are distinct and ascending and are exactly the months of records with parseable dates. Index i of income and expense is that month's total of that type. |
| Dashboard.RecordContribution | src/app/components/dashboard/dashboard.component.ts:326-342 | An unparseable date adds no month. A parseable one adds its month, even for other types, and adds its amount only to its own month and its own type. |
| Dashboard.MonthsOfIgnoresOrder | src/app/components/dashboard/dashboard.component.ts:324-332 | Two lists holding the same records in any order have the same months. |
| Dashboard.MonthSumIgnoresOrder | src/app/components/dashboard/dashboard.component.ts:334-342 | Two lists holding the same records in any order have the same total in every month and type. |
| Dashboard.MonthlyDataIgnoresOrder | src/app/components/dashboard/dashboard.component.ts:324-346 | For any two lists holding the same records in any order, the months and every monthly total agree. |
| Dashboard.EditedRecord | src/app/components/dashboard/dashboard.component.ts:394 | The update sent has the original record's keys, keeps its `id`, and takes the date, type, amount and note from the form. |
| Dashboard.EditKeepsId | src/app/components/dashboard/dashboard.component.ts:394 | For a form with an amount, the update sent is exactly the original record with its four data fields replaced and its `id` kept. |
| MainProcess.DesktopStore.constructor | main.js:5-6 | A new process starts with `db` unassigned, `isDbReady` false, and no tables. |
| MainProcess.DesktopStore.Restart | main.js:5-6 | A new process on the same file starts with the module variables unset and the tables as they were. |
| MainProcess.DesktopStore.Ready | main.js:99-103 | The gate opens only when `isDbReady` is set and `db` is assigned; on a consistent store both tables and a user row then exist. |
| MainProcess.DesktopStore.InitDatabase | main.js:23-96 | See the note below the table. |
| MainProcess.DesktopStore.LoginResult | main.js:115-139 | The reply is the gate's rejection when not ready. Otherwise `success` is true iff some user row matches both username and password exactly. |
| MainProcess.DesktopStore.LoginUser | main.js:115-139 | The handler's scan of the users table yields exactly that reply. |
| MainProcess.DesktopStore.GetRecords | main.js:141-159 | When not ready, the handler rejects. Otherwise it returns every row of the table once, in id order. |
| MainProcess.DesktopStore.AddRecord | main.js:161-184 | See the note below the table. |
| MainProcess.DesktopStore.UpdateRecord | main.js:188-211 | When not ready, the handler rejects. Otherwise, if the record's id is stored, it overwrites that row and reports 1; if not, it reports 0 and changes nothing. Other rows and the counter are untouched. |
| MainProcess.DesktopStore.DeleteRecord | main.js:213-231 | When not ready, the handler rejects. Otherwise it removes only that id and reports 1 if the id was stored, 0 if not. |
| MainProcess.HandlersRejectBeforeInit | main.js:99-103 | Before initialisation all five handlers reject with "not initialized". |
| MainProcess.SeedOnceAcrossRestarts | main.js:61-85 | Initialising, restarting and initialising again leaves exactly one user row, and `admin`/`1234` logs in. |
| MainProcess.FailedSeedKeepsGateClosed | main.js:69-80 | When the default-user insert fails, the tables exist but the handlers keep rejecting. |
| MainProcess.AddDeleteAdd | main.js:161-231 | Ids are 1, then 2 after 1 was deleted. Deleting the same id twice reports 1 and then 0. |
| MainProcess.AddedRowIsListed | main.js:141-184 | A row just added appears, under its new id, in the next listing. |
| BrowserStore.SampleRecords | src/app/services/dual-storage.service.ts:68-72 | There are three sample records, none with an id. |
| BrowserStore.Seeded | src/app/services/dual-storage.service.ts:74-76 | Exactly the keys start to start + n - 1 are used, and key start + i holds sample row i with that id. |
| BrowserStore.RecordsDatabase.constructor | src/app/services/dual-storage.service.ts:26 | Before the first open, no database exists and the key generator starts at 1. |
| BrowserStore.RecordsDatabase.Add | src/app/services/dual-storage.service.ts:111-119 | See the note below the table. |
| BrowserStore.RecordsDatabase.Put | src/app/services/dual-storage.service.ts:133-136 | `put` stores the record under its id, replacing or inserting. A record without an id gets a generated key. |
| BrowserStore.RecordsDatabase.Delete | src/app/services/dual-storage.service.ts:150-153 | Afterwards the key is absent, whether or not it was present before. |
| BrowserStore.RecordsDatabase.GetAll | src/app/services/dual-storage.service.ts:92-99 | `getAll` returns every stored record once, in key order. |
| BrowserStore.RecordsDatabase.AddSampleData | src/app/services/dual-storage.service.ts:58-81 | An empty store receives the three samples under the next three keys. A non-empty store is left unchanged. |
| BrowserStore.RecordsDatabase.AddSampleDataAsWritten | src/app/services/dual-storage.service.ts:59 | During an upgrade, opening its own transaction fails and nothing is added. Outside one it adds the samples to an empty store, as `AddSampleData` does. |
| BrowserStore.RecordsDatabase.OnUpgradeNeeded | src/app/services/dual-storage.service.ts:39-53 | Corrected (see Findings). The database reaches version 1. The `records` store exists afterwards and is created only when absent. An empty store is seeded with the samples. |
| BrowserStore.RecordsDatabase.OnUpgradeNeededAsWritten | src/app/services/dual-storage.service.ts:39-53 | As written, the store exists afterwards but its contents are unchanged. |
| BrowserStore.RecordsDatabase.Open | src/app/services/dual-storage.service.ts:24-55 | Corrected (see Findings). An error changes nothing. The first open upgrades and seeds the store, and a later open leaves the records as they are. |
| BrowserStore.RecordsDatabase.OpenAsWritten | src/app/services/dual-storage.service.ts:24-55 | As written, no open ever changes the records. |
| BrowserStore.FirstOpenAsWritten | src/app/services/dual-storage.service.ts:52 | As written, the first open succeeds with an empty store (see Findings). |
| BrowserStore.FirstOpenSeeds | src/app/services/dual-storage.service.ts:63-79 | Corrected, the first open stores the three samples under keys 1–3, and a second open adds nothing. |
| DualStorage.DualStorageService.constructor | src/app/services/dual-storage.service.ts:7 | `isElectron` is fixed at creation: true iff `window.electronAPI` is present. |
| DualStorage.DualStorageService.InitDB | src/app/services/dual-storage.service.ts:13-21 | Corrected (see Findings). In Electron mode it does nothing. In web mode it opens the database, connects on success and reaches version 1. A new database gets the three samples and its key generator moves on by 3; a reopen keeps records and generator; a failed open changes nothing. |
| DualStorage.DualStorageService.GetRecords | src/app/services/dual-storage.service.ts:85-103 | Electron mode gives the handler's outcome. Web mode gives every stored record in key order, or a rejection before the database is open. |
| DualStorage.DualStorageService.AddRecord | src/app/services/dual-storage.service.ts:105-123 | Electron mode gives the handler's outcome unchanged. Web mode gives the `add` outcome with its generated key, or a rejection before the database is open. In Electron mode the users table, the user counter, the table flags, `db` and `isDbReady` stay as they were. |
| DualStorage.DualStorageService.UpdateRecord | src/app/services/dual-storage.service.ts:125-140 | Electron mode gives the handler's outcome unchanged. Web mode does a `put` and always reports 1 change. In Electron mode the users table, the user counter, the table flags, `db` and `isDbReady` stay as they were. |
| DualStorage.DualStorageService.DeleteRecord | src/app/services/dual-storage.service.ts:142-157 | Electron mode gives the handler's outcome unchanged. Web mode removes the key and always reports 1 change. In Electron mode the users table, the user counter, the table flags, `db` and `isDbReady` stay as they were. |
| DualStorage.DualStorageService.LoginUser | src/app/services/dual-storage.service.ts:161-172 | Electron mode gives the handler's reply. Web mode gives success iff the credentials are exactly `admin`/`1234`. |
| DualStorage.FailedOpenThenSeeds | src/app/services/dual-storage.service.ts:24-55 | Corrected (see Findings). After a failed first open, the next open still creates the database and stores the three samples under keys 1–3. |
| DualStorage.MissingIdDiverges | src/app/services/dual-storage.service.ts:125-157 | For an id that is not stored, SQLite reports 0 changes and stores nothing. The web store reports 1 change for both update and delete, and its update inserts the row. |
| Auth.AuthService.constructor | src/app/services/login.service.ts:8 | `isElectron` is fixed at creation: true iff `window.electronAPI` is present. |
| Auth.AuthService.Login | src/app/services/login.service.ts:10-27 | In a browser, the result is true iff the credentials are `admin`/`1234`. Under Electron, it is exactly the bridge's `success`, and a rejected call gives false. |
| Auth.AuthService.IsLoggedIn | src/app/services/login.service.ts:29-31 | True iff the stored `isLoggedIn` value is exactly 'true'. |
| Auth.AuthService.Logout | src/app/services/login.service.ts:33-35 | Only `isLoggedIn` is removed, so the session is closed and every other key keeps its value. |
| Auth.FlagMustBeExactlyTrue | src/app/services/login.service.ts:29-31 | Any stored flag value other than 'true' reads as logged out. |
| LoginPage.LoginComponent.constructor | src/app/components/login/login.component.ts:15-19 | Username, password and error message all start as ''. |
| LoginPage.LoginComponent.OnLogin | src/app/components/login/login.component.ts:21-31 | See the note below the table. |
| LoginPage.FailThenSucceedThenLogout | src/app/components/login/login.component.ts:21-31 | A wrong password opens no session and shows the error. The right one opens the session and the dashboard, and the old message stays. Logout closes the session. |

Notes for the rows whose contracts are longer:

- MainProcess.DesktopStore.InitDatabase:
  - `db` is assigned even when the connection fails.
  - Each table exists afterwards iff it existed before or its step completed.
  - `admin`/`1234` is inserted only into an empty users table, and only if the insert step completes.
  - The user id counter advances exactly when the default user is inserted.
  - `isDbReady` is set only when every step completes, and it is never cleared.
- MainProcess.DesktopStore.AddRecord:
  - When not ready, the handler rejects and changes nothing.
  - Otherwise it stores the date, type, amount and note under last id + 1 and returns that id.
  - The new id is larger than every key, so it is never reused.
- BrowserStore.RecordsDatabase.Add:
  - A record without an id is stored under the generator's next key, which is returned.
  - A record with an id is stored under that id; a taken key fails and changes nothing.
- LoginPage.LoginComponent.OnLogin:
  - `login` receives the current username and password.
  - On success, `isLoggedIn` becomes 'true' and '/dashboard' is navigated to. The error message is unchanged.
  - On failure, the message becomes 'Invalid username or password'. Storage is untouched and there is no navigation.

## Left out

- Chart.js rendering: chart creation and destruction, tooltip and tick callbacks, `toLocaleString`, and the placeholder chart (dashboard.component.ts:64-305). These are library configuration and are not part of this model.
- Dashboard.DashboardComponent.GetMonthlyData: `new Date(...)`, `toLocaleDateString` labels and their time-zone effects are replaced by a parse parameter to (year, month). The buckets are keyed and ordered by that pair rather than by the 'Jan 2024' label text, whose re-parsing in the sort depends on the engine.
- Dashboard.DashboardComponent.GroupExpensesByNote: this models the evidently intended grouping. As written, notes that name `Object.prototype` members behave differently (see Findings).
- Dashboard.Category: the source keys on the untrimmed note; only the blankness test trims.
- DualStorage.DualStorageService.InitDB: uses the corrected upgrade handler, which seeds a new database; the source as written adds no samples (see Findings).
- JavaScript numbers are doubles. Amounts are exact reals here, so rounding, NaN and string concatenation of amounts are not modelled.
- Asynchrony: promises, IPC transport, the context bridge (preload.js) and the race between `initDatabase` and early handler calls are not modelled. Operations are sequential method calls.
- Driver failures: sqlite3 errors during the handlers, and IndexedDB request errors other than a key collision, are not modelled. Initialisation failures are a parameter naming the failing step.
- MainProcess.DesktopStore.GetRecords: `SELECT *` without `ORDER BY` has no guaranteed order. The model lists in id order, as a rowid table scan does. The web store's `getAll` is key-ordered by definition.
- MainProcess.DesktopStore.AddRecord: the 64-bit rowid limit and the IndexedDB key generator's 2^53 limit are not modelled.
- Values that fail to bind: a stored `amount` that is not a number is not modelled. `Record.amount` is a real, and the validated form always supplies one.
- The IndexedDB store's `date` and `type` indexes are not modelled, since nothing queries them.
- Web-mode record operations before `initDB` succeeds fail on an unset `this.db`. They are modelled as the rejection `NoConnection`.
- Electron window bootstrapping and the app lifecycle (main.js:8-20, 105-112), console logging, routing, NgbModal and `confirm()` dialogs are not part of this model. Neither are `expense.service.ts`, a plain forwarder to the bridge, and `db.service.ts`, which calls bridge functions the preload script never exposes.
- Passwords are stored and compared as plain text, as in the source.

## Findings

| source | as written | input that shows it | evidently intended | confidence | as-written member | corrected member |
|---|---|---|---|---|---|---|
| src/app/components/dashboard/dashboard.component.ts:311-314 | `grouped` is a plain `{}`, so `grouped[category]` also finds inherited `Object.prototype` members. The truthy inherited function makes `+=` concatenate the amount onto its source text, and a `__proto__` category assigns to the prototype accessor, so its entry is lost. | one expense of 5000 noted 'toString' (or noted '__proto__') | each category maps to the numeric sum of its amounts (an own-property map such as `Object.create(null)` or `Map`) | not executed | Dashboard.InheritedNameBecomesText | Dashboard.DashboardComponent.GroupExpensesByNote |
| src/app/services/dual-storage.service.ts:52 | `addSampleData` opens `db.transaction(...)` from inside `onupgradeneeded`, while the version-change transaction is live. IndexedDB throws `InvalidStateError` there, and the `async` method turns the throw into a rejected promise nobody awaits, so the sample rows are never added. | the first open of the web build in a browser with no `ExpenseTracker` database | the three samples are added to the new, empty store, through the upgrade transaction | not executed | BrowserStore.FirstOpenAsWritten | BrowserStore.FirstOpenSeeds |
