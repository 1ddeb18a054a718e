/**
 * The storage façade (dual-storage.service.ts): one backend chosen at
 * construction from the presence of `window.electronAPI`, then every
 * operation routed on that choice, to the main process's SQLite handlers
 * or to the browser's IndexedDB store.
 */
module DualStorage {
  import opened Records
  import MainProcess
  import BrowserStore

  class DualStorageService {
    /** `window.electronAPI`: the main process behind the bridge, or null in a browser. */
    const electronApi: MainProcess.DesktopStore?
    /** `isElectron`, fixed when the service is created. */
    const isElectron: bool
    /** The browser's `ExpenseTracker` database. */
    const indexedDb: BrowserStore.RecordsDatabase
    /** `this.db` has been assigned by a successful open. */
    var connected: bool

    ghost predicate Valid()
      reads this, electronApi, indexedDb
    {
      && isElectron == (electronApi != null)
      && (electronApi != null ==> electronApi.Valid())
      && indexedDb.Valid() && !indexedDb.upgrading
      && (connected ==> indexedDb.hasRecordsStore)
    }

    constructor (bridge: MainProcess.DesktopStore?, browserDb: BrowserStore.RecordsDatabase)
      requires bridge != null ==> bridge.Valid()
      requires browserDb.Valid() && !browserDb.upgrading
      ensures Valid()
      ensures electronApi == bridge && indexedDb == browserDb && !connected
      ensures isElectron <==> bridge != null
    {
      electronApi := bridge;
      isElectron := bridge != null;
      indexedDb := browserDb;
      connected := false;
    }

    /** `initDB`: nothing in Electron mode; in web mode, open the IndexedDB database. */
    method InitDB(openFails: bool) returns (r: Result<()>)
      requires Valid()
      modifies this`connected, indexedDb
      ensures Valid()
      ensures isElectron ==> r == Ok(()) && connected == old(connected) && unchanged(indexedDb)
      ensures !isElectron ==> r == (if openFails then Err(OpenFailed) else Ok(()))
      ensures !isElectron ==> connected == (old(connected) || !openFails)
      ensures !isElectron && openFails ==>
                && indexedDb.records == old(indexedDb.records) && indexedDb.nextKey == old(indexedDb.nextKey)
                && indexedDb.version == old(indexedDb.version) && indexedDb.hasRecordsStore == old(indexedDb.hasRecordsStore)
      ensures !isElectron && !openFails ==> indexedDb.version == BrowserStore.DbVersion
      ensures !isElectron && !openFails && old(indexedDb.version) == 0 ==>
                && indexedDb.records == BrowserStore.Seeded(old(indexedDb.nextKey), 3)
                && indexedDb.nextKey == old(indexedDb.nextKey) + 3
      ensures !isElectron && old(indexedDb.version) == BrowserStore.DbVersion ==>
                indexedDb.records == old(indexedDb.records) && indexedDb.nextKey == old(indexedDb.nextKey)
    {
      if isElectron {
        return Ok(());
      }
      r := indexedDb.Open(openFails);
      if r.Ok? {
        connected := true;
      }
    }

    /** `getRecords`: the bridge's listing, or every stored record of the web store. */
    method GetRecords() returns (r: Result<seq<Record>>)
      requires Valid()
      ensures isElectron ==> electronApi.ListingOutcome(r)
      ensures !isElectron && connected ==> r.Ok? && ListsInKeyOrder(r.value, indexedDb.records)
      ensures !isElectron && !connected ==> r == Err(NoConnection)
    {
      if isElectron {
        r := electronApi.GetRecords();
      } else if !connected {
        r := Err(NoConnection);
      } else {
        var rows := indexedDb.GetAll();
        r := Ok(rows);
      }
    }

    /** `addRecord`: the bridge's reply unchanged, or `{id: key}` from `store.add`. */
    method AddRecord(rec: Record) returns (r: Result<int>)
      requires Valid()
      modifies electronApi, indexedDb
      ensures Valid()
      ensures isElectron ==> electronApi.AddOutcome(rec, r) && unchanged(indexedDb)
      ensures isElectron ==> electronApi.Ready() == old(electronApi.Ready())
      ensures isElectron ==>
                && electronApi.users == old(electronApi.users) && electronApi.lastUserId == old(electronApi.lastUserId)
                && electronApi.hasRecordsTable == old(electronApi.hasRecordsTable)
                && electronApi.hasUsersTable == old(electronApi.hasUsersTable)
                && electronApi.dbAssigned == old(electronApi.dbAssigned) && electronApi.ready == old(electronApi.ready)
      ensures !isElectron && connected ==> indexedDb.AddOutcome(rec, r)
      ensures !isElectron && !connected ==> r == Err(NoConnection) && unchanged(indexedDb)
    {
      if isElectron {
        r := electronApi.AddRecord(rec);
      } else if !connected {
        r := Err(NoConnection);
      } else {
        r := indexedDb.Add(rec);
      }
    }

    /** `updateRecord`: the bridge's reply unchanged, or `store.put` reported as `{changes: 1}`. */
    method UpdateRecord(rec: Record) returns (r: Result<nat>)
      requires Valid()
      modifies electronApi, indexedDb
      ensures Valid()
      ensures isElectron ==> electronApi.UpdateOutcome(rec, r) && unchanged(indexedDb)
      ensures isElectron ==> electronApi.Ready() == old(electronApi.Ready())
      ensures isElectron ==>
                && electronApi.users == old(electronApi.users) && electronApi.lastUserId == old(electronApi.lastUserId)
                && electronApi.hasRecordsTable == old(electronApi.hasRecordsTable)
                && electronApi.hasUsersTable == old(electronApi.hasUsersTable)
                && electronApi.dbAssigned == old(electronApi.dbAssigned) && electronApi.ready == old(electronApi.ready)
      ensures !isElectron && connected ==> r == Ok(1) && exists key :: indexedDb.PutOutcome(rec, key)
      ensures !isElectron && !connected ==> r == Err(NoConnection) && unchanged(indexedDb)
    {
      if isElectron {
        r := electronApi.UpdateRecord(rec);
      } else if !connected {
        r := Err(NoConnection);
      } else {
        var key := indexedDb.Put(rec);
        r := Ok(1);
      }
    }

    /** `deleteRecord`: the bridge's reply unchanged, or `store.delete` reported as `{changes: 1}`. */
    method DeleteRecord(id: int) returns (r: Result<nat>)
      requires Valid()
      modifies electronApi, indexedDb
      ensures Valid()
      ensures isElectron ==> electronApi.DeleteOutcome(id, r) && unchanged(indexedDb)
      ensures isElectron ==> electronApi.Ready() == old(electronApi.Ready())
      ensures isElectron ==>
                && electronApi.users == old(electronApi.users) && electronApi.lastUserId == old(electronApi.lastUserId)
                && electronApi.hasRecordsTable == old(electronApi.hasRecordsTable)
                && electronApi.hasUsersTable == old(electronApi.hasUsersTable)
                && electronApi.dbAssigned == old(electronApi.dbAssigned) && electronApi.ready == old(electronApi.ready)
      ensures !isElectron && connected ==> r == Ok(1) && indexedDb.records == old(indexedDb.records) - {id}
      ensures !isElectron && connected ==> indexedDb.nextKey == old(indexedDb.nextKey)
      ensures !isElectron && !connected ==> r == Err(NoConnection) && unchanged(indexedDb)
    {
      if isElectron {
        r := electronApi.DeleteRecord(id);
      } else if !connected {
        r := Err(NoConnection);
      } else {
        indexedDb.Delete(id);
        r := Ok(1);
      }
    }

    /** `loginUser`: the bridge's reply, or the web build's fixed `admin`/`1234` check. */
    method LoginUser(c: Credentials) returns (r: Result<bool>)
      requires Valid()
      ensures isElectron ==> r == electronApi.LoginResult(c)
      ensures !isElectron ==> r.Ok? && (r.value <==> IsDefaultCredentials(c))
    {
      if isElectron {
        r := electronApi.LoginUser(c);
      } else {
        r := Ok(IsDefaultCredentials(c));
      }
    }
  }

  /**
   * In a browser, a failed first open leaves no database behind, so the
   * next open still creates it and stores the three samples under keys 1–3.
   */
  method FailedOpenThenSeeds() returns (first: Result<()>, second: Result<()>, stored: map<int, Record>)
    ensures first == Err(OpenFailed) && second == Ok(())
    ensures stored == BrowserStore.Seeded(1, 3)
  {
    var browserDb := new BrowserStore.RecordsDatabase();
    var web := new DualStorageService(null, browserDb);
    first := web.InitDB(true);
    second := web.InitDB(false);
    stored := browserDb.records;
  }

  /**
   * The two backends disagree on a record id that is not stored: SQLite
   * updates and deletes nothing and reports `changes: 0`, while the web
   * store reports `changes: 1` for both, its update having inserted the
   * record.
   */
  method MissingIdDiverges()
    returns (desktopUpdate: Result<nat>, webUpdate: Result<nat>,
             desktopDelete: Result<nat>, webDelete: Result<nat>,
             desktopStored: bool, webStored: bool)
    ensures desktopUpdate == Ok(0) && webUpdate == Ok(1)
    ensures desktopDelete == Ok(0) && webDelete == Ok(1)
    ensures !desktopStored && webStored
  {
    var rec := Record(Some(7), "2024-02-01", "Expense", 10.0, None);

    var desktop := new MainProcess.DesktopStore();
    var ok := desktop.InitDatabase(None);
    var unusedDb := new BrowserStore.RecordsDatabase();
    var electron := new DualStorageService(desktop, unusedDb);
    desktopUpdate := electron.UpdateRecord(rec);
    desktopStored := 7 in desktop.records;
    desktopDelete := electron.DeleteRecord(42);

    var browserDb := new BrowserStore.RecordsDatabase();
    var web := new DualStorageService(null, browserDb);
    var webInit := web.InitDB(false);
    webUpdate := web.UpdateRecord(rec);
    webStored := 7 in browserDb.records;
    webDelete := web.DeleteRecord(42);
  }
}
