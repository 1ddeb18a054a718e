/**
 * The Electron main process (main.js): the SQLite file `expenses.db` with
 * its `records` and `users` tables, the `isDbReady` gate, `initDatabase`
 * with its one-time seed of the default user, and the five IPC handlers the
 * renderer reaches through `window.electronAPI`.
 */
module MainProcess {
  import opened Records

  /** A row of the `users` table. */
  datatype User = User(id: int, username: string, password: string)

  /** The steps of `initDatabase`, in the order their callbacks run. */
  datatype InitStep =
    | OpenFile             // `new sqlite3.Database('expenses.db', ...)`
    | CreateRecordsTable   // `CREATE TABLE IF NOT EXISTS records ...`
    | CreateUsersTable     // `CREATE TABLE IF NOT EXISTS users ...`
    | CountUsers           // `SELECT COUNT(*) AS count FROM users`
    | InsertDefaultUser    // `INSERT INTO users ... ['admin', '1234']`

  function Rank(s: InitStep): nat {
    match s
    case OpenFile => 0
    case CreateRecordsTable => 1
    case CreateUsersTable => 2
    case CountUsers => 3
    case InsertDefaultUser => 4
  }

  /**
   * `step` completes when initialisation is run with `fault` as the step
   * whose callback reports an error (None: no step fails).
   */
  predicate Completes(fault: Option<InitStep>, step: InitStep) {
    fault.None? || Rank(step) < Rank(fault.value)
  }

  /** The row `SELECT * FROM users WHERE username = ? AND password = ?` selects. */
  predicate RowMatches(u: User, c: Credentials) {
    u.username == c.username && u.password == c.password
  }

  predicate HasUser(users: seq<User>, c: Credentials) {
    exists i :: 0 <= i < |users| && RowMatches(users[i], c)
  }

  /** No two rows share a username (`username TEXT UNIQUE`). */
  predicate UniqueNames(users: seq<User>) {
    forall i, j :: 0 <= i < j < |users| ==> users[i].username != users[j].username
  }

  class DesktopStore {
    /** The module-level `db` has been assigned. */
    var dbAssigned: bool
    /** The module-level `isDbReady`. */
    var ready: bool
    var hasRecordsTable: bool
    var hasUsersTable: bool
    /** The `records` table by `id`. */
    var records: map<int, Record>
    /** The largest `records.id` ever issued (SQLite's `sqlite_sequence` entry). */
    var lastRecordId: int
    var users: seq<User>
    var lastUserId: int

    ghost predicate Valid()
      reads this
    {
      && Keyed(records)
      && lastRecordId >= 0
      && (forall k :: k in records ==> 1 <= k <= lastRecordId)
      && (!hasRecordsTable ==> records == map[])
      && (!hasUsersTable ==> users == [])
      && UniqueNames(users)
      && (ready ==> hasRecordsTable && hasUsersTable && users != [])
    }

    /**
     * What `checkDatabase` lets through: `isDbReady` is set and `db` is
     * assigned, so on a consistent store both tables and a user row exist.
     */
    predicate Ready(): (open: bool)
      reads this
      ensures open ==> dbAssigned && ready
      ensures open && Valid() ==> hasRecordsTable && hasUsersTable && users != []
    {
      ready && dbAssigned
    }

    /** A process started on a new, empty `expenses.db`. */
    constructor ()
      ensures Valid()
      ensures !dbAssigned && !ready && !hasRecordsTable && !hasUsersTable
      ensures records == map[] && lastRecordId == 0 && users == [] && lastUserId == 0
    {
      dbAssigned, ready := false, false;
      hasRecordsTable, hasUsersTable := false, false;
      records, lastRecordId := map[], 0;
      users, lastUserId := [], 0;
    }

    /** A new main process on the same file: the module variables start unset, the tables persist. */
    method Restart()
      requires Valid()
      modifies this`dbAssigned, this`ready
      ensures Valid()
      ensures !dbAssigned && !ready
    {
      dbAssigned, ready := false, false;
    }

    /**
     * `initDatabase`: open the file, create both tables if they do not exist,
     * and insert `admin`/`1234` when the users table is empty. `db` is
     * assigned even when the connection callback reports an error; the
     * first step to fail ends the run, and only a run in which every step
     * completes sets `isDbReady`.
     */
    method InitDatabase(fault: Option<InitStep>) returns (ok: bool)
      requires Valid()
      modifies this`dbAssigned, this`ready, this`hasRecordsTable, this`hasUsersTable, this`users, this`lastUserId
      ensures Valid()
      ensures dbAssigned
      ensures hasRecordsTable == (old(hasRecordsTable) || Completes(fault, CreateRecordsTable))
      ensures hasUsersTable == (old(hasUsersTable) || Completes(fault, CreateUsersTable))
      ensures users == if old(users) == [] && Completes(fault, InsertDefaultUser)
                       then [User(old(lastUserId) + 1, DefaultUsername, DefaultPassword)]
                       else old(users)
      ensures lastUserId == if users != old(users) then old(lastUserId) + 1 else old(lastUserId)
      ensures ok <==> Completes(fault, CountUsers) && (old(users) != [] || Completes(fault, InsertDefaultUser))
      ensures ready == (old(ready) || ok)
    {
      dbAssigned := true;
      ok := false;
      if fault == Some(OpenFile) || fault == Some(CreateRecordsTable) {
        return;
      }
      hasRecordsTable := true;
      if fault == Some(CreateUsersTable) {
        return;
      }
      hasUsersTable := true;
      if fault == Some(CountUsers) {
        return;
      }
      if |users| == 0 {
        if fault == Some(InsertDefaultUser) {
          return;
        }
        lastUserId := lastUserId + 1;
        users := users + [User(lastUserId, DefaultUsername, DefaultPassword)];
      }
      ready := true;
      ok := true;
    }

    /** The `login-user` reply: `success` is whether some user row matches both fields exactly. */
    function LoginResult(c: Credentials): (r: Result<bool>)
      reads this
      ensures r.Err? <==> !Ready()
      ensures r.Err? ==> r.error == NotInitialized
      ensures r == Ok(true) <==> Ready() && exists u :: u in users && RowMatches(u, c)
    {
      if !Ready() then Err(NotInitialized)
      else
        assert forall i :: 0 <= i < |users| ==> users[i] in users;
        Ok(HasUser(users, c))
    }

    /** The `login-user` handler: the gate, then a scan of `users` for a matching row. */
    method LoginUser(c: Credentials) returns (r: Result<bool>)
      ensures r == LoginResult(c)
    {
      if !Ready() {
        return Err(NotInitialized);
      }
      var found := false;
      var i := 0;
      while i < |users| && !found
        invariant 0 <= i <= |users|
        invariant found <==> exists j :: 0 <= j < i && RowMatches(users[j], c)
      {
        found := RowMatches(users[i], c);
        i := i + 1;
      }
      r := Ok(found);
    }

    /** What a `get-records` reply may be: the rejection, or every row once in key order. */
    ghost predicate ListingOutcome(r: Result<seq<Record>>)
      reads this
    {
      if Ready() then r.Ok? && ListsInKeyOrder(r.value, records)
      else r == Err(NotInitialized)
    }

    /** The `get-records` handler: `SELECT * FROM records`. */
    method GetRecords() returns (r: Result<seq<Record>>)
      requires Valid()
      ensures ListingOutcome(r)
    {
      if !Ready() {
        return Err(NotInitialized);
      }
      var rows := ListByKey(records);
      r := Ok(rows);
    }

    /**
     * What an `add-record` call may do: once ready, insert the record's
     * date, type, amount and note under the next AUTOINCREMENT id and reply
     * with that id; otherwise reject and change nothing.
     */
    twostate predicate AddOutcome(rec: Record, new r: Result<int>)
      reads this
    {
      if old(Ready()) then
        && r == Ok(old(lastRecordId) + 1)
        && records == old(records)[r.value := WithId(rec, r.value)]
        && lastRecordId == r.value
      else
        r == Err(NotInitialized) && records == old(records) && lastRecordId == old(lastRecordId)
    }

    /** The `add-record` handler. The id the caller's record carries, if any, is not used. */
    method AddRecord(rec: Record) returns (r: Result<int>)
      requires Valid()
      modifies this`records, this`lastRecordId
      ensures Valid()
      ensures AddOutcome(rec, r)
      ensures r.Ok? ==> r.value !in old(records) && forall k :: k in old(records) ==> k < r.value
    {
      if !Ready() {
        return Err(NotInitialized);
      }
      var id := lastRecordId + 1;
      records := records[id := WithId(rec, id)];
      lastRecordId := id;
      r := Ok(id);
    }

    /**
     * What an `update-record` call may do: once ready, overwrite the four
     * fields of the row whose id the record carries and reply `changes: 1`;
     * reply `changes: 0` and change nothing when no row has that id (or the
     * record has none).
     */
    twostate predicate UpdateOutcome(rec: Record, new r: Result<nat>)
      reads this
    {
      && lastRecordId == old(lastRecordId)
      && if !old(Ready()) then
           r == Err(NotInitialized) && records == old(records)
         else if rec.id.Some? && rec.id.value in old(records) then
           r == Ok(1) && records == old(records)[rec.id.value := rec]
         else
           r == Ok(0) && records == old(records)
    }

    /** The `update-record` handler: `UPDATE records SET ... WHERE id = ?`. */
    method UpdateRecord(rec: Record) returns (r: Result<nat>)
      requires Valid()
      modifies this`records
      ensures Valid()
      ensures UpdateOutcome(rec, r)
    {
      if !Ready() {
        return Err(NotInitialized);
      }
      if rec.id.Some? && rec.id.value in records {
        records := records[rec.id.value := rec];
        r := Ok(1);
      } else {
        r := Ok(0);
      }
    }

    /**
     * What a `delete-record` call may do: once ready, remove the row with
     * that id, replying `changes: 1`, or `changes: 0` when there is none.
     */
    twostate predicate DeleteOutcome(id: int, new r: Result<nat>)
      reads this
    {
      && lastRecordId == old(lastRecordId)
      && if !old(Ready()) then
           r == Err(NotInitialized) && records == old(records)
         else
           r == (if id in old(records) then Ok(1) else Ok(0)) && records == old(records) - {id}
    }

    /** The `delete-record` handler: `DELETE FROM records WHERE id = ?`. */
    method DeleteRecord(id: int) returns (r: Result<nat>)
      requires Valid()
      modifies this`records
      ensures Valid()
      ensures DeleteOutcome(id, r)
    {
      if !Ready() {
        return Err(NotInitialized);
      }
      if id in records {
        records := records - {id};
        r := Ok(1);
      } else {
        r := Ok(0);
      }
    }
  }

  /** Before `initDatabase` has finished, every handler rejects with the gate's error. */
  method HandlersRejectBeforeInit(c: Credentials, rec: Record, id: int)
    returns (login: Result<bool>, listing: Result<seq<Record>>, added: Result<int>,
             updated: Result<nat>, deleted: Result<nat>)
    ensures login == Err(NotInitialized) && listing == Err(NotInitialized) && added == Err(NotInitialized)
    ensures updated == Err(NotInitialized) && deleted == Err(NotInitialized)
  {
    var store := new DesktopStore();
    login := store.LoginUser(c);
    listing := store.GetRecords();
    added := store.AddRecord(rec);
    updated := store.UpdateRecord(rec);
    deleted := store.DeleteRecord(id);
  }

  /**
   * Initialising, restarting and initialising again seeds the default user
   * once: the users table holds that one row, and it logs in.
   */
  method SeedOnceAcrossRestarts() returns (userRows: nat, login: Result<bool>)
    ensures userRows == 1
    ensures login == Ok(true)
  {
    var store := new DesktopStore();
    var ok := store.InitDatabase(None);
    store.Restart();
    ok := store.InitDatabase(None);
    userRows := |store.users|;
    login := store.LoginUser(Credentials(DefaultUsername, DefaultPassword));
    assert RowMatches(store.users[0], Credentials(DefaultUsername, DefaultPassword));
  }

  /**
   * A failed default-user insert leaves `isDbReady` unset, so the handlers
   * keep rejecting although both tables exist.
   */
  method FailedSeedKeepsGateClosed() returns (tables: bool, listing: Result<seq<Record>>)
    ensures tables
    ensures listing == Err(NotInitialized)
  {
    var store := new DesktopStore();
    var ok := store.InitDatabase(Some(InsertDefaultUser));
    tables := store.hasRecordsTable && store.hasUsersTable;
    listing := store.GetRecords();
  }

  /**
   * AUTOINCREMENT ids are never reused: a record added after the newest
   * row was deleted gets a new id, and deleting the same id twice reports
   * one change, then none.
   */
  method AddDeleteAdd(rec: Record) returns (first: Result<int>, second: Result<int>,
                                            deletedOnce: Result<nat>, deletedTwice: Result<nat>)
    ensures first == Ok(1) && second == Ok(2)
    ensures deletedOnce == Ok(1) && deletedTwice == Ok(0)
  {
    var store := new DesktopStore();
    var ok := store.InitDatabase(None);
    first := store.AddRecord(rec);
    deletedOnce := store.DeleteRecord(1);
    deletedTwice := store.DeleteRecord(1);
    second := store.AddRecord(rec);
  }

  /** A row just added appears, with the new id, in the next listing. */
  method AddedRowIsListed(rec: Record) returns (added: Result<int>, listing: Result<seq<Record>>)
    ensures added.Ok? && listing.Ok?
    ensures WithId(rec, added.value) in listing.value
  {
    var store := new DesktopStore();
    var ok := store.InitDatabase(None);
    added := store.AddRecord(rec);
    listing := store.GetRecords();
    assert added.value in store.records;
  }
}
