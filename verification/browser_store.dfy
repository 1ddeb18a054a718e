/**
 * The web build's database (the IndexedDB branch of
 * dual-storage.service.ts): the `ExpenseTracker` database at version 1
 * with one object store, `records`, keyed by `id` with a key generator,
 * created on the first open together with three sample rows.
 */
module BrowserStore {
  import opened Records

  const DbVersion: nat := 1

  /** The rows `addSampleData` adds, in the order it adds them. */
  function SampleRecords(): (s: seq<Record>)
    ensures |s| == 3
    ensures forall i :: 0 <= i < |s| ==> s[i].id.None?
  {
    [ Record(None, "2024-01-15", "Income", 50000.0, Some("Salary")),
      Record(None, "2024-01-16", "Expense", 5000.0, Some("Karachi Committee")),
      Record(None, "2024-01-17", "Expense", 3000.0, Some("Medicine")) ]
  }

  /** The first `n` sample rows stored under the generated keys `start`, `start + 1`, .... */
  function Seeded(start: int, n: nat): (t: map<int, Record>)
    requires n <= |SampleRecords()|
    ensures forall k :: k in t <==> start <= k < start + n
    ensures Keyed(t)
    ensures forall i :: 0 <= i < n ==> t[start + i] == WithId(SampleRecords()[i], start + i)
  {
    if n == 0 then map[]
    else Seeded(start, n - 1)[start + n - 1 := WithId(SampleRecords()[n - 1], start + n - 1)]
  }

  function Max(a: int, b: int): int {
    if a < b then b else a
  }

  class RecordsDatabase {
    /** The database's version; 0 while no database of this name exists. */
    var version: nat
    var hasRecordsStore: bool
    /** The `records` object store by key. */
    var records: map<int, Record>
    /** The store's key generator: the next key it hands out. */
    var nextKey: int
    /** A version-change (upgrade) transaction is live on the connection. */
    var upgrading: bool

    ghost predicate Valid()
      reads this
    {
      && Keyed(records)
      && nextKey >= 1
      && (forall k :: k in records ==> k < nextKey)
      && (!hasRecordsStore ==> records == map[])
      && version <= DbVersion
      && (version == DbVersion ==> hasRecordsStore)
      && (version == 0 ==> !hasRecordsStore)
    }

    /** No database named `ExpenseTracker` exists yet. */
    constructor ()
      ensures Valid() && !upgrading
      ensures version == 0 && !hasRecordsStore && records == map[] && nextKey == 1
    {
      version, hasRecordsStore := 0, false;
      records, nextKey := map[], 1;
      upgrading := false;
    }

    /**
     * What `store.add(record)` may do: a record without an id is stored
     * under the generator's next key, which the generator then passes; a
     * record with an id is stored under that id unless the key is taken,
     * which fails the request and changes nothing.
     */
    twostate predicate AddOutcome(rec: Record, new r: Result<int>)
      reads this
    {
      match rec.id
      case None =>
        && r == Ok(old(nextKey))
        && records == old(records)[old(nextKey) := WithId(rec, old(nextKey))]
        && nextKey == old(nextKey) + 1
      case Some(k) =>
        if k in old(records) then
          r == Err(KeyExists) && records == old(records) && nextKey == old(nextKey)
        else
          r == Ok(k) && records == old(records)[k := rec] && nextKey == Max(old(nextKey), k + 1)
    }

    method Add(rec: Record) returns (r: Result<int>)
      requires Valid() && hasRecordsStore
      modifies this`records, this`nextKey
      ensures Valid()
      ensures AddOutcome(rec, r)
      ensures r.Ok? ==> r.value !in old(records)
    {
      match rec.id
      case None =>
        var key := nextKey;
        records := records[key := WithId(rec, key)];
        nextKey := key + 1;
        r := Ok(key);
      case Some(k) =>
        if k in records {
          r := Err(KeyExists);
        } else {
          records := records[k := rec];
          nextKey := Max(nextKey, k + 1);
          r := Ok(k);
        }
    }

    /**
     * What `store.put(record)` does: store the record under its own id,
     * replacing whatever was there or inserting it if the key was free, or
     * under a generated key when it has no id.
     */
    twostate predicate PutOutcome(rec: Record, new key: int)
      reads this
    {
      && key == (if rec.id.Some? then rec.id.value else old(nextKey))
      && records == old(records)[key := WithId(rec, key)]
      && nextKey == (if rec.id.Some? then Max(old(nextKey), key + 1) else old(nextKey) + 1)
    }

    method Put(rec: Record) returns (key: int)
      requires Valid() && hasRecordsStore
      modifies this`records, this`nextKey
      ensures Valid()
      ensures PutOutcome(rec, key)
    {
      if rec.id.Some? {
        key := rec.id.value;
        nextKey := Max(nextKey, key + 1);
      } else {
        key := nextKey;
        nextKey := key + 1;
      }
      records := records[key := WithId(rec, key)];
    }

    /** `store.delete(id)`: the key is gone afterwards, whether or not it was there. */
    method Delete(id: int)
      requires Valid()
      modifies this`records
      ensures Valid()
      ensures records == old(records) - {id}
    {
      records := records - {id};
    }

    /** `store.getAll()`: every stored record once, in key order. */
    method GetAll() returns (rows: seq<Record>)
      requires Valid()
      ensures ListsInKeyOrder(rows, records)
    {
      rows := ListByKey(records);
    }

    /**
     * The three sample rows, added one `store.add` at a time, only when the
     * store's count is 0.
     */
    method AddSampleData()
      requires Valid() && hasRecordsStore
      modifies this`records, this`nextKey
      ensures Valid()
      ensures old(|records|) == 0 ==> records == Seeded(old(nextKey), 3) && nextKey == old(nextKey) + 3
      ensures old(|records|) != 0 ==> records == old(records) && nextKey == old(nextKey)
    {
      if |records| == 0 {
        var samples := SampleRecords();
        ghost var start := nextKey;
        for i := 0 to |samples|
          invariant Valid()
          invariant records == Seeded(start, i)
          invariant nextKey == start + i
        {
          var r := Add(samples[i]);
          assert records == Seeded(start, i + 1);
        }
      }
    }

    /**
     * `addSampleData` as written: it opens its own transaction with
     * `db.transaction(...)`, which IndexedDB refuses with an
     * `InvalidStateError` while a version change is live; being `async`,
     * the method then ends in a rejected promise nobody awaits.
     */
    method AddSampleDataAsWritten() returns (r: Result<()>)
      requires Valid() && hasRecordsStore
      modifies this`records, this`nextKey
      ensures Valid()
      ensures upgrading ==> r == Err(UpgradeRunning) && records == old(records) && nextKey == old(nextKey)
      ensures !upgrading ==> r == Ok(())
      ensures !upgrading && old(|records|) == 0 ==> records == Seeded(old(nextKey), 3) && nextKey == old(nextKey) + 3
      ensures !upgrading && old(|records|) != 0 ==> records == old(records) && nextKey == old(nextKey)
    {
      if upgrading {
        return Err(UpgradeRunning);
      }
      AddSampleData();
      r := Ok(());
    }

    /**
     * `onupgradeneeded`: create the `records` store (with its `date` and
     * `type` indexes) unless it exists, then add the sample rows from within
     * the upgrade transaction.
     */
    method OnUpgradeNeeded()
      requires Valid() && !upgrading
      modifies this`version, this`hasRecordsStore, this`records, this`nextKey, this`upgrading
      ensures Valid() && !upgrading
      ensures version == DbVersion && hasRecordsStore
      ensures old(|records|) == 0 ==> records == Seeded(old(nextKey), 3) && nextKey == old(nextKey) + 3
      ensures old(|records|) != 0 ==> records == old(records) && nextKey == old(nextKey)
    {
      upgrading := true;
      version := DbVersion;
      if !hasRecordsStore {
        hasRecordsStore := true;
      }
      AddSampleData();
      upgrading := false;
    }

    /** `onupgradeneeded` as written: the sample-data step fails, so the store stays as it was. */
    method OnUpgradeNeededAsWritten()
      requires Valid() && !upgrading
      modifies this`version, this`hasRecordsStore, this`records, this`nextKey, this`upgrading
      ensures Valid() && !upgrading
      ensures version == DbVersion && hasRecordsStore
      ensures records == old(records) && nextKey == old(nextKey)
    {
      upgrading := true;
      version := DbVersion;
      if !hasRecordsStore {
        hasRecordsStore := true;
      }
      var seeded := AddSampleDataAsWritten();
      upgrading := false;
    }

    /**
     * `indexedDB.open('ExpenseTracker', 1)`: an error leaves everything as
     * it was; a database older than version 1 (one that does not exist yet)
     * is upgraded first.
     */
    method Open(fails: bool) returns (r: Result<()>)
      requires Valid() && !upgrading
      modifies this
      ensures Valid() && !upgrading
      ensures fails ==> r == Err(OpenFailed) && records == old(records) && version == old(version)
      ensures fails ==> nextKey == old(nextKey) && hasRecordsStore == old(hasRecordsStore)
      ensures !fails ==> r == Ok(()) && version == DbVersion && hasRecordsStore
      ensures !fails && old(version) == 0 ==> records == Seeded(old(nextKey), 3) && nextKey == old(nextKey) + 3
      ensures old(version) == DbVersion ==> records == old(records) && nextKey == old(nextKey)
    {
      if fails {
        return Err(OpenFailed);
      }
      if version < DbVersion {
        OnUpgradeNeeded();
      }
      r := Ok(());
    }

    /** `Open` with the upgrade handler as written. */
    method OpenAsWritten(fails: bool) returns (r: Result<()>)
      requires Valid() && !upgrading
      modifies this
      ensures Valid() && !upgrading
      ensures fails ==> r == Err(OpenFailed) && records == old(records) && version == old(version)
      ensures fails ==> nextKey == old(nextKey) && hasRecordsStore == old(hasRecordsStore)
      ensures !fails ==> r == Ok(()) && version == DbVersion && hasRecordsStore
      ensures records == old(records) && nextKey == old(nextKey)
    {
      if fails {
        return Err(OpenFailed);
      }
      if version < DbVersion {
        OnUpgradeNeededAsWritten();
      }
      r := Ok(());
    }
  }

  /** As written, the first open of the web database leaves the `records` store empty. */
  method FirstOpenAsWritten() returns (openResult: Result<()>, stored: map<int, Record>)
    ensures openResult == Ok(())
    ensures stored == map[]
  {
    var db := new RecordsDatabase();
    openResult := db.OpenAsWritten(false);
    stored := db.records;
  }

  /**
   * With the samples added inside the upgrade transaction, the first open
   * stores the three sample rows under keys 1, 2 and 3, and opening again
   * adds nothing.
   */
  method FirstOpenSeeds() returns (openResult: Result<()>, stored: map<int, Record>, reopened: map<int, Record>)
    ensures openResult == Ok(())
    ensures stored == map[1 := WithId(SampleRecords()[0], 1),
                          2 := WithId(SampleRecords()[1], 2),
                          3 := WithId(SampleRecords()[2], 3)]
    ensures reopened == stored
  {
    var db := new RecordsDatabase();
    openResult := db.Open(false);
    stored := db.records;
    var again := db.Open(false);
    reopened := db.records;
  }
}
