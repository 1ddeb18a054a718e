/**
 * Values shared by every part of the expense tracker: the record shape that
 * both stores persist and the dashboard aggregates, credentials, the results
 * and errors the storage operations report, and the plain-object view of a
 * record that the dashboard builds with the spread operator.
 */
module Records {

  datatype Option<+T> = None | Some(value: T)

  /** Why a storage operation rejected. */
  datatype StoreError =
    | NotInitialized   // the desktop handlers' "Database not initialized yet" rejection
    | NoConnection     // the web store was used before its database was opened
    | KeyExists        // IndexedDB `add` of a key that is already stored
    | OpenFailed       // `indexedDB.open` reported an error
    | UpgradeRunning   // IndexedDB `transaction()` called while a version change is live

  datatype Result<+T> = Ok(value: T) | Err(error: StoreError)

  /**
   * One income/expense entry. `id` is absent on a record the form has just
   * produced and present on every stored record; `kind` is the source's
   * `type` field, compared as a plain string ('Income', 'Expense' or anything
   * else); `note` is absent when the stored column is NULL.
   */
  datatype Record = Record(id: Option<int>, date: string, kind: string, amount: real, note: Option<string>)

  datatype Credentials = Credentials(username: string, password: string)

  const DefaultUsername: string := "admin"
  const DefaultPassword: string := "1234"

  /** The one credential pair the desktop seed inserts and the web build hard-codes. */
  predicate IsDefaultCredentials(c: Credentials) {
    c.username == DefaultUsername && c.password == DefaultPassword
  }

  /** The stored copy of `r` under key `id`: the data fields of `r`, the id replaced. */
  function WithId(r: Record, id: int): (s: Record)
    ensures s.id == Some(id)
    ensures s.date == r.date && s.kind == r.kind && s.amount == r.amount && s.note == r.note
  {
    r.(id := Some(id))
  }

  /** Every stored record carries its own key as its id. */
  ghost predicate Keyed(table: map<int, Record>) {
    forall k :: k in table ==> table[k].id == Some(k)
  }

  /** Every row has an id and the ids rise strictly from first to last. */
  predicate IdsAscending(rows: seq<Record>) {
    && (forall i :: 0 <= i < |rows| ==> rows[i].id.Some?)
    && (forall i, j :: 0 <= i < j < |rows| ==> rows[i].id.value < rows[j].id.value)
  }

  /** `rows` lists `table` in key order: each stored record exactly once, nothing else. */
  ghost predicate ListsInKeyOrder(rows: seq<Record>, table: map<int, Record>) {
    && IdsAscending(rows)
    && (forall i :: 0 <= i < |rows| ==> rows[i].id.value in table && table[rows[i].id.value] == rows[i])
    && (forall k :: k in table ==> table[k] in rows)
  }

  /** A finite set of keys that holds `x` has a least element. */
  lemma {:induction false} LeastKeyExists(keys: set<int>, x: int)
    requires x in keys
    ensures exists k :: k in keys && forall j :: j in keys ==> k <= j
    decreases |keys|
  {
    var rest := keys - {x};
    if y :| y in rest {
      assert |rest| < |keys|;
      LeastKeyExists(rest, y);
      var m :| m in rest && forall j :: j in rest ==> m <= j;
      var least := if x < m then x else m;
      forall j | j in keys ensures least <= j {
        if j != x { assert j in rest; }
      }
      assert least in keys;
    } else {
      assert forall j :: j in keys ==> j == x || j in rest;
    }
  }

  /**
   * A full scan of a keyed table (`SELECT * FROM records` on the desktop,
   * `getAll()` on the web store): every stored record once, in key order.
   */
  method ListByKey(table: map<int, Record>) returns (rows: seq<Record>)
    requires Keyed(table)
    ensures ListsInKeyOrder(rows, table)
  {
    rows := [];
    var rest := table.Keys;
    while exists k :: k in rest
      invariant rest <= table.Keys
      invariant IdsAscending(rows)
      invariant forall i :: 0 <= i < |rows| ==> rows[i].id.value in table && table[rows[i].id.value] == rows[i]
      invariant forall k :: k in table && k !in rest ==> table[k] in rows
      invariant forall i, k :: 0 <= i < |rows| && k in rest ==> rows[i].id.value < k
      decreases rest
    {
      var some :| some in rest;
      LeastKeyExists(rest, some);
      var k :| k in rest && forall j :: j in rest ==> k <= j;
      rows := rows + [table[k]];
      rest := rest - {k};
    }
  }

  /** A JavaScript property value, as far as the record objects need one. */
  datatype Value = Null | Num(n: real) | Str(s: string)

  /** A plain JavaScript object: its own enumerable properties. */
  type Object = map<string, Value>

  function NoteValue(note: Option<string>): Value {
    match note
    case None => Null
    case Some(s) => Str(s)
  }

  /** The object form of a record: `id` only when it has one, the four data fields always. */
  function RecordObject(r: Record): (o: Object)
    ensures "id" in o <==> r.id.Some?
    ensures o.Keys - {"id"} == {"date", "type", "amount", "note"}
    ensures o["date"] == Str(r.date) && o["type"] == Str(r.kind)
    ensures o["amount"] == Num(r.amount) && o["note"] == NoteValue(r.note)
    ensures r.id.Some? ==> o["id"] == Num(r.id.value as real)
  {
    var fields := map["date" := Str(r.date), "type" := Str(r.kind), "amount" := Num(r.amount), "note" := NoteValue(r.note)];
    match r.id
    case None => fields
    case Some(id) => fields["id" := Num(id as real)]
  }

  /** The object form of a record determines the record. */
  lemma RecordObjectInjective(a: Record, b: Record)
    requires RecordObject(a) == RecordObject(b)
    ensures a == b
  {
  }

  /**
   * The object spread `{...base, ...over}`: every property of either, and
   * where both have one, the value from `over`.
   */
  function Spread(base: Object, over: Object): (r: Object)
    ensures r.Keys == base.Keys + over.Keys
    ensures forall k :: k in over ==> r[k] == over[k]
    ensures forall k :: k in base && k !in over ==> r[k] == base[k]
  {
    base + over
  }
}
