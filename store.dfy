/**
 * The key-value store the handlers talk to: every table's items in one map
 * keyed by (table, PK, SK). The operations are those of the document client
 * as the handlers use them: put (full overwrite), get, delete, scan, and a
 * query for one partition with a sort-key prefix.
 *
 * A put or delete first marshals its argument, which refuses any attribute
 * whose value is `undefined` (the client is built without
 * `removeUndefinedValues`); the table then refuses a key part that is not a
 * non-empty string (both key attributes are declared as strings).
 */
module Store {
  import opened Js

  datatype Key = Key(table: string, pk: string, sk: string)

  type Item = map<string, Value>

  type Db = map<Key, Item>

  const UndefinedMessage := "Pass options.removeUndefinedValues=true to remove undefined values from map/array/set."
  const InvalidKeyMessage := "One or more parameter values were invalid: key attributes must be non-empty strings"

  /** An attribute of an item as destructuring reads it: absent is `undefined`. */
  function Attr(item: Item, name: string): (r: Value)
    ensures name in item ==> r == item[name]
    ensures name !in item ==> r == Undefined
  {
    if name in item then item[name] else Undefined
  }

  /** Some attribute of the item holds `undefined`, so marshalling it throws. */
  predicate HasUndefined(item: Item)
  {
    exists k | k in item :: item[k].Undefined?
  }

  /** A key part the table accepts: a non-empty string. */
  predicate KeyPart(v: Value)
  {
    v.Str? && v.s != ""
  }

  /** The key an item is stored under, or the error a put of it raises. */
  function ItemKey(table: string, item: Item): (r: Outcome<Key>)
    ensures r.Ok? <==> !HasUndefined(item) && KeyPart(Attr(item, "PK")) && KeyPart(Attr(item, "SK"))
    ensures r.Ok? ==> r.value == Key(table, Attr(item, "PK").s, Attr(item, "SK").s)
  {
    if HasUndefined(item) then Thrown(UndefinedMessage)
    else if !KeyPart(Attr(item, "PK")) || !KeyPart(Attr(item, "SK")) then Thrown(InvalidKeyMessage)
    else Ok(Key(table, Attr(item, "PK").s, Attr(item, "SK").s))
  }

  /** A stored item carries its own key as its `PK` and `SK` attributes and holds no `undefined`. */
  predicate Carries(item: Item, k: Key)
  {
    && "PK" in item && item["PK"] == Str(k.pk)
    && "SK" in item && item["SK"] == Str(k.sk)
    && k.pk != "" && k.sk != ""
    && !HasUndefined(item)
  }

  /** The store invariant every operation keeps: each item sits under the key it carries. */
  predicate DbValid(db: Db)
  {
    forall k | k in db :: Carries(db[k], k)
  }

  /** `PutCommand`: marshal, derive the key from the item, overwrite whatever was there. */
  function Put(db: Db, table: string, item: Item): (r: Outcome<Db>)
    ensures r.Ok? <==> ItemKey(table, item).Ok?
    ensures r.Ok? ==> var k := ItemKey(table, item).value;
      && r.value == db[k := item]
      && Carries(item, k)
      && (DbValid(db) ==> DbValid(r.value))
  {
    var k :- ItemKey(table, item);
    Ok(db[k := item])
  }

  /** `GetCommand` with string key parts: the item under that key, if any. */
  function Get(db: Db, table: string, pk: string, sk: string): (r: Outcome<Option<Item>>)
    ensures r.Ok? <==> pk != "" && sk != ""
    ensures r.Ok? ==> (r.value.Some? <==> Key(table, pk, sk) in db)
    ensures r.Ok? && r.value.Some? ==> r.value.value == db[Key(table, pk, sk)]
  {
    if pk == "" || sk == "" then Thrown(InvalidKeyMessage)
    else if Key(table, pk, sk) in db then Ok(Some(db[Key(table, pk, sk)]))
    else Ok(None)
  }

  /** `DeleteCommand` with key `{ PK: pk, SK: sk }`: removes that key; a missing key is no error. */
  function Delete(db: Db, table: string, pk: Value, sk: Value): (r: Outcome<Db>)
    ensures r.Ok? <==> KeyPart(pk) && KeyPart(sk)
    ensures r.Ok? ==> r.value == db - {Key(table, pk.s, sk.s)}
    ensures r.Ok? && DbValid(db) ==> DbValid(r.value)
  {
    if pk.Undefined? || sk.Undefined? then Thrown(UndefinedMessage)
    else if !KeyPart(pk) || !KeyPart(sk) then Thrown(InvalidKeyMessage)
    else Ok(db - {Key(table, pk.s, sk.s)})
  }

  /** `ScanCommand`: every item of the table. */
  function Scan(db: Db, table: string): (items: set<Item>)
    ensures forall k | k in db && k.table == table :: db[k] in items
    ensures forall item | item in items :: exists k | k in db && k.table == table :: db[k] == item
  {
    set k | k in db && k.table == table :: db[k]
  }

  /** `QueryCommand` with `PK = pk AND begins_with(SK, prefix)`. */
  function Query(db: Db, table: string, pk: string, prefix: string): (items: set<Item>)
    ensures forall k | k in db && k.table == table && k.pk == pk && prefix <= k.sk :: db[k] in items
    ensures forall item | item in items :: exists k | k in db && k.table == table && k.pk == pk :: prefix <= k.sk && db[k] == item
  {
    set k | k in db && k.table == table && k.pk == pk && prefix <= k.sk :: db[k]
  }

  /**
   * In a valid store a query returns exactly the table's items whose `PK`
   * attribute is `pk` and whose `SK` attribute starts with `prefix`.
   */
  lemma QueryByAttributes(db: Db, table: string, pk: string, prefix: string, item: Item)
    requires DbValid(db)
    ensures item in Query(db, table, pk, prefix) <==>
      exists k | k in db && k.table == table :: db[k] == item
        && item["PK"] == Str(pk) && item["SK"].Str? && prefix <= item["SK"].s
  {
    if item in Query(db, table, pk, prefix) {
      var k :| k in db && k.table == table && k.pk == pk && prefix <= k.sk && db[k] == item;
      assert Carries(db[k], k);
    }
  }

  /** A delete followed by a get of the same key finds nothing. */
  lemma DeleteThenGet(db: Db, table: string, pk: string, sk: string)
    requires pk != "" && sk != ""
    ensures Delete(db, table, Str(pk), Str(sk)).Ok?
    ensures Get(Delete(db, table, Str(pk), Str(sk)).value, table, pk, sk) == Ok(None)
  {
  }

  /** An item that carries a key of the table is stored under that key. */
  lemma PutCarried(db: Db, table: string, item: Item, k: Key)
    requires Carries(item, k) && k.table == table
    ensures Put(db, table, item) == Ok(db[k := item])
  {
  }

  /** A put followed by a get of the item's key finds exactly that item. */
  lemma PutThenGet(db: Db, table: string, item: Item)
    requires Put(db, table, item).Ok?
    ensures Get(Put(db, table, item).value, table, Attr(item, "PK").s, Attr(item, "SK").s) == Ok(Some(item))
  {
  }
}
