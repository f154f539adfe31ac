/**
 * The catalog product resource in its dual-write form: a few attributes
 * stay in MySQL, every attribute value also goes into the product
 * document. The relational side is kept as the list of writes the
 * resource issues (`SqlOp`); the document side is the document
 * collection.
 */
module ProductResource {
  import opened Wrappers
  import opened Php
  import opened Digits
  import opened PhpArray
  import opened ScopeCodec
  import opened Documents
  import opened DocStore
  import opened Eav
  import opened CatalogProduct
  import QueryBuilder

  /** The attribute codes kept in MySQL besides the columns of the entity table. */
  const SpecialCodes: seq<string> := [
    "visibility", "status", "price", "tax_class_id", "name", "url_key", "url_path",
    "special_price", "special_from_date", "special_to_date", "msrp", "price_type"
  ]

  /** One pending attribute-value row of a value table. */
  datatype ValueRow = ValueRow(attrId: int, storeId: nat, value: Value)

  /** A relational write the resource issues. */
  datatype SqlOp =
    | InsertEntity(id: Value)
    | UpdateEntity(id: Value)
    | InsertValue(attrId: int, value: Value)
    | UpdateValue(attrId: int, valueId: Value, value: Value)
    | DeleteValues(table: string, valueIds: seq<Value>)
    | SaveValues(table: string, rows: seq<ValueRow>)
    | SaveAttributeRow(code: string)

  /** The ids of the SQL-kept codes that name a known attribute, in code order. */
  function SqlIdsOf(attrs: Catalog, codes: seq<string>): seq<int>
  {
    if codes == [] then []
    else
      SqlIdsOf(attrs, codes[..|codes| - 1]) +
        match ByCode(attrs, codes[|codes| - 1])
        case Some(a) => [a.id]
        case None => []
  }

  /** An id is SQL-kept exactly when it belongs to a known attribute whose code is SQL-kept. */
  lemma {:induction false} SqlIdsOfMember(attrs: Catalog, codes: seq<string>, id: int)
    requires ValidCatalog(attrs)
    ensures id in SqlIdsOf(attrs, codes) <==> exists a :: a in attrs && a.id == id && a.code in codes
  {
    if codes != [] {
      var pre := codes[..|codes| - 1];
      var last := codes[|codes| - 1];
      SqlIdsOfMember(attrs, pre, id);
      assert codes == pre + [last];
      if exists a :: a in attrs && a.id == id && a.code in codes {
        var a :| a in attrs && a.id == id && a.code in codes;
        if a.code == last {
          ByCodeUnique(attrs, a);
        } else {
          assert a.code in pre;
        }
      }
      if id in SqlIdsOf(attrs, codes) && id !in SqlIdsOf(attrs, pre) {
        var a := ByCode(attrs, last).value;
        assert a in attrs && a.id == id && a.code in codes;
      }
    }
  }

  /** `is_numeric` on the forms an id takes: an integer, or an optionally signed string of digits. */
  predicate IsNumeric(v: Value)
  {
    match v
    case Int(_) => true
    case Str(s) =>
      var t := if s != [] && (s[0] == '+' || s[0] == '-') then s[1..] else s;
      t != [] && AllDigits(t)
    case _ => false
  }

  /** An id the save keeps: `!empty($id) && is_numeric($id)`. */
  predicate UsableId(id: Value)
  {
    !PhpEmpty(id) && IsNumeric(id)
  }

  /** The entity row is inserted unless the id is usable and MySQL already holds its row. */
  predicate InsertsEntity(id: Value, rowExists: bool)
  {
    !(UsableId(id) && rowExists)
  }

  /** The product id after the entity row is written: the usable id, else the one MySQL assigned. */
  function SavedId(id: Value, lastInsertId: Value): (r: Value)
    ensures UsableId(id) ==> r == id
    ensures !UsableId(id) ==> r == lastInsertId
  {
    if UsableId(id) then id else lastInsertId
  }

  /** The relational write of the entity row. */
  function EntityOp(id: Value, rowExists: bool): (op: SqlOp)
    ensures op.UpdateEntity? <==> UsableId(id) && rowExists
    ensures op.InsertEntity? && UsableId(id) ==> op.id == id
    ensures op.InsertEntity? && !UsableId(id) ==> op.id == Null
  {
    if !InsertsEntity(id, rowExists) then UpdateEntity(id)
    else if UsableId(id) then InsertEntity(id)
    else InsertEntity(Null)
  }

  /** The value inserts that reach MySQL: those of SQL-kept attribute ids, in order. */
  function SqlInserts(insert: seq<(int, Value)>, ids: seq<int>): (ops: seq<SqlOp>)
    ensures forall i :: 0 <= i < |ops| ==> ops[i].InsertValue? && ops[i].attrId in ids && (ops[i].attrId, ops[i].value) in insert
    ensures forall i :: 0 <= i < |insert| && insert[i].0 in ids ==> InsertValue(insert[i].0, insert[i].1) in ops
  {
    if insert == [] then []
    else
      var pre := insert[..|insert| - 1];
      var (a, v) := insert[|insert| - 1];
      var r := SqlInserts(pre, ids) + (if a in ids then [InsertValue(a, v)] else []);
      assert forall i :: 0 <= i < |insert| - 1 ==> insert[i] == pre[i];
      r
  }

  /** The value updates that reach MySQL: those of SQL-kept attribute ids, in order. */
  function SqlUpdates(update: seq<(int, (Value, Value))>, ids: seq<int>): (ops: seq<SqlOp>)
    ensures forall i :: 0 <= i < |ops| ==> ops[i].UpdateValue? && ops[i].attrId in ids && (ops[i].attrId, (ops[i].valueId, ops[i].value)) in update
    ensures forall i :: 0 <= i < |update| && update[i].0 in ids ==> UpdateValue(update[i].0, update[i].1.0, update[i].1.1) in ops
  {
    if update == [] then []
    else
      var pre := update[..|update| - 1];
      var (a, v) := update[|update| - 1];
      var r := SqlUpdates(pre, ids) + (if a in ids then [UpdateValue(a, v.0, v.1)] else []);
      assert forall i :: 0 <= i < |update| - 1 ==> update[i] == pre[i];
      r
  }

  /** Deletions of emptied values reach MySQL for every table, unfiltered. */
  function Deletes(delete: seq<(string, seq<Value>)>): (ops: seq<SqlOp>)
    ensures |ops| == |delete| && forall i :: 0 <= i < |delete| ==> ops[i] == DeleteValues(delete[i].0, delete[i].1)
  {
    if delete == [] then [] else Deletes(delete[..|delete| - 1]) + [DeleteValues(delete[|delete| - 1].0, delete[|delete| - 1].1)]
  }

  /** The rows of one value table that belong to SQL-kept attributes. */
  function KeepSqlRows(rows: seq<ValueRow>, ids: seq<int>): (r: seq<ValueRow>)
    ensures forall i :: 0 <= i < |r| ==> r[i] in rows && r[i].attrId in ids
    ensures forall i :: 0 <= i < |rows| && rows[i].attrId in ids ==> rows[i] in r
  {
    if rows == [] then []
    else if rows[0].attrId in ids then [rows[0]] + KeepSqlRows(rows[1..], ids)
    else KeepSqlRows(rows[1..], ids)
  }

  /** The pending value rows after pruning: every table keeps only its SQL-kept rows. */
  function PruneTables(tables: seq<(string, seq<ValueRow>)>, ids: seq<int>): (r: seq<(string, seq<ValueRow>)>)
    ensures |r| == |tables|
    ensures forall i :: 0 <= i < |tables| ==> r[i] == (tables[i].0, KeepSqlRows(tables[i].1, ids))
  {
    if tables == [] then []
    else PruneTables(tables[..|tables| - 1], ids) + [(tables[|tables| - 1].0, KeepSqlRows(tables[|tables| - 1].1, ids))]
  }

  /** The flush of the pending value rows, one write per table. */
  function Flush(tables: seq<(string, seq<ValueRow>)>): (ops: seq<SqlOp>)
    ensures |ops| == |tables| && forall i :: 0 <= i < |tables| ==> ops[i] == SaveValues(tables[i].0, tables[i].1)
  {
    if tables == [] then [] else [SaveValues(tables[0].0, tables[0].1)] + Flush(tables[1..])
  }

  /** The insert loop of `_processSaveData`: only SQL-kept attribute ids reach MySQL. */
  method InsertsToSql(insert: seq<(int, Value)>, ids: seq<int>) returns (ops: seq<SqlOp>)
    ensures ops == SqlInserts(insert, ids)
  {
    ops := [];
    var i := 0;
    while i < |insert|
      invariant 0 <= i <= |insert|
      invariant ops == SqlInserts(insert[..i], ids)
    {
      assert insert[..i + 1][..i] == insert[..i];
      if insert[i].0 in ids {
        ops := ops + [InsertValue(insert[i].0, insert[i].1)];
      }
      i := i + 1;
    }
    assert insert[..i] == insert;
  }

  /** The update loop of `_processSaveData`: only SQL-kept attribute ids reach MySQL. */
  method UpdatesToSql(update: seq<(int, (Value, Value))>, ids: seq<int>) returns (ops: seq<SqlOp>)
    ensures ops == SqlUpdates(update, ids)
  {
    ops := [];
    var i := 0;
    while i < |update|
      invariant 0 <= i <= |update|
      invariant ops == SqlUpdates(update[..i], ids)
    {
      assert update[..i + 1][..i] == update[..i];
      if update[i].0 in ids {
        ops := ops + [UpdateValue(update[i].0, update[i].1.0, update[i].1.1)];
      }
      i := i + 1;
    }
    assert update[..i] == update;
  }

  /** The delete loop of `_processSaveData`: every table's emptied values. */
  method DeletesToSql(delete: seq<(string, seq<Value>)>) returns (ops: seq<SqlOp>)
    ensures ops == Deletes(delete)
  {
    ops := [];
    var i := 0;
    while i < |delete|
      invariant 0 <= i <= |delete|
      invariant ops == Deletes(delete[..i])
    {
      assert delete[..i + 1][..i] == delete[..i];
      ops := ops + [DeleteValues(delete[i].0, delete[i].1)];
      i := i + 1;
    }
    assert delete[..i] == delete;
  }

  /** The pruning loop of `_processSaveData` over the pending value rows. */
  method PrunePending(tables: seq<(string, seq<ValueRow>)>, ids: seq<int>) returns (r: seq<(string, seq<ValueRow>)>)
    ensures r == PruneTables(tables, ids)
  {
    r := [];
    var i := 0;
    while i < |tables|
      invariant 0 <= i <= |tables|
      invariant r == PruneTables(tables[..i], ids)
    {
      assert tables[..i + 1][..i] == tables[..i];
      r := r + [(tables[i].0, KeepSqlRows(tables[i].1, ids))];
      i := i + 1;
    }
    assert tables[..i] == tables;
  }

  /** Every relational write of a product save, in the order `_processSaveData` issues them. */
  function SaveWrites(id: Value, rowExists: bool, ids: seq<int>, insert: seq<(int, Value)>,
                      update: seq<(int, (Value, Value))>, delete: seq<(string, seq<Value>)>,
                      pending: seq<(string, seq<ValueRow>)>): seq<SqlOp>
  {
    [EntityOp(id, rowExists)] + SqlInserts(insert, ids) + SqlUpdates(update, ids) + Deletes(delete) + Flush(PruneTables(pending, ids))
  }

  /** An attribute value is stored unless it is `null`, `false` or the empty string. */
  predicate Stored(v: Value)
  {
    v != Null && v != Bool(false) && v != Str("")
  }

  /** The scope a saved value goes to: the default scope for a new product or a global attribute. */
  function TargetStore(a: Attribute, objectStore: nat, isNew: bool): (s: nat)
    ensures isNew || a.scope == Global ==> s == DefaultStore
    ensures !isNew && a.scope != Global ==> s == objectStore
  {
    if isNew || a.scope == Global then DefaultStore else objectStore
  }

  /** The `$set` payload of a full product save, one field per stored attribute value. */
  function SaveAllPayload(attrs: Catalog, data: map<string, Value>, objectStore: nat, isNew: bool, parse: NumberParser): map<string, Value>
  {
    if attrs == [] then map[]
    else AddField(SaveAllPayload(attrs[..|attrs| - 1], data, objectStore, isNew, parse), attrs[|attrs| - 1], data, objectStore, isNew, parse)
  }

  /** One attribute of the full save: its field at its target scope, when its value is stored. */
  function AddField(acc: map<string, Value>, a: Attribute, data: map<string, Value>, objectStore: nat, isNew: bool,
                    parse: NumberParser): map<string, Value>
  {
    var v := DataOf(data, a.code);
    acc + if Stored(v) then map[FieldPath(TargetStore(a, objectStore, isNew), a.code) := Coerce(a, v, parse)] else map[]
  }

  /**
   * The save payload holds a field at `attr_<s>.<code>` exactly when an
   * attribute has that code, its value is stored and `s` is its target
   * scope; the field holds the coerced value.
   */
  lemma {:induction false} SaveAllPayloadField(attrs: Catalog, data: map<string, Value>, objectStore: nat, isNew: bool,
                                               parse: NumberParser, s: nat, code: string)
    requires ValidCatalog(attrs)
    ensures FieldPath(s, code) in SaveAllPayload(attrs, data, objectStore, isNew, parse) <==>
      exists a :: a in attrs && a.code == code && Stored(DataOf(data, code)) && TargetStore(a, objectStore, isNew) == s
    ensures FieldPath(s, code) in SaveAllPayload(attrs, data, objectStore, isNew, parse) ==>
      ByCode(attrs, code).Some? &&
      SaveAllPayload(attrs, data, objectStore, isNew, parse)[FieldPath(s, code)] == Coerce(ByCode(attrs, code).value, DataOf(data, code), parse)
  {
    if attrs != [] {
      var pre := attrs[..|attrs| - 1];
      var a := attrs[|attrs| - 1];
      assert attrs == pre + [a];
      SaveAllPayloadField(pre, data, objectStore, isNew, parse, s, code);
      AddFieldHolds(SaveAllPayload(pre, data, objectStore, isNew, parse), a, data, objectStore, isNew, parse, s, code);
      if a.code == code {
        forall b | b in pre ensures b.code != code {
          var i :| 0 <= i < |pre| && pre[i] == b;
          assert attrs[i] == b;
        }
        assert ByCode(attrs, code) == Some(a);
      } else {
        assert ByCode(attrs, code) == ByCode(pre, code);
        if exists b :: b in attrs && b.code == code && Stored(DataOf(data, code)) && TargetStore(b, objectStore, isNew) == s {
          var b :| b in attrs && b.code == code && Stored(DataOf(data, code)) && TargetStore(b, objectStore, isNew) == s;
          assert b in pre;
        }
      }
    }
  }

  /** One attribute adds the field at its own path, and leaves every other path as it was. */
  lemma AddFieldHolds(acc: map<string, Value>, a: Attribute, data: map<string, Value>, objectStore: nat, isNew: bool,
                      parse: NumberParser, s: nat, code: string)
    ensures FieldPath(s, code) in AddField(acc, a, data, objectStore, isNew, parse) <==>
      FieldPath(s, code) in acc || (a.code == code && Stored(DataOf(data, code)) && TargetStore(a, objectStore, isNew) == s)
    ensures a.code != code && FieldPath(s, code) in acc ==>
      AddField(acc, a, data, objectStore, isNew, parse)[FieldPath(s, code)] == acc[FieldPath(s, code)]
    ensures a.code == code && Stored(DataOf(data, code)) && TargetStore(a, objectStore, isNew) == s ==>
      AddField(acc, a, data, objectStore, isNew, parse)[FieldPath(s, code)] == Coerce(a, DataOf(data, code), parse)
  {
    var key := FieldPath(TargetStore(a, objectStore, isNew), a.code);
    if key == FieldPath(s, code) {
      FieldPathInjective(TargetStore(a, objectStore, isNew), a.code, s, code);
    }
  }

  /** Every field of the save payload is a scoped attribute path. */
  lemma {:induction false} SaveAllPayloadPaths(attrs: Catalog, data: map<string, Value>, objectStore: nat, isNew: bool, parse: NumberParser, p: string)
    requires p in SaveAllPayload(attrs, data, objectStore, isNew, parse)
    ensures ParseFieldPath(p).Some?
  {
    var pre := attrs[..|attrs| - 1];
    var a := attrs[|attrs| - 1];
    if p in SaveAllPayload(pre, data, objectStore, isNew, parse) {
      SaveAllPayloadPaths(pre, data, objectStore, isNew, parse, p);
    } else {
      FieldPathRoundTrip(TargetStore(a, objectStore, isNew), a.code);
    }
  }

  /** The value `getProductAttributeValue` reads from a document (`null` when a field is missing or `null`). */
  function AttributeValueIn(d: Option<Document>, code: string, store: Option<nat>): (r: Value)
    ensures r != Null ==>
      d.Some? &&
      ((store.Some? && ScopeValue(d.value, store.value, code) == Some(r)) || ScopeValue(d.value, DefaultStore, code) == Some(r))
    ensures d.None? ==> r == Null
  {
    if d.None? then Null
    else
      var own := if store.Some? then ScopeValue(d.value, store.value, code) else None;
      var default := ScopeValue(d.value, DefaultStore, code);
      if own.Some? && own.value != Null then own.value
      else if default.Some? && default.value != Null then default.value
      else Null
  }

  /** Without a store (or with the default one) only the default scope is consulted. */
  lemma AttributeValueDefaultOnly(d: Option<Document>, code: string)
    ensures AttributeValueIn(d, code, None) == AttributeValueIn(d, code, Some(DefaultStore))
    ensures d.Some? && ScopeValue(d.value, DefaultStore, code).Some? ==>
      AttributeValueIn(d, code, None) == ScopeValue(d.value, DefaultStore, code).value
  {
  }

  /** When no stored value is `null`, the read is the effective value: the store's own, else the default's. */
  lemma AttributeValueIsEffective(d: Document, code: string, store: nat)
    requires ScopeValue(d, store, code) != Some(Null) && ScopeValue(d, DefaultStore, code) != Some(Null)
    ensures AttributeValueIn(Some(d), code, Some(store)) == Effective(d, store, code).GetOr(Null)
  {
  }

  /** The value a mass update writes: coerced for a known attribute, raw otherwise. */
  function MassValue(attrs: Catalog, code: string, v: Value, parse: NumberParser): (r: Value)
    ensures ByCode(attrs, code).None? ==> r == v
    ensures ByCode(attrs, code).Some? ==> r == Coerce(ByCode(attrs, code).value, v, parse)
  {
    match ByCode(attrs, code)
    case Some(a) => Coerce(a, v, parse)
    case None => v
  }

  /** The documents after `massDataUpdate`: one multi-document `$set` per attribute, in order. */
  function MassUpdate(docs: Docs, f: QueryBuilder.IdFilter, updates: seq<(string, Value)>, store: nat,
                      attrs: Catalog, parse: NumberParser): Docs
  {
    if updates == [] then docs
    else
      var (code, v) := updates[|updates| - 1];
      SetWhere(MassUpdate(docs, f, updates[..|updates| - 1], store, attrs, parse), f,
               map[FieldPath(store, code) := MassValue(attrs, code, v, parse)])
  }

  lemma MassUpdateStep(docs: Docs, f: QueryBuilder.IdFilter, updates: seq<(string, Value)>, i: nat, store: nat,
                       attrs: Catalog, parse: NumberParser)
    requires i < |updates|
    ensures MassUpdate(docs, f, updates[..i + 1], store, attrs, parse) ==
      SetWhere(MassUpdate(docs, f, updates[..i], store, attrs, parse), f,
               map[FieldPath(store, updates[i].0) := MassValue(attrs, updates[i].0, updates[i].1, parse)])
  {
    assert updates[..i + 1][..i] == updates[..i];
  }

  /** A single-field payload writes exactly its own field. */
  lemma SingleFieldValue(d: Document, store: nat, code: string, v: Value, s: nat, c: string)
    ensures ScopeValue(SetFields(d, map[FieldPath(store, code) := v]), s, c) ==
      if s == store && c == code then Some(v) else ScopeValue(d, s, c)
  {
    if FieldPath(store, code) == FieldPath(s, c) {
      FieldPathInjective(store, code, s, c);
    }
    SetFieldsValue(d, map[FieldPath(store, code) := v], s, c);
  }

  /**
   * A mass update creates no document and writes only the selected
   * documents, and in them only `attr_<store>.<code>` for the updated
   * codes, each to the (coerced) new value; no other scope is touched.
   */
  lemma {:induction false} MassUpdateGet(docs: Docs, f: QueryBuilder.IdFilter, updates: seq<(string, Value)>, store: nat,
                                         attrs: Catalog, parse: NumberParser, id: int, s: nat, c: string)
    requires DistinctKeys(updates)
    ensures Get(MassUpdate(docs, f, updates, store, attrs, parse), id).Some? <==> Get(docs, id).Some?
    ensures Get(docs, id).Some? ==>
      ScopeValue(Get(MassUpdate(docs, f, updates, store, attrs, parse), id).value, s, c) ==
        if QueryBuilder.Matches(f, id) && s == store && HasKey(updates, c)
        then Some(MassValue(attrs, c, Get(updates, c).value, parse))
        else ScopeValue(Get(docs, id).value, s, c)
  {
    if updates != [] {
      var pre := updates[..|updates| - 1];
      var (code, v) := updates[|updates| - 1];
      assert DistinctKeys(pre);
      MassUpdateGet(docs, f, pre, store, attrs, parse, id, s, c);
      var mid := MassUpdate(docs, f, pre, store, attrs, parse);
      SetWhereGet(mid, f, map[FieldPath(store, code) := MassValue(attrs, code, v, parse)], id);
      if Get(docs, id).Some? {
        SingleFieldValue(Get(mid, id).value, store, code, MassValue(attrs, code, v, parse), s, c);
      }
      assert !HasKey(pre, code);
      assert updates == Put(pre, code, v);
      PutGet(pre, code, v, c);
    }
  }

  /** The documents after a website-wide `saveAttribute`: the raw value set in every store of the website. */
  function FanOut(docs: Docs, f: QueryBuilder.IdFilter, stores: seq<nat>, code: string, v: Value): Docs
  {
    if stores == [] then docs
    else SetWhere(FanOut(docs, f, stores[..|stores| - 1], code, v), f, map[FieldPath(stores[|stores| - 1], code) := v])
  }

  lemma FanOutStep(docs: Docs, f: QueryBuilder.IdFilter, stores: seq<nat>, i: nat, code: string, v: Value)
    requires i < |stores|
    ensures FanOut(docs, f, stores[..i + 1], code, v) ==
      SetWhere(FanOut(docs, f, stores[..i], code, v), f, map[FieldPath(stores[i], code) := v])
  {
    assert stores[..i + 1][..i] == stores[..i];
  }

  /** The fan-out writes the attribute in exactly the website's stores of the selected document. */
  lemma {:induction false} FanOutGet(docs: Docs, f: QueryBuilder.IdFilter, stores: seq<nat>, code: string, v: Value,
                                     id: int, s: nat, c: string)
    ensures Get(FanOut(docs, f, stores, code, v), id).Some? <==> Get(docs, id).Some?
    ensures Get(docs, id).Some? ==>
      ScopeValue(Get(FanOut(docs, f, stores, code, v), id).value, s, c) ==
        if QueryBuilder.Matches(f, id) && s in stores && c == code then Some(v) else ScopeValue(Get(docs, id).value, s, c)
  {
    if stores != [] {
      var pre := stores[..|stores| - 1];
      var last := stores[|stores| - 1];
      assert stores == pre + [last];
      FanOutGet(docs, f, pre, code, v, id, s, c);
      var mid := FanOut(docs, f, pre, code, v);
      SetWhereGet(mid, f, map[FieldPath(last, code) := v], id);
      if Get(docs, id).Some? {
        SingleFieldValue(Get(mid, id).value, last, code, v, s, c);
      }
    }
  }

  /** The payload of a store-view `saveAttribute`: one field, unless the value is the empty string. */
  function SaveAttributePayload(a: Attribute, objectStore: nat, isNew: bool, v: Value, parse: NumberParser): (m: map<string, Value>)
    ensures v == Str("") ==> m == map[]
    ensures v != Str("") ==> m == map[FieldPath(TargetStore(a, objectStore, isNew), a.code) := Coerce(a, v, parse)]
  {
    if v == Str("") then map[] else map[FieldPath(TargetStore(a, objectStore, isNew), a.code) := Coerce(a, v, parse)]
  }

  /** Whether `saveAttribute` writes one upserted field rather than fanning out over the website. */
  predicate StoreViewSave(a: Attribute, objectStore: nat)
  {
    a.scope != Website && objectStore != DefaultStore
  }

  /** The value `saveAttribute` starts from: `null` when the attribute calls the value empty. */
  function SaveAttributeValue(v: Value, valueEmpty: Value -> bool): (r: Value)
    ensures valueEmpty(v) ==> r == Null
    ensures !valueEmpty(v) ==> r == v
  {
    if valueEmpty(v) then Null else v
  }

  /** An empty value saved on a store view is stored as `null` in its target scope. */
  lemma EmptyValueStoredAsNull(a: Attribute, objectStore: nat, isNew: bool, v: Value, valueEmpty: Value -> bool, parse: NumberParser)
    requires valueEmpty(v)
    ensures SaveAttributePayload(a, objectStore, isNew, SaveAttributeValue(v, valueEmpty), parse) ==
      map[FieldPath(TargetStore(a, objectStore, isNew), a.code) := Null]
  {
  }

  /** The filter of the document a product save, read or delete targets. */
  function ProductFilter(id: Value): (f: QueryBuilder.IdFilter)
    ensures f == QueryBuilder.IdEq(QueryBuilder.MongoInt32(id))
  {
    QueryBuilder.GetIdsFilter(QueryBuilder.IdScalar(id))
  }

  /** The raw `$set` payloads callers hand to `updateRawDocument`. */
  datatype RawSet = RawScopes(scopes: map<string, Scope>) | RawFields(fields: map<string, Value>)

  function RawUpsert(docs: Docs, id: int, payload: RawSet): Docs
  {
    match payload
    case RawScopes(m) => UpsertScopes(docs, id, m)
    case RawFields(m) => UpsertFields(docs, id, m)
  }

  /**
   * The operators of `updateRawDocument` the model covers: `$set`, and a
   * falsy operator, which sends the payload as a replacement document; a
   * replacement is only meaningful with whole scopes.
   */
  predicate RawOperatorModelled(operator: Value, payload: RawSet)
  {
    operator == Str("$set") || (PhpEmpty(operator) && payload.RawScopes?)
  }

  /** `update({_id: id}, $operator ? [$operator => $data] : $data, {upsert: true})`. */
  function RawUpdate(docs: Docs, id: int, payload: RawSet, operator: Value): Docs
    requires RawOperatorModelled(operator, payload)
  {
    if PhpEmpty(operator) then UpsertReplace(docs, id, payload.scopes) else RawUpsert(docs, id, payload)
  }

  /**
   * With `$set` a scope the payload does not name keeps its values, as do
   * the galleries; with a falsy operator the document holds the named
   * scopes only and its galleries are gone. Either way the document exists
   * afterwards with the named scopes, and no other document changes.
   */
  lemma RawUpdateScopes(docs: Docs, id: int, scopes: map<string, Scope>, operator: Value, other: int, store: nat)
    requires RawOperatorModelled(operator, RawScopes(scopes))
    ensures Get(RawUpdate(docs, id, RawScopes(scopes), operator), id).Some?
    ensures ScopeOf(Get(RawUpdate(docs, id, RawScopes(scopes), operator), id).value, store) ==
      if ScopeCodec.StoreKey(store) in scopes then scopes[ScopeCodec.StoreKey(store)]
      else if PhpEmpty(operator) then map[] else ScopeOf(DocOrEmpty(docs, id), store)
    ensures Get(RawUpdate(docs, id, RawScopes(scopes), operator), id).value.galleries ==
      if PhpEmpty(operator) then map[] else DocOrEmpty(docs, id).galleries
    ensures other != id ==> Get(RawUpdate(docs, id, RawScopes(scopes), operator), other) == Get(docs, other)
  {
    if PhpEmpty(operator) {
      UpsertReplaceGet(docs, id, scopes, other, store);
    } else {
      UpsertScopesGet(docs, id, scopes, other, store);
      PutGet(docs, id, SetScopes(DocOrEmpty(docs, id), scopes), id);
    }
  }

  /**
   * A `massDataUpdate` interrupted by a throwing `$set` at index `k`: the
   * attributes before it are written in the selected documents, while the
   * failing attribute and those after it keep their stored values.
   */
  lemma MassUpdateInterrupted(docs: Docs, f: QueryBuilder.IdFilter, updates: seq<(string, Value)>, k: nat, store: nat,
                              attrs: Catalog, parse: NumberParser, id: int, j: nat)
    requires DistinctKeys(updates) && k <= |updates| && j < |updates| && Get(docs, id).Some?
    ensures var d := MassUpdate(docs, f, updates[..k], store, attrs, parse);
      Get(d, id).Some? &&
      ScopeValue(Get(d, id).value, store, updates[j].0) ==
        if j < k && QueryBuilder.Matches(f, id) then Some(MassValue(attrs, updates[j].0, updates[j].1, parse))
        else ScopeValue(Get(docs, id).value, store, updates[j].0)
  {
    var pre := updates[..k];
    assert DistinctKeys(pre);
    MassUpdateGet(docs, f, pre, store, attrs, parse, id, store, updates[j].0);
    if j < k {
      assert pre[j] == updates[j];
      GetDistinct(pre, updates[j].0, updates[j].1);
    }
  }

  /**
   * How many `$set`s of `massDataUpdate` are written: all of them, or those
   * before the one at `failAt`, whose write throws.
   */
  function MassWritten(updates: seq<(string, Value)>, failAt: Option<nat>): (n: nat)
    ensures n <= |updates|
    ensures n < |updates| <==> failAt.Some? && failAt.value < |updates|
  {
    if failAt.Some? && failAt.value < |updates| then failAt.value else |updates|
  }

  class Resource {
    /** `_attributesByCode`, in load order. */
    const attributes: Catalog
    /** The columns of the entity table, as `describeTable` reports them. */
    const entityColumns: seq<string>
    const parse: NumberParser
    /** The document collection of the entity table. */
    const docs: DocumentCollection

    var sqlCodes: Option<seq<string>>
    var sqlIds: Option<seq<int>>
    /** `_attributeValuesToSave`: pending value rows per table. */
    var valuesToSave: seq<(string, seq<ValueRow>)>
    var sqlLog: seq<SqlOp>

    ghost predicate Valid()
      reads this, docs
    {
      docs.Valid() && ValidCatalog(attributes) &&
      (sqlCodes.Some? ==> sqlCodes.value == SpecialCodes + entityColumns) &&
      (sqlIds.Some? ==> sqlIds.value == SqlIdsOf(attributes, SpecialCodes + entityColumns))
    }

    constructor (attributes: Catalog, entityColumns: seq<string>, parse: NumberParser, docs: DocumentCollection)
      requires ValidCatalog(attributes) && docs.Valid()
      ensures Valid()
      ensures this.attributes == attributes && this.entityColumns == entityColumns && this.parse == parse && this.docs == docs
      ensures sqlCodes.None? && sqlIds.None? && valuesToSave == [] && sqlLog == []
    {
      this.attributes := attributes;
      this.entityColumns := entityColumns;
      this.parse := parse;
      this.docs := docs;
      sqlCodes := None;
      sqlIds := None;
      valuesToSave := [];
      sqlLog := [];
    }

    /** `getSqlAttributesCodes`: the special codes then the entity columns, computed once and cached. */
    method GetSqlAttributesCodes() returns (codes: seq<string>)
      requires Valid()
      modifies this
      ensures Valid()
      ensures codes == SpecialCodes + entityColumns && sqlCodes == Some(codes)
      ensures sqlIds == old(sqlIds) && valuesToSave == old(valuesToSave) && sqlLog == old(sqlLog)
    {
      if sqlCodes.None? {
        sqlCodes := Some(SpecialCodes + entityColumns);
      }
      codes := sqlCodes.value;
    }

    /** `_getSqlAttributesIds`: the ids of the known SQL-kept attributes, computed once and cached. */
    method GetSqlAttributesIds() returns (ids: seq<int>)
      requires Valid()
      modifies this
      ensures Valid()
      ensures ids == SqlIdsOf(attributes, SpecialCodes + entityColumns) && sqlIds == Some(ids)
      ensures forall id :: id in ids <==> exists a :: a in attributes && a.id == id && a.code in SpecialCodes + entityColumns
      ensures valuesToSave == old(valuesToSave) && sqlLog == old(sqlLog)
    {
      if sqlIds.None? {
        var codes := GetSqlAttributesCodes();
        var acc: seq<int> := [];
        var i := 0;
        while i < |codes|
          invariant 0 <= i <= |codes|
          invariant acc == SqlIdsOf(attributes, codes[..i])
        {
          assert codes[..i + 1][..i] == codes[..i];
          match ByCode(attributes, codes[i]) {
            case Some(a) => acc := acc + [a.id];
            case None =>
          }
          i := i + 1;
        }
        assert codes[..i] == codes;
        sqlIds := Some(acc);
      }
      ids := sqlIds.value;
      forall id ensures id in ids <==> exists a :: a in attributes && a.id == id && a.code in SpecialCodes + entityColumns {
        SqlIdsOfMember(attributes, SpecialCodes + entityColumns, id);
      }
    }

    /**
     * `_processSaveData`: the entity row, then the value writes of the
     * SQL-kept attributes only, the deletions, the flush of the pruned
     * pending rows, and finally exactly one upserted `$set` of every stored
     * value on the product's document.
     */
    method ProcessSaveData(product: Product, rowExists: bool, lastInsertId: Value,
                           insert: seq<(int, Value)>, update: seq<(int, (Value, Value))>, delete: seq<(string, seq<Value>)>)
      requires Valid()
      modifies this, docs, product
      ensures Valid()
      ensures product.id == SavedId(old(product.id), lastInsertId) && !product.isNew && product.data == old(product.data)
      ensures sqlLog == old(sqlLog) +
        SaveWrites(old(product.id), rowExists, SqlIdsOf(attributes, SpecialCodes + entityColumns), insert, update, delete, old(valuesToSave))
      ensures valuesToSave == []
      ensures docs.docs == UpsertFields(old(docs.docs), QueryBuilder.MongoInt32(product.id),
        SaveAllPayload(attributes, product.data, product.storeId, InsertsEntity(old(product.id), rowExists), parse))
    {
      LogSaveWrites(product.id, rowExists, insert, update, delete);
      var payload := SaveAllPayload(attributes, product.data, product.storeId, InsertsEntity(product.id, rowExists), parse);
      product.id := SavedId(product.id, lastInsertId);
      docs.UpsertSet(QueryBuilder.MongoInt32(product.id), payload);
      product.isNew := false;
    }

    /** The relational half of `_processSaveData`: its writes are logged and the pending rows are cleared. */
    method LogSaveWrites(id: Value, rowExists: bool, insert: seq<(int, Value)>, update: seq<(int, (Value, Value))>,
                         delete: seq<(string, seq<Value>)>)
      requires Valid()
      modifies this
      ensures Valid()
      ensures sqlLog == old(sqlLog) +
        SaveWrites(id, rowExists, SqlIdsOf(attributes, SpecialCodes + entityColumns), insert, update, delete, old(valuesToSave))
      ensures valuesToSave == []
    {
      var ids := GetSqlAttributesIds();
      var ops := SaveOps(id, rowExists, ids, insert, update, delete, valuesToSave);
      sqlLog := sqlLog + ops;
      valuesToSave := [];
    }

    /** The relational writes of `_processSaveData`, in the order they reach MySQL. */
    static method SaveOps(id: Value, rowExists: bool, ids: seq<int>, insert: seq<(int, Value)>,
                          update: seq<(int, (Value, Value))>, delete: seq<(string, seq<Value>)>,
                          pending: seq<(string, seq<ValueRow>)>) returns (ops: seq<SqlOp>)
      ensures ops == SaveWrites(id, rowExists, ids, insert, update, delete, pending)
    {
      var inserts := InsertsToSql(insert, ids);
      var updates := UpdatesToSql(update, ids);
      var deletes := DeletesToSql(delete);
      var pruned := PrunePending(pending, ids);
      ops := [EntityOp(id, rowExists)] + inserts + updates + deletes + Flush(pruned);
    }

    /** `getProductAttributeValue`: the store's value if set, else the default scope's, else `null`. */
    method GetProductAttributeValue(productId: Value, code: string, store: Option<nat>) returns (r: Value)
      requires Valid()
      ensures r == AttributeValueIn(Get(docs.docs, QueryBuilder.MongoInt32(productId)), code, store)
    {
      var d := docs.FindOne(ProductFilter(productId).id);
      r := AttributeValueIn(d, code, store);
    }

    /**
     * `massDataUpdate`: one multi-document `$set` per attribute at
     * `attr_<store>.<code>`. The `$set` at index `failAt` throws: the ones
     * before it stay written, and `ok` is false.
     */
    method MassDataUpdate(entityIds: QueryBuilder.IdsArg, updates: seq<(string, Value)>, store: nat, failAt: Option<nat>)
      returns (ok: bool)
      requires Valid()
      modifies docs
      ensures Valid()
      ensures ok <==> MassWritten(updates, failAt) == |updates|
      ensures docs.docs == MassUpdate(old(docs.docs), QueryBuilder.GetIdsFilter(entityIds),
                                      updates[..MassWritten(updates, failAt)], store, attributes, parse)
    {
      var n := MassWritten(updates, failAt);
      WriteMass(docs, QueryBuilder.GetIdsFilter(entityIds), updates[..n], store, attributes, parse);
      ok := n == |updates|;
    }

    /** The loop of `massDataUpdate`: one `$set` per attribute, the value coerced by the attribute's backend type. */
    static method WriteMass(c: DocumentCollection, f: QueryBuilder.IdFilter, updates: seq<(string, Value)>, store: nat,
                            attrs: Catalog, parse: NumberParser)
      requires c.Valid()
      modifies c
      ensures c.Valid() && c.docs == MassUpdate(old(c.docs), f, updates, store, attrs, parse)
    {
      ghost var d0 := c.docs;
      var i := 0;
      while i < |updates|
        invariant 0 <= i <= |updates|
        invariant c.Valid()
        invariant c.docs == MassUpdate(d0, f, updates[..i], store, attrs, parse)
      {
        MassUpdateStep(d0, f, updates, i, store, attrs, parse);
        c.SetMany(f, map[FieldPath(store, updates[i].0) := MassValue(attrs, updates[i].0, updates[i].1, parse)]);
        i := i + 1;
      }
      assert updates[..i] == updates;
    }

    /**
     * `updateRawDocument`: an upsert of the payload under `operator`
     * (`$set` by default), or of the payload itself as the new document
     * when the operator is falsy.
     */
    method UpdateRawDocument(productId: Value, payload: RawSet, operator: Value)
      requires Valid() && RawOperatorModelled(operator, payload)
      modifies docs
      ensures Valid()
      ensures docs.docs == RawUpdate(old(docs.docs), QueryBuilder.MongoInt32(productId), payload, operator)
    {
      var id := ProductFilter(productId).id;
      if PhpEmpty(operator) {
        docs.UpsertReplaceScopes(id, payload.scopes);
      } else {
        match payload {
          case RawScopes(m) => docs.UpsertSetScopes(id, m);
          case RawFields(m) => docs.UpsertSet(id, m);
        }
      }
    }

    /** `_afterDelete`: every document with the product's id is removed. */
    method AfterDelete(productId: Value)
      requires Valid()
      modifies docs
      ensures Valid()
      ensures docs.docs == RemoveWhere(old(docs.docs), QueryBuilder.IdEq(QueryBuilder.MongoInt32(Int(IntCast(productId)))))
      ensures Get(docs.docs, QueryBuilder.MongoInt32(Int(IntCast(productId)))).None?
    {
      var f := ProductFilter(Int(IntCast(productId)));
      RemoveWhereGet(docs.docs, f, f.id);
      docs.Remove(f);
    }

    /** `_loadModelAttributes`: the product gets its default-scope values, overridden by its store's. */
    method LoadModelAttributes(product: Product)
      requires Valid()
      modifies product
      ensures product.id == old(product.id) && product.isNew == old(product.isNew)
      ensures PhpEmpty(product.id) ==> product.data == old(product.data)
      ensures !PhpEmpty(product.id) ==>
        product.data == match Get(docs.docs, QueryBuilder.MongoInt32(product.id))
          case None => old(product.data)
          case Some(d) => old(product.data) + LoadedData(d, product.storeId)
    {
      if !PhpEmpty(product.id) {
        var d := docs.FindOne(ProductFilter(product.id).id);
        if d.Some? {
          product.data := product.data + LoadedData(d.value, product.storeId);
        }
      }
    }

    /**
     * `saveAttribute`: on a store view, one upserted field in the target
     * scope; for a website-scoped attribute or the admin store, the raw
     * value in every store of the website, without upsert. The relational
     * save follows for SQL-kept codes. An unknown code stops the call
     * before anything is written.
     */
    method SaveAttribute(product: Product, code: string, valueEmpty: Value -> bool, websiteStores: seq<nat>) returns (ok: bool)
      requires Valid()
      modifies this, docs, product
      ensures Valid()
      ensures ok <==> ByCode(attributes, code).Some?
      ensures !ok ==> docs.docs == old(docs.docs) && sqlLog == old(sqlLog) && product.isNew == old(product.isNew)
      ensures ok ==> !product.isNew && sqlLog == old(sqlLog) + (if code in SpecialCodes + entityColumns then [SaveAttributeRow(code)] else [])
      ensures ok ==>
        var a := ByCode(attributes, code).value;
        var v := SaveAttributeValue(DataOf(product.data, code), valueEmpty);
        docs.docs == if StoreViewSave(a, product.storeId)
          then UpsertFields(old(docs.docs), QueryBuilder.MongoInt32(product.id), SaveAttributePayload(a, product.storeId, old(product.isNew), v, parse))
          else FanOut(old(docs.docs), ProductFilter(product.id), websiteStores, code, v)
      ensures product.id == old(product.id) && product.data == old(product.data)
      ensures valuesToSave == old(valuesToSave) && sqlIds == old(sqlIds)
    {
      var attr := ByCode(attributes, code);
      if attr.None? {
        return false;
      }
      var a := attr.value;
      var v := SaveAttributeValue(DataOf(product.data, code), valueEmpty);
      WriteAttribute(docs, a, product.id, product.storeId, product.isNew, v, parse, websiteStores, code);
      product.isNew := false;
      var codes := GetSqlAttributesCodes();
      if code in codes {
        sqlLog := sqlLog + [SaveAttributeRow(code)];
      }
      ok := true;
    }

    /** The document write of `saveAttribute`, in the scope the attribute and the store call for. */
    static method WriteAttribute(c: DocumentCollection, a: Attribute, id: Value, storeId: nat, isNew: bool, v: Value,
                                 parse: NumberParser, websiteStores: seq<nat>, code: string)
      requires c.Valid()
      modifies c
      ensures c.Valid()
      ensures c.docs == if StoreViewSave(a, storeId)
        then UpsertFields(old(c.docs), QueryBuilder.MongoInt32(id), SaveAttributePayload(a, storeId, isNew, v, parse))
        else FanOut(old(c.docs), ProductFilter(id), websiteStores, code, v)
    {
      var f := ProductFilter(id);
      if StoreViewSave(a, storeId) {
        c.UpsertSet(f.id, SaveAttributePayload(a, storeId, isNew, v, parse));
      } else {
        WriteFanOut(c, f, websiteStores, code, v);
      }
    }

    /** The website-wide branch of `saveAttribute`: one `$set` per store of the website. */
    static method WriteFanOut(c: DocumentCollection, f: QueryBuilder.IdFilter, stores: seq<nat>, code: string, v: Value)
      requires c.Valid()
      modifies c
      ensures c.Valid() && c.docs == FanOut(old(c.docs), f, stores, code, v)
    {
      ghost var d0 := c.docs;
      var i := 0;
      while i < |stores|
        invariant 0 <= i <= |stores|
        invariant c.Valid()
        invariant c.docs == FanOut(d0, f, stores[..i], code, v)
      {
        FanOutStep(d0, f, stores, i, code, v);
        c.SetMany(f, map[FieldPath(stores[i], code) := v]);
        i := i + 1;
      }
      assert stores[..i] == stores;
    }
  }
}
