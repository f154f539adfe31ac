/**
 * The product import's attribute save: the imported values of every
 * attribute go into the products' documents at `attr_<store>.<code>`, and
 * only those of SQL-kept attributes also become relational rows, written
 * once per table; each product's document then receives one `$set`.
 */
module ImportProduct {
  import opened Wrappers
  import opened Php
  import opened PhpArray
  import opened ScopeCodec
  import opened DocStore
  import opened Eav
  import opened ProductResource
  import QueryBuilder

  /** Store id to value, for one attribute of one product. */
  type StoreValues = seq<(nat, Value)>
  /** Attribute id to store values, for one product. */
  type AttrValues = seq<(int, StoreValues)>
  /** Sku to attribute values, for one table. */
  type SkuData = seq<(string, AttrValues)>
  /** Table name to sku data: the `$attributesData` argument. */
  type AttributesData = seq<(string, SkuData)>

  /** One relational row of an attribute value table. */
  datatype ImportRow = ImportRow(entityId: Value, entityTypeId: int, attributeId: int, storeId: nat, value: Value)

  /**
   * What the save depends on besides its argument: the SQL-kept codes, the
   * attribute catalog, the product entity type and `_newSku`, the entity id
   * of each imported sku.
   */
  datatype Ctx = Ctx(sqlCodes: seq<string>, catalog: Catalog, entityTypeId: int, newSku: string -> Value)

  /**
   * The state of the loops: the attribute cache by id, the log of attribute
   * loads, the document payloads by product, the rows of the current table,
   * and the log of table writes.
   */
  datatype Acc = Acc(cache: seq<(int, string)>, loads: seq<int>, docData: seq<(Key, map<string, Value>)>,
                     rows: seq<ImportRow>, inserts: seq<(string, seq<ImportRow>)>)

  /** The document payload and rows of the store loop. */
  datatype Part = Part(docData: seq<(Key, map<string, Value>)>, rows: seq<ImportRow>)

  /** The code of a loaded attribute; a missing attribute has no code, which concatenates as "". */
  function CodeOf(catalog: Catalog, id: int): (code: string)
    ensures (exists i :: 0 <= i < |catalog| && catalog[i].id == id) ==> exists i :: 0 <= i < |catalog| && catalog[i].id == id && catalog[i].code == code
    ensures (forall i :: 0 <= i < |catalog| ==> catalog[i].id != id) ==> code == ""
  {
    CodeById(catalog, id).GetOr("")
  }

  /** `$docData[$productId]`, empty when absent. */
  function DocOf(docData: seq<(Key, map<string, Value>)>, pid: Key): map<string, Value>
  {
    Get(docData, pid).GetOr(map[])
  }

  /** The value PHP hands on for an array key. */
  function KeyValue(k: Key): (v: Value)
    ensures KeyOf(v) == k || k.StrKey?
  {
    match k
    case IntKey(n) => Int(n)
    case StrKey(s) => Str(s)
  }

  /** The attribute is loaded and cached unless it already is. */
  function Load(acc: Acc, attrId: int, catalog: Catalog): Acc
  {
    if HasKey(acc.cache, attrId) then acc
    else acc.(cache := Put(acc.cache, attrId, CodeOf(catalog, attrId)), loads := acc.loads + [attrId])
  }

  /** One store value: a row when the code is SQL-kept, and the payload field in every case. */
  function StoreStep(p: Part, ctx: Ctx, productId: Value, attrId: int, code: string, store: nat, value: Value): Part
  {
    var pid := KeyOf(productId);
    Part(Put(p.docData, pid, DocOf(p.docData, pid)[FieldPath(store, code) := value]),
         if code in ctx.sqlCodes then p.rows + [ImportRow(productId, ctx.entityTypeId, attrId, store, value)] else p.rows)
  }

  function StoreFold(p: Part, ctx: Ctx, productId: Value, attrId: int, code: string, sv: StoreValues): Part
  {
    if sv == [] then p
    else
      var n := |sv| - 1;
      StoreStep(StoreFold(p, ctx, productId, attrId, code, sv[..n]), ctx, productId, attrId, code, sv[n].0, sv[n].1)
  }

  /** One attribute of a product: its code through the cache, its store values, and an entry for the product in any case. */
  function AttrStep(acc: Acc, ctx: Ctx, productId: Value, attrId: int, sv: StoreValues): Acc
  {
    var a := Load(acc, attrId, ctx.catalog);
    var code := Get(a.cache, attrId).GetOr("");
    var p := StoreFold(Part(a.docData, a.rows), ctx, productId, attrId, code, sv);
    var pid := KeyOf(productId);
    a.(docData := if HasKey(p.docData, pid) then p.docData else Put(p.docData, pid, map[]), rows := p.rows)
  }

  function AttrFold(acc: Acc, ctx: Ctx, productId: Value, attrs: AttrValues): (r: Acc)
    ensures r.inserts == acc.inserts
  {
    if attrs == [] then acc
    else
      var n := |attrs| - 1;
      AttrStep(AttrFold(acc, ctx, productId, attrs[..n]), ctx, productId, attrs[n].0, attrs[n].1)
  }

  lemma AttrFoldStep(acc: Acc, ctx: Ctx, productId: Value, attrs: AttrValues, i: nat)
    requires i < |attrs|
    ensures AttrFold(acc, ctx, productId, attrs[..i + 1]) == AttrStep(AttrFold(acc, ctx, productId, attrs[..i]), ctx, productId, attrs[i].0, attrs[i].1)
  {
    assert attrs[..i + 1][..i] == attrs[..i];
  }

  function SkuFold(acc: Acc, ctx: Ctx, skus: SkuData): (r: Acc)
    ensures r.inserts == acc.inserts
  {
    if skus == [] then acc
    else
      var n := |skus| - 1;
      AttrFold(SkuFold(acc, ctx, skus[..n]), ctx, ctx.newSku(skus[n].0), skus[n].1)
  }

  /** One table: its rows collected from nothing, and written only when there are some. */
  function TableStep(acc: Acc, ctx: Ctx, table: string, skus: SkuData): Acc
  {
    var a := SkuFold(acc.(rows := []), ctx, skus);
    if a.rows != [] then a.(inserts := a.inserts + [(table, a.rows)]) else a
  }

  function TableFold(acc: Acc, ctx: Ctx, data: AttributesData): Acc
  {
    if data == [] then acc
    else
      var n := |data| - 1;
      TableStep(TableFold(acc, ctx, data[..n]), ctx, data[n].0, data[n].1)
  }

  /** The documents after one `$set` upsert per product payload, in payload order. */
  function RawWrites(docs: Docs, docData: seq<(Key, map<string, Value>)>): Docs
  {
    if docData == [] then docs
    else
      var n := |docData| - 1;
      RawUpsert(RawWrites(docs, docData[..n]), QueryBuilder.MongoInt32(KeyValue(docData[n].0)), RawFields(docData[n].1))
  }

  /** Every row is of the product entity type and of an attribute whose code is SQL-kept. */
  ghost predicate RowsOk(rows: seq<ImportRow>, ctx: Ctx)
  {
    forall i :: 0 <= i < |rows| ==>
      rows[i].entityTypeId == ctx.entityTypeId && CodeOf(ctx.catalog, rows[i].attributeId) in ctx.sqlCodes
  }

  /**
   * The invariant of the loops, for the loads after `lb` and the table
   * writes after `ib`: each attribute is loaded once and cached with its
   * code, every row and every write is of SQL-kept attributes, no write is
   * empty, and each product has one payload.
   */
  ghost predicate Inv(acc: Acc, ctx: Ctx, lb: nat, ib: nat)
  {
    lb <= |acc.loads| && ib <= |acc.inserts| &&
    (forall i, j :: lb <= i < j < |acc.loads| ==> acc.loads[i] != acc.loads[j]) &&
    (forall id :: HasKey(acc.cache, id) <==> id in acc.loads[lb..]) &&
    (forall id :: HasKey(acc.cache, id) ==> Get(acc.cache, id) == Some(CodeOf(ctx.catalog, id))) &&
    RowsOk(acc.rows, ctx) &&
    (forall m :: ib <= m < |acc.inserts| ==> acc.inserts[m].1 != [] && RowsOk(acc.inserts[m].1, ctx)) &&
    DistinctKeys(acc.docData)
  }

  lemma {:induction false} LoadInv(acc: Acc, ctx: Ctx, lb: nat, ib: nat, attrId: int)
    requires Inv(acc, ctx, lb, ib)
    ensures Inv(Load(acc, attrId, ctx.catalog), ctx, lb, ib)
    ensures Get(Load(acc, attrId, ctx.catalog).cache, attrId) == Some(CodeOf(ctx.catalog, attrId))
  {
    if !HasKey(acc.cache, attrId) {
      var a := Load(acc, attrId, ctx.catalog);
      assert a.loads[lb..] == acc.loads[lb..] + [attrId];
      forall id ensures HasKey(a.cache, id) <==> id in a.loads[lb..] {
        PutHasKey(acc.cache, attrId, CodeOf(ctx.catalog, attrId), id);
      }
      forall id | HasKey(a.cache, id) ensures Get(a.cache, id) == Some(CodeOf(ctx.catalog, id)) {
        PutGet(acc.cache, attrId, CodeOf(ctx.catalog, attrId), id);
      }
      forall i, j | lb <= i < j < |a.loads| ensures a.loads[i] != a.loads[j] {
        if j == |a.loads| - 1 {
          assert a.loads[i] == acc.loads[lb..][i - lb];
        }
      }
    }
  }

  lemma {:induction false} StoreFoldInv(p: Part, ctx: Ctx, productId: Value, attrId: int, sv: StoreValues)
    requires RowsOk(p.rows, ctx) && DistinctKeys(p.docData)
    ensures var r := StoreFold(p, ctx, productId, attrId, CodeOf(ctx.catalog, attrId), sv);
      RowsOk(r.rows, ctx) && DistinctKeys(r.docData)
  {
    if sv != [] {
      var n := |sv| - 1;
      var code := CodeOf(ctx.catalog, attrId);
      var m := StoreFold(p, ctx, productId, attrId, code, sv[..n]);
      StoreFoldInv(p, ctx, productId, attrId, sv[..n]);
      PutDistinct(m.docData, KeyOf(productId), DocOf(m.docData, KeyOf(productId))[FieldPath(sv[n].0, code) := sv[n].1]);
    }
  }

  lemma {:induction false} AttrStepInv(acc: Acc, ctx: Ctx, lb: nat, ib: nat, productId: Value, attrId: int, sv: StoreValues)
    requires Inv(acc, ctx, lb, ib)
    ensures Inv(AttrStep(acc, ctx, productId, attrId, sv), ctx, lb, ib)
  {
    var a := Load(acc, attrId, ctx.catalog);
    LoadInv(acc, ctx, lb, ib, attrId);
    var p := StoreFold(Part(a.docData, a.rows), ctx, productId, attrId, CodeOf(ctx.catalog, attrId), sv);
    StoreFoldInv(Part(a.docData, a.rows), ctx, productId, attrId, sv);
    PutDistinct(p.docData, KeyOf(productId), map[]);
  }

  lemma {:induction false} AttrFoldInv(acc: Acc, ctx: Ctx, lb: nat, ib: nat, productId: Value, attrs: AttrValues)
    requires Inv(acc, ctx, lb, ib)
    ensures Inv(AttrFold(acc, ctx, productId, attrs), ctx, lb, ib)
  {
    if attrs != [] {
      var n := |attrs| - 1;
      AttrFoldInv(acc, ctx, lb, ib, productId, attrs[..n]);
      AttrStepInv(AttrFold(acc, ctx, productId, attrs[..n]), ctx, lb, ib, productId, attrs[n].0, attrs[n].1);
    }
  }

  lemma {:induction false} SkuFoldInv(acc: Acc, ctx: Ctx, lb: nat, ib: nat, skus: SkuData)
    requires Inv(acc, ctx, lb, ib)
    ensures Inv(SkuFold(acc, ctx, skus), ctx, lb, ib)
  {
    if skus != [] {
      var n := |skus| - 1;
      SkuFoldInv(acc, ctx, lb, ib, skus[..n]);
      AttrFoldInv(SkuFold(acc, ctx, skus[..n]), ctx, lb, ib, ctx.newSku(skus[n].0), skus[n].1);
    }
  }

  lemma {:induction false} TableFoldInv(acc: Acc, ctx: Ctx, lb: nat, ib: nat, data: AttributesData)
    requires Inv(acc, ctx, lb, ib)
    ensures Inv(TableFold(acc, ctx, data), ctx, lb, ib)
  {
    if data != [] {
      var n := |data| - 1;
      var m := TableFold(acc, ctx, data[..n]);
      TableFoldInv(acc, ctx, lb, ib, data[..n]);
      SkuFoldInv(m.(rows := []), ctx, lb, ib, data[n].1);
    }
  }

  /**
   * Over a whole import: each attribute id is loaded at most once and
   * exactly the loaded ones are cached with their codes; every table write
   * is non-empty and holds only rows of SQL-kept attributes of the product
   * entity type; and the payloads have one entry per product.
   */
  lemma ImportInvariant(ctx: Ctx, data: AttributesData, loads: seq<int>, inserts: seq<(string, seq<ImportRow>)>)
    ensures Inv(TableFold(Acc([], loads, [], [], inserts), ctx, data), ctx, |loads|, |inserts|)
  {
    var acc := Acc([], loads, [], [], inserts);
    assert acc.loads[|loads|..] == [];
    TableFoldInv(acc, ctx, |loads|, |inserts|, data);
  }

  /** Payloads only gain products and fields. */
  ghost predicate DocGrows(d1: seq<(Key, map<string, Value>)>, d2: seq<(Key, map<string, Value>)>)
  {
    (forall pid :: HasKey(d1, pid) ==> HasKey(d2, pid)) &&
    (forall pid, path :: path in DocOf(d1, pid) ==> path in DocOf(d2, pid))
  }

  lemma DocGrowsTrans(d1: seq<(Key, map<string, Value>)>, d2: seq<(Key, map<string, Value>)>, d3: seq<(Key, map<string, Value>)>)
    requires DocGrows(d1, d2) && DocGrows(d2, d3)
    ensures DocGrows(d1, d3)
  {
  }

  /** Writing a payload that keeps the product's fields only adds. */
  lemma PutGrows(d: seq<(Key, map<string, Value>)>, pid: Key, m: map<string, Value>)
    requires DocOf(d, pid).Keys <= m.Keys
    ensures DocGrows(d, Put(d, pid, m)) && HasKey(Put(d, pid, m), pid) && DocOf(Put(d, pid, m), pid) == m
  {
    forall pid' ensures HasKey(d, pid') ==> HasKey(Put(d, pid, m), pid') {
      PutHasKey(d, pid, m, pid');
    }
    forall pid' ensures DocOf(Put(d, pid, m), pid') == if pid' == pid then m else DocOf(d, pid') {
      PutGet(d, pid, m, pid');
    }
    PutHasKey(d, pid, m, pid);
  }

  lemma {:induction false} StoreFoldGrows(p: Part, ctx: Ctx, productId: Value, attrId: int, code: string, sv: StoreValues, k: nat)
    requires k <= |sv|
    ensures var a := StoreFold(p, ctx, productId, attrId, code, sv[..k]);
      var b := StoreFold(p, ctx, productId, attrId, code, sv);
      DocGrows(a.docData, b.docData) && a.rows <= b.rows
  {
    if k == |sv| {
      assert sv[..k] == sv;
    } else {
      var n := |sv| - 1;
      assert sv[..n][..k] == sv[..k];
      StoreFoldGrows(p, ctx, productId, attrId, code, sv[..n], k);
      var m := StoreFold(p, ctx, productId, attrId, code, sv[..n]);
      var pid := KeyOf(productId);
      PutGrows(m.docData, pid, DocOf(m.docData, pid)[FieldPath(sv[n].0, code) := sv[n].1]);
      DocGrowsTrans(StoreFold(p, ctx, productId, attrId, code, sv[..k]).docData, m.docData,
                    StoreFold(p, ctx, productId, attrId, code, sv).docData);
    }
  }

  /** The `k`-th store value ends up in the product's payload, and in the rows when the code is SQL-kept. */
  lemma {:induction false} StoreFoldAdds(p: Part, ctx: Ctx, productId: Value, attrId: int, code: string, sv: StoreValues, k: nat)
    requires k < |sv|
    ensures var b := StoreFold(p, ctx, productId, attrId, code, sv);
      HasKey(b.docData, KeyOf(productId)) && FieldPath(sv[k].0, code) in DocOf(b.docData, KeyOf(productId)) &&
      (code in ctx.sqlCodes ==> ImportRow(productId, ctx.entityTypeId, attrId, sv[k].0, sv[k].1) in b.rows)
  {
    var pid := KeyOf(productId);
    var m := StoreFold(p, ctx, productId, attrId, code, sv[..k]);
    assert sv[..k + 1][..k] == sv[..k];
    PutGrows(m.docData, pid, DocOf(m.docData, pid)[FieldPath(sv[k].0, code) := sv[k].1]);
    StoreFoldGrows(p, ctx, productId, attrId, code, sv, k + 1);
    if code in ctx.sqlCodes {
      var a := StoreFold(p, ctx, productId, attrId, code, sv[..k + 1]);
      var row := ImportRow(productId, ctx.entityTypeId, attrId, sv[k].0, sv[k].1);
      assert a.rows[|a.rows| - 1] == row;
      assert StoreFold(p, ctx, productId, attrId, code, sv).rows[|a.rows| - 1] == row;
    }
  }

  lemma {:induction false} AttrStepGrows(acc: Acc, ctx: Ctx, productId: Value, attrId: int, sv: StoreValues)
    ensures var b := AttrStep(acc, ctx, productId, attrId, sv);
      DocGrows(acc.docData, b.docData) && acc.rows <= b.rows && HasKey(b.docData, KeyOf(productId))
  {
    var a := Load(acc, attrId, ctx.catalog);
    var code := Get(a.cache, attrId).GetOr("");
    var p := StoreFold(Part(a.docData, a.rows), ctx, productId, attrId, code, sv);
    assert sv[..0] == [];
    StoreFoldGrows(Part(a.docData, a.rows), ctx, productId, attrId, code, sv, 0);
    if !HasKey(p.docData, KeyOf(productId)) {
      PutGrows(p.docData, KeyOf(productId), map[]);
      DocGrowsTrans(acc.docData, p.docData, Put(p.docData, KeyOf(productId), map[]));
    }
  }

  /** The `k`-th store value of an attribute is placed at the path of the attribute's code. */
  lemma {:induction false} AttrStepAdds(acc: Acc, ctx: Ctx, lb: nat, ib: nat, productId: Value, attrId: int, sv: StoreValues, k: nat)
    requires Inv(acc, ctx, lb, ib) && k < |sv|
    ensures var b := AttrStep(acc, ctx, productId, attrId, sv);
      FieldPath(sv[k].0, CodeOf(ctx.catalog, attrId)) in DocOf(b.docData, KeyOf(productId)) &&
      (CodeOf(ctx.catalog, attrId) in ctx.sqlCodes ==> ImportRow(productId, ctx.entityTypeId, attrId, sv[k].0, sv[k].1) in b.rows)
  {
    var a := Load(acc, attrId, ctx.catalog);
    LoadInv(acc, ctx, lb, ib, attrId);
    StoreFoldAdds(Part(a.docData, a.rows), ctx, productId, attrId, CodeOf(ctx.catalog, attrId), sv, k);
  }

  lemma {:induction false} AttrFoldGrows(acc: Acc, ctx: Ctx, productId: Value, attrs: AttrValues, k: nat)
    requires k <= |attrs|
    ensures var a := AttrFold(acc, ctx, productId, attrs[..k]);
      var b := AttrFold(acc, ctx, productId, attrs);
      DocGrows(a.docData, b.docData) && a.rows <= b.rows
  {
    if k == |attrs| {
      assert attrs[..k] == attrs;
    } else {
      var n := |attrs| - 1;
      assert attrs[..n][..k] == attrs[..k];
      AttrFoldGrows(acc, ctx, productId, attrs[..n], k);
      var m := AttrFold(acc, ctx, productId, attrs[..n]);
      AttrStepGrows(m, ctx, productId, attrs[n].0, attrs[n].1);
      DocGrowsTrans(AttrFold(acc, ctx, productId, attrs[..k]).docData, m.docData, AttrFold(acc, ctx, productId, attrs).docData);
    }
  }

  lemma {:induction false} AttrFoldAdds(acc: Acc, ctx: Ctx, lb: nat, ib: nat, productId: Value, attrs: AttrValues, ai: nat, k: nat)
    requires Inv(acc, ctx, lb, ib) && ai < |attrs| && k < |attrs[ai].1|
    ensures var b := AttrFold(acc, ctx, productId, attrs);
      var (attrId, sv) := attrs[ai];
      FieldPath(sv[k].0, CodeOf(ctx.catalog, attrId)) in DocOf(b.docData, KeyOf(productId)) &&
      (CodeOf(ctx.catalog, attrId) in ctx.sqlCodes ==> ImportRow(productId, ctx.entityTypeId, attrId, sv[k].0, sv[k].1) in b.rows)
  {
    var m := AttrFold(acc, ctx, productId, attrs[..ai]);
    assert attrs[..ai + 1][..ai] == attrs[..ai];
    AttrFoldInv(acc, ctx, lb, ib, productId, attrs[..ai]);
    AttrStepAdds(m, ctx, lb, ib, productId, attrs[ai].0, attrs[ai].1, k);
    AttrFoldGrows(acc, ctx, productId, attrs, ai + 1);
  }

  /** A product with at least one attribute has a payload, even one without values. */
  lemma {:induction false} AttrFoldProduct(acc: Acc, ctx: Ctx, productId: Value, attrs: AttrValues)
    requires attrs != []
    ensures HasKey(AttrFold(acc, ctx, productId, attrs).docData, KeyOf(productId))
  {
    var n := |attrs| - 1;
    AttrStepGrows(AttrFold(acc, ctx, productId, attrs[..n]), ctx, productId, attrs[n].0, attrs[n].1);
  }

  lemma {:induction false} SkuFoldGrows(acc: Acc, ctx: Ctx, skus: SkuData, k: nat)
    requires k <= |skus|
    ensures var a := SkuFold(acc, ctx, skus[..k]);
      var b := SkuFold(acc, ctx, skus);
      DocGrows(a.docData, b.docData) && a.rows <= b.rows
  {
    if k == |skus| {
      assert skus[..k] == skus;
    } else {
      var n := |skus| - 1;
      assert skus[..n][..k] == skus[..k];
      SkuFoldGrows(acc, ctx, skus[..n], k);
      var m := SkuFold(acc, ctx, skus[..n]);
      assert skus[n].1[..|skus[n].1|] == skus[n].1;
      AttrFoldGrows(m, ctx, ctx.newSku(skus[n].0), skus[n].1, 0);
      assert skus[n].1[..0] == [];
      DocGrowsTrans(SkuFold(acc, ctx, skus[..k]).docData, m.docData, SkuFold(acc, ctx, skus).docData);
    }
  }

  lemma {:induction false} SkuFoldAdds(acc: Acc, ctx: Ctx, lb: nat, ib: nat, skus: SkuData, si: nat, ai: nat, k: nat)
    requires Inv(acc, ctx, lb, ib) && si < |skus| && ai < |skus[si].1| && k < |skus[si].1[ai].1|
    ensures var b := SkuFold(acc, ctx, skus);
      var pid := KeyOf(ctx.newSku(skus[si].0));
      var (attrId, sv) := skus[si].1[ai];
      HasKey(b.docData, pid) && FieldPath(sv[k].0, CodeOf(ctx.catalog, attrId)) in DocOf(b.docData, pid) &&
      (CodeOf(ctx.catalog, attrId) in ctx.sqlCodes ==> ImportRow(ctx.newSku(skus[si].0), ctx.entityTypeId, attrId, sv[k].0, sv[k].1) in b.rows)
  {
    var m := SkuFold(acc, ctx, skus[..si]);
    assert skus[..si + 1][..si] == skus[..si];
    SkuFoldInv(acc, ctx, lb, ib, skus[..si]);
    AttrFoldAdds(m, ctx, lb, ib, ctx.newSku(skus[si].0), skus[si].1, ai, k);
    AttrFoldProduct(m, ctx, ctx.newSku(skus[si].0), skus[si].1);
    SkuFoldGrows(acc, ctx, skus, si + 1);
  }

  lemma {:induction false} TableFoldGrows(acc: Acc, ctx: Ctx, data: AttributesData, k: nat)
    requires k <= |data|
    ensures var a := TableFold(acc, ctx, data[..k]);
      var b := TableFold(acc, ctx, data);
      DocGrows(a.docData, b.docData) && a.inserts <= b.inserts
  {
    if k == |data| {
      assert data[..k] == data;
    } else {
      var n := |data| - 1;
      assert data[..n][..k] == data[..k];
      TableFoldGrows(acc, ctx, data[..n], k);
      var m := TableFold(acc, ctx, data[..n]);
      TableStepGrows(m, ctx, data[n].0, data[n].1);
      DocGrowsTrans(TableFold(acc, ctx, data[..k]).docData, m.docData, TableFold(acc, ctx, data).docData);
    }
  }

  lemma TableStepGrows(m: Acc, ctx: Ctx, table: string, skus: SkuData)
    ensures var b := TableStep(m, ctx, table, skus);
      DocGrows(m.docData, b.docData) && m.inserts <= b.inserts
  {
    SkuFoldGrows(m.(rows := []), ctx, skus, 0);
    assert skus[..0] == [];
  }

  /**
   * Every imported value is in its product's payload at the path of its
   * store and its attribute's code, SQL-kept or not; the value of an
   * SQL-kept attribute is also a row of a write to its table.
   */
  lemma {:induction false} TableFoldAdds(acc: Acc, ctx: Ctx, lb: nat, ib: nat, data: AttributesData, ti: nat, si: nat, ai: nat, k: nat)
    requires Inv(acc, ctx, lb, ib)
    requires ti < |data| && si < |data[ti].1| && ai < |data[ti].1[si].1| && k < |data[ti].1[si].1[ai].1|
    ensures var b := TableFold(acc, ctx, data);
      var sku := data[ti].1[si].0;
      var pid := KeyOf(ctx.newSku(sku));
      var attrId := data[ti].1[si].1[ai].0;
      var sv := data[ti].1[si].1[ai].1;
      HasKey(b.docData, pid) && FieldPath(sv[k].0, CodeOf(ctx.catalog, attrId)) in DocOf(b.docData, pid) &&
      (CodeOf(ctx.catalog, attrId) in ctx.sqlCodes ==>
        exists w :: |acc.inserts| <= w < |b.inserts| && b.inserts[w].0 == data[ti].0 &&
          ImportRow(ctx.newSku(sku), ctx.entityTypeId, attrId, sv[k].0, sv[k].1) in b.inserts[w].1)
  {
    var m := TableFold(acc, ctx, data[..ti]);
    assert data[..ti + 1][..ti] == data[..ti];
    TableFoldInv(acc, ctx, lb, ib, data[..ti]);
    TableStepAdds(m, ctx, lb, ib, data[ti].0, data[ti].1, si, ai, k);
    var e := TableFold(acc, ctx, data[..ti + 1]);
    TableFoldGrows(acc, ctx, data, ti + 1);
    TableFoldGrows(acc, ctx, data[..ti], 0);
    assert data[..ti][..0] == [];
    var b := TableFold(acc, ctx, data);
    if CodeOf(ctx.catalog, data[ti].1[si].1[ai].0) in ctx.sqlCodes {
      var w := |e.inserts| - 1;
      assert e.inserts[w] == b.inserts[w];
    }
  }

  lemma TableStepAdds(m: Acc, ctx: Ctx, lb: nat, ib: nat, table: string, skus: SkuData, si: nat, ai: nat, k: nat)
    requires Inv(m, ctx, lb, ib) && si < |skus| && ai < |skus[si].1| && k < |skus[si].1[ai].1|
    ensures var e := TableStep(m, ctx, table, skus);
      var pid := KeyOf(ctx.newSku(skus[si].0));
      var (attrId, sv) := skus[si].1[ai];
      HasKey(e.docData, pid) && FieldPath(sv[k].0, CodeOf(ctx.catalog, attrId)) in DocOf(e.docData, pid) &&
      (CodeOf(ctx.catalog, attrId) in ctx.sqlCodes ==>
        |e.inserts| == |m.inserts| + 1 && e.inserts[|m.inserts|].0 == table &&
        ImportRow(ctx.newSku(skus[si].0), ctx.entityTypeId, attrId, sv[k].0, sv[k].1) in e.inserts[|m.inserts|].1)
  {
    SkuFoldAdds(m.(rows := []), ctx, lb, ib, skus, si, ai, k);
  }

  /** One payload assignment `$docData[$productId][$path] = $value`. */
  type Write = (Key, string, Value)

  /** The assignments of one attribute's store loop, in order. */
  function StoreWrites(pid: Key, code: string, sv: StoreValues): seq<Write>
  {
    if sv == [] then []
    else
      var n := |sv| - 1;
      StoreWrites(pid, code, sv[..n]) + [(pid, FieldPath(sv[n].0, code), sv[n].1)]
  }

  /** The assignments for one product's attributes, each at the path of its attribute's code. */
  function AttrWrites(ctx: Ctx, pid: Key, attrs: AttrValues): seq<Write>
  {
    if attrs == [] then []
    else
      var n := |attrs| - 1;
      AttrWrites(ctx, pid, attrs[..n]) + StoreWrites(pid, CodeOf(ctx.catalog, attrs[n].0), attrs[n].1)
  }

  /** The assignments for one table's skus, each under the entity id of its sku. */
  function SkuWrites(ctx: Ctx, skus: SkuData): seq<Write>
  {
    if skus == [] then []
    else
      var n := |skus| - 1;
      SkuWrites(ctx, skus[..n]) + AttrWrites(ctx, KeyOf(ctx.newSku(skus[n].0)), skus[n].1)
  }

  /** Every payload assignment of an import, in the order of its loops. */
  function ImportWrites(ctx: Ctx, data: AttributesData): seq<Write>
  {
    if data == [] then []
    else
      var n := |data| - 1;
      ImportWrites(ctx, data[..n]) + SkuWrites(ctx, data[n].1)
  }

  /** The value of the last assignment to `path` of product `pid`, if any. */
  function LastWrite(w: seq<Write>, pid: Key, path: string): (r: Option<Value>)
    ensures r.Some? ==> exists j :: 0 <= j < |w| && w[j] == (pid, path, r.value)
    ensures r.None? ==> forall j :: 0 <= j < |w| ==> w[j].0 != pid || w[j].1 != path
  {
    if w == [] then None
    else
      var n := |w| - 1;
      if w[n].0 == pid && w[n].1 == path then Some(w[n].2) else LastWrite(w[..n], pid, path)
  }

  /** `$docData[$pid][$path]`, when set. */
  function Lookup(d: seq<(Key, map<string, Value>)>, pid: Key, path: string): Option<Value>
  {
    if path in DocOf(d, pid) then Some(DocOf(d, pid)[path]) else None
  }

  /** The payloads hold exactly the last assignment of `w` at every product and path. */
  ghost predicate Holds(d: seq<(Key, map<string, Value>)>, w: seq<Write>)
  {
    forall pid, path :: Lookup(d, pid, path) == LastWrite(w, pid, path)
  }

  lemma PutFieldHolds(d: seq<(Key, map<string, Value>)>, w: seq<Write>, pid: Key, path: string, v: Value)
    requires Holds(d, w)
    ensures Holds(Put(d, pid, DocOf(d, pid)[path := v]), w + [(pid, path, v)])
  {
    var w' := w + [(pid, path, v)];
    assert w'[..|w|] == w;
    forall pid', path' ensures Lookup(Put(d, pid, DocOf(d, pid)[path := v]), pid', path') == LastWrite(w', pid', path') {
      PutGet(d, pid, DocOf(d, pid)[path := v], pid');
    }
  }

  lemma PutEmptyHolds(d: seq<(Key, map<string, Value>)>, w: seq<Write>, pid: Key)
    requires Holds(d, w) && !HasKey(d, pid)
    ensures Holds(Put(d, pid, map[]), w)
  {
    forall pid', path' ensures Lookup(Put(d, pid, map[]), pid', path') == LastWrite(w, pid', path') {
      PutGet(d, pid, map[], pid');
    }
  }

  lemma {:induction false} StoreFoldHolds(p: Part, ctx: Ctx, productId: Value, attrId: int, code: string, sv: StoreValues, w: seq<Write>)
    requires Holds(p.docData, w)
    ensures Holds(StoreFold(p, ctx, productId, attrId, code, sv).docData, w + StoreWrites(KeyOf(productId), code, sv))
  {
    if sv == [] {
      assert w + StoreWrites(KeyOf(productId), code, sv) == w;
    } else {
      var n := |sv| - 1;
      var pid := KeyOf(productId);
      StoreFoldHolds(p, ctx, productId, attrId, code, sv[..n], w);
      var m := StoreFold(p, ctx, productId, attrId, code, sv[..n]);
      PutFieldHolds(m.docData, w + StoreWrites(pid, code, sv[..n]), pid, FieldPath(sv[n].0, code), sv[n].1);
      assert w + StoreWrites(pid, code, sv) == w + StoreWrites(pid, code, sv[..n]) + [(pid, FieldPath(sv[n].0, code), sv[n].1)];
    }
  }

  lemma {:induction false} AttrStepHolds(acc: Acc, ctx: Ctx, lb: nat, ib: nat, productId: Value, attrId: int, sv: StoreValues, w: seq<Write>)
    requires Inv(acc, ctx, lb, ib) && Holds(acc.docData, w)
    ensures Holds(AttrStep(acc, ctx, productId, attrId, sv).docData, w + StoreWrites(KeyOf(productId), CodeOf(ctx.catalog, attrId), sv))
  {
    var a := Load(acc, attrId, ctx.catalog);
    LoadInv(acc, ctx, lb, ib, attrId);
    var code := CodeOf(ctx.catalog, attrId);
    StoreFoldHolds(Part(a.docData, a.rows), ctx, productId, attrId, code, sv, w);
    var p := StoreFold(Part(a.docData, a.rows), ctx, productId, attrId, code, sv);
    if !HasKey(p.docData, KeyOf(productId)) {
      PutEmptyHolds(p.docData, w + StoreWrites(KeyOf(productId), code, sv), KeyOf(productId));
    }
  }

  lemma {:induction false} AttrFoldHolds(acc: Acc, ctx: Ctx, lb: nat, ib: nat, productId: Value, attrs: AttrValues, w: seq<Write>)
    requires Inv(acc, ctx, lb, ib) && Holds(acc.docData, w)
    ensures Holds(AttrFold(acc, ctx, productId, attrs).docData, w + AttrWrites(ctx, KeyOf(productId), attrs))
  {
    if attrs == [] {
      assert w + AttrWrites(ctx, KeyOf(productId), attrs) == w;
    } else {
      var n := |attrs| - 1;
      var pid := KeyOf(productId);
      AttrFoldHolds(acc, ctx, lb, ib, productId, attrs[..n], w);
      AttrFoldInv(acc, ctx, lb, ib, productId, attrs[..n]);
      AttrStepHolds(AttrFold(acc, ctx, productId, attrs[..n]), ctx, lb, ib, productId, attrs[n].0, attrs[n].1,
                    w + AttrWrites(ctx, pid, attrs[..n]));
      assert w + AttrWrites(ctx, pid, attrs) ==
        w + AttrWrites(ctx, pid, attrs[..n]) + StoreWrites(pid, CodeOf(ctx.catalog, attrs[n].0), attrs[n].1);
    }
  }

  lemma {:induction false} SkuFoldHolds(acc: Acc, ctx: Ctx, lb: nat, ib: nat, skus: SkuData, w: seq<Write>)
    requires Inv(acc, ctx, lb, ib) && Holds(acc.docData, w)
    ensures Holds(SkuFold(acc, ctx, skus).docData, w + SkuWrites(ctx, skus))
  {
    if skus == [] {
      assert w + SkuWrites(ctx, skus) == w;
    } else {
      var n := |skus| - 1;
      SkuFoldHolds(acc, ctx, lb, ib, skus[..n], w);
      SkuFoldInv(acc, ctx, lb, ib, skus[..n]);
      AttrFoldHolds(SkuFold(acc, ctx, skus[..n]), ctx, lb, ib, ctx.newSku(skus[n].0), skus[n].1, w + SkuWrites(ctx, skus[..n]));
      assert w + SkuWrites(ctx, skus) ==
        w + SkuWrites(ctx, skus[..n]) + AttrWrites(ctx, KeyOf(ctx.newSku(skus[n].0)), skus[n].1);
    }
  }

  lemma {:induction false} TableFoldHolds(acc: Acc, ctx: Ctx, lb: nat, ib: nat, data: AttributesData, w: seq<Write>)
    requires Inv(acc, ctx, lb, ib) && Holds(acc.docData, w)
    ensures Holds(TableFold(acc, ctx, data).docData, w + ImportWrites(ctx, data))
  {
    if data == [] {
      assert w + ImportWrites(ctx, data) == w;
    } else {
      var n := |data| - 1;
      TableFoldHolds(acc, ctx, lb, ib, data[..n], w);
      TableFoldInv(acc, ctx, lb, ib, data[..n]);
      var m := TableFold(acc, ctx, data[..n]);
      SkuFoldHolds(m.(rows := []), ctx, lb, ib, data[n].1, w + ImportWrites(ctx, data[..n]));
      assert w + ImportWrites(ctx, data) == w + ImportWrites(ctx, data[..n]) + SkuWrites(ctx, data[n].1);
    }
  }

  /**
   * Over a whole import, the payload of a product holds at a path exactly
   * the value of the last import entry for that product whose store and
   * attribute code give that path, and no field that no entry assigns.
   */
  lemma ImportPayloads(ctx: Ctx, data: AttributesData, loads: seq<int>, inserts: seq<(string, seq<ImportRow>)>, pid: Key, path: string)
    ensures Lookup(TableFold(Acc([], loads, [], [], inserts), ctx, data).docData, pid, path) == LastWrite(ImportWrites(ctx, data), pid, path)
  {
    var acc := Acc([], loads, [], [], inserts);
    assert acc.loads[|loads|..] == [];
    assert [] + ImportWrites(ctx, data) == ImportWrites(ctx, data);
    TableFoldHolds(acc, ctx, |loads|, |inserts|, data, []);
  }

  /**
   * Over a whole import: every imported (attribute, store, value) of a
   * product is in that product's payload at `attr_<store>.<code>`, whether
   * the code is SQL-kept or not, holding that value unless another entry
   * assigns a different one to the same product and path; and the value of an SQL-kept attribute is
   * a row of one of this import's writes to its table.
   */
  lemma ImportPlacesValues(ctx: Ctx, data: AttributesData, loads: seq<int>, inserts: seq<(string, seq<ImportRow>)>,
                           ti: nat, si: nat, ai: nat, k: nat)
    requires ti < |data| && si < |data[ti].1| && ai < |data[ti].1[si].1| && k < |data[ti].1[si].1[ai].1|
    ensures var b := TableFold(Acc([], loads, [], [], inserts), ctx, data);
      var sku := data[ti].1[si].0;
      var pid := KeyOf(ctx.newSku(sku));
      var attrId := data[ti].1[si].1[ai].0;
      var sv := data[ti].1[si].1[ai].1;
      var path := FieldPath(sv[k].0, CodeOf(ctx.catalog, attrId));
      var writes := ImportWrites(ctx, data);
      HasKey(b.docData, pid) && path in DocOf(b.docData, pid) &&
      ((forall j :: 0 <= j < |writes| && writes[j].0 == pid && writes[j].1 == path ==> writes[j].2 == sv[k].1) ==>
        DocOf(b.docData, pid)[path] == sv[k].1) &&
      (CodeOf(ctx.catalog, attrId) in ctx.sqlCodes ==>
        exists w :: |inserts| <= w < |b.inserts| && b.inserts[w].0 == data[ti].0 &&
          ImportRow(ctx.newSku(sku), ctx.entityTypeId, attrId, sv[k].0, sv[k].1) in b.inserts[w].1)
  {
    var acc := Acc([], loads, [], [], inserts);
    assert acc.loads[|loads|..] == [];
    TableFoldAdds(acc, ctx, |loads|, |inserts|, data, ti, si, ai, k);
    var (attrId, sv) := data[ti].1[si].1[ai];
    ImportPayloads(ctx, data, loads, inserts, KeyOf(ctx.newSku(data[ti].1[si].0)), FieldPath(sv[k].0, CodeOf(ctx.catalog, attrId)));
  }

  /** The product import entity, over the product resource that owns the documents. */
  class Importer {
    const resource: Resource
    const entityTypeId: int
    /** `_newSku`: the entity id of each imported sku. */
    const newSku: string -> Value
    /** The attribute loads, in order. */
    var loads: seq<int>
    /** The `insertOnDuplicate` writes, in order: the table and its rows. */
    var inserts: seq<(string, seq<ImportRow>)>

    ghost predicate Valid()
      reads this, resource, resource.docs
    {
      resource.Valid()
    }

    constructor (resource: Resource, entityTypeId: int, newSku: string -> Value)
      requires resource.Valid()
      ensures Valid() && this.resource == resource && this.entityTypeId == entityTypeId && this.newSku == newSku
      ensures loads == [] && inserts == []
    {
      this.resource := resource;
      this.entityTypeId := entityTypeId;
      this.newSku := newSku;
      loads := [];
      inserts := [];
    }

    /** The context the save runs in. */
    function Context(): Ctx
    {
      Ctx(SpecialCodes + resource.entityColumns, resource.attributes, entityTypeId, newSku)
    }

    /** The store loop of one attribute of one product. */
    static method StoreLoop(docData: seq<(Key, map<string, Value>)>, rows: seq<ImportRow>, ctx: Ctx,
                            productId: Value, attrId: int, code: string, sv: StoreValues)
      returns (docData': seq<(Key, map<string, Value>)>, rows': seq<ImportRow>)
      ensures Part(docData', rows') == StoreFold(Part(docData, rows), ctx, productId, attrId, code, sv)
    {
      docData', rows' := docData, rows;
      var pid := KeyOf(productId);
      for k := 0 to |sv|
        invariant Part(docData', rows') == StoreFold(Part(docData, rows), ctx, productId, attrId, code, sv[..k])
      {
        assert sv[..k + 1][..k] == sv[..k];
        var (store, value) := sv[k];
        if code in ctx.sqlCodes {
          rows' := rows' + [ImportRow(productId, ctx.entityTypeId, attrId, store, value)];
        }
        docData' := Put(docData', pid, DocOf(docData', pid)[FieldPath(store, code) := value]);
      }
      assert sv[..|sv|] == sv;
    }

    /** The attribute loop of one product, loading each attribute the cache misses. */
    method AttrLoop(cache: seq<(int, string)>, docData: seq<(Key, map<string, Value>)>, rows: seq<ImportRow>, ctx: Ctx,
                    productId: Value, attrs: AttrValues)
      returns (cache': seq<(int, string)>, docData': seq<(Key, map<string, Value>)>, rows': seq<ImportRow>)
      modifies this
      ensures Acc(cache', loads, docData', rows', inserts) == AttrFold(Acc(cache, old(loads), docData, rows, old(inserts)), ctx, productId, attrs)
    {
      ghost var acc0 := Acc(cache, loads, docData, rows, inserts);
      cache', docData', rows' := cache, docData, rows;
      for i := 0 to |attrs|
        invariant Acc(cache', loads, docData', rows', inserts) == AttrFold(acc0, ctx, productId, attrs[..i])
      {
        AttrFoldStep(acc0, ctx, productId, attrs, i);
        cache', docData', rows' := AttrOne(cache', docData', rows', ctx, productId, attrs[i].0, attrs[i].1);
      }
      assert attrs[..|attrs|] == attrs;
    }

    /** The body of the attribute loop: one attribute of one product. */
    method AttrOne(cache: seq<(int, string)>, docData: seq<(Key, map<string, Value>)>, rows: seq<ImportRow>, ctx: Ctx,
                   productId: Value, attrId: int, sv: StoreValues)
      returns (cache': seq<(int, string)>, docData': seq<(Key, map<string, Value>)>, rows': seq<ImportRow>)
      modifies this
      ensures Acc(cache', loads, docData', rows', inserts) == AttrStep(Acc(cache, old(loads), docData, rows, old(inserts)), ctx, productId, attrId, sv)
    {
      cache' := cache;
      if !HasKey(cache', attrId) {
        cache' := Put(cache', attrId, CodeOf(ctx.catalog, attrId));
        loads := loads + [attrId];
      }
      var code := Get(cache', attrId).GetOr("");
      docData', rows' := StoreLoop(docData, rows, ctx, productId, attrId, code, sv);
      var pid := KeyOf(productId);
      if !HasKey(docData', pid) {
        docData' := Put(docData', pid, map[]);
      }
    }

    /** The sku loop of one table. */
    method SkuLoop(cache: seq<(int, string)>, docData: seq<(Key, map<string, Value>)>, rows: seq<ImportRow>, ctx: Ctx,
                   skus: SkuData)
      returns (cache': seq<(int, string)>, docData': seq<(Key, map<string, Value>)>, rows': seq<ImportRow>)
      modifies this
      ensures Acc(cache', loads, docData', rows', inserts) == SkuFold(Acc(cache, old(loads), docData, rows, old(inserts)), ctx, skus)
    {
      ghost var acc0 := Acc(cache, loads, docData, rows, inserts);
      cache', docData', rows' := cache, docData, rows;
      for j := 0 to |skus|
        invariant Acc(cache', loads, docData', rows', inserts) == SkuFold(acc0, ctx, skus[..j])
      {
        assert skus[..j + 1][..j] == skus[..j];
        cache', docData', rows' := AttrLoop(cache', docData', rows', ctx, newSkuOf(ctx, skus[j].0), skus[j].1);
      }
      assert skus[..|skus|] == skus;
    }

    /** The table loop: each table's rows from nothing, written when there are some. */
    method TableLoop(ctx: Ctx, data: AttributesData) returns (docData: seq<(Key, map<string, Value>)>)
      modifies this
      ensures docData == TableFold(Acc([], old(loads), [], [], old(inserts)), ctx, data).docData
      ensures loads == TableFold(Acc([], old(loads), [], [], old(inserts)), ctx, data).loads
      ensures inserts == TableFold(Acc([], old(loads), [], [], old(inserts)), ctx, data).inserts
    {
      ghost var acc0 := Acc([], loads, [], [], inserts);
      var cache: seq<(int, string)> := [];
      var rows: seq<ImportRow> := [];
      docData := [];
      for t := 0 to |data|
        invariant Acc(cache, loads, docData, rows, inserts) == TableFold(acc0, ctx, data[..t])
      {
        assert data[..t + 1][..t] == data[..t];
        var (table, skus) := data[t];
        rows := [];
        cache, docData, rows := SkuLoop(cache, docData, rows, ctx, skus);
        if rows != [] {
          inserts := inserts + [(table, rows)];
        }
      }
      assert data[..|data|] == data;
    }

    /** One `updateRawDocument` with `$set` per product payload. */
    method WriteDocuments(docData: seq<(Key, map<string, Value>)>)
      requires Valid()
      modifies resource.docs
      ensures Valid()
      ensures resource.docs.docs == RawWrites(old(resource.docs.docs), docData)
    {
      for i := 0 to |docData|
        invariant resource.Valid()
        invariant resource.docs.docs == RawWrites(old(resource.docs.docs), docData[..i])
      {
        assert docData[..i + 1][..i] == docData[..i];
        resource.UpdateRawDocument(KeyValue(docData[i].0), RawFields(docData[i].1), Str("$set"));
      }
      assert docData[..|docData|] == docData;
    }

    /**
     * `_saveProductAttributes`: per table, the rows of its SQL-kept
     * attributes written in one `insertOnDuplicate` when there are any;
     * then one `$set` upsert of its payload per product.
     */
    method SaveProductAttributes(data: AttributesData)
      requires Valid()
      modifies this, resource, resource.docs
      ensures Valid()
      ensures var a := TableFold(Acc([], old(loads), [], [], old(inserts)), Context(), data);
        loads == a.loads && inserts == a.inserts && resource.docs.docs == RawWrites(old(resource.docs.docs), a.docData)
    {
      var sqlCodes := resource.GetSqlAttributesCodes();
      var ctx := Ctx(sqlCodes, resource.attributes, entityTypeId, newSku);
      var docData := TableLoop(ctx, data);
      WriteDocuments(docData);
    }
  }

  /** `$this->_newSku[$sku]['entity_id']`. */
  function newSkuOf(ctx: Ctx, sku: string): Value
  {
    ctx.newSku(sku)
  }
}
