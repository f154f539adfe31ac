/**
 * The one-off migration job that moves a catalog's attribute values out of
 * the relational value tables into product documents.
 *
 * The job walks the entity table in chunks of ChunkSize ids, builds one
 * document per product (`attr_0` from the entity row and the default
 * values, `attr_<store>` from each store's values), prunes and coerces it
 * against the product's attribute set and writes it with an upsert. It
 * then turns every gallery row into an image record, added with
 * `$addToSet` under `galleries.<code>`. On request it finally deletes the
 * migrated rows, after a pre-flight count of the attribute ids that stay
 * relational.
 *
 * The relational tables are inputs (sequences of rows). Every query the
 * job runs against them is a function on those rows. Write failures,
 * md5 and the locale number parser are oracles.
 */
module Mongoify {
  import opened Wrappers
  import opened Php
  import opened PhpArray
  import opened Eav
  import opened ScopeCodec
  import opened Documents
  import opened DocStore
  import QueryBuilder
  import ProductResource

  /** Products fetched per chunk. */
  const ChunkSize: nat := 100

  // ------------------------------------------------------------------
  // The id cursor
  // ------------------------------------------------------------------

  /** A row of the entity table: its id and the columns the cursor selects from it. */
  datatype ProductRow = ProductRow(id: int, columns: Scope)

  /** The entity table in primary-key order, the order `ORDER BY entity_id` returns. */
  predicate Ascending(table: seq<ProductRow>)
  {
    forall i, j :: 0 <= i < j < |table| ==> table[i].id < table[j].id
  }

  lemma AscendingPrefix(table: seq<ProductRow>, n: nat)
    requires Ascending(table) && n <= |table|
    ensures Ascending(table[..n])
  {
  }

  /** `WHERE entity_id > last`: the rows above `last`, in table order. */
  function Above(table: seq<ProductRow>, last: int): (r: seq<ProductRow>)
    ensures |r| <= |table|
    ensures forall p :: p in r <==> p in table && p.id > last
  {
    if table == [] then []
    else
      assert table == [table[0]] + table[1..];
      (if table[0].id > last then [table[0]] else []) + Above(table[1..], last)
  }

  lemma {:induction false} AboveAll(table: seq<ProductRow>, last: int)
    requires Ascending(table)
    requires forall i :: 0 <= i < |table| ==> table[i].id > last
    ensures Above(table, last) == table
  {
    if table != [] {
      AboveAll(table[1..], last);
    }
  }

  /** The rows above the id of row `j` are the rows after it. */
  lemma {:induction false} AboveAt(table: seq<ProductRow>, j: nat)
    requires Ascending(table) && j < |table|
    ensures Above(table, table[j].id) == table[j + 1..]
  {
    if j == 0 {
      AboveAll(table[1..], table[0].id);
    } else {
      AboveAt(table[1..], j - 1);
      assert table[1..][j - 1] == table[j];
      assert table[1..][j..] == table[j + 1..];
    }
  }

  /** In an ascending table the rows above any id form a suffix. */
  lemma {:induction false} AboveSuffix(table: seq<ProductRow>, last: int) returns (k: nat)
    requires Ascending(table)
    ensures k <= |table| && Above(table, last) == table[k..]
  {
    if table == [] {
      k := 0;
    } else if table[0].id > last {
      AboveAll(table, last);
      k := 0;
    } else {
      var k' := AboveSuffix(table[1..], last);
      k := k' + 1;
      assert table[1..][k'..] == table[k..];
    }
  }

  /** Moving the cursor to the n-th row above `last` leaves exactly the rows after it. */
  lemma AboveAdvance(table: seq<ProductRow>, last: int, n: nat)
    requires Ascending(table) && 0 < n <= |Above(table, last)|
    ensures Above(table, Above(table, last)[n - 1].id) == Above(table, last)[n..]
  {
    var k := AboveSuffix(table, last);
    assert Above(table, last)[n - 1] == table[k + n - 1];
    AboveAt(table, k + n - 1);
    assert table[k..][n..] == table[k + n..];
  }

  /**
   * `_getProducts`: at most ChunkSize rows above `last`, by ascending id.
   * The job passes no id list on the first call and an empty one after,
   * so the optional `IN` restriction never applies.
   */
  function Chunk(table: seq<ProductRow>, last: int): (c: seq<ProductRow>)
    ensures |c| <= ChunkSize
    ensures |c| <= |Above(table, last)| && c == Above(table, last)[..|c|]
    ensures |c| < ChunkSize ==> c == Above(table, last)
  {
    var above := Above(table, last);
    if |above| <= ChunkSize then above
    else above[..ChunkSize]
  }

  /** A chunk holds only rows above the cursor, and comes back empty exactly when no row is left. */
  lemma ChunkMeaning(table: seq<ProductRow>, last: int)
    ensures forall p :: p in Chunk(table, last) ==> p in table && p.id > last
    ensures Chunk(table, last) == [] <==> forall p :: p in table ==> p.id <= last
  {
    var above := Above(table, last);
    var c := Chunk(table, last);
    forall p | p in c ensures p in table && p.id > last {
      assert p in above;
    }
    if above != [] {
      assert above[0] in table && above[0].id > last;
    }
  }

  /** The chunks the cursor fetches, from `last` until a chunk comes back empty. */
  function Chunks(table: seq<ProductRow>, last: int): seq<seq<ProductRow>>
    requires Ascending(table)
    decreases |Above(table, last)|
  {
    var c := Chunk(table, last);
    if c == [] then []
    else
      AboveAdvance(table, last, |c|);
      [c] + Chunks(table, c[|c| - 1].id)
  }

  function Concat(cs: seq<seq<ProductRow>>): seq<ProductRow>
  {
    if cs == [] then [] else cs[0] + Concat(cs[1..])
  }

  /** The first chunk, and the chunks fetched from the cursor it leaves behind. */
  lemma ChunksUnfold(table: seq<ProductRow>, last: int)
    requires Ascending(table) && Chunk(table, last) != []
    ensures var c := Chunk(table, last);
      Above(table, c[|c| - 1].id) == Above(table, last)[|c|..] &&
      Chunks(table, last) == [c] + Chunks(table, c[|c| - 1].id)
  {
    AboveAdvance(table, last, |Chunk(table, last)|);
  }

  /** The cursor visits every row above `last` exactly once and in id order. */
  lemma {:induction false} ChunksConcat(table: seq<ProductRow>, last: int)
    requires Ascending(table)
    ensures Concat(Chunks(table, last)) == Above(table, last)
    decreases |Above(table, last)|
  {
    var c := Chunk(table, last);
    if c != [] {
      var above := Above(table, last);
      ChunksUnfold(table, last);
      var next := c[|c| - 1].id;
      assert Above(table, next) == above[|c|..];
      ChunksConcat(table, next);
      var rest := Chunks(table, next);
      assert Chunks(table, last) == [c] + rest;
      ConcatCons(c, rest);
      assert Concat(rest) == above[|c|..];
      assert above == c + above[|c|..];
    }
  }

  lemma ConcatCons(c: seq<ProductRow>, rest: seq<seq<ProductRow>>)
    ensures Concat([c] + rest) == c + Concat(rest)
  {
    assert ([c] + rest)[1..] == rest;
  }

  /** No chunk is empty, none holds more than ChunkSize rows and only the last one may hold fewer. */
  predicate FullChunks(cs: seq<seq<ProductRow>>)
  {
    (forall i :: 0 <= i < |cs| ==> 0 < |cs[i]| <= ChunkSize) &&
    (forall i :: 0 <= i < |cs| - 1 ==> |cs[i]| == ChunkSize)
  }

  lemma {:induction false} ChunksSizes(table: seq<ProductRow>, last: int)
    requires Ascending(table)
    ensures FullChunks(Chunks(table, last))
    decreases |Above(table, last)|
  {
    var c := Chunk(table, last);
    if c != [] {
      ChunksUnfold(table, last);
      var next := c[|c| - 1].id;
      ChunksSizes(table, next);
      var rest := Chunks(table, next);
      if |c| < ChunkSize {
        assert Above(table, next) == [];
        assert rest == [];
      }
      ConsFullChunks(c, rest);
    }
  }

  lemma ConsFullChunks(c: seq<ProductRow>, rest: seq<seq<ProductRow>>)
    requires 0 < |c| <= ChunkSize && FullChunks(rest)
    requires rest != [] ==> |c| == ChunkSize
    ensures FullChunks([c] + rest)
  {
    var cs := [c] + rest;
    forall i | 0 < i < |cs| ensures cs[i] == rest[i - 1] {
    }
  }

  // ------------------------------------------------------------------
  // Store order
  // ------------------------------------------------------------------

  predicate NonDecreasing(s: seq<nat>)
  {
    forall i, j :: 0 <= i < j < |s| ==> s[i] <= s[j]
  }

  lemma ConsNonDecreasing(x: nat, s: seq<nat>)
    requires NonDecreasing(s) && forall j :: 0 <= j < |s| ==> x <= s[j]
    ensures NonDecreasing([x] + s)
  {
    var r := [x] + s;
    forall i, j | 0 <= i < j < |r| ensures r[i] <= r[j] {
      assert r[j] == s[j - 1];
      if i > 0 { assert r[i] == s[i - 1]; }
    }
  }

  /** The first of a non-decreasing list is below every entry of its tail with one larger id added. */
  lemma FirstStoreBelowRest(s: seq<nat>, x: nat, rest: seq<nat>)
    requires NonDecreasing(s) && s != [] && s[0] < x
    requires multiset(rest) == multiset(s[1..]) + multiset{x}
    ensures forall j :: 0 <= j < |rest| ==> s[0] <= rest[j]
  {
    forall j | 0 <= j < |rest| ensures s[0] <= rest[j] {
      assert rest[j] in multiset(rest);
      if rest[j] != x {
        assert rest[j] in multiset(s[1..]);
        var m :| 0 <= m < |s[1..]| && s[1..][m] == rest[j];
        assert s[m + 1] == rest[j];
      }
    }
  }

  function InsertStore(s: seq<nat>, x: nat): (r: seq<nat>)
    requires NonDecreasing(s)
    ensures NonDecreasing(r) && multiset(r) == multiset(s) + multiset{x}
  {
    if s == [] || x <= s[0] then
      ConsNonDecreasing(x, s);
      [x] + s
    else
      var rest := InsertStore(s[1..], x);
      FirstStoreBelowRest(s, x, rest);
      assert s == [s[0]] + s[1..];
      ConsNonDecreasing(s[0], rest);
      [s[0]] + rest
  }

  /** `asort` of the store ids: the order the stores are visited in. */
  function StoreOrder(stores: seq<nat>): (r: seq<nat>)
    ensures NonDecreasing(r) && multiset(r) == multiset(stores)
  {
    if stores == [] then []
    else
      assert stores == stores[..|stores| - 1] + [stores[|stores| - 1]];
      InsertStore(StoreOrder(stores[..|stores| - 1]), stores[|stores| - 1])
  }

  /** The default store, when it exists, is visited first. */
  lemma DefaultStoreFirst(stores: seq<nat>)
    requires DefaultStore in stores
    ensures |StoreOrder(stores)| > 0 && StoreOrder(stores)[0] == DefaultStore
  {
    var r := StoreOrder(stores);
    assert DefaultStore in multiset(stores);
    assert DefaultStore in multiset(r);
    var i :| 0 <= i < |r| && r[i] == DefaultStore;
    if i > 0 {
      assert r[0] <= r[i];
    }
  }

  // ------------------------------------------------------------------
  // Per-store document assembly
  // ------------------------------------------------------------------

  /** A row of one of the five attribute value tables. */
  datatype EavRow = EavRow(entityId: int, attributeId: int, storeId: nat, value: Value)

  /** The backend types that have a value table of their own. */
  const ValueTables: seq<string> := ["int", "varchar", "text", "decimal", "datetime"]

  /** The ids the store query reads values for: attributes whose backend type has a value table. */
  predicate DynamicId(catalog: Catalog, id: int)
  {
    exists i :: 0 <= i < |catalog| && catalog[i].id == id && catalog[i].backendType in ValueTables
  }

  /** Whether the store query of `_getProductAttributes` returns the row. */
  predicate Fetched(catalog: Catalog, row: EavRow, store: nat, ids: seq<int>)
  {
    row.storeId == store && row.entityId in ids && DynamicId(catalog, row.attributeId)
  }

  /**
   * `_getProductAttributes`: entity id -> attribute code -> value for one
   * store, over the products `ids`. Every fetched id has a code, so the
   * lookup that would throw never does.
   */
  function StoreAttributes(rows: seq<EavRow>, catalog: Catalog, store: nat, ids: seq<int>): map<int, Scope>
  {
    if rows == [] then map[]
    else AddRow(StoreAttributes(rows[..|rows| - 1], catalog, store, ids), catalog, store, ids, rows[|rows| - 1])
  }

  /** One pass of the row loop: a fetched row sets its code in its product's values. */
  function AddRow(acc: map<int, Scope>, catalog: Catalog, store: nat, ids: seq<int>, row: EavRow): map<int, Scope>
  {
    if Fetched(catalog, row, store, ids) then
      var code := CodeById(catalog, row.attributeId).value;
      acc[row.entityId := (if row.entityId in acc then acc[row.entityId] else map[])[code := row.value]]
    else acc
  }

  /**
   * A product has values for a store exactly when some fetched row belongs
   * to it, and holds a code exactly when a fetched row of it carries that
   * attribute.
   */
  lemma {:induction false} StoreAttributesHolds(rows: seq<EavRow>, catalog: Catalog, store: nat, ids: seq<int>, e: int, code: string)
    ensures e in StoreAttributes(rows, catalog, store, ids) <==>
      exists i :: 0 <= i < |rows| && Fetched(catalog, rows[i], store, ids) && rows[i].entityId == e
    ensures e in StoreAttributes(rows, catalog, store, ids) && code in StoreAttributes(rows, catalog, store, ids)[e] <==>
      exists i :: 0 <= i < |rows| && Fetched(catalog, rows[i], store, ids) && rows[i].entityId == e &&
        CodeById(catalog, rows[i].attributeId) == Some(code)
  {
    if rows != [] {
      var pre := rows[..|rows| - 1];
      var row := rows[|rows| - 1];
      StoreAttributesHolds(pre, catalog, store, ids, e, code);
      AddRowHolds(StoreAttributes(pre, catalog, store, ids), catalog, store, ids, row, e, code);
      LastRowSplit(pre, row, catalog, store, ids, e, code);
      assert rows == pre + [row];
    }
  }

  /** A fetched row of `pre + [row]` is a fetched row of `pre`, or `row`. */
  lemma LastRowSplit(pre: seq<EavRow>, row: EavRow, catalog: Catalog, store: nat, ids: seq<int>, e: int, code: string)
    ensures (exists i :: 0 <= i < |pre + [row]| && Fetched(catalog, (pre + [row])[i], store, ids) && (pre + [row])[i].entityId == e) <==>
      (exists i :: 0 <= i < |pre| && Fetched(catalog, pre[i], store, ids) && pre[i].entityId == e) ||
      (Fetched(catalog, row, store, ids) && row.entityId == e)
    ensures (exists i :: 0 <= i < |pre + [row]| && Fetched(catalog, (pre + [row])[i], store, ids) && (pre + [row])[i].entityId == e &&
                         CodeById(catalog, (pre + [row])[i].attributeId) == Some(code)) <==>
      (exists i :: 0 <= i < |pre| && Fetched(catalog, pre[i], store, ids) && pre[i].entityId == e &&
                   CodeById(catalog, pre[i].attributeId) == Some(code)) ||
      (Fetched(catalog, row, store, ids) && row.entityId == e && CodeById(catalog, row.attributeId) == Some(code))
  {
    assert forall i :: 0 <= i < |pre| ==> (pre + [row])[i] == pre[i];
    assert (pre + [row])[|pre|] == row;
  }

  lemma AddRowHolds(acc: map<int, Scope>, catalog: Catalog, store: nat, ids: seq<int>, row: EavRow, e: int, code: string)
    ensures e in AddRow(acc, catalog, store, ids, row) <==> e in acc || (Fetched(catalog, row, store, ids) && row.entityId == e)
    ensures e in AddRow(acc, catalog, store, ids, row) && code in AddRow(acc, catalog, store, ids, row)[e] <==>
      (e in acc && code in acc[e]) || (Fetched(catalog, row, store, ids) && row.entityId == e && CodeById(catalog, row.attributeId) == Some(code))
  {
  }

  function Ids(chunk: seq<ProductRow>): (ids: seq<int>)
    ensures |ids| == |chunk| && forall i :: 0 <= i < |chunk| ==> ids[i] == chunk[i].id
  {
    if chunk == [] then [] else [chunk[0].id] + Ids(chunk[1..])
  }

  /** One product document under assembly: store id -> the scope written as `attr_<store>`. */
  type ProductDocument = map<nat, Scope>

  /** A product's scope for one store: the default store merges the entity row under the values, the others hold the values alone. */
  function StoreScope(p: ProductRow, store: nat, values: Scope): Scope
  {
    if store == DefaultStore then p.columns + values else values
  }

  /** The inner loop over the products of a chunk, for one store. */
  function AddStore(pds: seq<(int, ProductDocument)>, chunk: seq<ProductRow>, store: nat, attrs: map<int, Scope>): seq<(int, ProductDocument)>
  {
    if chunk == [] then pds
    else AddProduct(AddStore(pds, chunk[..|chunk| - 1], store, attrs), chunk[|chunk| - 1], store, attrs)
  }

  /** One pass of the inner loop: a product with values in the store gets that store's scope. */
  function AddProduct(acc: seq<(int, ProductDocument)>, p: ProductRow, store: nat, attrs: map<int, Scope>): seq<(int, ProductDocument)>
  {
    if p.id in attrs then Put(acc, p.id, Get(acc, p.id).GetOr(map[])[store := StoreScope(p, store, attrs[p.id])])
    else acc
  }

  lemma AddProductGet(acc: seq<(int, ProductDocument)>, p: ProductRow, store: nat, attrs: map<int, Scope>, id: int)
    ensures Get(AddProduct(acc, p, store, attrs), id) ==
      if id == p.id && p.id in attrs then Some(Get(acc, p.id).GetOr(map[])[store := StoreScope(p, store, attrs[p.id])])
      else Get(acc, id)
  {
    if p.id in attrs {
      PutGet(acc, p.id, Get(acc, p.id).GetOr(map[])[store := StoreScope(p, store, attrs[p.id])], id);
    }
  }

  /** The documents of a chunk: the stores in visiting order, each adding its scope to the products it has values for. */
  function Assemble(chunk: seq<ProductRow>, order: seq<nat>, rows: seq<EavRow>, catalog: Catalog): seq<(int, ProductDocument)>
  {
    if order == [] then []
    else
      var store := order[|order| - 1];
      AddStore(Assemble(chunk, order[..|order| - 1], rows, catalog), chunk, store, StoreAttributes(rows, catalog, store, Ids(chunk)))
  }

  lemma {:induction false} AddStoreOther(pds: seq<(int, ProductDocument)>, chunk: seq<ProductRow>, store: nat, attrs: map<int, Scope>, id: int)
    requires forall i :: 0 <= i < |chunk| ==> chunk[i].id != id
    ensures Get(AddStore(pds, chunk, store, attrs), id) == Get(pds, id)
  {
    if chunk != [] {
      var pre := chunk[..|chunk| - 1];
      assert forall i :: 0 <= i < |pre| ==> pre[i].id != id by {
        forall i | 0 <= i < |pre| ensures pre[i].id != id { assert pre[i] == chunk[i]; }
      }
      AddStoreOther(pds, pre, store, attrs, id);
      AddProductGet(AddStore(pds, pre, store, attrs), chunk[|chunk| - 1], store, attrs, id);
    }
  }

  lemma {:induction false} AddStoreGet(pds: seq<(int, ProductDocument)>, chunk: seq<ProductRow>, store: nat, attrs: map<int, Scope>, j: nat)
    requires Ascending(chunk) && j < |chunk|
    ensures Get(AddStore(pds, chunk, store, attrs), chunk[j].id) ==
      if chunk[j].id in attrs then Some(Get(pds, chunk[j].id).GetOr(map[])[store := StoreScope(chunk[j], store, attrs[chunk[j].id])])
      else Get(pds, chunk[j].id)
  {
    var n := |chunk| - 1;
    var pre := chunk[..n];
    var p := chunk[n];
    var acc := AddStore(pds, pre, store, attrs);
    if j == n {
      forall i | 0 <= i < |pre| ensures pre[i].id != p.id {
        assert pre[i] == chunk[i];
      }
      AddStoreOther(pds, pre, store, attrs, p.id);
    } else {
      AscendingPrefix(chunk, n);
      AddStoreGet(pds, pre, store, attrs, j);
      assert pre[j] == chunk[j];
      assert chunk[j].id != p.id;
    }
    AddProductGet(acc, p, store, attrs, chunk[j].id);
  }

  /** Products outside the chunk get no document. */
  lemma {:induction false} AssembleOther(chunk: seq<ProductRow>, order: seq<nat>, rows: seq<EavRow>, catalog: Catalog, id: int)
    requires forall i :: 0 <= i < |chunk| ==> chunk[i].id != id
    ensures Get(Assemble(chunk, order, rows, catalog), id).None?
  {
    if order != [] {
      var store := order[|order| - 1];
      AssembleOther(chunk, order[..|order| - 1], rows, catalog, id);
      AddStoreOther(Assemble(chunk, order[..|order| - 1], rows, catalog), chunk, store, StoreAttributes(rows, catalog, store, Ids(chunk)), id);
    }
  }

  /** A product's document after visiting the stores of `order`, folded store by store. */
  function DocumentAfter(p: ProductRow, order: seq<nat>, rows: seq<EavRow>, catalog: Catalog, ids: seq<int>): Option<ProductDocument>
  {
    if order == [] then None
    else
      var before := DocumentAfter(p, order[..|order| - 1], rows, catalog, ids);
      var store := order[|order| - 1];
      var attrs := StoreAttributes(rows, catalog, store, ids);
      if p.id in attrs then Some(before.GetOr(map[])[store := StoreScope(p, store, attrs[p.id])]) else before
  }

  lemma {:induction false} AssembleAsDocumentAfter(chunk: seq<ProductRow>, order: seq<nat>, rows: seq<EavRow>, catalog: Catalog, j: nat)
    requires Ascending(chunk) && j < |chunk|
    ensures Get(Assemble(chunk, order, rows, catalog), chunk[j].id) == DocumentAfter(chunk[j], order, rows, catalog, Ids(chunk))
  {
    if order != [] {
      var pre := order[..|order| - 1];
      var store := order[|order| - 1];
      AssembleAsDocumentAfter(chunk, pre, rows, catalog, j);
      AddStoreGet(Assemble(chunk, pre, rows, catalog), chunk, store, StoreAttributes(rows, catalog, store, Ids(chunk)), j);
    }
  }

  /** Whether store `s` has values for product `p`. */
  predicate HasValues(p: ProductRow, s: nat, rows: seq<EavRow>, catalog: Catalog, ids: seq<int>)
  {
    p.id in StoreAttributes(rows, catalog, s, ids)
  }

  lemma {:induction false} DocumentAfterMeaning(p: ProductRow, order: seq<nat>, rows: seq<EavRow>, catalog: Catalog, ids: seq<int>)
    ensures var d := DocumentAfter(p, order, rows, catalog, ids);
      (d.Some? <==> exists s :: s in order && HasValues(p, s, rows, catalog, ids)) &&
      (d.Some? ==> forall s :: s in d.value <==> s in order && HasValues(p, s, rows, catalog, ids)) &&
      (d.Some? ==> forall s :: s in d.value ==> d.value[s] == StoreScope(p, s, StoreAttributes(rows, catalog, s, ids)[p.id]))
  {
    if order != [] {
      var pre := order[..|order| - 1];
      var store := order[|order| - 1];
      assert order == pre + [store];
      DocumentAfterMeaning(p, pre, rows, catalog, ids);
      if HasValues(p, store, rows, catalog, ids) {
        assert store in order;
      } else {
        forall s | s in order && HasValues(p, s, rows, catalog, ids) ensures s in pre {
          assert s != store;
        }
      }
    }
  }

  /**
   * The document of a product of the chunk holds one scope per visited
   * store that has values for it, and nothing else: the default scope is
   * the entity row merged with the default values (a value replacing the
   * column of the same name), another store's scope is its values alone.
   * A product with values in no store gets no document.
   */
  lemma AssembleGet(chunk: seq<ProductRow>, order: seq<nat>, rows: seq<EavRow>, catalog: Catalog, j: nat)
    requires Ascending(chunk) && j < |chunk|
    ensures var p := chunk[j]; var d := Get(Assemble(chunk, order, rows, catalog), p.id);
      (d.Some? <==> exists s :: s in order && HasValues(p, s, rows, catalog, Ids(chunk))) &&
      (d.Some? ==> forall s :: s in d.value <==> s in order && HasValues(p, s, rows, catalog, Ids(chunk))) &&
      (d.Some? ==> forall s :: s in d.value ==>
        d.value[s] == if s == DefaultStore then p.columns + StoreAttributes(rows, catalog, s, Ids(chunk))[p.id]
                      else StoreAttributes(rows, catalog, s, Ids(chunk))[p.id])
  {
    AssembleAsDocumentAfter(chunk, order, rows, catalog, j);
    DocumentAfterMeaning(chunk[j], order, rows, catalog, Ids(chunk));
  }

  /** A chunk of an ascending table is ascending. */
  lemma ChunkAscending(table: seq<ProductRow>, last: int)
    requires Ascending(table)
    ensures Ascending(Chunk(table, last))
  {
    var k := AboveSuffix(table, last);
    var c := Chunk(table, last);
    forall i, j | 0 <= i < j < |c| ensures c[i].id < c[j].id {
      assert c[i] == table[k + i] && c[j] == table[k + j];
    }
  }

  /**
   * The document assembly of one chunk, done in place as the job does it:
   * stores in the given order, and for each the products of the chunk.
   */
  method AssembleDocuments(products: seq<ProductRow>, productIds: seq<int>, storeIds: seq<nat>, rows: seq<EavRow>, catalog: Catalog)
    returns (pds: seq<(int, ProductDocument)>)
    requires productIds == Ids(products)
    ensures pds == Assemble(products, storeIds, rows, catalog)
  {
    pds := [];
    for i := 0 to |storeIds|
      invariant pds == Assemble(products, storeIds[..i], rows, catalog)
    {
      var storeId := storeIds[i];
      var attrs := StoreAttributes(rows, catalog, storeId, productIds);
      ghost var before := pds;
      for k := 0 to |products|
        invariant pds == AddStore(before, products[..k], storeId, attrs)
      {
        var p := products[k];
        assert products[..k + 1][..k] == products[..k];
        if p.id in attrs {
          var d := Get(pds, p.id).GetOr(map[]);
          pds := Put(pds, p.id, d[storeId := StoreScope(p, storeId, attrs[p.id])]);
        }
      }
      assert products[..|products|] == products;
      assert storeIds[..i + 1][..i] == storeIds[..i];
    }
    assert storeIds[..|storeIds|] == storeIds;
  }

  // ------------------------------------------------------------------
  // Preparing and saving the documents of a chunk
  // ------------------------------------------------------------------

  /** Why the job stops: the exceptions nothing catches. */
  datatype MigrationError =
    | UnknownAttributeSet(setId: Value)
    | UnknownAttributeCode
    | UnknownAttributeId(attributeId: int)
    | TooFewSqlAttributes(found: nat, expected: int)

  /** A row of `catalog_product_entity_media_gallery`. */
  datatype GalleryRow = GalleryRow(valueId: int, attributeId: int, entityId: int, value: Value)

  /** A row of `catalog_product_entity_media_gallery_value`. */
  datatype GalleryValueRow = GalleryValueRow(valueId: int, storeId: nat, imageLabel: Value, position: Value, disabled: Value)

  /**
   * What the job reads and never changes: the entity table, the store ids,
   * the product attributes, the entity-table columns, the attribute-set
   * ids, the rows of `eav_attribute` (id and code), the number parser and
   * md5, and which writes the document store refuses (by document id for
   * the product upserts, by row for the gallery updates).
   */
  datatype Env = Env(
    table: seq<ProductRow>,
    stores: seq<nat>,
    catalog: Catalog,
    columns: seq<string>,
    sets: set<int>,
    attributeRows: seq<(int, string)>,
    parse: NumberParser,
    md5: Md5,
    docFails: int -> bool,
    galleryWritten: GalleryRow -> bool)

  /** The document store, the counters and the relational tables the job empties. */
  datatype State = State(
    docs: Docs,
    updatedDocs: nat,
    ignoredDocs: nat,
    updatedGalleries: nat,
    ignoredGalleries: nat,
    values: seq<EavRow>,
    galleries: seq<GalleryRow>,
    galleryValues: seq<GalleryValueRow>)

  /** The state reached, and the error that stopped the job there, if any. */
  datatype Outcome = Outcome(state: State, error: Option<MigrationError>)

  /** `attr_0.attribute_set_id`; a missing default scope or field reads as null. */
  function SetIdOf(doc: ProductDocument): (v: Value)
    ensures v != Null ==> DefaultStore in doc && "attribute_set_id" in doc[DefaultStore]
  {
    if DefaultStore in doc && "attribute_set_id" in doc[DefaultStore] then doc[DefaultStore]["attribute_set_id"] else Null
  }

  /** `isset($sets[$id])`: the id, used as an array key, is the id of a set. */
  predicate KnownSet(v: Value, sets: set<int>)
  {
    KeyOf(v).IntKey? && KeyOf(v).n in sets
  }

  /** A code that is neither an entity-table column nor a product attribute: `isInSet` is then called on null. */
  predicate UnknownCode(code: string, env: Env)
  {
    code !in env.columns && ByCode(env.catalog, code).None?
  }

  predicate HasUnknownCode(doc: ProductDocument, env: Env)
  {
    exists s, code :: s in doc && code in doc[s] && UnknownCode(code, env)
  }

  /** Whether a field survives the pruning: a column, or an attribute of the product's set. */
  predicate Kept(code: string, setId: int, env: Env)
  {
    code in env.columns || (ByCode(env.catalog, code).Some? && setId in ByCode(env.catalog, code).value.sets)
  }

  /**
   * One scope of a document, pruned against the attribute set: columns of
   * the entity table are left as they are, attributes of the set are
   * coerced, every other attribute is removed.
   */
  function PruneScope(scope: Scope, setId: int, env: Env): (r: Scope)
    ensures forall code :: code in r <==> code in scope && Kept(code, setId, env)
    ensures forall code :: code in r && code in env.columns ==> r[code] == scope[code]
    ensures forall code :: code in r && code !in env.columns ==>
      ByCode(env.catalog, code).Some? && r[code] == Coerce(ByCode(env.catalog, code).value, scope[code], env.parse)
  {
    map code | code in scope && Kept(code, setId, env) ::
      if code in env.columns then scope[code] else Coerce(ByCode(env.catalog, code).value, scope[code], env.parse)
  }

  /**
   * `_prepareDocumentForSave`: a document whose set id is unknown, or that
   * holds a field no attribute or column answers to, stops the job;
   * otherwise every scope is pruned. For an empty document the source
   * returns null, which would make the save target `_id` 0 with `$set:
   * null`; that branch is unreachable, since `Assemble` yields only
   * non-empty documents, so the model keeps the empty map there.
   */
  function Prepare(doc: ProductDocument, env: Env): (r: Result<ProductDocument, MigrationError>)
    ensures r.Err? <==> doc != map[] && (!KnownSet(SetIdOf(doc), env.sets) || HasUnknownCode(doc, env))
    ensures r.Ok? && doc != map[] ==>
      KnownSet(SetIdOf(doc), env.sets) && forall s :: s in r.value <==> s in doc
  {
    if doc == map[] then Ok(doc)
    else if !KnownSet(SetIdOf(doc), env.sets) then Err(UnknownAttributeSet(SetIdOf(doc)))
    else if HasUnknownCode(doc, env) then Err(UnknownAttributeCode)
    else Ok(map s | s in doc :: PruneScope(doc[s], KeyOf(SetIdOf(doc)).n, env))
  }

  /**
   * A prepared document keeps every column and every in-set attribute of
   * each scope, the columns untouched and the attributes coerced, and
   * drops every attribute outside the product's set.
   */
  lemma PrepareKeeps(doc: ProductDocument, env: Env, s: nat, code: string)
    requires doc != map[] && Prepare(doc, env).Ok? && s in doc && code in doc[s]
    ensures var m := Prepare(doc, env).value; var setId := KeyOf(SetIdOf(doc)).n;
      s in m &&
      (code in env.columns ==> code in m[s] && m[s][code] == doc[s][code]) &&
      (code !in env.columns ==> ByCode(env.catalog, code).Some?) &&
      (code !in env.columns && setId in ByCode(env.catalog, code).value.sets ==>
        code in m[s] && m[s][code] == Coerce(ByCode(env.catalog, code).value, doc[s][code], env.parse)) &&
      (code !in env.columns && setId !in ByCode(env.catalog, code).value.sets ==> code !in m[s])
  {
    assert !UnknownCode(code, env);
  }

  /** `(int) attr_0.entity_id`, the id the document is written under. */
  function MongoId(doc: ProductDocument): int
  {
    IntCast(if DefaultStore in doc && "entity_id" in doc[DefaultStore] then doc[DefaultStore]["entity_id"] else Null)
  }

  /** The `$set` payload of a prepared document: one whole field `attr_<store>` per scope. */
  function ScopeFields(doc: ProductDocument): (r: map<string, Scope>)
    ensures forall s: nat :: StoreKey(s) in r <==> s in doc
    ensures forall s :: s in doc ==> r[StoreKey(s)] == doc[s]
  {
    AllStoreKeysRoundTrip();
    map k | k in (set s | s in doc :: StoreKey(s)) :: doc[ParseStoreKey(k).value]
  }

  /**
   * One pass of `_saveProductDocuments`: prepare (outside the `try`), then
   * upsert; a refused write counts the document as ignored and changes
   * nothing else, a written one counts it as updated.
   */
  function SaveOne(st: State, doc: ProductDocument, env: Env): (r: Result<State, MigrationError>)
    ensures r.Err? <==> Prepare(doc, env).Err?
    ensures r.Ok? ==> r.value.updatedDocs + r.value.ignoredDocs == st.updatedDocs + st.ignoredDocs + 1
    ensures r.Ok? ==>
      r.value.values == st.values && r.value.galleries == st.galleries && r.value.galleryValues == st.galleryValues &&
      r.value.updatedGalleries == st.updatedGalleries && r.value.ignoredGalleries == st.ignoredGalleries
  {
    match Prepare(doc, env)
    case Err(e) => Err(e)
    case Ok(m) =>
      var id := MongoId(m);
      if env.docFails(id) then Ok(st.(ignoredDocs := st.ignoredDocs + 1))
      else
        Ok(st.(docs := ProductResource.RawUpsert(st.docs, QueryBuilder.MongoInt32(Int(id)), ProductResource.RawScopes(ScopeFields(m))),
               updatedDocs := st.updatedDocs + 1))
  }

  /**
   * A written document holds, under each of its stores, exactly the
   * prepared scope, keeps its other scopes, and no other document changes.
   */
  lemma SaveOneWrites(st: State, doc: ProductDocument, env: Env, store: nat, other: int)
    requires Prepare(doc, env).Ok? && !env.docFails(MongoId(Prepare(doc, env).value))
    ensures var m := Prepare(doc, env).value; var id := QueryBuilder.MongoInt32(Int(MongoId(m)));
      var docs := SaveOne(st, doc, env).value.docs;
      Get(docs, id).Some? &&
      ScopeOf(Get(docs, id).value, store) == (if store in m then m[store] else ScopeOf(DocOrEmpty(st.docs, id), store)) &&
      (other != id ==> Get(docs, other) == Get(st.docs, other))
  {
    var m := Prepare(doc, env).value;
    var id := QueryBuilder.MongoInt32(Int(MongoId(m)));
    UpsertScopesGet(st.docs, id, ScopeFields(m), other, store);
  }

  /** `_saveProductDocuments`: the documents in order; a preparation error stops the loop where it is. */
  function SaveDocs(st: State, pds: seq<(int, ProductDocument)>, env: Env): Outcome
    decreases |pds|
  {
    if pds == [] then Outcome(st, None)
    else
      match SaveOne(st, pds[0].1, env)
      case Err(e) => Outcome(st, Some(e))
      case Ok(next) => SaveDocs(next, pds[1..], env)
  }

  /** One turn of the save loop, at index `i`. */
  lemma SaveDocsStep(st: State, pds: seq<(int, ProductDocument)>, env: Env, i: nat)
    requires i < |pds|
    ensures SaveDocs(st, pds[i..], env) ==
      if SaveOne(st, pds[i].1, env).Err? then Outcome(st, Some(SaveOne(st, pds[i].1, env).error))
      else SaveDocs(SaveOne(st, pds[i].1, env).value, pds[i + 1..], env)
  {
    assert pds[i..][0] == pds[i] && pds[i..][1..] == pds[i + 1..];
  }

  /**
   * The save loop fails exactly when one of the documents cannot be
   * prepared; when it does not, every document is counted once, as
   * updated or as ignored, and the relational tables are untouched.
   */
  lemma {:induction false} SaveDocsCounts(st: State, pds: seq<(int, ProductDocument)>, env: Env)
    ensures var o := SaveDocs(st, pds, env);
      (o.error.None? <==> forall i :: 0 <= i < |pds| ==> Prepare(pds[i].1, env).Ok?) &&
      (o.error.None? ==> o.state.updatedDocs + o.state.ignoredDocs == st.updatedDocs + st.ignoredDocs + |pds|) &&
      o.state.values == st.values && o.state.galleries == st.galleries && o.state.galleryValues == st.galleryValues
    decreases |pds|
  {
    if pds != [] {
      match SaveOne(st, pds[0].1, env)
      case Err(e) =>
      case Ok(next) =>
        SaveDocsCounts(next, pds[1..], env);
        assert forall i :: 1 <= i < |pds| ==> pds[i] == pds[1..][i - 1];
    }
  }

  // ------------------------------------------------------------------
  // The attribute migration
  // ------------------------------------------------------------------

  /** The cursor advances: a chunk's last id is above the cursor it was fetched from. */
  lemma ChunkAdvances(table: seq<ProductRow>, last: int)
    requires Chunk(table, last) != []
    ensures Chunk(table, last)[|Chunk(table, last)| - 1].id > last
  {
    ChunkMeaning(table, last);
    assert Chunk(table, last)[|Chunk(table, last)| - 1] in Chunk(table, last);
  }

  /** One turn of the cursor loop: assemble the chunk's documents over the stores in ascending order, then save them. */
  function MigrateChunk(st: State, chunk: seq<ProductRow>, env: Env): Outcome
  {
    SaveDocs(st, Assemble(chunk, StoreOrder(env.stores), st.values, env.catalog), env)
  }

  /** The chunks in order, until one of them stops the job. */
  function MigrateChunks(o: Outcome, cs: seq<seq<ProductRow>>, env: Env): Outcome
    decreases |cs|
  {
    if cs == [] || o.error.Some? then o
    else MigrateChunks(MigrateChunk(o.state, cs[0], env), cs[1..], env)
  }

  /** `_migrateAttributesValues`: the cursor starts at 0 and walks the whole entity table. */
  function MigrateAttributes(st: State, env: Env): Outcome
    requires Ascending(env.table)
  {
    MigrateChunks(Outcome(st, None), Chunks(env.table, 0), env)
  }

  /** An error is never lost: once the job has stopped, no chunk is migrated. */
  lemma MigrateChunksStopped(o: Outcome, cs: seq<seq<ProductRow>>, env: Env)
    requires o.error.Some?
    ensures MigrateChunks(o, cs, env) == o
  {
  }

  /** One turn of the cursor loop. */
  lemma MigrateChunksStep(o: Outcome, cs: seq<seq<ProductRow>>, env: Env)
    requires o.error.None? && cs != []
    ensures MigrateChunks(o, cs, env) == MigrateChunks(MigrateChunk(o.state, cs[0], env), cs[1..], env)
  {
  }

  /** The attribute migration leaves every relational table as it was. */
  lemma {:induction false} MigrateChunksKeepsTables(o: Outcome, cs: seq<seq<ProductRow>>, env: Env)
    ensures var r := MigrateChunks(o, cs, env);
      r.state.values == o.state.values && r.state.galleries == o.state.galleries &&
      r.state.galleryValues == o.state.galleryValues
    decreases |cs|
  {
    if cs != [] && o.error.None? {
      var chunk := cs[0];
      SaveDocsCounts(o.state, Assemble(chunk, StoreOrder(env.stores), o.state.values, env.catalog), env);
      MigrateChunksKeepsTables(MigrateChunk(o.state, chunk, env), cs[1..], env);
    }
  }

  /**
   * The cursor visits every product above id 0 exactly once and in
   * ascending order: the chunks, laid end to end, are the table's rows
   * above 0, each chunk is ascending and holds at most ChunkSize rows, and
   * only the last may hold fewer.
   */
  lemma MigrationVisitsEachProductOnce(table: seq<ProductRow>)
    requires Ascending(table)
    ensures Concat(Chunks(table, 0)) == Above(table, 0)
    ensures FullChunks(Chunks(table, 0))
  {
    ChunksConcat(table, 0);
    ChunksSizes(table, 0);
  }

  // ------------------------------------------------------------------
  // The gallery migration
  // ------------------------------------------------------------------

  /** A store's sub-record: the value row without `value_id` and `store_id`, the position cast to an integer. */
  function StoreRecord(v: GalleryValueRow): (r: Scope)
    ensures r.Keys == {"label", "position", "disabled"}
    ensures r["label"] == v.imageLabel && r["position"] == Int(IntCast(v.position)) && r["disabled"] == v.disabled
  {
    map["label" := v.imageLabel, "position" := Int(IntCast(v.position)), "disabled" := v.disabled]
  }

  /** The `attr_<store>` sub-records of one gallery row, from its value rows in order; a later row of a store replaces an earlier one. */
  function GalleryStores(values: seq<GalleryValueRow>, valueId: int): (r: map<nat, Scope>)
    ensures forall s :: s in r <==> exists i :: 0 <= i < |values| && values[i].valueId == valueId && values[i].storeId == s
  {
    if values == [] then map[]
    else
      var acc := GalleryStores(values[..|values| - 1], valueId);
      var v := values[|values| - 1];
      assert forall i :: 0 <= i < |values| - 1 ==> values[..|values| - 1][i] == values[i];
      if v.valueId == valueId then acc[v.storeId := StoreRecord(v)] else acc
  }

  /** Each store's sub-record comes from the last value row of that store. */
  lemma {:induction false} GalleryStoresLast(values: seq<GalleryValueRow>, valueId: int, i: nat)
    requires i < |values| && values[i].valueId == valueId
    requires forall j :: i < j < |values| ==> values[j].valueId != valueId || values[j].storeId != values[i].storeId
    ensures values[i].storeId in GalleryStores(values, valueId)
    ensures GalleryStores(values, valueId)[values[i].storeId] == StoreRecord(values[i])
  {
    if i < |values| - 1 {
      var pre := values[..|values| - 1];
      assert pre[i] == values[i];
      GalleryStoresLast(pre, valueId, i);
    }
  }

  /**
   * The image record a gallery row becomes: `value_id` hashed, the file
   * name under `file`, and one sub-record per store; `entity_id`,
   * `attribute_id` and the raw `value` are dropped.
   */
  function GalleryImage(row: GalleryRow, values: seq<GalleryValueRow>, md5: Md5): (img: Image)
    ensures img.fields.Keys == {"value_id", "file"}
    ensures img.fields["value_id"] == Str(md5(IntToString(row.valueId))) && img.fields["file"] == row.value
    ensures forall s :: s in img.stores <==> exists i :: 0 <= i < |values| && values[i].valueId == row.valueId && values[i].storeId == s
  {
    Image(map["value_id" := Str(md5(IntToString(row.valueId))), "file" := row.value], GalleryStores(values, row.valueId))
  }

  /**
   * `galleryCallback`: an unknown attribute id stops the job; otherwise
   * the record is added with `$addToSet` (and upsert) under
   * `galleries.<code>` of the product's document, and the write is
   * counted as updated or ignored.
   */
  function GalleryStep(st: State, row: GalleryRow, env: Env): (r: Result<State, MigrationError>)
    ensures r.Err? <==> CodeById(env.catalog, row.attributeId).None?
    ensures r.Err? ==> r.error == UnknownAttributeId(row.attributeId)
    ensures r.Ok? ==>
      r.value.updatedGalleries + r.value.ignoredGalleries == st.updatedGalleries + st.ignoredGalleries + 1 &&
      r.value.values == st.values && r.value.galleries == st.galleries && r.value.galleryValues == st.galleryValues &&
      r.value.updatedDocs == st.updatedDocs && r.value.ignoredDocs == st.ignoredDocs
  {
    match CodeById(env.catalog, row.attributeId)
    case None => Err(UnknownAttributeId(row.attributeId))
    case Some(code) =>
      if env.galleryWritten(row) then
        var img := GalleryImage(row, st.galleryValues, env.md5);
        Ok(st.(docs := UpsertImage(st.docs, QueryBuilder.MongoInt32(Int(row.entityId)), code, img),
               updatedGalleries := st.updatedGalleries + 1))
      else Ok(st.(ignoredGalleries := st.ignoredGalleries + 1))
  }

  /** Whether the gallery `code` of document `id` holds the record. */
  predicate HasImage(docs: Docs, id: int, code: string, img: Image)
  {
    img in Gallery(DocOrEmpty(docs, id), code)
  }

  /**
   * `$addToSet` never takes a record away, and a written row's record is
   * in the gallery of its product's document afterwards.
   */
  lemma GalleryStepKeeps(st: State, row: GalleryRow, env: Env, id: int, code: string, img: Image)
    requires GalleryStep(st, row, env).Ok?
    ensures HasImage(st.docs, id, code, img) ==> HasImage(GalleryStep(st, row, env).value.docs, id, code, img)
    ensures env.galleryWritten(row) ==>
      HasImage(GalleryStep(st, row, env).value.docs, QueryBuilder.MongoInt32(Int(row.entityId)),
        CodeById(env.catalog, row.attributeId).value, GalleryImage(row, st.galleryValues, env.md5))
  {
    var target := QueryBuilder.MongoInt32(Int(row.entityId));
    if env.galleryWritten(row) {
      var c := CodeById(env.catalog, row.attributeId).value;
      var image := GalleryImage(row, st.galleryValues, env.md5);
      UpsertImageGet(st.docs, target, c, image, id);
      if id == target && code != c {
        assert Gallery(DocOrEmpty(GalleryStep(st, row, env).value.docs, id), code) == Gallery(DocOrEmpty(st.docs, id), code);
      }
    }
  }

  /** `_migrateGalleriesValues`: the iterator walks the gallery rows in order; an error stops it. */
  function MigrateGalleries(st: State, rows: seq<GalleryRow>, env: Env): Outcome
    decreases |rows|
  {
    if rows == [] then Outcome(st, None)
    else
      match GalleryStep(st, rows[0], env)
      case Err(e) => Outcome(st, Some(e))
      case Ok(next) => MigrateGalleries(next, rows[1..], env)
  }

  /**
   * The gallery migration keeps every record already in a gallery, leaves
   * the relational tables and the document counters alone, and fails
   * exactly when some row's attribute id is unknown.
   */
  lemma {:induction false} MigrateGalleriesKeeps(st: State, rows: seq<GalleryRow>, env: Env, id: int, code: string, img: Image)
    ensures var o := MigrateGalleries(st, rows, env);
      (HasImage(st.docs, id, code, img) ==> HasImage(o.state.docs, id, code, img)) &&
      o.state.values == st.values && o.state.galleries == st.galleries && o.state.galleryValues == st.galleryValues &&
      o.state.updatedDocs == st.updatedDocs && o.state.ignoredDocs == st.ignoredDocs &&
      (o.error.None? <==> forall i :: 0 <= i < |rows| ==> CodeById(env.catalog, rows[i].attributeId).Some?)
    decreases |rows|
  {
    if rows != [] {
      match GalleryStep(st, rows[0], env)
      case Err(e) =>
      case Ok(next) =>
        GalleryStepKeeps(st, rows[0], env, id, code, img);
        MigrateGalleriesKeeps(next, rows[1..], env, id, code, img);
        assert forall i :: 1 <= i < |rows| ==> rows[i] == rows[1..][i - 1];
    }
  }

  /**
   * When the gallery migration completes, the record of every written row
   * is in the gallery of its product's document.
   */
  lemma {:induction false} MigrateGalleriesWritten(st: State, rows: seq<GalleryRow>, env: Env, k: nat)
    requires k < |rows| && MigrateGalleries(st, rows, env).error.None? && env.galleryWritten(rows[k])
    ensures CodeById(env.catalog, rows[k].attributeId).Some?
    ensures HasImage(MigrateGalleries(st, rows, env).state.docs, QueryBuilder.MongoInt32(Int(rows[k].entityId)),
      CodeById(env.catalog, rows[k].attributeId).value, GalleryImage(rows[k], st.galleryValues, env.md5))
    decreases |rows|
  {
    var next := GalleryStep(st, rows[0], env).value;
    if k == 0 {
      GalleryStepKeeps(st, rows[0], env, 0, "", GalleryImage(rows[0], st.galleryValues, env.md5));
      MigrateGalleriesKeeps(next, rows[1..], env, QueryBuilder.MongoInt32(Int(rows[0].entityId)),
        CodeById(env.catalog, rows[0].attributeId).value, GalleryImage(rows[0], st.galleryValues, env.md5));
    } else {
      assert rows[1..][k - 1] == rows[k];
      MigrateGalleriesWritten(next, rows[1..], env, k - 1);
    }
  }

  // ------------------------------------------------------------------
  // Cleaning the migrated tables
  // ------------------------------------------------------------------

  /** `SELECT attribute_id FROM eav_attribute WHERE attribute_code IN (codes)`, in table order. */
  function SqlAttributeIds(attributeRows: seq<(int, string)>, codes: seq<string>): (ids: seq<int>)
    ensures |ids| <= |attributeRows|
    ensures forall id :: id in ids <==> exists i :: 0 <= i < |attributeRows| && attributeRows[i].1 in codes && attributeRows[i].0 == id
  {
    if attributeRows == [] then []
    else
      assert forall i :: 1 <= i < |attributeRows| ==> attributeRows[i] == attributeRows[1..][i - 1];
      (if attributeRows[0].1 in codes then [attributeRows[0].0] else []) + SqlAttributeIds(attributeRows[1..], codes)
  }

  /** `DELETE ... WHERE attribute_id NOT IN (ids)` on the value tables: the kept rows, in order. */
  function KeepValues(values: seq<EavRow>, ids: seq<int>): (r: seq<EavRow>)
    ensures |r| <= |values|
    ensures forall v :: v in r <==> v in values && v.attributeId in ids
  {
    if values == [] then []
    else
      assert forall i :: 1 <= i < |values| ==> values[i] == values[1..][i - 1];
      (if values[0].attributeId in ids then [values[0]] else []) + KeepValues(values[1..], ids)
  }

  /**
   * `_cleanAttributesTables`: the pre-flight refuses an empty id list or
   * one shorter than expected; otherwise only the rows of the listed
   * attributes stay in the value tables.
   */
  function CleanAttributes(st: State, ids: seq<int>, expected: int): (r: Result<State, MigrationError>)
    ensures r.Err? <==> ids == [] || |ids| < expected
    ensures r.Err? ==> r.error == TooFewSqlAttributes(|ids|, expected)
    ensures r.Ok? ==>
      r.value == st.(values := r.value.values) &&
      forall v :: v in r.value.values <==> v in st.values && v.attributeId in ids
  {
    if ids == [] || |ids| < expected then Err(TooFewSqlAttributes(|ids|, expected))
    else Ok(st.(values := KeepValues(st.values, ids)))
  }

  /** `_cleanGalleriesTables`: both gallery tables are emptied. */
  function CleanGalleries(st: State): (r: State)
    ensures r.galleries == [] && r.galleryValues == []
    ensures r.docs == st.docs && r.values == st.values
  {
    st.(galleries := [], galleryValues := [])
  }

  /**
   * The count the pre-flight expects, the SQL-kept codes less the
   * entity-table columns, is the number of special codes, whatever the
   * columns are.
   */
  lemma ExpectedSqlAttributes(columns: seq<string>)
    ensures |ProductResource.SpecialCodes + columns| - |columns| == |ProductResource.SpecialCodes| == 12
  {
  }

  /** The pre-flight of a run: the ids of the SQL-kept codes, held against the count of special codes. */
  function CleanTables(st: State, env: Env): Result<State, MigrationError>
  {
    match CleanAttributes(st, SqlAttributeIds(env.attributeRows, ProductResource.SpecialCodes + env.columns),
                          |ProductResource.SpecialCodes|)
    case Err(e) => Err(e)
    case Ok(next) => Ok(CleanGalleries(next))
  }

  /**
   * Cleaning deletes a value row exactly when no `eav_attribute` row with
   * its attribute id has a SQL-kept code, never touches a document, and
   * stops before deleting anything when fewer than 12 ids are found.
   */
  lemma CleanTablesMeaning(st: State, env: Env, v: EavRow)
    ensures var ids := SqlAttributeIds(env.attributeRows, ProductResource.SpecialCodes + env.columns);
      (CleanTables(st, env).Err? <==> |ids| < 12) &&
      (CleanTables(st, env).Ok? ==>
        CleanTables(st, env).value.docs == st.docs &&
        (v in CleanTables(st, env).value.values <==>
          v in st.values && v.attributeId in ids))
  {
  }

  // ------------------------------------------------------------------
  // The command line
  // ------------------------------------------------------------------

  /** `isset($args[k])`: present and not null. */
  predicate Isset(args: map<string, Value>, k: string)
  {
    k in args && args[k] != Null
  }

  /** `isset($args[k]) && $args[k] === true`: the option was given without a value. */
  predicate Flag(args: map<string, Value>, k: string)
  {
    Isset(args, k) && args[k] == Bool(true)
  }

  /** `run` prints the usage text unless one of its three options is set. */
  predicate Usage(args: map<string, Value>)
  {
    !Isset(args, "dump-tables") && !Isset(args, "process") && !Isset(args, "clean-tables")
  }

  /** `runMigration`: the attribute values, then, if nothing stopped the job, the galleries. */
  function ProcessAll(st: State, env: Env): Outcome
    requires Ascending(env.table)
  {
    var a := MigrateAttributes(st, env);
    if a.error.Some? then a else MigrateGalleries(a.state, a.state.galleries, env)
  }

  /** The `--process` step, when asked for. */
  function ProcessStep(st: State, args: map<string, Value>, env: Env): Outcome
    requires Ascending(env.table)
  {
    if Flag(args, "process") then ProcessAll(st, env) else Outcome(st, None)
  }

  /** The `--clean-tables` step, when asked for and nothing stopped the job before it. */
  function CleanStep(o: Outcome, args: map<string, Value>, env: Env): Outcome
  {
    if o.error.Some? || !Flag(args, "clean-tables") then o
    else
      match CleanTables(o.state, env)
      case Err(e) => Outcome(o.state, Some(e))
      case Ok(next) => Outcome(next, None)
  }

  /**
   * `run`: the usage text changes nothing; otherwise the dump (files
   * only), the migration and the clean-up, each when its option is the
   * bare flag, in that order, an exception skipping what follows.
   */
  function RunOutcome(st: State, args: map<string, Value>, env: Env): Outcome
    requires Ascending(env.table)
  {
    if Usage(args) then Outcome(st, None) else CleanStep(ProcessStep(st, args, env), args, env)
  }

  /** The migration steps keep the relational tables. */
  lemma ProcessAllKeepsTables(st: State, env: Env)
    requires Ascending(env.table)
    ensures var o := ProcessAll(st, env);
      o.state.values == st.values && o.state.galleries == st.galleries && o.state.galleryValues == st.galleryValues
  {
    var a := MigrateAttributes(st, env);
    MigrateChunksKeepsTables(Outcome(st, None), Chunks(env.table, 0), env);
    if a.error.None? {
      MigrateGalleriesKeeps(a.state, a.state.galleries, env, 0, "", Image(map[], map[]));
    }
  }

  /** Without `--clean-tables` no relational row is ever deleted. */
  lemma RunKeepsTablesWithoutClean(st: State, args: map<string, Value>, env: Env)
    requires Ascending(env.table) && !Flag(args, "clean-tables")
    ensures var o := RunOutcome(st, args, env);
      o.state.values == st.values && o.state.galleries == st.galleries && o.state.galleryValues == st.galleryValues
  {
    if Flag(args, "process") {
      ProcessAllKeepsTables(st, env);
    }
  }

  /**
   * A migration that stops on an error ends the run there: the clean-up
   * asked for with it never runs, so no table is emptied after a failed
   * migration.
   */
  lemma FailedMigrationSkipsClean(st: State, args: map<string, Value>, env: Env)
    requires Ascending(env.table) && Flag(args, "process") && ProcessAll(st, env).error.Some?
    ensures RunOutcome(st, args, env) == ProcessAll(st, env)
    ensures RunOutcome(st, args, env).state.values == st.values
    ensures RunOutcome(st, args, env).state.galleries == st.galleries
  {
    ProcessAllKeepsTables(st, env);
  }

  /** One turn of the gallery walk. */
  lemma MigrateGalleriesStep(st: State, rows: seq<GalleryRow>, env: Env)
    requires rows != []
    ensures MigrateGalleries(st, rows, env) ==
      if GalleryStep(st, rows[0], env).Err? then Outcome(st, Some(GalleryStep(st, rows[0], env).error))
      else MigrateGalleries(GalleryStep(st, rows[0], env).value, rows[1..], env)
  {
  }

  // ------------------------------------------------------------------
  // The shell script
  // ------------------------------------------------------------------

  /**
   * The migration script: its counters and the relational tables it
   * empties are fields, the catalog resource holds the document
   * collection, and everything else it reads is fixed at construction.
   */
  class Migration {
    const resource: ProductResource.Resource
    const table: seq<ProductRow>
    const stores: seq<nat>
    const sets: set<int>
    const attributeRows: seq<(int, string)>
    const md5: Md5
    const docFails: int -> bool
    const galleryWritten: GalleryRow -> bool

    /** `_sqlAttributeCodes`, read from the resource when the script starts. */
    var sqlAttributeCodes: seq<string>
    var updatedDocs: nat
    var ignoredDocs: nat
    var updatedGalleries: nat
    var ignoredGalleries: nat
    /** The five attribute value tables. */
    var values: seq<EavRow>
    var galleries: seq<GalleryRow>
    var galleryValues: seq<GalleryValueRow>

    ghost predicate Valid()
      reads this, resource, resource.docs
    {
      resource.Valid() && Ascending(table) &&
      sqlAttributeCodes == ProductResource.SpecialCodes + resource.entityColumns
    }

    /** The fixed inputs, in the terms of the specification functions. */
    function Inputs(): Env
    {
      Env(table, stores, resource.attributes, resource.entityColumns, sets, attributeRows,
          resource.parse, md5, docFails, galleryWritten)
    }

    /** The document store, the counters and the relational tables. */
    function Snapshot(): State
      reads this, resource.docs
    {
      State(resource.docs.docs, updatedDocs, ignoredDocs, updatedGalleries, ignoredGalleries,
            values, galleries, galleryValues)
    }

    constructor (resource: ProductResource.Resource, table: seq<ProductRow>, stores: seq<nat>, sets: set<int>,
                 attributeRows: seq<(int, string)>, md5: Md5, docFails: int -> bool, galleryWritten: GalleryRow -> bool,
                 values: seq<EavRow>, galleries: seq<GalleryRow>, galleryValues: seq<GalleryValueRow>)
      requires resource.Valid() && Ascending(table)
      modifies resource
      ensures Valid()
      ensures this.resource == resource && this.table == table && this.stores == stores && this.sets == sets
      ensures this.attributeRows == attributeRows && this.md5 == md5 && this.docFails == docFails
      ensures this.galleryWritten == galleryWritten
      ensures Snapshot() == State(resource.docs.docs, 0, 0, 0, 0, values, galleries, galleryValues)
    {
      var codes := resource.GetSqlAttributesCodes();
      this.resource := resource;
      this.table := table;
      this.stores := stores;
      this.sets := sets;
      this.attributeRows := attributeRows;
      this.md5 := md5;
      this.docFails := docFails;
      this.galleryWritten := galleryWritten;
      sqlAttributeCodes := codes;
      updatedDocs := 0;
      ignoredDocs := 0;
      updatedGalleries := 0;
      ignoredGalleries := 0;
      this.values := values;
      this.galleries := galleries;
      this.galleryValues := galleryValues;
    }

    /** One turn of `_saveProductDocuments`: prepare the document, then upsert it or count it as ignored. */
    method SaveProductDocument(pd: ProductDocument) returns (err: Option<MigrationError>)
      requires Valid()
      modifies this, resource.docs
      ensures Valid() && sqlAttributeCodes == old(sqlAttributeCodes)
      ensures var r := SaveOne(old(Snapshot()), pd, Inputs());
        if r.Err? then err == Some(r.error) && Snapshot() == old(Snapshot()) else err.None? && Snapshot() == r.value
    {
      ghost var st := Snapshot();
      ghost var env := Inputs();
      var prepared := Prepare(pd, Inputs());
      if prepared.Err? {
        err := Some(prepared.error);
        return;
      }
      var doc := prepared.value;
      var mongoId := MongoId(doc);
      if docFails(mongoId) {
        ignoredDocs := ignoredDocs + 1;
        assert Snapshot() == st.(ignoredDocs := st.ignoredDocs + 1);
      } else {
        UpsertDocument(mongoId, doc);
      }
      err := None;
    }

    /** The upsert of one prepared document, counted as updated. */
    method UpsertDocument(mongoId: int, doc: ProductDocument)
      requires Valid()
      modifies this, resource.docs
      ensures Valid() && sqlAttributeCodes == old(sqlAttributeCodes)
      ensures Snapshot() == old(Snapshot()).(docs := ProductResource.RawUpsert(old(resource.docs.docs), QueryBuilder.MongoInt32(Int(mongoId)), ProductResource.RawScopes(ScopeFields(doc))),
                                             updatedDocs := old(updatedDocs) + 1)
    {
      resource.UpdateRawDocument(Int(mongoId), ProductResource.RawScopes(ScopeFields(doc)), Str("$set"));
      updatedDocs := updatedDocs + 1;
    }

    /** `_saveProductDocuments`. */
    method SaveProductDocuments(pds: seq<(int, ProductDocument)>) returns (err: Option<MigrationError>)
      requires Valid()
      modifies this, resource.docs
      ensures Valid() && sqlAttributeCodes == old(sqlAttributeCodes)
      ensures Outcome(Snapshot(), err) == SaveDocs(old(Snapshot()), pds, Inputs())
    {
      ghost var env := Inputs();
      ghost var goal := SaveDocs(Snapshot(), pds, env);
      var i := 0;
      while i < |pds|
        invariant 0 <= i <= |pds|
        invariant Valid() && sqlAttributeCodes == old(sqlAttributeCodes) && Inputs() == env
        invariant SaveDocs(Snapshot(), pds[i..], env) == goal
      {
        SaveDocsStep(Snapshot(), pds, env, i);
        err := SaveProductDocument(pds[i].1);
        if err.Some? {
          return;
        }
        i := i + 1;
      }
      err := None;
    }

    /**
     * `_getProducts` and the loop over its rows: the chunk above the
     * cursor, the ids of its products and the cursor after it.
     */
    method FetchProducts(lastProductId: int) returns (products: seq<ProductRow>, productIds: seq<int>, last: int)
      ensures products == Chunk(table, lastProductId) && productIds == Ids(products)
      ensures products == [] ==> last == lastProductId
      ensures products != [] ==> last == products[|products| - 1].id
    {
      products := Chunk(table, lastProductId);
      productIds := [];
      last := lastProductId;
      for k := 0 to |products|
        invariant |productIds| == k && forall j :: 0 <= j < k ==> productIds[j] == products[j].id
        invariant k > 0 ==> last == products[k - 1].id
        invariant k == 0 ==> last == lastProductId
      {
        last := products[k].id;
        productIds := productIds + [products[k].id];
      }
    }

    /** The walk of `_migrateAttributesValues`: fetch a chunk above the cursor, assemble its documents, save them; stop on an empty chunk. */
    method MigrateAttributesValues() returns (err: Option<MigrationError>)
      requires Valid()
      modifies this, resource.docs
      ensures Valid() && sqlAttributeCodes == old(sqlAttributeCodes)
      ensures Outcome(Snapshot(), err) == MigrateAttributes(old(Snapshot()), Inputs())
    {
      var lastProductId := 0;
      while true
        invariant Valid() && sqlAttributeCodes == old(sqlAttributeCodes)
        invariant MigrateChunks(Outcome(Snapshot(), None), Chunks(table, lastProductId), Inputs()) ==
          MigrateAttributes(old(Snapshot()), Inputs())
        decreases |Above(table, lastProductId)|
      {
        ghost var before := Snapshot();
        ghost var cursor := lastProductId;
        var products, productIds, next := FetchProducts(lastProductId);
        if products == [] {
          assert Chunks(table, cursor) == [];
          err := None;
          return;
        }
        ChunksUnfold(table, cursor);
        MigrateChunksStep(Outcome(before, None), Chunks(table, cursor), Inputs());
        lastProductId := next;
        var storeIds := StoreOrder(stores);
        var pds := AssembleDocuments(products, productIds, storeIds, values, resource.attributes);
        err := SaveProductDocuments(pds);
        if err.Some? {
          MigrateChunksStopped(Outcome(Snapshot(), err), Chunks(table, lastProductId), Inputs());
          return;
        }
      }
    }

    /** `galleryCallback` for one gallery row. */
    method GalleryCallback(row: GalleryRow) returns (err: Option<MigrationError>)
      requires Valid()
      modifies this, resource.docs
      ensures Valid() && sqlAttributeCodes == old(sqlAttributeCodes)
      ensures var r := GalleryStep(old(Snapshot()), row, Inputs());
        if r.Err? then err == Some(r.error) && Snapshot() == old(Snapshot()) else err.None? && Snapshot() == r.value
    {
      var code := CodeById(resource.attributes, row.attributeId);
      if code.None? {
        err := Some(UnknownAttributeId(row.attributeId));
        return;
      }
      var recs: map<nat, Scope> := map[];
      for k := 0 to |galleryValues|
        invariant recs == GalleryStores(galleryValues[..k], row.valueId)
      {
        assert galleryValues[..k + 1][..k] == galleryValues[..k];
        var v := galleryValues[k];
        if v.valueId == row.valueId {
          recs := recs[v.storeId := StoreRecord(v)];
        }
      }
      assert galleryValues[..|galleryValues|] == galleryValues;
      var image := Image(map["value_id" := Str(md5(IntToString(row.valueId))), "file" := row.value], recs);
      if galleryWritten(row) {
        resource.docs.UpsertAddToGallery(QueryBuilder.MongoInt32(Int(row.entityId)), code.value, image);
        updatedGalleries := updatedGalleries + 1;
      } else {
        ignoredGalleries := ignoredGalleries + 1;
      }
      err := None;
    }

    /** `_migrateGalleriesValues`: the iterator hands every gallery row to the callback. */
    method MigrateGalleriesValues() returns (err: Option<MigrationError>)
      requires Valid()
      modifies this, resource.docs
      ensures Valid() && sqlAttributeCodes == old(sqlAttributeCodes)
      ensures Outcome(Snapshot(), err) == MigrateGalleries(old(Snapshot()), old(galleries), Inputs())
    {
      var rows := galleries;
      var i := 0;
      while i < |rows|
        invariant 0 <= i <= |rows|
        invariant Valid() && sqlAttributeCodes == old(sqlAttributeCodes)
        invariant MigrateGalleries(Snapshot(), rows[i..], Inputs()) == MigrateGalleries(old(Snapshot()), rows, Inputs())
      {
        MigrateGalleriesStep(Snapshot(), rows[i..], Inputs());
        assert rows[i..][0] == rows[i] && rows[i..][1..] == rows[i + 1..];
        err := GalleryCallback(rows[i]);
        if err.Some? {
          return;
        }
        i := i + 1;
      }
      err := None;
    }

    /** `runMigration`: attribute values, then galleries. */
    method RunMigration() returns (err: Option<MigrationError>)
      requires Valid()
      modifies this, resource.docs
      ensures Valid() && sqlAttributeCodes == old(sqlAttributeCodes)
      ensures Outcome(Snapshot(), err) == ProcessAll(old(Snapshot()), Inputs())
    {
      err := MigrateAttributesValues();
      if err.Some? {
        return;
      }
      err := MigrateGalleriesValues();
    }

    /** `_cleanAttributesTables`, with its pre-flight on the SQL-kept attribute ids. */
    method CleanAttributesTables() returns (err: Option<MigrationError>)
      requires Valid()
      modifies this, resource
      ensures Valid() && sqlAttributeCodes == old(sqlAttributeCodes)
      ensures var r := CleanAttributes(old(Snapshot()), SqlAttributeIds(attributeRows, sqlAttributeCodes), |ProductResource.SpecialCodes|);
        if r.Err? then err == Some(r.error) && Snapshot() == old(Snapshot()) else err.None? && Snapshot() == r.value
    {
      var ids := SqlAttributeIds(attributeRows, sqlAttributeCodes);
      var codes := resource.GetSqlAttributesCodes();
      var expected := |codes| - |resource.entityColumns|;
      if ids == [] || |ids| < expected {
        err := Some(TooFewSqlAttributes(|ids|, expected));
        return;
      }
      values := KeepValues(values, ids);
      err := None;
    }

    /** `_cleanGalleriesTables`. */
    method CleanGalleriesTables()
      requires Valid()
      modifies this
      ensures Valid() && sqlAttributeCodes == old(sqlAttributeCodes)
      ensures Snapshot() == CleanGalleries(old(Snapshot()))
    {
      galleries := [];
      galleryValues := [];
    }

    /** `run`: the usage text, or the requested steps in the order dump, process, clean. */
    method Run(args: map<string, Value>) returns (usage: bool, err: Option<MigrationError>)
      requires Valid()
      modifies this, resource, resource.docs
      ensures Valid()
      ensures usage == Usage(args)
      ensures Outcome(Snapshot(), err) == RunOutcome(old(Snapshot()), args, Inputs())
    {
      if !Isset(args, "dump-tables") && !Isset(args, "process") && !Isset(args, "clean-tables") {
        usage := true;
        err := None;
        return;
      }
      usage := false;
      err := None;
      if Flag(args, "dump-tables") {
        // mysqldump of the value and gallery tables into files
      }
      if Flag(args, "process") {
        err := RunMigration();
        if err.Some? {
          return;
        }
      }
      assert Outcome(Snapshot(), err) == ProcessStep(old(Snapshot()), args, Inputs());
      if Flag(args, "clean-tables") {
        err := CleanAttributesTables();
        if err.Some? {
          return;
        }
        CleanGalleriesTables();
      }
    }
  }
}
