/**
 * The search indexer's read of product documents: each document found is
 * flattened to the attribute values a store view sees, the default scope
 * overridden by the store's own, and re-keyed by attribute id.
 */
module SearchProduct {
  import opened Wrappers
  import opened Php
  import opened PhpArray
  import opened ScopeCodec
  import opened Documents
  import opened DocFilter
  import opened DocStore
  import opened Eav
  import QueryBuilder

  /** The find condition: the id filter for a non-empty id list, otherwise the empty filter. */
  function FindCondition(productIds: seq<(Key, Value)>): (f: Filter)
    ensures productIds == [] ==> forall id, d, m :: Eval(f, id, d, m)
    ensures productIds != [] ==>
        forall id, d, m :: Eval(f, id, d, m) <==> QueryBuilder.Matches(QueryBuilder.GetIdsFilter(QueryBuilder.IdArray(productIds)), id)
  {
    if productIds != [] then Id(QueryBuilder.GetIdsFilter(QueryBuilder.IdArray(productIds))) else And([])
  }

  /** No regular expression is part of the find condition. */
  const NoRegex: Matcher := (p, s) => false

  /**
   * `_mapAttributeValues`: the value of every field whose code names an
   * attribute with an id, keyed by that id; other fields are dropped.
   */
  function MapAttributeValues(document: map<string, Value>, catalog: Catalog): (r: map<int, Value>)
    requires ValidCatalog(catalog)
    ensures forall i :: 0 <= i < |catalog| && catalog[i].id != 0 && catalog[i].code in document ==>
        catalog[i].id in r && r[catalog[i].id] == document[catalog[i].code]
    ensures forall id :: id in r ==>
        id != 0 && exists i :: 0 <= i < |catalog| && catalog[i].id == id && catalog[i].code in document
  {
    map i | 0 <= i < |catalog| && catalog[i].id != 0 && catalog[i].code in document :: catalog[i].id := document[catalog[i].code]
  }

  /** The attribute values the indexer reads from a document: each attribute's effective value in the store view. */
  lemma {:induction false} IndexedValueIsEffective(d: Document, storeId: nat, catalog: Catalog, i: nat)
    requires ValidCatalog(catalog) && i < |catalog| && catalog[i].id != 0
    ensures catalog[i].id in MapAttributeValues(LoadedData(d, storeId), catalog) <==> Effective(d, storeId, catalog[i].code).Some?
    ensures catalog[i].id in MapAttributeValues(LoadedData(d, storeId), catalog) ==>
        MapAttributeValues(LoadedData(d, storeId), catalog)[catalog[i].id] == Effective(d, storeId, catalog[i].code).value
  {
    var m := MapAttributeValues(LoadedData(d, storeId), catalog);
    LoadedDataEffective(d, storeId, catalog[i].code);
    if catalog[i].id in m {
      var j :| 0 <= j < |catalog| && catalog[j].id == catalog[i].id && catalog[j].code in LoadedData(d, storeId);
      assert j == i;
    }
  }

  /** The result array: each document's mapped values under its `_id`, in cursor order. */
  function Indexed(found: Docs, storeId: nat, catalog: Catalog): (r: seq<(int, map<int, Value>)>)
    requires ValidCatalog(catalog)
    ensures |r| <= |found|
  {
    if found == [] then []
    else
      var n := |found| - 1;
      Put(Indexed(found[..n], storeId, catalog), found[n].0, MapAttributeValues(LoadedData(found[n].1, storeId), catalog))
  }

  /** A document id is in the result exactly when a document with that id was found. */
  lemma {:induction false} IndexedKeys(found: Docs, storeId: nat, catalog: Catalog, id: int)
    requires ValidCatalog(catalog)
    ensures HasKey(Indexed(found, storeId, catalog), id) <==> HasKey(found, id)
  {
    if found != [] {
      var n := |found| - 1;
      IndexedKeys(found[..n], storeId, catalog, id);
      PutHasKey(Indexed(found[..n], storeId, catalog), found[n].0, MapAttributeValues(LoadedData(found[n].1, storeId), catalog), id);
      HasKeyLast(found, id);
    }
  }

  /** With distinct ids, every document found is indexed with its own flattened values. */
  lemma {:induction false} IndexedEntry(found: Docs, storeId: nat, catalog: Catalog, i: nat)
    requires ValidCatalog(catalog) && DistinctKeys(found) && i < |found|
    ensures Get(Indexed(found, storeId, catalog), found[i].0) == Some(MapAttributeValues(LoadedData(found[i].1, storeId), catalog))
  {
    var n := |found| - 1;
    var acc := Indexed(found[..n], storeId, catalog);
    var v := MapAttributeValues(LoadedData(found[n].1, storeId), catalog);
    PutGet(acc, found[n].0, v, found[i].0);
    if i < n {
      assert found[..n][i] == found[i];
      assert DistinctKeys(found[..n]) by {
        forall a, b | 0 <= a < b < n ensures found[..n][a].0 != found[..n][b].0 {
          assert found[..n][a] == found[a] && found[..n][b] == found[b];
        }
      }
      IndexedEntry(found[..n], storeId, catalog, i);
    }
  }

  /** The search side of the product resource. */
  class Resource {
    const collection: DocumentCollection
    const catalog: Catalog

    constructor (collection: DocumentCollection, catalog: Catalog)
      ensures this.collection == collection && this.catalog == catalog
    {
      this.collection := collection;
      this.catalog := catalog;
    }

    /** The default scope, then the store's scope, merged into one map and removed from the document. */
    static method Flatten(d: Document, storeId: nat) returns (flat: map<string, Value>)
      ensures flat == LoadedData(d, storeId)
    {
      var fields := [DefaultStore, storeId];
      var scopes := d.scopes;
      flat := map[];
      for i := 0 to 2
        invariant i == 0 ==> flat == map[] && scopes == d.scopes
        invariant i == 1 ==> flat == ScopeOf(d, DefaultStore) && scopes == d.scopes - {DefaultStore}
        invariant i == 2 ==> flat == LoadedData(d, storeId)
      {
        var s := fields[i];
        if s in scopes {
          flat := flat + scopes[s];
          scopes := scopes - {s};
        }
      }
    }

    /**
     * `getProductAttributes`: the documents found (those of `productIds`
     * when the list is not empty, all of them otherwise), each flattened
     * for `storeId` and mapped to attribute ids, keyed by `_id`.
     */
    method GetProductAttributes(storeId: nat, productIds: seq<(Key, Value)>) returns (result: seq<(int, map<int, Value>)>)
      requires ValidCatalog(catalog)
      ensures result == Indexed(FindDocs(collection.docs, FindCondition(productIds), NoRegex, 0), storeId, catalog)
    {
      var found := collection.Find(FindCondition(productIds), NoRegex, 0);
      result := [];
      for i := 0 to |found|
        invariant result == Indexed(found[..i], storeId, catalog)
      {
        assert found[..i + 1][..i] == found[..i];
        var flat := Flatten(found[i].1, storeId);
        result := Put(result, found[i].0, MapAttributeValues(flat, catalog));
      }
      assert found[..|found|] == found;
    }
  }

  /** The result holds exactly the documents of the listed ids, or every document when no id is listed. */
  lemma SearchSelects(docs: Docs, storeId: nat, catalog: Catalog, productIds: seq<(Key, Value)>, id: int)
    requires ValidCatalog(catalog)
    ensures HasKey(Indexed(FindDocs(docs, FindCondition(productIds), NoRegex, 0), storeId, catalog), id) <==>
        HasKey(docs, id)
        && (productIds == [] || QueryBuilder.Matches(QueryBuilder.GetIdsFilter(QueryBuilder.IdArray(productIds)), id))
  {
    var f := FindCondition(productIds);
    IndexedKeys(FindDocs(docs, f, NoRegex, 0), storeId, catalog, id);
    FindAllKeys(docs, f, NoRegex, id);
    if HasKey(docs, id) && (productIds == [] || QueryBuilder.Matches(QueryBuilder.GetIdsFilter(QueryBuilder.IdArray(productIds)), id)) {
      var m :| 0 <= m < |docs| && docs[m].0 == id;
      assert Eval(f, id, docs[m].1, NoRegex);
    }
  }
}
