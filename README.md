# mongogento core, modelled in Dafny

Smile's mongogento extension moves most EAV attribute values of Magento 1
catalog products out of the relational value tables into one MongoDB
document per product. Only a fixed set of attributes stays in SQL: twelve
special codes plus every column of the entity table. A product document
`{_id: <int32 product id>, attr_<store>: {<code>: value, …}, galleries: …}`
holds one sub-document per store scope. A reader of store `s` sees an
attribute's store value when `attr_<s>.<code>` exists, else the value
in the default scope `attr_0`.

This project models the parts of the extension that read and write those
documents, and proves what they promise:

- the scope field codec (`attr_<store>.<code>`) and the `_id` filter builder
  (`ScopeCodec`, `QueryBuilder`);
- the dual-write product resource: save, load, delete, mass update, raw
  update, single-attribute save and the SQL/document split (`ProductResource`);
- the product collection: routing filters between SQL and documents,
  translating document filters into the exists-cascade, the id
  pre-restriction, and merging loaded documents into items (`ProductCollection`,
  `DocFilter`);
- layered-navigation facet counting (`LayerFilter`);
- the media gallery backend and its resource (`MediaBackend`, `MediaResource`);
- the CSV import's attribute save (`ImportProduct`), the mass attribute action
  (`ProductAction`) and the search indexer's attribute read (`SearchProduct`);
- the `mongoify.php` migration job: cursor walk, per-store document assembly,
  pruning and coercion, gallery migration, table clean-up and the `run`
  dispatch (`Mongoify`).

Supporting modules give PHP's semantics: values and loose emptiness (`Php`);
ordered associative arrays with `$a[$k] = $v`, `unset`, `ksort` and `asort`
(`PhpArray`); `str_replace` (`PhpString`); and decimal rendering (`Digits`).
They also give MongoDB's: documents and `$set` / `$addToSet` (`Documents`),
filters (`DocFilter`) and a collection class with upsert, multi-update,
remove and limited find (`DocStore`). Attribute metadata is a catalog of
`(code, id, backend, scope)` entries (`Eav`). A product object is a class
with mutable data (`CatalogProduct`).

Components that change state in place are classes: the product resource,
the collection, the media backend and resource, the importer, the action,
the search resource, the migration job and the document collection. Their
methods carry `modifies` clauses and are proved against pure
specification functions, such as `MassUpdate`, `TableFold`, `Plan`,
`Rebuilt`, `Chunk` and `CleanAttributes`. The properties the source
promises are proved as lemmas about those functions.

## Model

| member | source | states |
|---|---|---|
| QueryBuilder.ArrayFilter | src/app/code/community/Smile/MongoCore/Model/Resource/Connection/Query/Builder.php:41-56 | An id array yields `$in` over a list with the same length and order as the input, whatever its keys, each element the 32-bit id |
| QueryBuilder.ScalarFilter | src/app/code/community/Smile/MongoCore/Model/Resource/Connection/Query/Builder.php:58-60 | A scalar id yields a plain `_id` equality on the 32-bit id, never `$in` |
| QueryBuilder.ArrayFilterSelects | src/app/code/community/Smile/MongoCore/Model/Resource/Connection/Query/Builder.php:41-56 | An id-array filter selects a document iff one of the array's ids converts to its id |
| QueryBuilder.EmptyArraySelectsNothing | src/app/code/community/Smile/MongoCore/Model/Resource/Connection/Query/Builder.php:41-56 | An empty id array selects no document |
| QueryBuilder.SelectsOnlyInt32 | src/app/code/community/Smile/MongoCore/Model/Resource/Connection/Query/Builder.php:43-45 | Every id a filter selects is a 32-bit integer |
| QueryBuilder.MongoInt32 | src/app/code/community/Smile/MongoCore/Model/Resource/Connection/Query/Builder.php:44 | `new MongoInt32` yields a 32-bit value, equal to the integer conversion whenever that fits |
| QueryBuilder.WrapEach | src/app/code/community/Smile/MongoCore/Model/Resource/Connection/Query/Builder.php:43-45 | The conversion loop keeps every key and length, and wraps every id |
| ScopeCodec.StoreKeyRoundTrip | src/app/code/community/Smile/MongoCatalog/Model/Resource/Override/Catalog/Product.php:373 | Decoding `attr_<store>` gives back the store |
| ScopeCodec.StoreKeyCanonical | src/app/code/community/Smile/MongoCatalog/Model/Resource/Override/Catalog/Product.php:373 | A decodable scope key is exactly the encoding of its store |
| ScopeCodec.FieldPathRoundTrip | src/app/code/community/Smile/MongoCatalog/Model/Resource/Override/Catalog/Product.php:312 | Decoding `attr_<store>.<code>` gives back the store and the code, whatever the code contains |
| ScopeCodec.FieldPathCanonical | src/app/code/community/Smile/MongoCatalog/Model/Resource/Override/Catalog/Product.php:312 | A decodable field path is the encoding of what it decodes to |
| ScopeCodec.FieldPathInjective | src/app/code/community/Smile/MongoCatalog/Model/Resource/Override/Catalog/Product.php:570 | Distinct (store, code) pairs give distinct field paths |
| ScopeCodec.FieldPathIsNotStoreKey | src/app/code/community/Smile/MongoCatalog/Model/Resource/Override/Catalog/Product/Collection.php:355 | A field path is never a bare scope key, and vice versa |
| ScopeCodec.AllFieldPathsRoundTrip | src/app/code/community/Smile/MongoCatalog/Model/Import/Entity/Product.php:75 | The field-path round trip, for every store and code |
| ScopeCodec.AllParsedPathsCanonical | src/app/code/community/Smile/MongoCatalog/Model/Import/Entity/Product.php:75 | Every decodable path is canonical |
| ScopeCodec.AllStoreKeysRoundTrip | src/app/code/community/Smile/MongoCatalog/Model/Resource/Override/Catalog/Product.php:373 | The scope-key round trip, for every store |
| Documents.LoadedDataEffective | src/app/code/community/Smile/MongoCatalog/Model/Resource/Override/Catalog/Product/Collection.php:161-169 | Data loaded for store `s` holds a code iff the code has an effective (store-else-default) value, and holds that value |
| Documents.SetFieldsValue | src/app/code/community/Smile/MongoCatalog/Model/Resource/Override/Catalog/Product.php:266 | `$set` of dotted paths sets exactly the fields the payload names, and leaves every other field as it was |
| Documents.SetScopesScope | src/shell/smile/mongoify.php:515 | `$set` of whole `attr_<store>` fields replaces exactly the named scopes |
| Documents.AddToGalleryIdempotent | src/shell/smile/mongoify.php:954 | `$addToSet` of the same record twice equals adding it once |
| DocStore.SetWhereGet | src/app/code/community/Smile/MongoCatalog/Model/Resource/Override/Catalog/Product.php:572-578 | A multi-document `$set` creates no document, writes only the selected documents, and leaves the others alone |
| DocStore.UpsertFieldsGet | src/app/code/community/Smile/MongoCatalog/Model/Resource/Override/Catalog/Product.php:266 | After an upsert `$set` the document exists, the named fields hold the payload, the other fields and documents are unchanged |
| DocStore.UpsertScopesGet | src/shell/smile/mongoify.php:515 | After a whole-scope upsert each named scope holds the written map, and the other scopes are kept |
| DocStore.UpsertImageGet | src/shell/smile/mongoify.php:954 | After an `$addToSet` upsert the record is in the gallery, which otherwise holds what it held |
| DocStore.SetGalleryOfGet | src/app/code/community/Smile/MongoCatalog/Model/Resource/Override/Catalog/Product/Attribute/Backend/Media.php:102 | A gallery `$set` without upsert changes only the targeted document's gallery; a missing document stays missing |
| DocStore.RemoveWhereGet | src/app/code/community/Smile/MongoCatalog/Model/Resource/Override/Catalog/Product.php:436 | A removal deletes exactly the selected documents |
| DocStore.FindDocsPrefix | src/app/code/community/Smile/MongoCatalog/Model/Resource/Override/Catalog/Product/Collection.php:296-298 | A limited cursor yields the first documents of the unlimited one, as many as the limit allows |
| DocStore.DocumentCollection.FindOne | src/app/code/community/Smile/MongoCatalog/Model/Resource/Override/Catalog/Product/Attribute/Backend/Media.php:73 | `findOne` by id returns the stored document with that id, if there is one |
| DocStore.DocumentCollection.Find | src/app/code/community/Smile/MongoCatalog/Model/Resource/Override/Catalog/Product/Collection.php:296-303 | The cursor, iterated to its end, yields the matching documents in collection order, cut at the limit |
| DocFilter.CascadeIsEffective | src/app/code/community/Smile/MongoCatalog/Model/Resource/Override/Catalog/Product/Collection.php:355-383 | The exists-cascade selects a document iff the attribute's effective value for the store exists and passes every test |
| DocFilter.OrderingSkipsIntegers | src/app/code/community/Smile/MongoCatalog/Model/Resource/Override/Catalog/Product/Collection.php:385-399 | An ordering test with a string operand never selects a stored integer |
| Eav.ByCodeUnique | src/shell/smile/mongoify.php:773-785 | In a valid catalog the lookup by code finds the one attribute with that code |
| Eav.CodeByIdUnique | src/shell/smile/mongoify.php:747-763 | In a valid catalog the lookup by id yields the code of the attribute with that id |
| Eav.Coerce | src/app/code/community/Smile/MongoCatalog/Model/Resource/Override/Catalog/Product.php:331-350 | Objects are stringified; a value loosely equal to `''` is kept; otherwise a decimal-like backend goes through the locale parser, an `int` backend is cast to an integer, and any other backend keeps the value |
| Eav.CoerceKnown | src/shell/smile/mongoify.php:585-606 | The migration's coercion: for a missing attribute objects are only stringified; otherwise the value is coerced as above |
| Eav.CoerceIntIdempotent | src/app/code/community/Smile/MongoCatalog/Model/Resource/Override/Catalog/Product.php:331-350 | Coercing an integer attribute twice is the same as coercing it once |
| ProductResource.Resource.GetSqlAttributesCodes | src/app/code/community/Smile/MongoCatalog/Model/Resource/Override/Catalog/Product.php:61-81 | The SQL-kept codes are the twelve special codes followed by the entity columns; the first call caches them |
| ProductResource.Resource.GetSqlAttributesIds | src/app/code/community/Smile/MongoCatalog/Model/Resource/Override/Catalog/Product.php:89-104 | The SQL-kept ids are the ids of the known attributes with SQL-kept codes, in code order, and are cached |
| ProductResource.SqlIdsOfMember | src/app/code/community/Smile/MongoCatalog/Model/Resource/Override/Catalog/Product.php:89-104 | An id is SQL-kept iff a known attribute with an SQL-kept code has it |
| ProductResource.InsertsToSql | src/app/code/community/Smile/MongoCatalog/Model/Resource/Override/Catalog/Product.php:211-223 | Exactly the value inserts of SQL-kept attribute ids reach MySQL, in order |
| ProductResource.UpdatesToSql | src/app/code/community/Smile/MongoCatalog/Model/Resource/Override/Catalog/Product.php:228-235 | Exactly the value updates of SQL-kept attribute ids reach MySQL, in order |
| ProductResource.DeletesToSql | src/app/code/community/Smile/MongoCatalog/Model/Resource/Override/Catalog/Product.php:240-244 | Every table's deletions of emptied values reach MySQL |
| ProductResource.PrunePending | src/app/code/community/Smile/MongoCatalog/Model/Resource/Override/Catalog/Product.php:246-252 | Every table of pending value rows keeps exactly its SQL-kept rows |
| ProductResource.Resource.ProcessSaveData | src/app/code/community/Smile/MongoCatalog/Model/Resource/Override/Catalog/Product.php:158-271 | The entity row is written first, then only SQL-kept value writes, the deletions and the pruned flush; finally exactly one upsert `$set` of the save payload goes to the product's document |
| ProductResource.SaveAllPayloadField | src/app/code/community/Smile/MongoCatalog/Model/Resource/Override/Catalog/Product.php:289-320 | The save payload has a field at `attr_<s>.<code>` iff an attribute has that code, its value is not null, false or `''`, and `s` is its target scope (`0` for a new product or a global attribute); the field holds the coerced value |
| ProductResource.SaveAllPayloadPaths | src/app/code/community/Smile/MongoCatalog/Model/Resource/Override/Catalog/Product.php:303-313 | Every payload field is a scoped attribute path |
| ProductResource.TargetStore | src/app/code/community/Smile/MongoCatalog/Model/Resource/Override/Catalog/Product.php:303-308 | The target scope is the default one for a new product or a global attribute, else the object's store |
| ProductResource.AttributeValueDefaultOnly | src/app/code/community/Smile/MongoCatalog/Model/Resource/Override/Catalog/Product.php:520-544 | Without a store, or with the default one, only `attr_0` is read |
| ProductResource.AttributeValueIsEffective | src/app/code/community/Smile/MongoCatalog/Model/Resource/Override/Catalog/Product.php:520-544 | When no stored value is null, the read value is the effective value (store, else default, else null) |
| ProductResource.Resource.GetProductAttributeValue | src/app/code/community/Smile/MongoCatalog/Model/Resource/Override/Catalog/Product.php:520-544 | The method returns the value read from the product's document, or null without a document |
| ProductResource.MassValue | src/app/code/community/Smile/MongoCatalog/Model/Resource/Override/Catalog/Product.php:564-568 | A mass update coerces the value only for a known attribute |
| ProductResource.MassUpdateGet | src/app/code/community/Smile/MongoCatalog/Model/Resource/Override/Catalog/Product.php:557-580 | A mass update creates no document and changes only `attr_<store>.<code>` of the updated codes in the selected documents, each to its (coerced) value; there is no fall-back to the default scope |
| ProductResource.Resource.MassDataUpdate | src/app/code/community/Smile/MongoCatalog/Model/Resource/Override/Catalog/Product.php:557-580 | The method leaves the collection equal to the mass update of the ids filter over the attributes written before the first `$set` that throws, and reports whether all were written |
| ProductResource.MassUpdateInterrupted | src/app/code/community/Smile/MongoCatalog/Model/Resource/Override/Catalog/Product.php:562-578 | When a `$set` throws, the attributes before it are written in the selected documents, and the failing attribute and those after it keep their stored values |
| ProductResource.Resource.UpdateRawDocument | src/app/code/community/Smile/MongoCatalog/Model/Resource/Override/Catalog/Product.php:623-635 | With `$set` the method upserts the given fields or scopes on the product's int32 id; with a falsy operator the payload replaces the whole document |
| ProductResource.RawUpdateScopes | src/app/code/community/Smile/MongoCatalog/Model/Resource/Override/Catalog/Product.php:628-632 | After `updateRawDocument` the document exists and holds each named scope; an unnamed scope and the galleries survive under `$set` and are gone after a replacement; no other document changes |
| DocStore.UpsertReplaceGet | src/app/code/community/Smile/MongoCatalog/Model/Resource/Override/Catalog/Product.php:628-632 | An upsert without operator leaves exactly the written scopes and no galleries in the document, and no other document changes |
| ProductResource.Resource.AfterDelete | src/app/code/community/Smile/MongoCatalog/Model/Resource/Override/Catalog/Product.php:419-439 | Every document with the product's int32 id is removed, and no other document changes |
| ProductResource.Resource.LoadModelAttributes | src/app/code/community/Smile/MongoCatalog/Model/Resource/Override/Catalog/Product.php:360-409 | A product with an id gets its default-scope values, overridden by its store's; a product without a document keeps its data |
| ProductResource.ProductFilter | src/app/code/community/Smile/MongoCatalog/Model/Resource/Override/Catalog/Product.php:141-144 | A product is targeted by `_id` equality on its int32 id |
| ProductResource.FanOutGet | src/app/code/community/Smile/MongoCatalog/Model/Resource/Override/Catalog/Product.php:683-697 | A website-wide save writes the attribute in exactly the website's stores of the selected document |
| ProductResource.EmptyValueStoredAsNull | src/app/code/community/Smile/MongoCatalog/Model/Resource/Override/Catalog/Product.php:652-682 | An empty value saved on a store view is stored as null in its target scope |
| ProductResource.SaveAttributePayload | src/app/code/community/Smile/MongoCatalog/Model/Resource/Override/Catalog/Product.php:668-682 | A store-view save writes one field, at the target-scope path of the code |
| ProductResource.Resource.SaveAttribute | src/app/code/community/Smile/MongoCatalog/Model/Resource/Override/Catalog/Product.php:647-707 | A store-view save is one upsert in the target scope; a website-scoped attribute or the admin store writes the raw value to every store of the website without upsert; the relational save runs only for SQL codes; an unknown code writes nothing |
| ProductCollection.Operators | src/app/code/community/Smile/MongoCatalog/Model/Resource/Override/Catalog/Product/Collection.php:342-344 | A bare condition value is treated as `eq` |
| ProductCollection.BuildDocumentFilterMeaning | src/app/code/community/Smile/MongoCatalog/Model/Resource/Override/Catalog/Product/Collection.php:335-401 | The translator accepts exactly single-operator conditions with a supported operator, and the filter it builds selects a document iff the effective value passes the operator's test |
| ProductCollection.BuildDocumentFilterErrors | src/app/code/community/Smile/MongoCatalog/Model/Resource/Override/Catalog/Product/Collection.php:400-401 | Several operators are malformed; any other operator throws |
| ProductCollection.EqualityIsEffective | src/app/code/community/Smile/MongoCatalog/Model/Resource/Override/Catalog/Product/Collection.php:355-374 | `eq` (or a bare value) selects a document iff the effective value equals the operand |
| ProductCollection.ComparisonOperands | src/app/code/community/Smile/MongoCatalog/Model/Resource/Override/Catalog/Product/Collection.php:385-399 | `gteq` and `moreq` are the same test, and the operands of the comparisons and of `neq` are seen only through their string cast |
| ProductCollection.GreaterIsStringOrder | src/app/code/community/Smile/MongoCatalog/Model/Resource/Override/Catalog/Product/Collection.php:385-399 | `gt` selects documents whose effective value is a string after the operand's string |
| ProductCollection.LessIsStringOrder | src/app/code/community/Smile/MongoCatalog/Model/Resource/Override/Catalog/Product/Collection.php:385-399 | `lt` selects documents whose effective value is a string before the operand's string |
| ProductCollection.NotEqualIsEffective | src/app/code/community/Smile/MongoCatalog/Model/Resource/Override/Catalog/Product/Collection.php:385-399 | `neq` selects documents with an effective value other than the operand's string |
| ProductCollection.LikeIsRegex | src/app/code/community/Smile/MongoCatalog/Model/Resource/Override/Catalog/Product/Collection.php:375-379 | `like` selects documents whose effective value is a string that the case-insensitive regex matches |
| ProductCollection.LikePatternClean | src/app/code/community/Smile/MongoCatalog/Model/Resource/Override/Catalog/Product/Collection.php:375-377 | No `'%` or `%'` is left in the regex |
| ProductCollection.LikePatternPlain | src/app/code/community/Smile/MongoCatalog/Model/Resource/Override/Catalog/Product/Collection.php:375-377 | A pattern without `'%` and `%'` is used unchanged; a bare `%` stays literal |
| ProductCollection.BuildAllFirstError | src/app/code/community/Smile/MongoCatalog/Model/Resource/Override/Catalog/Product/Collection.php:267-273 | Translating the recorded filters yields the first failing filter's error, or success |
| ProductCollection.CombinedMeaning | src/app/code/community/Smile/MongoCatalog/Model/Resource/Override/Catalog/Product/Collection.php:275-292 | A document passes the combined filter iff it passes every recorded filter and, when SQL ids take part, its id is one of them |
| ProductCollection.LoadRestrictionMeaning | src/app/code/community/Smile/MongoCatalog/Model/Resource/Override/Catalog/Product/Collection.php:275-305 | Every id admitted is that of a stored document passing the combined filter; without a page size every such document is admitted |
| ProductCollection.FilterCodeRouting | src/app/code/community/Smile/MongoCatalog/Model/Resource/Override/Catalog/Product/Collection.php:226-230 | A filter goes to SQL iff the attribute is unknown or SQL-kept; otherwise it becomes the code's document filter and nothing else changes |
| ProductCollection.LaterFilterReplaces | src/app/code/community/Smile/MongoCatalog/Model/Resource/Override/Catalog/Product/Collection.php:252 | A later document filter on the same code replaces the earlier one in place |
| ProductCollection.RouteItemsFilters | src/app/code/community/Smile/MongoCatalog/Model/Resource/Override/Catalog/Product/Collection.php:211-220 | An array of conditions marks an SQL filter, and records document filters for exactly the items that do not route to SQL |
| ProductCollection.MergeLoadedMiss | src/app/code/community/Smile/MongoCatalog/Model/Resource/Override/Catalog/Product/Collection.php:157-173 | An item without a loaded document keeps its data |
| ProductCollection.LoadedIds | src/app/code/community/Smile/MongoCatalog/Model/Resource/Override/Catalog/Product/Collection.php:138-142 | The `$in` list has one 32-bit id per loaded item, in item order |
| ProductCollection.MergeLoadedHit | src/app/code/community/Smile/MongoCatalog/Model/Resource/Override/Catalog/Product/Collection.php:157-173 | The item of a loaded document gets its data overridden by the document's default-then-store values |
| ProductCollection.MergeInto | src/app/code/community/Smile/MongoCatalog/Model/Resource/Override/Catalog/Product/Collection.php:157-173 | The merge loop's items are those of the specification merge; `ok` is false where a document has no item |
| ProductCollection.Collection.AddAttributeToFilter | src/app/code/community/Smile/MongoCatalog/Model/Resource/Override/Catalog/Product/Collection.php:196-239 | The method routes as above; an unknown numeric id fails and changes nothing |
| ProductCollection.Collection.BeforeLoad | src/app/code/community/Smile/MongoCatalog/Model/Resource/Override/Catalog/Product/Collection.php:261-307 | Recorded filters are translated (the first failure throws and changes nothing), and the select is restricted to the ids found with the page size |
| ProductCollection.Collection.LoadAttributes | src/app/code/community/Smile/MongoCatalog/Model/Resource/Override/Catalog/Product/Collection.php:128-178 | The items' documents are fetched once and kept, and every item gets the default-then-store data of its document |
| LayerFilter.FacetMatchMeaning | src/app/code/community/Smile/MongoCatalog/Model/Resource/Override/Catalog/Layer/Filter/Attribute.php:64-92 | A document passes the match iff its id is a candidate and its effective value exists and is neither `'null'` nor `''` |
| LayerFilter.GroupsCount | src/app/code/community/Smile/MongoCatalog/Model/Resource/Override/Catalog/Layer/Filter/Attribute.php:95-101 | Each group's total is the number of documents with that key |
| LayerFilter.KeyOfDocumentOptions | src/app/code/community/Smile/MongoCatalog/Model/Resource/Override/Catalog/Layer/Filter/Attribute.php:95-101 | A key's first value is the effective value; its last value is the default scope's whenever that exists |
| LayerFilter.ParseSummedTotal | src/app/code/community/Smile/MongoCatalog/Model/Resource/Override/Catalog/Layer/Filter/Attribute.php:121-127 | The summed parse holds, for every option, the total of the rows credited to it |
| LayerFilter.GroupsTotal | src/app/code/community/Smile/MongoCatalog/Model/Resource/Override/Catalog/Layer/Filter/Attribute.php:95-101 | The totals credited to an option add up to its number of keys |
| LayerFilter.KeysOfCredited | src/app/code/community/Smile/MongoCatalog/Model/Resource/Override/Catalog/Layer/Filter/Attribute.php:95-101 | An option is credited as many keys as there are documents with that effective value |
| LayerFilter.FacetCountIsEffective | src/app/code/community/Smile/MongoCatalog/Model/Resource/Override/Catalog/Layer/Filter/Attribute.php:64-127 | With summed parsing, an option's count is the number of candidate documents whose effective value is that option |
| LayerFilter.SumByOption | src/app/code/community/Smile/MongoCatalog/Model/Resource/Override/Catalog/Layer/Filter/Attribute.php:121-127 | The parse loop computes the summed parse |
| LayerFilter.GetCount | src/app/code/community/Smile/MongoCatalog/Model/Resource/Override/Catalog/Layer/Filter/Attribute.php:37-134 | An SQL-kept attribute defers to the relational count; otherwise the result is sorted by option and holds the summed parse of the aggregation (nothing when it fails) |
| LayerFilter.SortedCountsLookup | src/app/code/community/Smile/MongoCatalog/Model/Resource/Override/Catalog/Layer/Filter/Attribute.php:132 | An option's entry in the sorted result is its count in the parse |
| LayerFilter.LastOptionPrefersDefault | src/app/code/community/Smile/MongoCatalog/Model/Resource/Override/Catalog/Layer/Filter/Attribute.php:122-124 | As written, a group is credited to its last value, so the default value wins over the store value |
| LayerFilter.OverwrittenTotals | src/app/code/community/Smile/MongoCatalog/Model/Resource/Override/Catalog/Layer/Filter/Attribute.php:126 | As written, two groups with the same option overwrite each other instead of summing |
| MediaBackend.Merged | src/app/code/community/Smile/MongoCatalog/Model/Override/Catalog/Product/Attribute/Backend/Media.php:52-56 | An image field comes from its own store sub-record if there is one, else from the admin one, else from the record |
| MediaBackend.FillDefaults | src/app/code/community/Smile/MongoCatalog/Model/Override/Catalog/Product/Attribute/Backend/Media.php:58-62 | A listed field that is missing or null gets its default; every other field keeps its value |
| MediaBackend.NextIndexOfRange | src/app/code/community/Smile/MongoCatalog/Model/Override/Catalog/Product/Attribute/Backend/Media.php:64-79 | `$a[] = …` on a list keyed 0, 1, … appends under the next number |
| MediaBackend.ArrangedPositioned | src/app/code/community/Smile/MongoCatalog/Model/Override/Catalog/Product/Attribute/Backend/Media.php:64-79 | An image with an admin sub-record whose position no later image takes is listed under that position |
| MediaBackend.ArrangedAppended | src/app/code/community/Smile/MongoCatalog/Model/Override/Catalog/Product/Attribute/Backend/Media.php:64-79 | Without admin sub-records the keyed list is exactly the prepared images, keyed 0, 1, 2, ... in gallery order |
| MediaBackend.Backend.AfterLoad | src/app/code/community/Smile/MongoCatalog/Model/Override/Catalog/Product/Attribute/Backend/Media.php:38-82 | The images, prepared and arranged, are returned in key order and re-indexed from 0 |
| MediaBackend.Backend.PrepareImage | src/app/code/community/Smile/MongoCatalog/Model/Override/Catalog/Product/Attribute/Backend/Media.php:52-62 | The loop yields the merged image with its defaults filled in |
| MediaBackend.Backend.ArrangeImages | src/app/code/community/Smile/MongoCatalog/Model/Override/Catalog/Product/Attribute/Backend/Media.php:49-70 | The loop yields the keyed image list of the specification |
| MediaBackend.Backend.Reindexed | src/app/code/community/Smile/MongoCatalog/Model/Override/Catalog/Product/Attribute/Backend/Media.php:74-79 | The sorted images are re-indexed from 0, in order |
| MediaBackend.Stashed | src/app/code/community/Smile/MongoCatalog/Model/Override/Catalog/Product/Attribute/Backend/Media.php:97-99 | After `beforeSave` the gallery is under `<code>_tmp` and `<code>` is unset |
| MediaBackend.Backend.BeforeSave | src/app/code/community/Smile/MongoCatalog/Model/Override/Catalog/Product/Attribute/Backend/Media.php:93-100 | The product data becomes the stashed data |
| MediaBackend.RebuiltKept | src/app/code/community/Smile/MongoCatalog/Model/Override/Catalog/Product/Attribute/Backend/Media.php:127-134 | An image is kept iff the last edit of its file (identified by md5) does not remove it |
| MediaBackend.RebuiltLastEdit | src/app/code/community/Smile/MongoCatalog/Model/Override/Catalog/Product/Attribute/Backend/Media.php:138-154 | A kept image is saved with the values and position of the last edit of its file |
| MediaBackend.RebuiltKeepsOtherViews | src/app/code/community/Smile/MongoCatalog/Model/Override/Catalog/Product/Attribute/Backend/Media.php:138-154 | A kept image keeps the sub-records of the other store views it was loaded with |
| MediaBackend.OrderedRecords | src/app/code/community/Smile/MongoCatalog/Model/Override/Catalog/Product/Attribute/Backend/Media.php:156-169 | Every entry of a reordering of the positions has its record, with that key and position |
| MediaBackend.SavedGalleryOfOrdered | src/app/code/community/Smile/MongoCatalog/Model/Override/Catalog/Product/Attribute/Backend/Media.php:156-169 | The saved gallery holds exactly the kept records, ordered by ascending position |
| MediaBackend.Backend.AfterSave | src/app/code/community/Smile/MongoCatalog/Model/Override/Catalog/Product/Attribute/Backend/Media.php:110-170 | The gallery written is the rebuilt one's kept records in ascending position order; without an image list nothing is kept and an empty gallery is written |
| MediaBackend.AsWrittenDropsOtherViews | src/app/code/community/Smile/MongoCatalog/Model/Override/Catalog/Product/Attribute/Backend/Media.php:145-154 | As written, editing in store 2 drops the image's store 1 sub-record |
| MediaBackend.RebuiltKeepsExampleViews | src/app/code/community/Smile/MongoCatalog/Model/Override/Catalog/Product/Attribute/Backend/Media.php:138-154 | The corrected rebuild of the same edit keeps the store 1 and admin sub-records |
| MediaBackend.AsWrittenSavesNullRecord | src/app/code/community/Smile/MongoCatalog/Model/Override/Catalog/Product/Attribute/Backend/Media.php:156-166 | As written, a file listed twice, kept then removed, leaves a null record |
| MediaBackend.RebuiltDropsRemovedFile | src/app/code/community/Smile/MongoCatalog/Model/Override/Catalog/Product/Attribute/Backend/Media.php:127-134 | The corrected rebuild drops that file altogether |
| MediaResource.ByValueIdLast | src/app/code/community/Smile/MongoCatalog/Model/Resource/Override/Catalog/Product/Attribute/Backend/Media.php:77-80 | Loaded records are keyed by `value_id`, and with duplicates the last one wins |
| MediaResource.ByValueId | src/app/code/community/Smile/MongoCatalog/Model/Resource/Override/Catalog/Product/Attribute/Backend/Media.php:77-80 | The loaded map has distinct keys, exactly the `value_id`s of the gallery, and is no longer than it |
| Php.StringKeyOfInt | src/app/code/community/Smile/MongoCatalog/Model/Resource/Override/Catalog/Product/Attribute/Backend/Media.php:77-80 | A `value_id` used as an array key is an integer key exactly when it lies in PHP_INT_MIN..PHP_INT_MAX, and otherwise stays a string key |
| MediaResource.Resource.LoadData | src/app/code/community/Smile/MongoCatalog/Model/Resource/Override/Catalog/Product/Attribute/Backend/Media.php:65-85 | The gallery of the document with the product's int32 id, keyed by `value_id`; empty for a missing document or gallery |
| MediaResource.Resource.SaveGallery | src/app/code/community/Smile/MongoCatalog/Model/Resource/Override/Catalog/Product/Attribute/Backend/Media.php:97-105 | `galleries.<code>` of the product's document is set to the records without their keys, with no upsert |
| ImportProduct.ImportInvariant | src/app/code/community/Smile/MongoCatalog/Model/Import/Entity/Product.php:43-94 | Each attribute is loaded at most once, and the cache holds exactly the loaded codes; every table write is non-empty and holds only SQL-kept rows of the entity type; there is one payload per product |
| ImportProduct.ImportPlacesValues | src/app/code/community/Smile/MongoCatalog/Model/Import/Entity/Product.php:59-76 | Every imported (attribute, store, value) is in its product's payload at `attr_<store>.<code>`, SQL-kept or not, and the payload holds that value there unless another entry assigns a different value to the same product and path; an SQL-kept value is also a row of a write to its table |
| ImportProduct.ImportPayloads | src/app/code/community/Smile/MongoCatalog/Model/Import/Entity/Product.php:46-81 | At every product and path the payload holds exactly the value of the last import entry for that product whose store and attribute code give the path, and holds no field that no entry assigns |
| ImportProduct.AttrFoldProduct | src/app/code/community/Smile/MongoCatalog/Model/Import/Entity/Product.php:63-76 | A product with at least one attribute has a payload |
| ImportProduct.Importer.SaveProductAttributes | src/app/code/community/Smile/MongoCatalog/Model/Import/Entity/Product.php:36-97 | The writes are those of the specification fold: one `insertOnDuplicate` per table with rows, then one upsert `$set` per product payload |
| ImportProduct.Importer.TableLoop | src/app/code/community/Smile/MongoCatalog/Model/Import/Entity/Product.php:59-88 | The table loop computes the fold's payloads, loads and inserts |
| ImportProduct.Importer.SkuLoop | src/app/code/community/Smile/MongoCatalog/Model/Import/Entity/Product.php:46-83 | The product loop of one table computes the specification fold |
| ImportProduct.Importer.AttrLoop | src/app/code/community/Smile/MongoCatalog/Model/Import/Entity/Product.php:49-81 | The attribute loop loads each attribute the cache misses, and computes the specification fold |
| ImportProduct.Importer.StoreLoop | src/app/code/community/Smile/MongoCatalog/Model/Import/Entity/Product.php:63-76 | The store loop computes the specification fold |
| ImportProduct.Importer.WriteDocuments | src/app/code/community/Smile/MongoCatalog/Model/Import/Entity/Product.php:92-94 | One upsert `$set` per payload, in payload order |
| ProductAction.AllRowsAreSql | src/app/code/community/Smile/MongoCatalog/Model/Resource/Override/Catalog/Product/Action.php:53-70 | Every row meant to be written is in the update's store, for one of the entities, and carries an SQL-kept code's value under its non-zero attribute id |
| ProductAction.EntityFoldSizes | src/app/code/community/Smile/MongoCatalog/Model/Resource/Override/Catalog/Product/Action.php:59-70 | Every batch the entity loop flushes holds exactly 1000 rows, and the pending rows are the remainder |
| ProductAction.PlanBatchSizes | src/app/code/community/Smile/MongoCatalog/Model/Resource/Override/Catalog/Product/Action.php:53-72 | Started afresh, no batch ever holds more than 1000 rows |
| ProductAction.PlanRows | src/app/code/community/Smile/MongoCatalog/Model/Resource/Override/Catalog/Product/Action.php:53-72 | A run that did not stop has written exactly the rows of the SQL-kept attributes with an id, in order, with nothing pending |
| ProductAction.PlanStopped | src/app/code/community/Smile/MongoCatalog/Model/Resource/Override/Catalog/Product/Action.php:53-72 | Once stopped, the rest of the data changes nothing |
| ProductAction.PlanCompletes | src/app/code/community/Smile/MongoCatalog/Model/Resource/Override/Catalog/Product/Action.php:53-72 | Without write failures, and with every SQL code known, the relational part runs to the end |
| ProductAction.Action.UpdateAttributes | src/app/code/community/Smile/MongoCatalog/Model/Resource/Override/Catalog/Product/Action.php:41-83 | A failing flush rolls back before any document is written; otherwise the mass update runs, and a throwing `$set` or a failing commit rolls every planned row back while the documents keep the `$set`s written before the failure; otherwise every planned row is committed; an unknown SQL code commits nothing |
| ProductAction.Action.SaveEntities | src/app/code/community/Smile/MongoCatalog/Model/Resource/Override/Catalog/Product/Action.php:59-69 | The entity loop and its final flush follow the specification flush schedule; no row is committed |
| ProductAction.Action.ProcessAttributeValues | src/app/code/community/Smile/MongoCatalog/Model/Resource/Override/Catalog/Product/Action.php:66 | A flush moves the pending rows into a batch, or reports the failure; no row is committed |
| SearchProduct.MapAttributeValues | src/app/code/community/Smile/MongoSearch/Model/Resource/Product.php:77-88 | Every field whose code names an attribute with an id is kept under that id, and other fields are dropped |
| SearchProduct.FindCondition | src/app/code/community/Smile/MongoSearch/Model/Resource/Product.php:44-48 | An empty id list selects every document; otherwise the condition selects exactly the documents of the ids filter |
| SearchProduct.Resource.Flatten | src/app/code/community/Smile/MongoSearch/Model/Resource/Product.php:55-61 | The flattened values are the default scope overridden by the store's scope |
| SearchProduct.IndexedValueIsEffective | src/app/code/community/Smile/MongoSearch/Model/Resource/Product.php:55-60 | The indexer reads each attribute's effective value for the store |
| SearchProduct.IndexedKeys | src/app/code/community/Smile/MongoSearch/Model/Resource/Product.php:63 | A document id is in the result iff a document with that id was found |
| SearchProduct.IndexedEntry | src/app/code/community/Smile/MongoSearch/Model/Resource/Product.php:55-63 | With distinct ids, every document found is indexed with its own flattened values |
| SearchProduct.SearchSelects | src/app/code/community/Smile/MongoSearch/Model/Resource/Product.php:46-50 | The result holds exactly the documents of the listed ids, or every document when no id is listed |
| SearchProduct.Resource.GetProductAttributes | src/app/code/community/Smile/MongoSearch/Model/Resource/Product.php:39-67 | The result is the indexed mapping of the documents found |
| Mongoify.ChunkMeaning | src/shell/smile/mongoify.php:668-690 | A chunk holds only rows above the cursor, and is empty iff no row is left |
| Mongoify.Chunk | src/shell/smile/mongoify.php:668-690 | A chunk is the first rows above the cursor, at most the chunk size of them; a short chunk holds every row left |
| Mongoify.ChunksConcat | src/shell/smile/mongoify.php:439-455 | The cursor visits every row above the start exactly once, in id order |
| Mongoify.MigrationVisitsEachProductOnce | src/shell/smile/mongoify.php:683-685 | The chunks, laid end to end, are the rows above 0; each is ascending with at most the chunk size, and only the last may be shorter |
| Mongoify.ChunkAdvances | src/shell/smile/mongoify.php:453 | A chunk's last id is above the cursor it was fetched from |
| Mongoify.DefaultStoreFirst | src/shell/smile/mongoify.php:459-460 | Stores are visited in ascending id, so store 0 comes first |
| Mongoify.StoreAttributesHolds | src/shell/smile/mongoify.php:617-657 | A product has values for a store iff a fetched row belongs to it, and holds a code iff one of its rows carries that attribute |
| Mongoify.AssembleGet | src/shell/smile/mongoify.php:463-487 | A product's document has one scope per visited store with values: the default scope is the entity row merged with the default values, other scopes hold only their values |
| Mongoify.AssembleOther | src/shell/smile/mongoify.php:463-487 | Products outside the chunk get no document |
| Mongoify.AssembleDocuments | src/shell/smile/mongoify.php:459-487 | The assembly loop computes the specification assembly |
| Mongoify.PrepareKeeps | src/shell/smile/mongoify.php:541-575 | A prepared document keeps every column untouched, coerces every in-set attribute, and drops every attribute outside the set |
| Mongoify.Prepare | src/shell/smile/mongoify.php:541-575 | Preparation fails iff the document is non-empty and its set id is unknown or one of its fields names no attribute or column; otherwise the same stores are kept |
| Mongoify.SaveOneWrites | src/shell/smile/mongoify.php:505-532 | A written document holds exactly the prepared scopes under their stores, and keeps its other scopes; no other document changes |
| Mongoify.SaveDocsCounts | src/shell/smile/mongoify.php:505-532 | Saving fails iff a document cannot be prepared; otherwise every document is counted once, as updated or as ignored, and the tables are untouched |
| Mongoify.MigrateChunksKeepsTables | src/shell/smile/mongoify.php:424-496 | The attribute migration leaves every relational table as it was |
| Mongoify.MigrateChunksStopped | src/shell/smile/mongoify.php:407-415 | Once the job has stopped on an error, no further chunk is migrated |
| Mongoify.GalleryStoresLast | src/shell/smile/mongoify.php:924-932 | Each store's sub-record comes from the last value row of that store |
| Mongoify.StoreRecord | src/shell/smile/mongoify.php:925-931 | A store sub-record holds exactly the label, the position cast to an integer, and the disabled flag |
| Mongoify.GalleryImage | src/shell/smile/mongoify.php:934-939 | The record holds exactly the md5 of the value id and the file name, plus a sub-record for exactly the stores with value rows |
| Mongoify.GalleryStepKeeps | src/shell/smile/mongoify.php:901-966 | `$addToSet` never removes a record, and a written row's record ends up in its product's gallery |
| Mongoify.MigrateGalleriesKeeps | src/shell/smile/mongoify.php:834-899 | The gallery migration keeps every existing record, leaves tables and counters alone, and fails iff some row's attribute id is unknown |
| Mongoify.MigrateGalleriesWritten | src/shell/smile/mongoify.php:834-899 | When the gallery migration completes, every written row's record is in its product's gallery |
| Mongoify.ExpectedSqlAttributes | src/shell/smile/mongoify.php:1064-1067 | The count the pre-flight expects equals the number of special codes, whatever the columns |
| Mongoify.CleanTablesMeaning | src/shell/smile/mongoify.php:1050-1087 | Cleaning deletes a value row iff no SQL-kept attribute has its id, touches no document, and deletes nothing when fewer ids than expected are found |
| Mongoify.CleanGalleries | src/shell/smile/mongoify.php:1094-1104 | Both gallery tables are emptied, and nothing else changes |
| Mongoify.RunKeepsTablesWithoutClean | src/shell/smile/mongoify.php:243-261 | Without `--clean-tables` no relational row is deleted |
| Mongoify.FailedMigrationSkipsClean | src/shell/smile/mongoify.php:243-261 | A migration that stops on an error ends the run, so no table is cleaned after it |
| Mongoify.Migration.Run | src/shell/smile/mongoify.php:243-261 | The run prints the usage text, or performs the requested steps in the order dump, process, clean |
| Mongoify.Migration.RunMigration | src/shell/smile/mongoify.php:273-282 | Attribute values are migrated first, then galleries |
| Mongoify.Migration.MigrateAttributesValues | src/shell/smile/mongoify.php:424-496 | The method computes the specification cursor walk, stopping at the first error |
| Mongoify.Migration.FetchProducts | src/shell/smile/mongoify.php:446-455 | The method returns the chunk above the cursor, its ids, and the last id as the new cursor (unchanged when the chunk is empty) |
| Mongoify.Migration.SaveProductDocument | src/shell/smile/mongoify.php:507-524 | One save turn: an error leaves the state unchanged, otherwise the state becomes the specification turn's |
| Mongoify.Migration.GalleryCallback | src/shell/smile/mongoify.php:901-966 | One gallery row: an error leaves the state unchanged, otherwise the state becomes the specification step's |
| Mongoify.Migration.CleanGalleriesTables | src/shell/smile/mongoify.php:1094-1104 | Both gallery tables are emptied |
| Mongoify.Migration.CleanAttributesTables | src/shell/smile/mongoify.php:1050-1087 | The method leaves the tables equal to the specification clean-up, or stops when the pre-flight fails |
| Mongoify.Migration.SaveProductDocuments | src/shell/smile/mongoify.php:505-532 | The save loop computes the specification save, with its counters |
| Mongoify.Migration.MigrateGalleriesValues | src/shell/smile/mongoify.php:834-899 | Every gallery row is handed to the callback in order |

## Left out

- I/O and environment: MySQL and MongoDB connections, the adapter, the installer, cache cleaning, reindexing, statistics printing, `mysqldump` (`--dump-tables`) and logging. The dump step is a recorded no-op in `Mongoify.Migration.Run`.
- Floating-point and locale number parsing, `md5` and the `like` regular expression engine are parameters (oracles) of the model.
- Write failures of MongoDB or MySQL are parameters (`fails`, `commitFails`, `docFails`, `galleryWritten`); the exceptions the code catches or that end a modelled call (a failing flush, `$set` or commit in `updateAttributes`, a failing upsert in the migration's save) are modelled as error results.
- Mongoify.Migration.GalleryCallback: a gallery `$addToSet` upsert that throws is not modelled; `galleryCallback` does not catch it, so it would end the run (src/shell/smile/mongoify.php:954). The parameter `galleryWritten` only models the update's boolean result.
- ProductResource.Resource.LoadModelAttributes: document field order is not modelled, because a document's scopes form a map. The method therefore assumes that `attr_0` comes before the store's scope in the stored document, as documents written by the migration and by the first save of a new product have it. The source merges in document order.
- `_buildDocumentFilter` paths for multi-key conditions and for `or`/`and` combinators are one error result, `Malformed`.
- `getAssignedImages`, `updateProductField`, `updateProductFieldFromFilter`, `addMainCategory`, `addAttributeToSelect` and `_afterLoad` of the collection are not part of this model.
- The context files Adapter.php, installer.php, Url.php, Observer.php and the configurable-product, fulltext and refresh overrides are not part of this model.
- Parent-class behaviour (Magento's own `_processSaveData`, `_saveAttributeValue`, `beforeSave` of the media backend, relational loading) is left out. Only the relational writes this extension decides are modelled.
- MediaBackend.Backend.AfterLoad: returns the image list instead of calling `setData`, because product data holds scalar values only.
- MediaBackend.Backend.AfterSave: takes the `<code>_tmp` image list as a parameter; `_getDefaultValue` is an oracle. It implements the corrected rebuild; the as-written loop is `MediaBackend.RebuiltAsWritten`.
- ProductAction.Action.UpdateAttributes: a value row is `(entity, attribute id, store, value)`; the parent's per-scope row expansion is not modelled, and `in_array`'s loose comparison is equality.
- ImportProduct.Importer.SaveProductAttributes: attribute models are looked up in the product catalog; `Mage::log` is left out.
- SearchProduct.Resource.GetProductAttributes: the documents are assumed to hold only scope fields and `_id` besides attribute codes; result order is not stated; the `attributeTypes` argument is unused by the source and omitted.
- Mongoify.Chunk: the optional `IN` restriction of `_getProducts` is not modelled, because the job never passes a non-empty id list on the first call.
- Mongoify.GalleryStep: the field order inside `$addToSet` records is not modelled.
- ProductResource.Resource.UpdateRawDocument: only the `$set` operator and a falsy operator with whole scopes are modelled (its requires); other MongoDB operators, and a falsy operator with dotted field paths, which the server refuses in a replacement document, are excluded. Every caller in the model passes `$set`.
- LayerFilter.GetCount: implements the corrected parse of the facet result (a group is credited to its first `_id` value, the effective one, and the totals of groups with the same option are summed); the parse as written is `LayerFilter.ParseAsWritten`, and the two Findings rows on Attribute.php record the difference.
- LayerFilter.SumByOption: computes the corrected, summed parse `LayerFilter.ParseSummed`, not the parse as written (`LayerFilter.ParseAsWritten`), as the Findings rows on Attribute.php record.
- LayerFilter.GetCount: the result is sorted with `Php.KeyLess`, which puts every integer key before every string key. PHP's `ksort` compares an integer key with a string key such as `"12,13"` numerically in PHP 7 and as strings in PHP 8, so it can order them differently; PHP's mixed comparison is not transitive (`10 < "10a"`, `"10a" < "9.5"`, `"9.5" < 10` in PHP 8), so the order of such keys depends on the sort algorithm and is not modelled.
- MediaBackend.Backend.AfterLoad: the position keys are ordered with `Php.KeyLess` (integers before strings), which differs from `ksort` for a non-integer position key such as `""` that PHP sorts before `1`.
- Php.IntCast: `(int)` of a string reads an optional sign and leading decimal digits only; PHP also skips leading whitespace (`" 12"` is 12), reads an exponent (`"1e3"` is 1000 from PHP 7.1) and saturates at PHP_INT_MAX. The cast feeds `MediaBackend.Position`, `Mongoify.StoreRecord` and `Mongoify.MongoId`.
- Mongoify.StoreAttributes: an `EavRow` does not record the value table it comes from, so a row of any table counts for any attribute with a value table; `_getProductAttributes` (src/shell/smile/mongoify.php:623-643) reads each attribute only from the table of its backend type.
- Documents.Document: a scope is always a map of attribute codes, so a scalar stored directly under `attr_<store>` cannot be represented; the branches that wrap such a scalar (Product.php:394-396 and Collection.php:163-165 of the catalog resource overrides) are not modelled.
- Php.KeyOf: an object used as an array key becomes the string key of its text; PHP raises "Illegal offset type" and stores nothing. A key that fails this way is not represented; it would reach `MediaResource.ByValueId`, the `LayerFilter` option keys and the `MediaBackend` position keys only if a document stored an object there.

## Findings

| source | as written | input that shows it | evidently intended | confidence | as-written member | corrected member |
|---|---|---|---|---|---|---|
| src/app/code/community/Smile/MongoCatalog/Model/Resource/Override/Catalog/Layer/Filter/Attribute.php:122-124 | a facet group is credited to the last value of its `_id` map, which is the default-scope value | one document with store 1 value `red` and default value `blue`, counted from store 1 | credit the effective (store) value, the first of the key | not executed | LayerFilter.LastOptionPrefersDefault | LayerFilter.FacetCountIsEffective |
| src/app/code/community/Smile/MongoCatalog/Model/Resource/Override/Catalog/Layer/Filter/Attribute.php:126 | the total of a later group with the same option overwrites the earlier total | two documents, one with store value `red`, one with only default value `red`, form two groups | sum the totals of groups with the same option | not executed | LayerFilter.OverwrittenTotals | LayerFilter.ParseSummedTotal |
| src/app/code/community/Smile/MongoCatalog/Model/Override/Catalog/Product/Attribute/Backend/Media.php:145-154 | `afterSave` replaces the loaded image record, so the sub-records of other store views are lost | an image with `attr_0` and `attr_1` sub-records, edited from store 2 | merge the edited sub-record into the loaded record | not executed | MediaBackend.AsWrittenDropsOtherViews | MediaBackend.RebuiltKeepsOtherViews |
| src/app/code/community/Smile/MongoCatalog/Model/Override/Catalog/Product/Attribute/Backend/Media.php:156-166 | a file listed twice, first kept then removed, keeps its position entry while its record is unset, so a null record is saved | the edit list `[a.jpg kept, a.jpg removed]` | remove the file's position entry with its record | not executed | MediaBackend.AsWrittenSavesNullRecord | MediaBackend.RebuiltDropsRemovedFile |
