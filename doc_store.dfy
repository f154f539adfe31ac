/**
 * The product document collection: (id, document) entries in insertion
 * order, one entry per id, and the update, remove and find calls the
 * catalog issues against it. Each call is specified by a pure function on
 * the entry list; the `DocumentCollection` class holds the list and
 * applies them. A cursor without a sort yields documents in this
 * insertion order.
 */
module DocStore {
  import opened Wrappers
  import opened Php
  import opened PhpArray
  import opened Documents
  import opened DocFilter
  import QueryBuilder

  type Docs = seq<(int, Document)>

  /** What an upsert starts from: the stored document, or an empty one. */
  function DocOrEmpty(docs: Docs, id: int): (d: Document)
    ensures Get(docs, id).Some? ==> d == Get(docs, id).value
    ensures Get(docs, id).None? ==> d == EmptyDocument
  {
    Get(docs, id).GetOr(EmptyDocument)
  }

  /** `update(filter, {$set: payload}, {multiple: true})`: every selected document gets the fields. */
  function SetWhere(docs: Docs, f: QueryBuilder.IdFilter, payload: map<string, Value>): (r: Docs)
    ensures Keys(r) == Keys(docs)
    ensures forall i :: 0 <= i < |docs| ==>
      r[i].1 == if QueryBuilder.Matches(f, docs[i].0) then SetFields(docs[i].1, payload) else docs[i].1
  {
    if docs == [] then []
    else
      var (id, d) := docs[0];
      [(id, if QueryBuilder.Matches(f, id) then SetFields(d, payload) else d)] + SetWhere(docs[1..], f, payload)
  }

  /**
   * A multi-document `$set` creates no document, writes each selected
   * document as a single `$set` would, and leaves the others alone.
   */
  lemma SetWhereGet(docs: Docs, f: QueryBuilder.IdFilter, payload: map<string, Value>, id: int)
    ensures Get(SetWhere(docs, f, payload), id) ==
      match Get(docs, id)
      case None => None
      case Some(d) => Some(if QueryBuilder.Matches(f, id) then SetFields(d, payload) else d)
  {
    SameKeysIndex(docs, SetWhere(docs, f, payload), id);
  }

  /** `update({_id: id}, {$set: payload}, {upsert: true})`: a missing document is created first. */
  function UpsertFields(docs: Docs, id: int, payload: map<string, Value>): Docs
  {
    Put(docs, id, SetFields(DocOrEmpty(docs, id), payload))
  }

  /**
   * After an upsert `$set` the document exists; each field the payload
   * names holds the payload's value and every other field of it is what it
   * was (nothing, for a new document). No other document changes.
   */
  lemma UpsertFieldsGet(docs: Docs, id: int, payload: map<string, Value>, other: int, store: nat, code: string)
    ensures Get(UpsertFields(docs, id, payload), id).Some?
    ensures ScopeValue(Get(UpsertFields(docs, id, payload), id).value, store, code) ==
      if ScopeCodec.FieldPath(store, code) in payload then Some(payload[ScopeCodec.FieldPath(store, code)])
      else ScopeValue(DocOrEmpty(docs, id), store, code)
    ensures other != id ==> Get(UpsertFields(docs, id, payload), other) == Get(docs, other)
  {
    PutGet(docs, id, SetFields(DocOrEmpty(docs, id), payload), id);
    PutGet(docs, id, SetFields(DocOrEmpty(docs, id), payload), other);
    SetFieldsValue(DocOrEmpty(docs, id), payload, store, code);
  }

  /** `update({_id: id}, {$set: scopes}, {upsert: true})` with whole `attr_<store>` fields. */
  function UpsertScopes(docs: Docs, id: int, scopes: map<string, Scope>): Docs
  {
    Put(docs, id, SetScopes(DocOrEmpty(docs, id), scopes))
  }

  /** After a whole-scope upsert each named scope holds exactly the written map; other scopes are kept. */
  lemma UpsertScopesGet(docs: Docs, id: int, scopes: map<string, Scope>, other: int, store: nat)
    ensures Get(UpsertScopes(docs, id, scopes), id).Some?
    ensures ScopeOf(Get(UpsertScopes(docs, id, scopes), id).value, store) ==
      if ScopeCodec.StoreKey(store) in scopes then scopes[ScopeCodec.StoreKey(store)]
      else ScopeOf(DocOrEmpty(docs, id), store)
    ensures other != id ==> Get(UpsertScopes(docs, id, scopes), other) == Get(docs, other)
  {
    PutGet(docs, id, SetScopes(DocOrEmpty(docs, id), scopes), id);
    PutGet(docs, id, SetScopes(DocOrEmpty(docs, id), scopes), other);
    SetScopesScope(DocOrEmpty(docs, id), scopes, store);
  }

  /**
   * `update({_id: id}, document, {upsert: true})` without an operator: the
   * stored document is replaced by one holding exactly the given scopes
   * (created so when missing); its galleries and other scopes are gone.
   */
  function UpsertReplace(docs: Docs, id: int, scopes: map<string, Scope>): Docs
  {
    Put(docs, id, SetScopes(EmptyDocument, scopes))
  }

  /** After a replacement the document holds the written scopes and nothing else; no other document changes. */
  lemma UpsertReplaceGet(docs: Docs, id: int, scopes: map<string, Scope>, other: int, store: nat)
    ensures Get(UpsertReplace(docs, id, scopes), id).Some?
    ensures ScopeOf(Get(UpsertReplace(docs, id, scopes), id).value, store) ==
      if ScopeCodec.StoreKey(store) in scopes then scopes[ScopeCodec.StoreKey(store)] else map[]
    ensures Get(UpsertReplace(docs, id, scopes), id).value.galleries == map[]
    ensures other != id ==> Get(UpsertReplace(docs, id, scopes), other) == Get(docs, other)
  {
    PutGet(docs, id, SetScopes(EmptyDocument, scopes), id);
    PutGet(docs, id, SetScopes(EmptyDocument, scopes), other);
    SetScopesScope(EmptyDocument, scopes, store);
  }

  /** `update({_id: id}, {$addToSet: {galleries.<code>: image}}, {upsert: true})`. */
  function UpsertImage(docs: Docs, id: int, code: string, image: Image): Docs
  {
    Put(docs, id, AddToGallery(DocOrEmpty(docs, id), code, image))
  }

  /** After an `$addToSet` upsert the record is in the gallery, which otherwise holds what it held. */
  lemma UpsertImageGet(docs: Docs, id: int, code: string, image: Image, other: int)
    ensures Get(UpsertImage(docs, id, code, image), id).Some?
    ensures forall x :: x in Gallery(Get(UpsertImage(docs, id, code, image), id).value, code) <==>
      x in Gallery(DocOrEmpty(docs, id), code) || x == image
    ensures other != id ==> Get(UpsertImage(docs, id, code, image), other) == Get(docs, other)
  {
    PutGet(docs, id, AddToGallery(DocOrEmpty(docs, id), code, image), id);
    PutGet(docs, id, AddToGallery(DocOrEmpty(docs, id), code, image), other);
  }

  /** `update({_id: id}, {$set: {galleries.<code>: images}})` without upsert: a missing document stays missing. */
  function SetGalleryOf(docs: Docs, id: int, code: string, images: seq<Image>): (r: Docs)
    ensures Keys(r) == Keys(docs)
  {
    if HasKey(docs, id) then
      var r := docs[IndexOfKey(docs, id) := (id, SetGallery(docs[IndexOfKey(docs, id)].1, code, images))];
      assert Keys(r) == Keys(docs);
      r
    else docs
  }

  lemma SetGalleryOfGet(docs: Docs, id: int, code: string, images: seq<Image>, other: int)
    ensures Get(SetGalleryOf(docs, id, code, images), id) ==
      match Get(docs, id)
      case None => None
      case Some(d) => Some(SetGallery(d, code, images))
    ensures other != id ==> Get(SetGalleryOf(docs, id, code, images), other) == Get(docs, other)
  {
    SameKeysIndex(docs, SetGalleryOf(docs, id, code, images), id);
    SameKeysIndex(docs, SetGalleryOf(docs, id, code, images), other);
  }

  /** The entries a filter keeps, in collection order. */
  function Where(docs: Docs, keep: int -> bool): (r: Docs)
    ensures forall i :: 0 <= i < |r| ==> r[i] in docs && keep(r[i].0)
    ensures forall i :: 0 <= i < |docs| && keep(docs[i].0) ==> docs[i] in r
    ensures |r| <= |docs|
  {
    if docs == [] then []
    else if keep(docs[0].0) then [docs[0]] + Where(docs[1..], keep)
    else Where(docs[1..], keep)
  }

  lemma {:induction false} WhereDistinct(docs: Docs, keep: int -> bool)
    requires DistinctKeys(docs)
    ensures DistinctKeys(Where(docs, keep))
  {
    if docs != [] {
      WhereDistinct(docs[1..], keep);
      var rest := Where(docs[1..], keep);
      forall i | 0 <= i < |rest| ensures rest[i].0 != docs[0].0 {
        assert rest[i] in docs[1..];
      }
    }
  }

  /** `remove(filter, {justOne: false})`. */
  function RemoveWhere(docs: Docs, f: QueryBuilder.IdFilter): Docs
  {
    Where(docs, id => !QueryBuilder.Matches(f, id))
  }

  /** A removal deletes exactly the selected documents and keeps the others as they were. */
  lemma RemoveWhereGet(docs: Docs, f: QueryBuilder.IdFilter, id: int)
    requires DistinctKeys(docs)
    ensures DistinctKeys(RemoveWhere(docs, f))
    ensures Get(RemoveWhere(docs, f), id) == if QueryBuilder.Matches(f, id) then None else Get(docs, id)
  {
    var r := RemoveWhere(docs, f);
    WhereDistinct(docs, id => !QueryBuilder.Matches(f, id));
    if Get(r, id).Some? {
      GetDistinct(r, id, Get(r, id).value);
      GetDistinct(docs, id, Get(r, id).value);
    } else if !QueryBuilder.Matches(f, id) && Get(docs, id).Some? {
      GetDistinct(docs, id, Get(docs, id).value);
      GetDistinct(r, id, Get(docs, id).value);
    }
  }

  /** The entries whose document passes a document filter, in collection order. */
  function Matching(docs: Docs, f: Filter, matcher: Matcher): (r: Docs)
    ensures forall i :: 0 <= i < |r| ==> r[i] in docs && Eval(f, r[i].0, r[i].1, matcher)
    ensures forall i :: 0 <= i < |docs| && Eval(f, docs[i].0, docs[i].1, matcher) ==> docs[i] in r
  {
    if docs == [] then []
    else if Eval(f, docs[0].0, docs[0].1, matcher) then [docs[0]] + Matching(docs[1..], f, matcher)
    else Matching(docs[1..], f, matcher)
  }

  /** The first `limit` elements; a limit of 0 means no limit. */
  function Limit<T>(s: seq<T>, limit: nat): (r: seq<T>)
    ensures r <= s
    ensures |r| == if limit == 0 || |s| <= limit then |s| else limit
  {
    if limit == 0 || |s| <= limit then s else s[..limit]
  }

  /** The documents a `find(filter)->limit(limit)` cursor yields. */
  function FindDocs(docs: Docs, f: Filter, matcher: Matcher, limit: nat): (r: Docs)
    ensures forall i :: 0 <= i < |r| ==> r[i] in docs && Eval(f, r[i].0, r[i].1, matcher)
    ensures limit == 0 ==> forall i :: 0 <= i < |docs| && Eval(f, docs[i].0, docs[i].1, matcher) ==> docs[i] in r
    ensures limit > 0 ==> |r| <= limit
  {
    var all := Matching(docs, f, matcher);
    var r := Limit(all, limit);
    forall i | 0 <= i < |r| ensures r[i] in docs && Eval(f, r[i].0, r[i].1, matcher) {
      assert r[i] == all[i];
    }
    r
  }

  /** A limited cursor yields the first documents of the unlimited one, as many as the limit allows. */
  lemma FindDocsPrefix(docs: Docs, f: Filter, matcher: Matcher, limit: nat)
    ensures FindDocs(docs, f, matcher, limit) <= FindDocs(docs, f, matcher, 0)
    ensures limit > 0 && |FindDocs(docs, f, matcher, 0)| >= limit ==> |FindDocs(docs, f, matcher, limit)| == limit
  {
  }

  /** An unlimited cursor yields a document id exactly when a stored document with that id passes the filter. */
  lemma FindAllKeys(docs: Docs, f: Filter, matcher: Matcher, id: int)
    ensures HasKey(FindDocs(docs, f, matcher, 0), id) <==>
      exists m :: 0 <= m < |docs| && docs[m].0 == id && Eval(f, id, docs[m].1, matcher)
  {
    var found := FindDocs(docs, f, matcher, 0);
    if HasKey(found, id) {
      var j :| 0 <= j < |found| && found[j].0 == id;
      assert found[j] in docs;
      var m :| 0 <= m < |docs| && docs[m] == found[j];
    }
    if exists m :: 0 <= m < |docs| && docs[m].0 == id && Eval(f, id, docs[m].1, matcher) {
      var m :| 0 <= m < |docs| && docs[m].0 == id && Eval(f, id, docs[m].1, matcher);
      assert docs[m] in found;
      var j :| 0 <= j < |found| && found[j] == docs[m];
    }
  }

  /** The document collection the catalog writes to and reads from. */
  class DocumentCollection {
    var docs: Docs

    /** One entry per `_id`, the store's unique index. */
    ghost predicate Valid()
      reads this
    {
      DistinctKeys(docs)
    }

    constructor (initial: Docs)
      requires DistinctKeys(initial)
      ensures Valid() && docs == initial
    {
      docs := initial;
    }

    method SetMany(f: QueryBuilder.IdFilter, payload: map<string, Value>)
      requires Valid()
      modifies this
      ensures Valid() && docs == SetWhere(old(docs), f, payload)
    {
      docs := SetWhere(docs, f, payload);
    }

    method UpsertSet(id: int, payload: map<string, Value>)
      requires Valid()
      modifies this
      ensures Valid() && docs == UpsertFields(old(docs), id, payload)
    {
      PutDistinct(docs, id, SetFields(DocOrEmpty(docs, id), payload));
      docs := UpsertFields(docs, id, payload);
    }

    method UpsertSetScopes(id: int, scopes: map<string, Scope>)
      requires Valid()
      modifies this
      ensures Valid() && docs == UpsertScopes(old(docs), id, scopes)
    {
      PutDistinct(docs, id, SetScopes(DocOrEmpty(docs, id), scopes));
      docs := UpsertScopes(docs, id, scopes);
    }

    method UpsertReplaceScopes(id: int, scopes: map<string, Scope>)
      requires Valid()
      modifies this
      ensures Valid() && docs == UpsertReplace(old(docs), id, scopes)
    {
      PutDistinct(docs, id, SetScopes(EmptyDocument, scopes));
      docs := UpsertReplace(docs, id, scopes);
    }

    method UpsertAddToGallery(id: int, code: string, image: Image)
      requires Valid()
      modifies this
      ensures Valid() && docs == UpsertImage(old(docs), id, code, image)
    {
      PutDistinct(docs, id, AddToGallery(DocOrEmpty(docs, id), code, image));
      docs := UpsertImage(docs, id, code, image);
    }

    method SetGalleryList(id: int, code: string, images: seq<Image>)
      requires Valid()
      modifies this
      ensures Valid() && docs == SetGalleryOf(old(docs), id, code, images)
    {
      docs := SetGalleryOf(docs, id, code, images);
    }

    method Remove(f: QueryBuilder.IdFilter)
      requires Valid()
      modifies this
      ensures Valid() && docs == RemoveWhere(old(docs), f)
    {
      WhereDistinct(docs, id => !QueryBuilder.Matches(f, id));
      docs := RemoveWhere(docs, f);
    }

    /** `findOne({_id: id})`: the stored document with that id, if there is one. */
    method FindOne(id: int) returns (d: Option<Document>)
      requires Valid()
      ensures d.Some? ==> (id, d.value) in docs
      ensures d.None? ==> forall i :: 0 <= i < |docs| ==> docs[i].0 != id
      ensures d == Get(docs, id)
    {
      d := Get(docs, id);
      if d.Some? {
        GetDistinct(docs, id, d.value);
      }
    }

    /** `find(filter)->limit(limit)`, iterated to the end. */
    method Find(f: Filter, matcher: Matcher, limit: nat) returns (found: Docs)
      ensures found == FindDocs(docs, f, matcher, limit)
    {
      found := FindDocs(docs, f, matcher, limit);
    }
  }
}
