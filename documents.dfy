/**
 * The scoped product document. One document per product id; under
 * `attr_<store>` it holds the attribute values of that store view, under
 * `galleries.<code>` the image records of a gallery attribute. Store 0 is
 * the default scope a store view falls back to.
 *
 * The write operators the components use are modelled here as pure
 * functions: `$set` on dotted field paths, `$set` of whole scopes,
 * `$set` of a gallery list and `$addToSet` of one image record.
 */
module Documents {
  import opened Wrappers
  import opened Php
  import opened ScopeCodec

  /** attribute code -> value, the content of one `attr_<store>` field. */
  type Scope = map<string, Value>

  /**
   * An image record of a gallery: its plain fields (`file`, `value_id`, ...)
   * and its per-store sub-records `attr_<store>` (`label`, `position`, `disabled`).
   */
  datatype Image = Image(fields: map<string, Value>, stores: map<nat, Scope>)

  datatype Document = Document(scopes: map<nat, Scope>, galleries: map<string, seq<Image>>)

  /** What an upsert creates before applying its operator: a document holding only its id. */
  const EmptyDocument: Document := Document(map[], map[])

  function ScopeOf(d: Document, store: nat): Scope
  {
    if store in d.scopes then d.scopes[store] else map[]
  }

  /** The value stored at `attr_<store>.<code>`, if the field exists. */
  function ScopeValue(d: Document, store: nat, code: string): Option<Value>
  {
    if store in d.scopes && code in d.scopes[store] then Some(d.scopes[store][code]) else None
  }

  /** The value a reader of store `store` sees: the store's own value if present, else the default scope's. */
  function Effective(d: Document, store: nat, code: string): Option<Value>
  {
    if ScopeValue(d, store, code).Some? then ScopeValue(d, store, code) else ScopeValue(d, DefaultStore, code)
  }

  /** The attribute data a reader of store `store` loads: the default scope, overridden by the store's scope. */
  function LoadedData(d: Document, store: nat): map<string, Value>
  {
    ScopeOf(d, DefaultStore) + (if store != DefaultStore then ScopeOf(d, store) else map[])
  }

  /** The loaded data holds a code exactly when it has an effective value, and holds that value. */
  lemma LoadedDataEffective(d: Document, store: nat, code: string)
    ensures code in LoadedData(d, store) <==> Effective(d, store, code).Some?
    ensures code in LoadedData(d, store) ==> LoadedData(d, store)[code] == Effective(d, store, code).value
  {
  }

  /** The value a dotted field path addresses; paths that are not `attr_<store>.<code>` address nothing. */
  function PathValue(d: Document, path: string): Option<Value>
  {
    match ParseFieldPath(path)
    case None => None
    case Some(sc) => ScopeValue(d, sc.0, sc.1)
  }

  lemma PathValueOfFieldPath(d: Document, store: nat, code: string)
    ensures PathValue(d, FieldPath(store, code)) == ScopeValue(d, store, code)
  {
    FieldPathRoundTrip(store, code);
  }

  /** The stores a `$set` payload of dotted paths writes to. */
  function PayloadStores(payload: map<string, Value>): set<nat>
  {
    set p | p in payload && ParseFieldPath(p).Some? :: ParseFieldPath(p).value.0
  }

  /** The codes a payload writes in one store, with their values. */
  function PayloadScope(payload: map<string, Value>, store: nat): (m: Scope)
    ensures forall c :: c in m <==> FieldPath(store, c) in payload
    ensures forall c :: c in m ==> m[c] == payload[FieldPath(store, c)]
  {
    AllParsedPathsCanonical();
    AllFieldPathsRoundTrip();
    map p | p in payload && ParseFieldPath(p).Some? && ParseFieldPath(p).value.0 == store
      :: ParseFieldPath(p).value.1 := payload[p]
  }

  /** `$set` with a map of `attr_<store>.<code>` paths: every addressed field is created or replaced. */
  function SetFields(d: Document, payload: map<string, Value>): Document
  {
    Document(
      map s | s in d.scopes.Keys + PayloadStores(payload) :: ScopeOf(d, s) + PayloadScope(payload, s),
      d.galleries)
  }

  lemma SetFieldsScope(d: Document, payload: map<string, Value>, store: nat)
    ensures store in SetFields(d, payload).scopes ==> SetFields(d, payload).scopes[store] == ScopeOf(d, store) + PayloadScope(payload, store)
    ensures store in d.scopes ==> store in SetFields(d, payload).scopes
  {
  }

  lemma SetFieldsWritten(d: Document, payload: map<string, Value>, store: nat, code: string)
    requires FieldPath(store, code) in payload
    ensures ScopeValue(SetFields(d, payload), store, code) == Some(payload[FieldPath(store, code)])
  {
    var p := FieldPath(store, code);
    FieldPathRoundTrip(store, code);
    assert ParseFieldPath(p).value.0 == store;
    assert store in PayloadStores(payload);
    SetFieldsScope(d, payload, store);
  }

  lemma SetFieldsUntouched(d: Document, payload: map<string, Value>, store: nat, code: string)
    requires FieldPath(store, code) !in payload
    ensures ScopeValue(SetFields(d, payload), store, code) == ScopeValue(d, store, code)
  {
    assert code !in PayloadScope(payload, store);
    SetFieldsScope(d, payload, store);
  }

  /**
   * `$set` on dotted paths is a map update through the codec: the field a
   * path names takes the payload's value, every other field is unchanged.
   */
  lemma SetFieldsValue(d: Document, payload: map<string, Value>, store: nat, code: string)
    ensures ScopeValue(SetFields(d, payload), store, code) ==
      if FieldPath(store, code) in payload then Some(payload[FieldPath(store, code)]) else ScopeValue(d, store, code)
  {
    if FieldPath(store, code) in payload {
      SetFieldsWritten(d, payload, store, code);
    } else {
      SetFieldsUntouched(d, payload, store, code);
    }
  }

  lemma SetFieldsGalleries(d: Document, payload: map<string, Value>)
    ensures SetFields(d, payload).galleries == d.galleries
  {
  }

  /** `$set` of whole scope fields keyed `attr_<store>`: the named scopes are replaced wholesale. */
  function SetScopes(d: Document, payload: map<string, Scope>): Document
  {
    AllStoreKeysRoundTrip();
    Document(
      d.scopes + map k | k in payload && ParseStoreKey(k).Some? :: ParseStoreKey(k).value := payload[k],
      d.galleries)
  }

  lemma SetScopesScope(d: Document, payload: map<string, Scope>, store: nat)
    ensures ScopeOf(SetScopes(d, payload), store) ==
      if StoreKey(store) in payload then payload[StoreKey(store)] else ScopeOf(d, store)
  {
    StoreKeyRoundTrip(store);
    AllStoreKeysRoundTrip();
  }

  /** `$set` of `galleries.<code>` to a list. */
  function SetGallery(d: Document, code: string, images: seq<Image>): Document
  {
    d.(galleries := d.galleries[code := images])
  }

  function Gallery(d: Document, code: string): seq<Image>
  {
    if code in d.galleries then d.galleries[code] else []
  }

  /** `$addToSet` of one record under `galleries.<code>`: appended unless an equal record is already there. */
  function AddToGallery(d: Document, code: string, image: Image): (r: Document)
    ensures image in Gallery(r, code)
    ensures forall x :: x in Gallery(r, code) <==> x in Gallery(d, code) || x == image
    ensures r.scopes == d.scopes
    ensures forall g :: g != code ==> Gallery(r, g) == Gallery(d, g)
  {
    if image in Gallery(d, code) then d
    else SetGallery(d, code, Gallery(d, code) + [image])
  }

  /** Adding the same record twice is the same as adding it once. */
  lemma AddToGalleryIdempotent(d: Document, code: string, image: Image)
    ensures AddToGallery(AddToGallery(d, code, image), code, image) == AddToGallery(d, code, image)
  {
  }
}
