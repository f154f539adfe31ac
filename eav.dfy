/**
 * Product attributes as the catalog sees them: id, code, backend type,
 * scope and the attribute sets that contain them, and the value coercion
 * applied before a value is written into a document.
 */
module Eav {
  import opened Wrappers
  import opened Php

  datatype AttrScope = Global | Website | StoreView

  datatype Attribute = Attribute(id: int, code: string, backendType: string, scope: AttrScope, sets: set<int>)

  /** The attributes known to the catalog, in load order. */
  type Catalog = seq<Attribute>

  /** Attribute ids and codes are unique in a catalog. */
  predicate ValidCatalog(c: Catalog)
  {
    forall i, j :: 0 <= i < j < |c| ==> c[i].id != c[j].id && c[i].code != c[j].code
  }

  /** The last attribute of the catalog with this code; `null` when there is none. */
  function ByCode(c: Catalog, code: string): (r: Option<Attribute>)
    ensures r.Some? ==> r.value in c && r.value.code == code
    ensures r.None? <==> forall i :: 0 <= i < |c| ==> c[i].code != code
  {
    if c == [] then None
    else if c[|c| - 1].code == code then Some(c[|c| - 1])
    else ByCode(c[..|c| - 1], code)
  }

  /** The code of the last attribute with this id; `None` where the source throws. */
  function CodeById(c: Catalog, id: int): (r: Option<string>)
    ensures r.Some? ==> exists i :: 0 <= i < |c| && c[i].id == id && c[i].code == r.value
    ensures r.None? <==> forall i :: 0 <= i < |c| ==> c[i].id != id
  {
    if c == [] then None
    else if c[|c| - 1].id == id then Some(c[|c| - 1].code)
    else
      var r := CodeById(c[..|c| - 1], id);
      assert r.Some? ==> exists i :: 0 <= i < |c| && c[i].id == id && c[i].code == r.value by {
        if r.Some? {
          var i :| 0 <= i < |c| - 1 && c[..|c| - 1][i].id == id && c[..|c| - 1][i].code == r.value;
          assert c[i].id == id && c[i].code == r.value;
        }
      }
      r
  }

  /** In a valid catalog the lookup by code finds the one attribute holding the code. */
  lemma ByCodeUnique(c: Catalog, a: Attribute)
    requires ValidCatalog(c) && a in c
    ensures ByCode(c, a.code) == Some(a)
  {
    var r := ByCode(c, a.code);
    var i :| 0 <= i < |c| && c[i] == a;
    var j :| 0 <= j < |c| && c[j] == r.value;
    assert i == j;
  }

  /** In a valid catalog the lookup by id yields the code of the attribute holding the id. */
  lemma CodeByIdUnique(c: Catalog, a: Attribute)
    requires ValidCatalog(c) && a in c
    ensures CodeById(c, a.id) == Some(a.code)
  {
    var r := CodeById(c, a.id);
    var i :| 0 <= i < |c| && c[i] == a;
    var j :| 0 <= j < |c| && c[j].id == a.id && c[j].code == r.value;
    assert i == j;
  }

  /** `strtolower` on ASCII letters. */
  function Lower(s: string): (r: string)
    ensures |r| == |s|
    ensures forall i :: 0 <= i < |s| ==> r[i] == if 'A' <= s[i] <= 'Z' then (s[i] as int + 32) as char else s[i]
  {
    if s == [] then [] else [if 'A' <= s[0] <= 'Z' then (s[0] as int + 32) as char else s[0]] + Lower(s[1..])
  }

  /** Backend types whose values go through the locale number parser. */
  predicate DecimalLike(backendType: string)
  {
    var t := Lower(backendType);
    t == "decimal" || t == "numeric" || t == "float"
  }

  predicate IntBackend(backendType: string)
  {
    Lower(backendType) == "int"
  }

  /** The locale number parser (`getLocale()->getNumber`); its floating-point result is not modelled. */
  type NumberParser = Value -> Value

  /** `(string) $object` for objects; other values are kept. */
  function Stringify(v: Value): (r: Value)
    ensures v.Obj? ==> r == Str(v.text)
    ensures !v.Obj? ==> r == v
  {
    if v.Obj? then Str(v.text) else v
  }

  /**
   * The value written into a document for an attribute: objects are
   * stringified; a value that is not loosely equal to `''` is passed
   * through the locale parser for decimal-like backends and cast to an
   * integer for the `int` backend; an empty value is kept as it is.
   */
  function Coerce(a: Attribute, v: Value, parse: NumberParser): (r: Value)
    ensures LooselyEmpty(Stringify(v)) ==> r == Stringify(v)
    ensures !LooselyEmpty(Stringify(v)) && IntBackend(a.backendType) ==> r == Int(IntCast(Stringify(v)))
    ensures !LooselyEmpty(Stringify(v)) && DecimalLike(a.backendType) ==> r == parse(Stringify(v))
    ensures !DecimalLike(a.backendType) && !IntBackend(a.backendType) ==> r == Stringify(v)
    ensures r.Obj? ==> !LooselyEmpty(Stringify(v)) && DecimalLike(a.backendType)
  {
    var s := Stringify(v);
    if LooselyEmpty(s) then s
    else
      var p := if DecimalLike(a.backendType) then parse(s) else s;
      if IntBackend(a.backendType) then Int(IntCast(p)) else p
  }

  /** The migration's coercion, which also accepts a missing attribute and then only stringifies. */
  function CoerceKnown(a: Option<Attribute>, v: Value, parse: NumberParser): (r: Value)
    ensures a.None? ==> r == Stringify(v)
    ensures a.Some? ==> r == Coerce(a.value, v, parse)
  {
    match a
    case None => Stringify(v)
    case Some(x) => Coerce(x, v, parse)
  }

  /** Coercion is idempotent on integer attributes: an integer survives a second pass unchanged. */
  lemma CoerceIntIdempotent(a: Attribute, v: Value, parse: NumberParser)
    requires IntBackend(a.backendType)
    ensures Coerce(a, Coerce(a, v, parse), parse) == Coerce(a, v, parse)
  {
    assert !DecimalLike(a.backendType);
  }
}
