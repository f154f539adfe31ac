/**
 * Document query filters as the catalog builds them: field tests on
 * `attr_<store>.<code>` paths, `$and`/`$or` nesting and the `_id` filter,
 * with the document store's matching rules. Regular-expression matching
 * is a parameter.
 */
module DocFilter {
  import opened Wrappers
  import opened Php
  import opened ScopeCodec
  import opened Documents
  import QueryBuilder

  /** `matcher(pattern, subject)`: whether a case-insensitive regular expression matches a string. */
  type Matcher = (string, string) -> bool

  /** One operator applied to a field. Comparison operands are strings, as the builders cast them. */
  datatype Test =
    | Exists(present: bool)
    | Eq(v: Value)
    | Ne(v: Value)
    | Gt(s: string)
    | Gte(s: string)
    | Lt(s: string)
    | Lte(s: string)
    | Regex(pattern: string)

  datatype Filter =
    | And(all: seq<Filter>)
    | Or(any: seq<Filter>)
    | Field(path: string, test: Test)
    | Id(ids: QueryBuilder.IdFilter)

  /** Equality on a possibly missing field: `{f: null}` also selects documents without `f`. */
  predicate EqHolds(field: Option<Value>, v: Value)
  {
    if v == Null then field == None || field == Some(Null) else field == Some(v)
  }

  /**
   * Whether a test holds of a field's value. Ordering operators with a
   * string operand only select string values, compared byte-wise; a
   * regular expression only selects strings.
   */
  predicate TestHolds(t: Test, field: Option<Value>, matcher: Matcher)
  {
    match t
    case Exists(p) => field.Some? == p
    case Eq(v) => EqHolds(field, v)
    case Ne(v) => !EqHolds(field, v)
    case Gt(s) => field.Some? && field.value.Str? && StrLess(s, field.value.s)
    case Gte(s) => field.Some? && field.value.Str? && (field.value.s == s || StrLess(s, field.value.s))
    case Lt(s) => field.Some? && field.value.Str? && StrLess(field.value.s, s)
    case Lte(s) => field.Some? && field.value.Str? && (field.value.s == s || StrLess(field.value.s, s))
    case Regex(p) => field.Some? && field.value.Str? && matcher(p, field.value.s)
  }

  predicate Eval(f: Filter, id: int, d: Document, matcher: Matcher)
    decreases f
  {
    match f
    case And(fs) => forall i :: 0 <= i < |fs| ==> Eval(fs[i], id, d, matcher)
    case Or(fs) => exists i :: 0 <= i < |fs| && Eval(fs[i], id, d, matcher)
    case Field(path, t) => TestHolds(t, PathValue(d, path), matcher)
    case Id(ids) => QueryBuilder.Matches(ids, id)
  }

  predicate AllHold(ts: seq<Test>, field: Option<Value>, matcher: Matcher)
  {
    forall i :: 0 <= i < |ts| ==> TestHolds(ts[i], field, matcher)
  }

  function FieldTests(path: string, ts: seq<Test>): (fs: seq<Filter>)
    ensures |fs| == |ts| && forall i :: 0 <= i < |ts| ==> fs[i] == Field(path, ts[i])
  {
    if ts == [] then [] else [Field(path, ts[0])] + FieldTests(path, ts[1..])
  }

  /**
   * The exists-cascade for an attribute seen from a store: either the
   * store's field exists and passes the tests, or it is missing, the
   * default scope's field exists and passes them.
   */
  function Cascade(store: nat, code: string, tests: seq<Test>): Filter
  {
    var scoped := FieldPath(store, code);
    var global := FieldPath(DefaultStore, code);
    Or([
      And([Field(scoped, Exists(true))] + FieldTests(scoped, tests)),
      And([Field(scoped, Exists(false)), Field(global, Exists(true))] + FieldTests(global, tests))
    ])
  }

  lemma FieldTestsEval(path: string, ts: seq<Test>, pre: seq<Filter>, id: int, d: Document, matcher: Matcher)
    ensures Eval(And(pre + FieldTests(path, ts)), id, d, matcher) <==>
      Eval(And(pre), id, d, matcher) && AllHold(ts, PathValue(d, path), matcher)
  {
    var all := pre + FieldTests(path, ts);
    if Eval(And(pre), id, d, matcher) && AllHold(ts, PathValue(d, path), matcher) {
      forall i | 0 <= i < |all| ensures Eval(all[i], id, d, matcher) {
        if i >= |pre| {
          assert all[i] == Field(path, ts[i - |pre|]);
        }
      }
    }
    if Eval(And(all), id, d, matcher) {
      forall i | 0 <= i < |ts| ensures TestHolds(ts[i], PathValue(d, path), matcher) {
        assert all[|pre| + i] == Field(path, ts[i]);
        assert Eval(all[|pre| + i], id, d, matcher);
      }
      forall i | 0 <= i < |pre| ensures Eval(pre[i], id, d, matcher) {
        assert all[i] == pre[i];
        assert Eval(all[i], id, d, matcher);
      }
    }
  }

  /**
   * The cascade selects a document exactly when the attribute's effective
   * value for the store (the store's own value, else the default scope's)
   * exists and passes every test.
   */
  lemma CascadeIsEffective(store: nat, code: string, tests: seq<Test>, id: int, d: Document, matcher: Matcher)
    ensures Eval(Cascade(store, code, tests), id, d, matcher) <==>
      Effective(d, store, code).Some? && AllHold(tests, Effective(d, store, code), matcher)
  {
    var scoped := FieldPath(store, code);
    var global := FieldPath(DefaultStore, code);
    ScopedBranch(store, code, tests, id, d, matcher);
    FallbackBranch(store, code, tests, id, d, matcher);
    var branches := Cascade(store, code, tests).any;
    assert branches == [And([Field(scoped, Exists(true))] + FieldTests(scoped, tests)),
                        And([Field(scoped, Exists(false)), Field(global, Exists(true))] + FieldTests(global, tests))];
    assert Eval(Cascade(store, code, tests), id, d, matcher) <==>
      Eval(branches[0], id, d, matcher) || Eval(branches[1], id, d, matcher);
  }

  /** The first branch of the cascade: the store's own value exists and passes every test. */
  lemma ScopedBranch(store: nat, code: string, tests: seq<Test>, id: int, d: Document, matcher: Matcher)
    ensures var scoped := FieldPath(store, code);
      Eval(And([Field(scoped, Exists(true))] + FieldTests(scoped, tests)), id, d, matcher) <==>
      ScopeValue(d, store, code).Some? && AllHold(tests, ScopeValue(d, store, code), matcher)
  {
    var scoped := FieldPath(store, code);
    PathValueOfFieldPath(d, store, code);
    var pre0 := [Field(scoped, Exists(true))];
    FieldTestsEval(scoped, tests, pre0, id, d, matcher);
    assert Eval(And(pre0), id, d, matcher) <==> ScopeValue(d, store, code).Some? by {
      assert pre0[0] == Field(scoped, Exists(true));
    }
  }

  /** The second branch of the cascade: no store value, and the default scope's value exists and passes every test. */
  lemma FallbackBranch(store: nat, code: string, tests: seq<Test>, id: int, d: Document, matcher: Matcher)
    ensures var scoped := FieldPath(store, code);
      var global := FieldPath(DefaultStore, code);
      Eval(And([Field(scoped, Exists(false)), Field(global, Exists(true))] + FieldTests(global, tests)), id, d, matcher) <==>
      ScopeValue(d, store, code).None? && ScopeValue(d, DefaultStore, code).Some? && AllHold(tests, ScopeValue(d, DefaultStore, code), matcher)
  {
    var scoped := FieldPath(store, code);
    var global := FieldPath(DefaultStore, code);
    PathValueOfFieldPath(d, store, code);
    PathValueOfFieldPath(d, DefaultStore, code);
    var pre1 := [Field(scoped, Exists(false)), Field(global, Exists(true))];
    FieldTestsEval(global, tests, pre1, id, d, matcher);
    assert Eval(And(pre1), id, d, matcher) <==> ScopeValue(d, store, code).None? && ScopeValue(d, DefaultStore, code).Some? by {
      assert pre1[0] == Field(scoped, Exists(false)) && pre1[1] == Field(global, Exists(true));
    }
  }

  /** An ordering test with a string operand never selects a stored integer, whatever the numbers. */
  lemma OrderingSkipsIntegers(t: Test, i: int, matcher: Matcher)
    requires t.Gt? || t.Gte? || t.Lt? || t.Lte?
    ensures !TestHolds(t, Some(Int(i)), matcher)
  {
  }
}
