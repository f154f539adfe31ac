/**
 * The product collection: attribute filters are routed either to the
 * relational select or to a list of document filters; before loading,
 * each document filter is translated into an exists-cascade on the
 * store's and the default scope's field, the cascades are run against the
 * document collection and the ids found restrict the select; after
 * loading, every item takes the default scope's values overridden by the
 * store's.
 */
module ProductCollection {
  import opened Wrappers
  import opened Php
  import opened PhpArray
  import opened PhpString
  import opened ScopeCodec
  import opened Documents
  import opened DocFilter
  import opened DocStore
  import opened Eav
  import QueryBuilder

  /** A filter condition as callers pass it: a bare value, or an array of operator => operand. */
  datatype Condition = Bare(v: Value) | Ops(ops: seq<(Key, Value)>)

  /** Why no document filter comes out of a condition. */
  datatype BuildError =
      /** the multi-operator and `or`/`and` paths, which build no valid query */
    | Malformed
      /** an operator the translator does not support: it throws */
    | Unsupported(op: Option<Key>)

  /** The operator array of a condition; a bare value means `eq`. */
  function Operators(c: Condition): (ops: seq<(Key, Value)>)
    ensures c.Bare? ==> ops == [(StrKey("eq"), c.v)]
    ensures c.Ops? ==> ops == c.ops
  {
    match c
    case Bare(v) => [(StrKey("eq"), v)]
    case Ops(ops) => ops
  }

  /**
   * Keys the translator sends down its `or`/`and` path. Under PHP 7 loose
   * comparison the integer key 0 equals `'or'`, so it goes there as well.
   */
  predicate Combinator(op: Key)
  {
    op == StrKey("or") || op == StrKey("and") || op == IntKey(0)
  }

  /** The regular expression of a `like` operand: `'%` and `%'` become `.*`. */
  function LikePattern(s: string): string
  {
    ReplaceAll(ReplaceAll(s, "'%", ".*"), "%'", ".*")
  }

  /** The field test an operator becomes; comparison operands are cast to strings. */
  function OperatorTest(op: Key, operand: Value): Option<Test>
  {
    if op == StrKey("like") then Some(Regex(LikePattern(ToPhpString(operand))))
    else if op == StrKey("eq") then Some(Eq(operand))
    else if op == StrKey("gt") then Some(Gt(ToPhpString(operand)))
    else if op == StrKey("gteq") || op == StrKey("moreq") then Some(Gte(ToPhpString(operand)))
    else if op == StrKey("lt") then Some(Lt(ToPhpString(operand)))
    else if op == StrKey("lteq") then Some(Lte(ToPhpString(operand)))
    else if op == StrKey("neq") then Some(Ne(Str(ToPhpString(operand))))
    else None
  }

  /** `_buildDocumentFilter` for one attribute seen from store `store`. */
  function BuildDocumentFilter(code: string, c: Condition, store: nat): Result<Filter, BuildError>
  {
    var ops := Operators(c);
    if |ops| > 1 then Err(Malformed)
    else if ops == [] then Err(Unsupported(None))
    else if Combinator(ops[0].0) then Err(Malformed)
    else match OperatorTest(ops[0].0, ops[0].1)
      case None => Err(Unsupported(Some(ops[0].0)))
      case Some(t) => Ok(Cascade(store, code, [t]))
  }

  /** The one test a condition applies, when it is a single supported operator. */
  function ConditionTest(c: Condition): Option<Test>
  {
    var ops := Operators(c);
    if |ops| == 1 && !Combinator(ops[0].0) then OperatorTest(ops[0].0, ops[0].1) else None
  }

  /** A document the filter of `(code, c)` selects, as seen from store `store`. */
  predicate Selects(code: string, c: Condition, store: nat, d: Document, matcher: Matcher)
    requires ConditionTest(c).Some?
  {
    Effective(d, store, code).Some? && TestHolds(ConditionTest(c).value, Effective(d, store, code), matcher)
  }

  /**
   * The translator accepts exactly the single-operator conditions with a
   * supported operator, and the filter it builds selects a document
   * exactly when the attribute's effective value for the store passes the
   * operator's test.
   */
  lemma BuildDocumentFilterMeaning(code: string, c: Condition, store: nat, id: int, d: Document, matcher: Matcher)
    ensures BuildDocumentFilter(code, c, store).Ok? <==> ConditionTest(c).Some?
    ensures BuildDocumentFilter(code, c, store).Ok? ==>
      (Eval(BuildDocumentFilter(code, c, store).value, id, d, matcher) <==> Selects(code, c, store, d, matcher))
  {
    if ConditionTest(c).Some? {
      var t := ConditionTest(c).value;
      CascadeIsEffective(store, code, [t], id, d, matcher);
    }
  }

  /** Conditions the translator refuses: several operators or a combinator are malformed, any other operator throws. */
  lemma BuildDocumentFilterErrors(code: string, c: Condition, store: nat)
    ensures BuildDocumentFilter(code, c, store) == Err(Malformed) <==>
      |Operators(c)| > 1 || (|Operators(c)| == 1 && Combinator(Operators(c)[0].0))
    ensures BuildDocumentFilter(code, c, store).Err? && BuildDocumentFilter(code, c, store) != Err(Malformed) <==>
      Operators(c) == [] || (|Operators(c)| == 1 && !Combinator(Operators(c)[0].0) && OperatorTest(Operators(c)[0].0, Operators(c)[0].1).None?)
  {
  }

  /**
   * An equality condition, bare or as `eq`, selects a document exactly when
   * the attribute's effective value for the store is the operand.
   */
  lemma EqualityIsEffective(code: string, v: Value, store: nat, id: int, d: Document, matcher: Matcher)
    ensures BuildDocumentFilter(code, Bare(v), store) == BuildDocumentFilter(code, Ops([(StrKey("eq"), v)]), store)
    ensures BuildDocumentFilter(code, Bare(v), store).Ok?
    ensures Eval(BuildDocumentFilter(code, Bare(v), store).value, id, d, matcher) <==> Effective(d, store, code) == Some(v)
  {
    BuildDocumentFilterMeaning(code, Bare(v), store, id, d, matcher);
  }

  /**
   * `gteq` and `moreq` are the same test, and the operand of every
   * comparison and of `neq` is only seen through its string cast.
   */
  lemma ComparisonOperands(v: Value)
    ensures OperatorTest(StrKey("gteq"), v) == OperatorTest(StrKey("moreq"), v)
    ensures CastOperand(StrKey("gt"), v) && CastOperand(StrKey("gteq"), v) && CastOperand(StrKey("moreq"), v)
    ensures CastOperand(StrKey("lt"), v) && CastOperand(StrKey("lteq"), v) && CastOperand(StrKey("neq"), v)
  {
    var s := ToPhpString(v);
    assert ToPhpString(Str(s)) == s;
    assert OperatorTest(StrKey("gt"), v) == Some(Gt(s));
    assert OperatorTest(StrKey("gteq"), v) == Some(Gte(s));
    assert OperatorTest(StrKey("moreq"), v) == Some(Gte(s));
    assert OperatorTest(StrKey("lt"), v) == Some(Lt(s));
    assert OperatorTest(StrKey("lteq"), v) == Some(Lte(s));
    assert OperatorTest(StrKey("neq"), v) == Some(Ne(Str(s)));
  }

  /** The operator builds a test, and the test depends on the operand only through its string cast. */
  predicate CastOperand(op: Key, v: Value)
  {
    OperatorTest(op, v).Some? && OperatorTest(op, v) == OperatorTest(op, Str(ToPhpString(v)))
  }

  /** `gt` selects the documents whose effective value is a string ordered after the operand's string cast. */
  lemma GreaterIsStringOrder(code: string, v: Value, store: nat, id: int, d: Document, matcher: Matcher)
    ensures BuildDocumentFilter(code, Ops([(StrKey("gt"), v)]), store).Ok?
    ensures Eval(BuildDocumentFilter(code, Ops([(StrKey("gt"), v)]), store).value, id, d, matcher) <==>
      Effective(d, store, code).Some? && Effective(d, store, code).value.Str? && StrLess(ToPhpString(v), Effective(d, store, code).value.s)
  {
    BuildDocumentFilterMeaning(code, Ops([(StrKey("gt"), v)]), store, id, d, matcher);
  }

  /** `lt` selects the documents whose effective value is a string ordered before the operand's string cast. */
  lemma LessIsStringOrder(code: string, v: Value, store: nat, id: int, d: Document, matcher: Matcher)
    ensures BuildDocumentFilter(code, Ops([(StrKey("lt"), v)]), store).Ok?
    ensures Eval(BuildDocumentFilter(code, Ops([(StrKey("lt"), v)]), store).value, id, d, matcher) <==>
      Effective(d, store, code).Some? && Effective(d, store, code).value.Str? && StrLess(Effective(d, store, code).value.s, ToPhpString(v))
  {
    BuildDocumentFilterMeaning(code, Ops([(StrKey("lt"), v)]), store, id, d, matcher);
  }

  /** `neq` selects the documents with an effective value other than the operand's string cast. */
  lemma NotEqualIsEffective(code: string, v: Value, store: nat, id: int, d: Document, matcher: Matcher)
    ensures BuildDocumentFilter(code, Ops([(StrKey("neq"), v)]), store).Ok?
    ensures Eval(BuildDocumentFilter(code, Ops([(StrKey("neq"), v)]), store).value, id, d, matcher) <==>
      Effective(d, store, code).Some? && Effective(d, store, code).value != Str(ToPhpString(v))
  {
    BuildDocumentFilterMeaning(code, Ops([(StrKey("neq"), v)]), store, id, d, matcher);
  }

  /** A `like` condition selects the documents whose effective value is a string the pattern's regular expression matches. */
  lemma LikeIsRegex(code: string, v: Value, store: nat, id: int, d: Document, matcher: Matcher)
    ensures Eval(BuildDocumentFilter(code, Ops([(StrKey("like"), v)]), store).value, id, d, matcher) <==>
      Effective(d, store, code).Some? && Effective(d, store, code).value.Str? &&
      matcher(LikePattern(ToPhpString(v)), Effective(d, store, code).value.s)
  {
    BuildDocumentFilterMeaning(code, Ops([(StrKey("like"), v)]), store, id, d, matcher);
  }

  /** No `'%` and no `%'` is left in a `like` pattern. */
  lemma LikePatternClean(s: string)
    ensures Absent(LikePattern(s), "'%") && Absent(LikePattern(s), "%'")
  {
    var first := ReplaceAll(s, "'%", ".*");
    ReplaceAllAbsent(s, "'%", ".*", "'%");
    ReplaceAllAbsent(first, "%'", ".*", "'%");
    ReplaceAllAbsent(first, "%'", ".*", "%'");
  }

  /** A pattern without `'%` and `%'` is used as it is: a bare `%` stays a literal character. */
  lemma LikePatternPlain(s: string)
    requires Absent(s, "'%") && Absent(s, "%'")
    ensures LikePattern(s) == s
  {
    ReplaceAllIdentity(s, "'%", ".*");
    ReplaceAllIdentity(s, "%'", ".*");
  }

  /** The translation of every recorded document filter, in record order; the first failure stops it. */
  function BuildAll(fs: seq<(string, Condition)>, store: nat): (r: Result<seq<Filter>, BuildError>)
    ensures r.Ok? ==> |r.value| == |fs|
    ensures r.Ok? ==> forall i :: 0 <= i < |fs| ==> BuildDocumentFilter(fs[i].0, fs[i].1, store) == Ok(r.value[i])
  {
    if fs == [] then Ok([])
    else match BuildDocumentFilter(fs[0].0, fs[0].1, store)
      case Err(e) => Err(e)
      case Ok(f) =>
        match BuildAll(fs[1..], store)
        case Err(e) => Err(e)
        case Ok(rest) => Ok([f] + rest)
  }

  /** The outcome of the translation is the first failing filter's error, or success when none fails. */
  lemma {:induction false} BuildAllFirstError(fs: seq<(string, Condition)>, store: nat, i: nat)
    requires i <= |fs|
    requires forall j :: 0 <= j < i ==> BuildDocumentFilter(fs[j].0, fs[j].1, store).Ok?
    ensures i == |fs| ==> BuildAll(fs, store).Ok?
    ensures i < |fs| && BuildDocumentFilter(fs[i].0, fs[i].1, store).Err? ==>
      BuildAll(fs, store) == Err(BuildDocumentFilter(fs[i].0, fs[i].1, store).error)
  {
    if i > 0 {
      BuildAllFirstError(fs[1..], store, i - 1);
      if i < |fs| {
        assert fs[1..][i - 1] == fs[i];
      }
    } else if fs != [] {
      assert fs[0] == fs[i];
    }
  }

  /**
   * The filter `_beforeLoad` runs: the conjunction of the document
   * filters, also conjoined with the id filter of the relational result
   * when a relational filter was applied and returned ids.
   */
  function CombinedFilter(filters: seq<Filter>, hasSqlFilter: bool, allIds: seq<(Key, Value)>): Filter
  {
    if hasSqlFilter && allIds != [] then And([Id(QueryBuilder.GetIdsFilter(QueryBuilder.IdArray(allIds))), And(filters)])
    else And(filters)
  }

  /**
   * A document passes the combined filter exactly when it passes every
   * recorded attribute filter and, where the relational ids take part,
   * its id is one of them.
   */
  lemma CombinedMeaning(fs: seq<(string, Condition)>, store: nat, hasSqlFilter: bool, allIds: seq<(Key, Value)>,
                        id: int, d: Document, matcher: Matcher)
    requires BuildAll(fs, store).Ok?
    ensures forall i :: 0 <= i < |fs| ==> ConditionTest(fs[i].1).Some?
    ensures Eval(CombinedFilter(BuildAll(fs, store).value, hasSqlFilter, allIds), id, d, matcher) <==>
      (hasSqlFilter && allIds != [] ==> exists k :: 0 <= k < |allIds| && QueryBuilder.MongoInt32(allIds[k].1) == id) &&
      (forall i :: 0 <= i < |fs| ==> Selects(fs[i].0, fs[i].1, store, d, matcher))
  {
    var filters := BuildAll(fs, store).value;
    AllFiltersMeaning(fs, store, id, d, matcher);
    CombinedEval(filters, hasSqlFilter, allIds, id, d, matcher);
  }

  /** The combined filter is the id restriction, where the relational ids take part, and the conjunction of the filters. */
  lemma CombinedEval(filters: seq<Filter>, hasSqlFilter: bool, allIds: seq<(Key, Value)>, id: int, d: Document, matcher: Matcher)
    ensures Eval(CombinedFilter(filters, hasSqlFilter, allIds), id, d, matcher) <==>
      (hasSqlFilter && allIds != [] ==> exists k :: 0 <= k < |allIds| && QueryBuilder.MongoInt32(allIds[k].1) == id) &&
      Eval(And(filters), id, d, matcher)
  {
    if hasSqlFilter && allIds != [] {
      QueryBuilder.ArrayFilterSelects(allIds, id);
      var parts := CombinedFilter(filters, hasSqlFilter, allIds).all;
      assert parts[0] == Id(QueryBuilder.GetIdsFilter(QueryBuilder.IdArray(allIds)));
      assert parts[1] == And(filters);
    }
  }

  /** The conjunction of the translated filters selects what every recorded attribute filter selects. */
  lemma AllFiltersMeaning(fs: seq<(string, Condition)>, store: nat, id: int, d: Document, matcher: Matcher)
    requires BuildAll(fs, store).Ok?
    ensures forall i :: 0 <= i < |fs| ==> ConditionTest(fs[i].1).Some?
    ensures Eval(And(BuildAll(fs, store).value), id, d, matcher) <==>
      forall i :: 0 <= i < |fs| ==> Selects(fs[i].0, fs[i].1, store, d, matcher)
  {
    var filters := BuildAll(fs, store).value;
    forall i | 0 <= i < |fs|
      ensures ConditionTest(fs[i].1).Some?
      ensures Eval(filters[i], id, d, matcher) <==> Selects(fs[i].0, fs[i].1, store, d, matcher)
    {
      BuildDocumentFilterMeaning(fs[i].0, fs[i].1, store, id, d, matcher);
    }
  }

  /** What the relational select is restricted to before loading: the ids of the documents found, if any filter was recorded. */
  function LoadRestriction(docs: Docs, filters: seq<Filter>, hasSqlFilter: bool, allIds: seq<(Key, Value)>,
                           pageSize: nat, matcher: Matcher): seq<SqlCondition>
  {
    if filters == [] then []
    else [EntityIdIn(Keys(FindDocs(docs, CombinedFilter(filters, hasSqlFilter, allIds), matcher, pageSize)))]
  }

  /**
   * Every id the restriction admits is the id of a stored document that
   * passes every recorded attribute filter (and is among the relational
   * ids where those take part); without a page size, every such document
   * is admitted.
   */
  lemma LoadRestrictionMeaning(docs: Docs, fs: seq<(string, Condition)>, store: nat, hasSqlFilter: bool,
                               allIds: seq<(Key, Value)>, pageSize: nat, matcher: Matcher, id: int, d: Document)
    requires BuildAll(fs, store).Ok? && fs != []
    ensures forall i :: 0 <= i < |fs| ==> ConditionTest(fs[i].1).Some?
    ensures LoadRestriction(docs, BuildAll(fs, store).value, hasSqlFilter, allIds, pageSize, matcher) ==
      [EntityIdIn(Keys(FindDocs(docs, CombinedFilter(BuildAll(fs, store).value, hasSqlFilter, allIds), matcher, pageSize)))]
    ensures (id, d) in FindDocs(docs, CombinedFilter(BuildAll(fs, store).value, hasSqlFilter, allIds), matcher, pageSize) ==>
      (id, d) in docs && forall i :: 0 <= i < |fs| ==> Selects(fs[i].0, fs[i].1, store, d, matcher)
    ensures pageSize == 0 && (id, d) in docs && (forall i :: 0 <= i < |fs| ==> Selects(fs[i].0, fs[i].1, store, d, matcher)) &&
      (hasSqlFilter && allIds != [] ==> (exists k :: 0 <= k < |allIds| && QueryBuilder.MongoInt32(allIds[k].1) == id))
      ==> (id, d) in FindDocs(docs, CombinedFilter(BuildAll(fs, store).value, hasSqlFilter, allIds), matcher, pageSize)
  {
    CombinedMeaning(fs, store, hasSqlFilter, allIds, id, d, matcher);
    var f := CombinedFilter(BuildAll(fs, store).value, hasSqlFilter, allIds);
    var found := FindDocs(docs, f, matcher, pageSize);
    assert |BuildAll(fs, store).value| == |fs|;
    if (id, d) in found {
      var k :| 0 <= k < |found| && found[k] == (id, d);
    }
    if (id, d) in docs {
      var k :| 0 <= k < |docs| && docs[k] == (id, d);
    }
  }

  /** A condition of the relational select, as the collection adds it. */
  datatype SqlCondition =
    | AttributeCondition(code: string, cond: Condition)
    | AnyOfConditions(parts: seq<SqlCondition>)
    | EntityIdIn(ids: seq<int>)

  /**
   * The attribute argument: none, a numeric id, a code (or an attribute
   * object, which stands for its code), or an array of `['attribute' =>
   * code, operator => operand, ...]` records given here as the code and
   * the remaining entries.
   */
  datatype AttributeArg =
    | NoAttribute
    | AttributeId(id: int)
    | AttributeCode(code: string)
    | AnyOf(items: seq<(string, seq<(Key, Value)>)>)

  /** The routing state `addAttributeToFilter` updates. */
  datatype FilterState = FilterState(documentFilters: seq<(string, Condition)>, hasSqlFilter: bool, sqlWhere: seq<SqlCondition>)

  /** Unknown attributes and SQL-kept codes are filtered in the relational select. */
  predicate RoutesToSql(c: Catalog, sqlCodes: seq<string>, code: string)
  {
    ByCode(c, code).None? || code in sqlCodes
  }

  /** Filtering on one code; a `null` condition means `''`. */
  function FilterCode(c: Catalog, sqlCodes: seq<string>, st: FilterState, code: string, condition: Condition): FilterState
  {
    var cond := if condition == Bare(Null) then Bare(Str("")) else condition;
    if RoutesToSql(c, sqlCodes, code) then FilterState(st.documentFilters, true, st.sqlWhere + [AttributeCondition(code, cond)])
    else FilterState(Put(st.documentFilters, code, cond), st.hasSqlFilter, st.sqlWhere)
  }

  /** The whole record an array item stands for; it is what the document filter records as its condition. */
  function ItemRecord(item: (string, seq<(Key, Value)>)): Condition
  {
    Ops([(StrKey("attribute"), Str(item.0))] + item.1)
  }

  /** The routing of array items: relational parts collected in order, document filters recorded under their code. */
  function RouteItems(c: Catalog, sqlCodes: seq<string>, filters: seq<(string, Condition)>,
                      items: seq<(string, seq<(Key, Value)>)>): (r: (seq<(string, Condition)>, seq<SqlCondition>))
    ensures |r.1| <= |items|
    decreases |items|
  {
    if items == [] then (filters, [])
    else
      var prev := RouteItems(c, sqlCodes, filters, items[..|items| - 1]);
      var item := items[|items| - 1];
      if RoutesToSql(c, sqlCodes, item.0) then (prev.0, prev.1 + [AttributeCondition(item.0, ItemRecord(item))])
      else (Put(prev.0, item.0, ItemRecord(item)), prev.1)
  }

  /** `addAttributeToFilter`; `None` where an unknown numeric id makes it fail. */
  function AttributeFilter(c: Catalog, sqlCodes: seq<string>, st: FilterState, attr: AttributeArg, condition: Condition): Option<FilterState>
  {
    match attr
    case NoAttribute => Some(st)
    case AttributeId(id) =>
      (match CodeById(c, id)
       case None => None
       case Some(code) => Some(FilterCode(c, sqlCodes, st, code, condition)))
    case AttributeCode(code) => Some(FilterCode(c, sqlCodes, st, code, condition))
    case AnyOf(items) =>
      var routed := RouteItems(c, sqlCodes, st.documentFilters, items);
      Some(FilterState(routed.0, true, st.sqlWhere + [AnyOfConditions(routed.1)]))
  }

  /**
   * A filter on a code goes to the relational select exactly when the
   * attribute is unknown or SQL-kept; otherwise it becomes the code's
   * document filter, replacing an earlier one, and nothing else changes.
   */
  lemma FilterCodeRouting(c: Catalog, sqlCodes: seq<string>, st: FilterState, code: string, condition: Condition, other: string)
    ensures var r := FilterCode(c, sqlCodes, st, code, condition);
      var cond := if condition == Bare(Null) then Bare(Str("")) else condition;
      (RoutesToSql(c, sqlCodes, code) ==>
        r.documentFilters == st.documentFilters && r.hasSqlFilter && r.sqlWhere == st.sqlWhere + [AttributeCondition(code, cond)]) &&
      (!RoutesToSql(c, sqlCodes, code) ==>
        Get(r.documentFilters, code) == Some(cond) && r.hasSqlFilter == st.hasSqlFilter && r.sqlWhere == st.sqlWhere) &&
      (other != code ==> Get(r.documentFilters, other) == Get(st.documentFilters, other))
  {
    var cond := if condition == Bare(Null) then Bare(Str("")) else condition;
    PutGet(st.documentFilters, code, cond, code);
    PutGet(st.documentFilters, code, cond, other);
  }

  /** A second document filter on the same code replaces the first in place: one entry, the later condition. */
  lemma LaterFilterReplaces(c: Catalog, sqlCodes: seq<string>, st: FilterState, code: string, c1: Condition, c2: Condition)
    requires !RoutesToSql(c, sqlCodes, code) && c2 != Bare(Null)
    ensures var once := FilterCode(c, sqlCodes, st, code, c1);
      var twice := FilterCode(c, sqlCodes, once, code, c2);
      Keys(twice.documentFilters) == Keys(once.documentFilters) && Get(twice.documentFilters, code) == Some(c2)
  {
    var once := FilterCode(c, sqlCodes, st, code, c1);
    var cond1 := if c1 == Bare(Null) then Bare(Str("")) else c1;
    PutGet(st.documentFilters, code, cond1, code);
    PutGet(once.documentFilters, code, c2, code);
  }

  /**
   * An array of conditions always marks a relational filter; its document
   * filters are recorded under exactly the codes of the items that do not
   * route to the relational select, on top of those already recorded.
   */
  lemma {:induction false} RouteItemsFilters(c: Catalog, sqlCodes: seq<string>, filters: seq<(string, Condition)>,
                                             items: seq<(string, seq<(Key, Value)>)>, code: string)
    ensures HasKey(RouteItems(c, sqlCodes, filters, items).0, code) <==>
      HasKey(filters, code) || exists i :: 0 <= i < |items| && items[i].0 == code && !RoutesToSql(c, sqlCodes, code)
    decreases |items|
  {
    if items != [] {
      var init := items[..|items| - 1];
      RouteItemsFilters(c, sqlCodes, filters, init, code);
      var prev := RouteItems(c, sqlCodes, filters, init);
      var item := items[|items| - 1];
      PutGet(prev.0, item.0, ItemRecord(item), code);
      if exists i :: 0 <= i < |items| && items[i].0 == code && !RoutesToSql(c, sqlCodes, code) {
        var i :| 0 <= i < |items| && items[i].0 == code && !RoutesToSql(c, sqlCodes, code);
        if i < |items| - 1 {
          assert init[i] == items[i];
        }
      }
      if exists i :: 0 <= i < |init| && init[i].0 == code && !RoutesToSql(c, sqlCodes, code) {
        var i :| 0 <= i < |init| && init[i].0 == code && !RoutesToSql(c, sqlCodes, code);
        assert items[i] == init[i];
      }
    }
  }

  /** The entity ids of the loaded items, wrapped to 32 bits. */
  function LoadedIds(items: seq<(int, map<string, Value>)>): (ids: seq<int>)
    ensures |ids| == |items| && forall i :: 0 <= i < |items| ==> ids[i] == QueryBuilder.MongoInt32(Int(items[i].0))
  {
    if items == [] then [] else [QueryBuilder.MongoInt32(Int(items[0].0))] + LoadedIds(items[1..])
  }

  /**
   * Adding each loaded document's data to the item with its id; `None`
   * where a document has no item, which the source cannot handle.
   */
  function MergeLoaded(items: seq<(int, map<string, Value>)>, loaded: Docs, store: nat): (r: Option<seq<(int, map<string, Value>)>>)
    ensures r.Some? ==> Keys(r.value) == Keys(items)
    ensures r.Some? <==> forall i :: 0 <= i < |loaded| ==> HasKey(items, loaded[i].0)
    decreases |loaded|
  {
    if loaded == [] then Some(items)
    else
      var init := loaded[..|loaded| - 1];
      var last := loaded[|loaded| - 1];
      assert forall i :: 0 <= i < |init| ==> init[i] == loaded[i];
      match MergeLoaded(items, init, store)
      case None => None
      case Some(acc) =>
        SameKeysIndex(acc, items, last.0);
        if HasKey(acc, last.0) then Some(Put(acc, last.0, Get(acc, last.0).value + LoadedData(last.1, store)))
        else None
  }

  /** One step of the merge: only the last document's item changes. */
  lemma MergeLoadedLast(items: seq<(int, map<string, Value>)>, loaded: Docs, store: nat, id: int)
    requires loaded != [] && MergeLoaded(items, loaded, store).Some?
    ensures MergeLoaded(items, loaded[..|loaded| - 1], store).Some?
    ensures HasKey(MergeLoaded(items, loaded[..|loaded| - 1], store).value, loaded[|loaded| - 1].0)
    ensures Get(MergeLoaded(items, loaded, store).value, id) ==
      var acc := MergeLoaded(items, loaded[..|loaded| - 1], store).value;
      if id == loaded[|loaded| - 1].0 then Some(Get(acc, id).value + LoadedData(loaded[|loaded| - 1].1, store))
      else Get(acc, id)
  {
    var acc := MergeLoaded(items, loaded[..|loaded| - 1], store).value;
    var last := loaded[|loaded| - 1];
    PutGet(acc, last.0, Get(acc, last.0).value + LoadedData(last.1, store), id);
  }

  /** An item without a loaded document keeps its data. */
  lemma {:induction false} MergeLoadedMiss(items: seq<(int, map<string, Value>)>, loaded: Docs, store: nat, id: int)
    requires MergeLoaded(items, loaded, store).Some? && !HasKey(loaded, id)
    ensures Get(MergeLoaded(items, loaded, store).value, id) == Get(items, id)
    decreases |loaded|
  {
    if loaded != [] {
      var init := loaded[..|loaded| - 1];
      MergeLoadedLast(items, loaded, store, id);
      forall j | 0 <= j < |init| ensures init[j].0 != id {
        assert init[j] == loaded[j];
      }
      assert loaded[|loaded| - 1].0 != id;
      MergeLoadedMiss(items, init, store, id);
    }
  }

  /** The item of a loaded document holds its earlier data overridden by the document's loaded data. */
  lemma {:induction false} MergeLoadedHit(items: seq<(int, map<string, Value>)>, loaded: Docs, store: nat, id: int, d: Document)
    requires MergeLoaded(items, loaded, store).Some? && DistinctKeys(loaded) && (id, d) in loaded
    ensures HasKey(items, id)
    ensures Get(MergeLoaded(items, loaded, store).value, id) == Some(Get(items, id).value + LoadedData(d, store))
    decreases |loaded|
  {
    var k :| 0 <= k < |loaded| && loaded[k] == (id, d);
    assert HasKey(items, loaded[k].0);
    var init := loaded[..|loaded| - 1];
    var last := loaded[|loaded| - 1];
    DistinctKeysInit(loaded);
    MergeLoadedLast(items, loaded, store, id);
    if k == |loaded| - 1 {
      assert last == (id, d);
      MergeLoadedMiss(items, init, store, id);
    } else {
      assert init[k] == (id, d);
      assert last.0 != id by {
        assert loaded[k].0 != loaded[|loaded| - 1].0;
      }
      MergeLoadedHit(items, init, store, id, d);
    }
  }

  /** The merge loop of `_loadAttributes`; `ok` is false where a document has no item. */
  method MergeInto(items: seq<(int, map<string, Value>)>, loaded: Docs, store: nat) returns (ok: bool, merged: seq<(int, map<string, Value>)>)
    ensures ok <==> MergeLoaded(items, loaded, store).Some?
    ensures ok ==> merged == MergeLoaded(items, loaded, store).value
  {
    merged := items;
    for i := 0 to |loaded|
      invariant MergeLoaded(items, loaded[..i], store) == Some(merged)
    {
      assert loaded[..i + 1][..i] == loaded[..i];
      var (id, d) := loaded[i];
      SameKeysIndex(merged, items, id);
      if !HasKey(merged, id) {
        return false, merged;
      }
      merged := Put(merged, id, Get(merged, id).value + LoadedData(d, store));
    }
    assert loaded[..|loaded|] == loaded;
    ok := true;
  }

  /** The product collection: relational state, recorded document filters and loaded items. */
  class Collection {
    /** the catalog's attributes and the resource's SQL-kept codes */
    const catalog: Catalog
    const sqlCodes: seq<string>
    /** the store the collection is read for */
    const storeId: nat
    /** the page size; 0 when none is set */
    const pageSize: nat
    const docs: DocumentCollection
    var documentFilters: seq<(string, Condition)>
    var hasSqlFilter: bool
    var sqlWhere: seq<SqlCondition>
    /** entity id -> item data, as loaded from the relational tables */
    var items: seq<(int, map<string, Value>)>
    var loadedDocuments: Option<Docs>

    constructor (catalog: Catalog, sqlCodes: seq<string>, storeId: nat, pageSize: nat, docs: DocumentCollection)
      ensures this.catalog == catalog && this.sqlCodes == sqlCodes && this.storeId == storeId
      ensures this.pageSize == pageSize && this.docs == docs
      ensures documentFilters == [] && !hasSqlFilter && sqlWhere == [] && items == [] && loadedDocuments == None
    {
      this.catalog := catalog;
      this.sqlCodes := sqlCodes;
      this.storeId := storeId;
      this.pageSize := pageSize;
      this.docs := docs;
      documentFilters := [];
      hasSqlFilter := false;
      sqlWhere := [];
      items := [];
      loadedDocuments := None;
    }

    /** `addAttributeToFilter`; `ok` is false where an unknown numeric id makes it fail, and then nothing changes. */
    method AddAttributeToFilter(attr: AttributeArg, condition: Condition) returns (ok: bool)
      modifies this
      ensures ok <==> AttributeFilter(catalog, sqlCodes, old(FilterState(documentFilters, hasSqlFilter, sqlWhere)), attr, condition).Some?
      ensures ok ==>
        FilterState(documentFilters, hasSqlFilter, sqlWhere) == AttributeFilter(catalog, sqlCodes, old(FilterState(documentFilters, hasSqlFilter, sqlWhere)), attr, condition).value
      ensures !ok ==> documentFilters == old(documentFilters) && hasSqlFilter == old(hasSqlFilter) && sqlWhere == old(sqlWhere)
      ensures items == old(items) && loadedDocuments == old(loadedDocuments)
    {
      ok := true;
      match attr {
        case NoAttribute =>
        case AttributeId(id) =>
          var code := CodeById(catalog, id);
          if code.None? {
            ok := false;
          } else {
            var st := FilterCode(catalog, sqlCodes, FilterState(documentFilters, hasSqlFilter, sqlWhere), code.value, condition);
            documentFilters, hasSqlFilter, sqlWhere := st.documentFilters, st.hasSqlFilter, st.sqlWhere;
          }
        case AttributeCode(code) =>
          var st := FilterCode(catalog, sqlCodes, FilterState(documentFilters, hasSqlFilter, sqlWhere), code, condition);
          documentFilters, hasSqlFilter, sqlWhere := st.documentFilters, st.hasSqlFilter, st.sqlWhere;
        case AnyOf(list) =>
          var filters := documentFilters;
          var parts: seq<SqlCondition> := [];
          for i := 0 to |list|
            invariant (filters, parts) == RouteItems(catalog, sqlCodes, old(documentFilters), list[..i])
          {
            assert list[..i + 1][..i] == list[..i];
            var item := list[i];
            if RoutesToSql(catalog, sqlCodes, item.0) {
              parts := parts + [AttributeCondition(item.0, ItemRecord(item))];
            } else {
              filters := Put(filters, item.0, ItemRecord(item));
            }
          }
          assert list[..|list|] == list;
          documentFilters := filters;
          hasSqlFilter := true;
          sqlWhere := sqlWhere + [AnyOfConditions(parts)];
      }
    }

    /**
     * `_beforeLoad`: translates every recorded document filter (the first
     * failure throws and changes nothing), runs the combined filter with
     * the page size and restricts the select to the ids found. `allIds` is
     * what the relational select returns for `getAllIds`.
     */
    method BeforeLoad(allIds: seq<(Key, Value)>, matcher: Matcher) returns (err: Option<BuildError>)
      modifies this
      ensures err.Some? <==> BuildAll(documentFilters, storeId).Err?
      ensures err.Some? ==> BuildAll(documentFilters, storeId) == Err(err.value) && sqlWhere == old(sqlWhere)
      ensures err.None? ==>
        sqlWhere == old(sqlWhere) + LoadRestriction(docs.docs, BuildAll(documentFilters, storeId).value, hasSqlFilter, allIds, pageSize, matcher)
      ensures documentFilters == old(documentFilters) && hasSqlFilter == old(hasSqlFilter)
      ensures items == old(items) && loadedDocuments == old(loadedDocuments)
    {
      var built: seq<Filter> := [];
      for i := 0 to |documentFilters|
        invariant |built| == i
        invariant forall j :: 0 <= j < i ==> BuildDocumentFilter(documentFilters[j].0, documentFilters[j].1, storeId) == Ok(built[j])
      {
        var f := BuildDocumentFilter(documentFilters[i].0, documentFilters[i].1, storeId);
        if f.Err? {
          BuildAllFirstError(documentFilters, storeId, i);
          return Some(f.error);
        }
        built := built + [f.value];
      }
      BuildAllFirstError(documentFilters, storeId, |documentFilters|);
      assert built == BuildAll(documentFilters, storeId).value;
      if built != [] {
        var found := docs.Find(CombinedFilter(built, hasSqlFilter, allIds), matcher, pageSize);
        sqlWhere := sqlWhere + [EntityIdIn(Keys(found))];
      }
      return None;
    }

    /**
     * `_loadAttributes`, with items loaded: fetches the items' documents
     * once and keeps them, then adds each document's default-scope data,
     * overridden by its store-scope data, to the item with its id. `ok` is
     * false where a kept document has no item.
     */
    method LoadAttributes(matcher: Matcher) returns (ok: bool)
      modifies this
      ensures old(items) == [] ==> ok && items == old(items) && loadedDocuments == old(loadedDocuments)
      ensures old(items) != [] ==>
        loadedDocuments == Some(old(loadedDocuments).GetOr(FindDocs(docs.docs, Id(QueryBuilder.IdIn(LoadedIds(old(items)))), matcher, 0)))
      ensures old(items) != [] ==> (ok <==> MergeLoaded(old(items), loadedDocuments.value, storeId).Some?)
      ensures old(items) != [] && ok ==> items == MergeLoaded(old(items), loadedDocuments.value, storeId).value
      ensures documentFilters == old(documentFilters) && hasSqlFilter == old(hasSqlFilter) && sqlWhere == old(sqlWhere)
    {
      ok := true;
      if items == [] {
        return;
      }
      if loadedDocuments.None? {
        var found := docs.Find(Id(QueryBuilder.IdIn(LoadedIds(items))), matcher, 0);
        loadedDocuments := Some(found);
      }
      var merged;
      ok, merged := MergeInto(items, loadedDocuments.value, storeId);
      if ok {
        items := merged;
      }
    }
  }
}
