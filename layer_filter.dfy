/**
 * Facet counting for layered navigation on document-only attributes: the
 * candidate documents carrying a non-blank value for the attribute are
 * grouped by the pair (store value, default value), and each group's total
 * is credited to the group's option, then the options are sorted.
 */
module LayerFilter {
  import opened Wrappers
  import opened Php
  import opened PhpArray
  import opened ScopeCodec
  import opened Documents
  import opened DocFilter
  import opened DocStore
  import QueryBuilder

  /** The tests each cascade branch of the match stage adds: the value is neither the string `null` nor empty. */
  const NonBlank: seq<Test> := [Ne(Str("null")), Ne(Str(""))]

  /** The match stage: a candidate id, with a non-blank value for the attribute in the store's scope or, failing that, the default scope. */
  function FacetMatch(store: nat, code: string, allIds: seq<(Key, Value)>): Filter
  {
    And([Id(QueryBuilder.GetIdsFilter(QueryBuilder.IdArray(allIds))), Cascade(store, code, NonBlank)])
  }

  /**
   * A document passes the match stage exactly when its id is a candidate
   * and its effective value for the store exists and is neither `'null'`
   * nor `''`.
   */
  lemma FacetMatchMeaning(store: nat, code: string, allIds: seq<(Key, Value)>, id: int, d: Document, matcher: Matcher)
    ensures Eval(FacetMatch(store, code, allIds), id, d, matcher) <==>
      (exists k :: 0 <= k < |allIds| && QueryBuilder.MongoInt32(allIds[k].1) == id) &&
      Effective(d, store, code).Some? && Effective(d, store, code).value != Str("null") && Effective(d, store, code).value != Str("")
  {
    CascadeIsEffective(store, code, NonBlank, id, d, matcher);
    QueryBuilder.ArrayFilterSelects(allIds, id);
    var parts := FacetMatch(store, code, allIds).all;
    assert parts == [Id(QueryBuilder.GetIdsFilter(QueryBuilder.IdArray(allIds))), Cascade(store, code, NonBlank)];
    assert Eval(FacetMatch(store, code, allIds), id, d, matcher) <==>
      Eval(parts[0], id, d, matcher) && Eval(parts[1], id, d, matcher);
    if Effective(d, store, code).Some? {
      NonBlankHolds(Effective(d, store, code), matcher);
    }
  }

  /** The tests of the match stage pass exactly for a value that is neither `'null'` nor `''`. */
  lemma NonBlankHolds(e: Option<Value>, matcher: Matcher)
    requires e.Some?
    ensures AllHold(NonBlank, e, matcher) <==> e.value != Str("null") && e.value != Str("")
  {
    assert NonBlank[0] == Ne(Str("null")) && NonBlank[1] == Ne(Str(""));
  }

  /** A group key: the `_id` document of the group stage, one entry per field present, the store's before the default's. */
  type GroupKey = seq<(string, Value)>

  /** The group key of a document: its store value then its default value, each only when present. */
  function KeyOfDocument(d: Document, store: nat, code: string): (key: GroupKey)
    ensures |key| <= 2
  {
    var global := if ScopeValue(d, DefaultStore, code).Some? then [(FieldPath(DefaultStore, code), ScopeValue(d, DefaultStore, code).value)] else [];
    if store == DefaultStore then global
    else (if ScopeValue(d, store, code).Some? then [(FieldPath(store, code), ScopeValue(d, store, code).value)] else []) + global
  }

  /** The group keys of a list of documents, in order. */
  function KeysOf(m: Docs, store: nat, code: string): (keys: seq<GroupKey>)
    ensures |keys| == |m| && forall i :: 0 <= i < |m| ==> keys[i] == KeyOfDocument(m[i].1, store, code)
  {
    if m == [] then [] else [KeyOfDocument(m[0].1, store, code)] + KeysOf(m[1..], store, code)
  }

  /** How many times `x` occurs in `s`. */
  function Occurrences<T(==)>(s: seq<T>, x: T): nat
  {
    if s == [] then 0 else Occurrences(s[..|s| - 1], x) + (if s[|s| - 1] == x then 1 else 0)
  }

  /** The group stage: one row per distinct key with the number of documents carrying it, rows in order of first appearance. */
  function Groups(keys: seq<GroupKey>): (rows: seq<(GroupKey, int)>)
    ensures DistinctKeys(rows)
    decreases |keys|
  {
    if keys == [] then []
    else CountKey(Groups(keys[..|keys| - 1]), keys[|keys| - 1])
  }

  /** One document of the group stage: its key's count goes up by one, a new key starting a row at 1. */
  function CountKey(acc: seq<(GroupKey, int)>, k: GroupKey): (r: seq<(GroupKey, int)>)
    requires DistinctKeys(acc)
    ensures DistinctKeys(r)
  {
    PutDistinct(acc, k, Get(acc, k).GetOr(0) + 1);
    Put(acc, k, Get(acc, k).GetOr(0) + 1)
  }

  /** Each group's total is the number of documents with that key. */
  lemma {:induction false} GroupsCount(keys: seq<GroupKey>, k: GroupKey)
    ensures Get(Groups(keys), k).GetOr(0) == Occurrences(keys, k)
    decreases |keys|
  {
    if keys != [] {
      var init := keys[..|keys| - 1];
      var last := keys[|keys| - 1];
      GroupsCount(init, k);
      CountKeyGet(Groups(init), last, k);
    }
  }

  lemma CountKeyGet(acc: seq<(GroupKey, int)>, last: GroupKey, k: GroupKey)
    requires DistinctKeys(acc)
    ensures Get(CountKey(acc, last), k).GetOr(0) == Get(acc, k).GetOr(0) + (if k == last then 1 else 0)
  {
    PutGet(acc, last, Get(acc, last).GetOr(0) + 1, k);
  }

  /** The aggregation the pipeline computes over the stored documents. */
  function Aggregate(docs: Docs, store: nat, code: string, allIds: seq<(Key, Value)>, matcher: Matcher): seq<(GroupKey, int)>
  {
    Groups(KeysOf(FindDocs(docs, FacetMatch(store, code, allIds), matcher, 0), store, code))
  }

  /** The option the source credits a group to: the last value of its key, `null` for an empty key. */
  function LastOption(key: GroupKey): Value
  {
    if key == [] then Null else key[|key| - 1].1
  }

  /** The option a group stands for: the first value of its key, the store's own when present. */
  function FirstOption(key: GroupKey): Value
  {
    if key == [] then Null else key[0].1
  }

  /** The first value of a document's key is its effective value; the last is the default scope's whenever that is present. */
  lemma KeyOfDocumentOptions(d: Document, store: nat, code: string)
    ensures FirstOption(KeyOfDocument(d, store, code)) == Effective(d, store, code).GetOr(Null)
    ensures ScopeValue(d, DefaultStore, code).Some? ==> LastOption(KeyOfDocument(d, store, code)) == ScopeValue(d, DefaultStore, code).value
  {
  }

  /** The result parsing as written: each group's total is stored under its last value, replacing any earlier total. */
  function ParseAsWritten(rows: seq<(GroupKey, int)>): (r: seq<(Key, int)>)
    ensures DistinctKeys(r)
    decreases |rows|
  {
    if rows == [] then []
    else
      var acc := ParseAsWritten(rows[..|rows| - 1]);
      var row := rows[|rows| - 1];
      if LastOption(row.0) == Null then acc
      else
        PutDistinct(acc, KeyOf(LastOption(row.0)), row.1);
        Put(acc, KeyOf(LastOption(row.0)), row.1)
  }

  /** The result parsing intended: each group's total is added to the count of its first value. */
  function ParseSummed(rows: seq<(GroupKey, int)>): (r: seq<(Key, int)>)
    ensures DistinctKeys(r)
    decreases |rows|
  {
    if rows == [] then []
    else AddTotal(ParseSummed(rows[..|rows| - 1]), rows[|rows| - 1])
  }

  /** One row of the summed parse: its total added to the count of its option, if it has one. */
  function AddTotal(acc: seq<(Key, int)>, row: (GroupKey, int)): (r: seq<(Key, int)>)
    requires DistinctKeys(acc)
    ensures DistinctKeys(r)
  {
    var option := FirstOption(row.0);
    if option == Null then acc
    else
      PutDistinct(acc, KeyOf(option), Get(acc, KeyOf(option)).GetOr(0) + row.1);
      Put(acc, KeyOf(option), Get(acc, KeyOf(option)).GetOr(0) + row.1)
  }

  lemma ParseSummedStep(rows: seq<(GroupKey, int)>, i: nat)
    requires i < |rows|
    ensures ParseSummed(rows[..i + 1]) == AddTotal(ParseSummed(rows[..i]), rows[i])
  {
    assert rows[..i + 1][..i] == rows[..i];
  }

  /** Whether a group key's option is credited under the array key `o`. */
  predicate CreditedTo(key: GroupKey, o: Key)
  {
    FirstOption(key) != Null && KeyOf(FirstOption(key)) == o
  }

  /** The sum of the totals of the rows credited under `o`. */
  function OptionTotal(rows: seq<(GroupKey, int)>, o: Key): int
  {
    if rows == [] then 0
    else OptionTotal(rows[..|rows| - 1], o) + (if CreditedTo(rows[|rows| - 1].0, o) then rows[|rows| - 1].1 else 0)
  }

  /** The number of keys credited under `o`. */
  function CreditedCount(keys: seq<GroupKey>, o: Key): nat
  {
    if keys == [] then 0
    else CreditedCount(keys[..|keys| - 1], o) + (if CreditedTo(keys[|keys| - 1], o) then 1 else 0)
  }

  /** The number of documents whose effective value for the store exists, is not `null` and has array key `o`. */
  function EffectiveCount(m: Docs, store: nat, code: string, o: Key): nat
  {
    if m == [] then 0
    else
      var e := Effective(m[|m| - 1].1, store, code);
      EffectiveCount(m[..|m| - 1], store, code, o) + (if e.Some? && e.value != Null && KeyOf(e.value) == o then 1 else 0)
  }

  /** The summed parse holds, for every option, the total of the rows credited to it. */
  lemma {:induction false} ParseSummedTotal(rows: seq<(GroupKey, int)>, o: Key)
    ensures Get(ParseSummed(rows), o).GetOr(0) == OptionTotal(rows, o)
    decreases |rows|
  {
    if rows != [] {
      var init := rows[..|rows| - 1];
      var row := rows[|rows| - 1];
      var acc := ParseSummed(init);
      ParseSummedTotal(init, o);
      var option := FirstOption(row.0);
      if option != Null {
        PutGet(acc, KeyOf(option), Get(acc, KeyOf(option)).GetOr(0) + row.1, o);
      }
    }
  }

  /** Changing one row's total changes the option total of its option by the difference. */
  lemma {:induction false} OptionTotalUpdate(rows: seq<(GroupKey, int)>, i: nat, t: int, o: Key)
    requires i < |rows|
    ensures OptionTotal(rows[i := (rows[i].0, t)], o) ==
      OptionTotal(rows, o) + (if CreditedTo(rows[i].0, o) then t - rows[i].1 else 0)
    decreases |rows|
  {
    var updated := rows[i := (rows[i].0, t)];
    var init := rows[..|rows| - 1];
    if i == |rows| - 1 {
      assert updated[..|rows| - 1] == init;
    } else {
      OptionTotalUpdate(init, i, t, o);
      assert updated[..|rows| - 1] == init[i := (rows[i].0, t)];
    }
  }

  /** Grouping keeps the credited count: the totals credited to an option add up to its number of keys. */
  lemma {:induction false} GroupsTotal(keys: seq<GroupKey>, o: Key)
    ensures OptionTotal(Groups(keys), o) == CreditedCount(keys, o)
    decreases |keys|
  {
    if keys != [] {
      var init := keys[..|keys| - 1];
      var k := keys[|keys| - 1];
      GroupsTotal(init, o);
      CountOneMore(Groups(init), k, o);
    }
  }

  /** Counting one more key for a group adds one to the total of the option it is credited to. */
  lemma CountOneMore(acc: seq<(GroupKey, int)>, k: GroupKey, o: Key)
    ensures OptionTotal(Put(acc, k, Get(acc, k).GetOr(0) + 1), o) == OptionTotal(acc, o) + (if CreditedTo(k, o) then 1 else 0)
  {
    var c := Get(acc, k).GetOr(0);
    if HasKey(acc, k) {
      var i := IndexOfKey(acc, k);
      assert c == acc[i].1 && acc[i].0 == k;
      assert Put(acc, k, c + 1) == acc[i := (acc[i].0, c + 1)];
      OptionTotalUpdate(acc, i, c + 1, o);
    } else {
      var r := acc + [(k, 1)];
      assert Put(acc, k, c + 1) == r;
      assert r[..|acc|] == acc && r[|acc|] == (k, 1);
      assert OptionTotal(r, o) == OptionTotal(acc, o) + (if CreditedTo(k, o) then 1 else 0);
    }
  }

  /** A list of documents credits an option exactly as many keys as it has documents with that effective value. */
  lemma {:induction false} KeysOfCredited(m: Docs, store: nat, code: string, o: Key)
    ensures CreditedCount(KeysOf(m, store, code), o) == EffectiveCount(m, store, code, o)
    decreases |m|
  {
    if m != [] {
      var init := m[..|m| - 1];
      KeysOfCredited(init, store, code, o);
      assert KeysOf(m, store, code)[..|m| - 1] == KeysOf(init, store, code);
      KeyOfDocumentOptions(m[|m| - 1].1, store, code);
    }
  }

  /**
   * With the intended parsing, the count of an option is the number of
   * candidate documents passing the match stage whose effective value for
   * the store has that option.
   */
  lemma FacetCountIsEffective(docs: Docs, store: nat, code: string, allIds: seq<(Key, Value)>, matcher: Matcher, o: Key)
    ensures Get(ParseSummed(Aggregate(docs, store, code, allIds, matcher)), o).GetOr(0) ==
      EffectiveCount(FindDocs(docs, FacetMatch(store, code, allIds), matcher, 0), store, code, o)
  {
    var m := FindDocs(docs, FacetMatch(store, code, allIds), matcher, 0);
    ParseSummedTotal(Aggregate(docs, store, code, allIds, matcher), o);
    GroupsTotal(KeysOf(m, store, code), o);
    KeysOfCredited(m, store, code, o);
  }

  /** A document with a value `red` in store 1 and `blue` in the default scope. */
  const Overridden: Document := Document(map[0 := map["color" := Str("blue")], 1 := map["color" := Str("red")]], map[])

  /**
   * As written, a group is credited to its last value: the document seen
   * from store 1 has effective colour `red` but is counted under `blue`.
   */
  lemma LastOptionPrefersDefault()
    ensures Effective(Overridden, 1, "color") == Some(Str("red"))
    ensures LastOption(KeyOfDocument(Overridden, 1, "color")) == Str("blue")
    ensures FirstOption(KeyOfDocument(Overridden, 1, "color")) == Str("red")
  {
    KeyOfDocumentOptions(Overridden, 1, "color");
  }

  /** Two documents both `red` in store 1: one with only a default value, one with a store value as well. */
  const RedDefault: Document := Document(map[0 := map["color" := Str("red")]], map[])
  const RedBoth: Document := Document(map[0 := map["color" := Str("red")], 1 := map["color" := Str("red")]], map[])

  /**
   * As written, two groups credited to the same option overwrite each
   * other: the two documents form two groups of one each, and `red` is
   * counted once; summed, it is counted twice.
   */
  lemma OverwrittenTotals()
    ensures var rows := Groups([KeyOfDocument(RedDefault, 1, "color"), KeyOfDocument(RedBoth, 1, "color")]);
      Get(ParseAsWritten(rows), KeyOf(Str("red"))) == Some(1) && Get(ParseSummed(rows), KeyOf(Str("red"))) == Some(2)
  {
    var k1 := KeyOfDocument(RedDefault, 1, "color");
    var k2 := KeyOfDocument(RedBoth, 1, "color");
    KeyOfDocumentOptions(RedDefault, 1, "color");
    KeyOfDocumentOptions(RedBoth, 1, "color");
    assert |k1| == 1 && |k2| == 2;
    TwoGroups(k1, k2);
    TwoGroupsOneOption(k1, k2, Str("red"));
  }

  /** Two different group keys form two groups of one document each. */
  lemma TwoGroups(k1: GroupKey, k2: GroupKey)
    requires k1 != k2
    ensures Groups([k1, k2]) == [(k1, 1), (k2, 1)]
  {
    var keys := [k1, k2];
    assert keys[..1] == [k1] && [k1][..0] == [];
    assert Groups([k1][..0]) == [];
    var g1 := Groups([k1]);
    assert g1 == [(k1, 1)];
    assert !HasKey(g1, k2);
  }

  /** Two groups credited to one option: as written the second total replaces the first, summed they add up. */
  lemma TwoGroupsOneOption(k1: GroupKey, k2: GroupKey, o: Value)
    requires o != Null
    requires LastOption(k1) == o && FirstOption(k1) == o && LastOption(k2) == o && FirstOption(k2) == o
    ensures Get(ParseAsWritten([(k1, 1), (k2, 1)]), KeyOf(o)) == Some(1)
    ensures Get(ParseSummed([(k1, 1), (k2, 1)]), KeyOf(o)) == Some(2)
  {
    var rows := [(k1, 1), (k2, 1)];
    assert rows[..1] == [(k1, 1)] && [(k1, 1)][..0] == [];
    var key := KeyOf(o);
    assert ParseAsWritten([(k1, 1)][..0]) == [];
    assert ParseSummed([(k1, 1)][..0]) == [];
    var once := ParseAsWritten([(k1, 1)]);
    assert once == [(key, 1)];
    PutGet(once, key, 1, key);
    var summedOnce := ParseSummed([(k1, 1)]);
    assert summedOnce == [(key, 1)];
    assert Get(summedOnce, key) == Some(1);
    PutGet(summedOnce, key, 2, key);
  }

  /** The parsing loop: each group's total added to the count of its first value. */
  method SumByOption(rows: seq<(GroupKey, int)>) returns (acc: seq<(Key, int)>)
    ensures acc == ParseSummed(rows)
  {
    acc := [];
    for i := 0 to |rows|
      invariant acc == ParseSummed(rows[..i])
    {
      ParseSummedStep(rows, i);
      var option := FirstOption(rows[i].0);
      if option != Null {
        acc := Put(acc, KeyOf(option), Get(acc, KeyOf(option)).GetOr(0) + rows[i].1);
      }
    }
    assert rows[..|rows|] == rows;
  }

  /** What `getCount` returns: the relational count for SQL-kept attributes, else option -> count sorted by option. */
  datatype FacetCounts = ParentCount | Counts(counts: seq<(Key, int)>)

  /**
   * `getCount` for the attribute `code` seen from store `store`, over the
   * candidate ids `allIds`. `failed` stands for an aggregation that does
   * not report success, which yields no counts. Groups are credited to
   * their first value and totals are summed.
   */
  method GetCount(docs: DocumentCollection, sqlCodes: seq<string>, code: string, store: nat, allIds: seq<(Key, Value)>,
                  matcher: Matcher, failed: bool) returns (r: FacetCounts)
    ensures code in sqlCodes ==> r == ParentCount
    ensures code !in sqlCodes ==> r.Counts? && SortedByKey(r.counts)
    ensures code !in sqlCodes ==>
      multiset(r.counts) == multiset(ParseSummed(if failed then [] else Aggregate(docs.docs, store, code, allIds, matcher)))
  {
    if code in sqlCodes {
      return ParentCount;
    }
    var rows := if failed then [] else Aggregate(docs.docs, store, code, allIds, matcher);
    var acc := SumByOption(rows);
    var sorted := KSort(acc);
    r := Counts(sorted);
  }

  /** An option's entry in the sorted result is its count in the parse. */
  lemma SortedCountsLookup(parsed: seq<(Key, int)>, sorted: seq<(Key, int)>, o: Key, n: int)
    requires DistinctKeys(parsed) && multiset(sorted) == multiset(parsed)
    ensures (o, n) in sorted <==> Get(parsed, o) == Some(n)
  {
    GetDistinct(parsed, o, n);
    assert (o, n) in sorted <==> (o, n) in multiset(sorted);
    assert (o, n) in parsed <==> (o, n) in multiset(parsed);
  }
}
