/**
 * The mass attribute update of the product action resource: inside one
 * relational transaction, value rows of the SQL-kept attributes are
 * collected per entity and flushed every thousand entities and after each
 * attribute; then the documents receive the whole update, and the
 * transaction is committed, or rolled back when a write fails.
 */
module ProductAction {
  import opened Wrappers
  import opened Php
  import opened Eav
  import opened ProductResource
  import QueryBuilder

  /** The number of collected entities after which pending rows are flushed. */
  const FlushEvery: nat := 1000

  /** One collected value row: the entity, the attribute, the store of the update and the value. */
  datatype Row = Row(entityId: Value, attrId: int, storeId: nat, value: Value)

  /** Why the relational part stopped, if it did. */
  datatype Stop = Running | FlushFailed | UnknownAttribute(code: string)

  /**
   * The relational part of an update in progress: the batches flushed in the
   * open transaction, the rows collected since the last flush, and whether
   * the run stopped.
   */
  datatype Run = Run(written: seq<seq<Row>>, pending: seq<Row>, stop: Stop)

  /** How a call of `updateAttributes` ends. */
  datatype Outcome = Committed | RolledBack | Fatal(code: string)

  /** Every batch, in order, as one list of rows. */
  function Concat<T>(bs: seq<seq<T>>): (r: seq<T>)
    ensures |bs| == 1 ==> r == bs[0]
  {
    if bs == [] then [] else Concat(bs[..|bs| - 1]) + bs[|bs| - 1]
  }

  lemma ConcatAppend<T>(bs: seq<seq<T>>, b: seq<T>)
    ensures Concat(bs + [b]) == Concat(bs) + b
  {
    assert (bs + [b])[..|bs|] == bs;
  }

  /** The rows of one attribute: one per entity, in the order of the ids. */
  function Rows(entityIds: seq<(Key, Value)>, attrId: int, store: nat, v: Value): (r: seq<Row>)
    ensures |r| == |entityIds|
    ensures forall i :: 0 <= i < |r| ==> r[i] == Row(entityIds[i].1, attrId, store, v)
  {
    seq(|entityIds|, i requires 0 <= i < |entityIds| => Row(entityIds[i].1, attrId, store, v))
  }

  /**
   * `_processAttributeValues`: the pending rows are written as one batch and
   * cleared; a failing write (the `fails` oracle, asked with the number of
   * batches already written) stops the run and keeps the pending rows.
   */
  function FlushRun(r: Run, fails: nat -> bool): Run
  {
    if r.stop != Running then r
    else if fails(|r.written|) then r.(stop := FlushFailed)
    else Run(r.written + [r.pending], [], Running)
  }

  /** The `count`-th entity of an attribute: its row is collected, then flushed when `count` is a multiple of 1000. */
  function RowStep(r: Run, count: nat, row: Row, fails: nat -> bool): Run
  {
    if r.stop != Running then r
    else
      var r1 := r.(pending := r.pending + [row]);
      if count % FlushEvery == 0 then FlushRun(r1, fails) else r1
  }

  /** The entity loop of one attribute. */
  function EntityFold(r: Run, entityIds: seq<(Key, Value)>, attrId: int, store: nat, v: Value, fails: nat -> bool): Run
  {
    if entityIds == [] then r
    else
      var n := |entityIds| - 1;
      RowStep(EntityFold(r, entityIds[..n], attrId, store, v, fails), n + 1, Row(entityIds[n].1, attrId, store, v), fails)
  }

  /**
   * One entry of the attribute data: nothing for a code outside the SQL
   * list or an attribute without id; a fatal stop for an SQL code the
   * catalog does not know; otherwise the entity loop and a final flush.
   */
  function AttrStep(r: Run, code: string, v: Value, entityIds: seq<(Key, Value)>, store: nat,
                    sqlCodes: seq<string>, catalog: Catalog, fails: nat -> bool): Run
  {
    if r.stop != Running || code !in sqlCodes then r
    else match ByCode(catalog, code)
      case None => r.(stop := UnknownAttribute(code))
      case Some(a) => if a.id == 0 then r else FlushRun(EntityFold(r, entityIds, a.id, store, v, fails), fails)
  }

  /** The relational part of `updateAttributes` over the attribute data, in order. */
  function Plan(r: Run, attrData: seq<(string, Value)>, entityIds: seq<(Key, Value)>, store: nat,
                sqlCodes: seq<string>, catalog: Catalog, fails: nat -> bool): Run
  {
    if attrData == [] then r
    else
      var n := |attrData| - 1;
      AttrStep(Plan(r, attrData[..n], entityIds, store, sqlCodes, catalog, fails),
               attrData[n].0, attrData[n].1, entityIds, store, sqlCodes, catalog, fails)
  }

  /**
   * The rows the update is meant to write, without batching: for each
   * entry whose code is SQL-kept and names an attribute with an id, one row
   * per entity.
   */
  function AllRows(attrData: seq<(string, Value)>, entityIds: seq<(Key, Value)>, store: nat,
                   sqlCodes: seq<string>, catalog: Catalog): (r: seq<Row>)
    ensures attrData == [] ==> r == []
  {
    if attrData == [] then []
    else
      var n := |attrData| - 1;
      AllRows(attrData[..n], entityIds, store, sqlCodes, catalog) + AttrRows(attrData[n].0, attrData[n].1, entityIds, store, sqlCodes, catalog)
  }

  /** The rows meant for one entry of the attribute data. */
  function AttrRows(code: string, v: Value, entityIds: seq<(Key, Value)>, store: nat,
                    sqlCodes: seq<string>, catalog: Catalog): seq<Row>
  {
    if code in sqlCodes && ByCode(catalog, code).Some? && ByCode(catalog, code).value.id != 0
    then Rows(entityIds, ByCode(catalog, code).value.id, store, v) else []
  }

  /**
   * Every row meant to be written is in the store of the update, for one
   * of the entities, and carries the value of an SQL-kept code under the
   * non-zero id of its attribute.
   */
  lemma {:induction false} AllRowsAreSql(attrData: seq<(string, Value)>, entityIds: seq<(Key, Value)>, store: nat,
                                         sqlCodes: seq<string>, catalog: Catalog, row: Row)
    requires row in AllRows(attrData, entityIds, store, sqlCodes, catalog)
    ensures row.storeId == store && row.attrId != 0
    ensures exists j :: 0 <= j < |entityIds| && entityIds[j].1 == row.entityId
    ensures exists k :: (0 <= k < |attrData| && attrData[k].0 in sqlCodes && attrData[k].1 == row.value &&
                         ByCode(catalog, attrData[k].0).Some? && ByCode(catalog, attrData[k].0).value.id == row.attrId)
  {
    var n := |attrData| - 1;
    var pre := AllRows(attrData[..n], entityIds, store, sqlCodes, catalog);
    if row in pre {
      AllRowsAreSql(attrData[..n], entityIds, store, sqlCodes, catalog, row);
      var k :| 0 <= k < n && attrData[..n][k].0 in sqlCodes && attrData[..n][k].1 == row.value &&
        ByCode(catalog, attrData[..n][k].0).Some? && ByCode(catalog, attrData[..n][k].0).value.id == row.attrId;
      assert attrData[k] == attrData[..n][k];
    } else {
      var own := AttrRows(attrData[n].0, attrData[n].1, entityIds, store, sqlCodes, catalog);
      assert row in own;
      var j :| 0 <= j < |own| && own[j] == row;
      assert entityIds[j].1 == row.entityId;
    }
  }

  /** Once stopped, the rest of an entity loop changes nothing. */
  lemma {:induction false} EntityFoldStopped(r: Run, entityIds: seq<(Key, Value)>, attrId: int, store: nat, v: Value,
                                             fails: nat -> bool, k: nat)
    requires k <= |entityIds|
    requires EntityFold(r, entityIds[..k], attrId, store, v, fails).stop != Running
    ensures EntityFold(r, entityIds, attrId, store, v, fails) == EntityFold(r, entityIds[..k], attrId, store, v, fails)
  {
    if k < |entityIds| {
      var n := |entityIds| - 1;
      assert entityIds[..n][..k] == entityIds[..k];
      EntityFoldStopped(r, entityIds[..n], attrId, store, v, fails, k);
    } else {
      assert entityIds[..k] == entityIds;
    }
  }

  /** Once stopped, the rest of the attribute data changes nothing. */
  lemma PlanStep(r: Run, attrData: seq<(string, Value)>, entityIds: seq<(Key, Value)>, store: nat,
                 sqlCodes: seq<string>, catalog: Catalog, fails: nat -> bool, i: nat)
    requires i < |attrData|
    ensures Plan(r, attrData[..i + 1], entityIds, store, sqlCodes, catalog, fails) ==
      AttrStep(Plan(r, attrData[..i], entityIds, store, sqlCodes, catalog, fails), attrData[i].0, attrData[i].1, entityIds, store, sqlCodes, catalog, fails)
  {
    assert attrData[..i + 1][..i] == attrData[..i];
  }

  lemma {:induction false} PlanStopped(r: Run, attrData: seq<(string, Value)>, entityIds: seq<(Key, Value)>, store: nat,
                                       sqlCodes: seq<string>, catalog: Catalog, fails: nat -> bool, k: nat)
    requires k <= |attrData|
    requires Plan(r, attrData[..k], entityIds, store, sqlCodes, catalog, fails).stop != Running
    ensures Plan(r, attrData, entityIds, store, sqlCodes, catalog, fails) == Plan(r, attrData[..k], entityIds, store, sqlCodes, catalog, fails)
  {
    if k < |attrData| {
      var n := |attrData| - 1;
      assert attrData[..n][..k] == attrData[..k];
      PlanStopped(r, attrData[..n], entityIds, store, sqlCodes, catalog, fails, k);
    } else {
      assert attrData[..k] == attrData;
    }
  }

  /**
   * The flush schedule of one attribute's entity loop, started with nothing
   * pending: earlier batches are kept, every batch it writes holds exactly
   * 1000 rows, one per thousand entities, and what stays pending is the
   * remainder.
   */
  lemma {:induction false} EntityFoldSizes(r: Run, entityIds: seq<(Key, Value)>, attrId: int, store: nat, v: Value,
                                           fails: nat -> bool)
    requires r.pending == [] && r.stop == Running
    ensures var r' := EntityFold(r, entityIds, attrId, store, v, fails);
      |r.written| <= |r'.written| && r'.written[..|r.written|] == r.written &&
      (forall j :: |r.written| <= j < |r'.written| ==> |r'.written[j]| == FlushEvery) &&
      |r'.pending| <= FlushEvery &&
      (r'.stop == Running ==> |r'.pending| == |entityIds| % FlushEvery && |r'.written| == |r.written| + |entityIds| / FlushEvery)
  {
    if entityIds != [] {
      var n := |entityIds| - 1;
      var row := Row(entityIds[n].1, attrId, store, v);
      var m := EntityFold(r, entityIds[..n], attrId, store, v, fails);
      EntityFoldSizes(r, entityIds[..n], attrId, store, v, fails);
      if m.stop == Running {
        var q := n / FlushEvery;
        assert n == FlushEvery * q + n % FlushEvery;
        if (n + 1) % FlushEvery == 0 {
          assert n % FlushEvery == FlushEvery - 1;
          assert (n + 1) / FlushEvery == q + 1;
        } else {
          assert n % FlushEvery < FlushEvery - 1;
          assert (n + 1) % FlushEvery == n % FlushEvery + 1;
          assert (n + 1) / FlushEvery == q;
        }
      }
    }
  }

  /** While running, flushed and pending rows together are the rows collected so far, in order. */
  lemma {:induction false} EntityFoldRows(r: Run, entityIds: seq<(Key, Value)>, attrId: int, store: nat, v: Value,
                                          fails: nat -> bool)
    requires EntityFold(r, entityIds, attrId, store, v, fails).stop == Running
    ensures var r' := EntityFold(r, entityIds, attrId, store, v, fails);
      Concat(r'.written) + r'.pending == Concat(r.written) + r.pending + Rows(entityIds, attrId, store, v)
  {
    if entityIds == [] {
      assert Rows(entityIds, attrId, store, v) == [];
    } else {
      var n := |entityIds| - 1;
      var row := Row(entityIds[n].1, attrId, store, v);
      var m := EntityFold(r, entityIds[..n], attrId, store, v, fails);
      EntityFoldRows(r, entityIds[..n], attrId, store, v, fails);
      RowsLast(entityIds, attrId, store, v);
      RowStepRows(m, n + 1, row, fails);
    }
  }

  lemma RowsLast(entityIds: seq<(Key, Value)>, attrId: int, store: nat, v: Value)
    requires entityIds != []
    ensures Rows(entityIds, attrId, store, v) ==
      Rows(entityIds[..|entityIds| - 1], attrId, store, v) + [Row(entityIds[|entityIds| - 1].1, attrId, store, v)]
  {
  }

  /** A running entity step adds its row after everything flushed or pending. */
  lemma RowStepRows(m: Run, count: nat, row: Row, fails: nat -> bool)
    requires RowStep(m, count, row, fails).stop == Running
    ensures var r' := RowStep(m, count, row, fails);
      Concat(r'.written) + r'.pending == Concat(m.written) + m.pending + [row]
  {
    if count % FlushEvery == 0 {
      ConcatAppend(m.written, m.pending + [row]);
    }
  }

  /** The invariant of the attribute loop: no batch is larger than 1000 rows, and a running plan has nothing pending. */
  ghost predicate Bounded(r: Run)
  {
    (forall j :: 0 <= j < |r.written| ==> |r.written[j]| <= FlushEvery) &&
    (r.stop == Running ==> r.pending == [])
  }

  lemma {:induction false} AttrStepBounded(r: Run, code: string, v: Value, entityIds: seq<(Key, Value)>, store: nat,
                                           sqlCodes: seq<string>, catalog: Catalog, fails: nat -> bool)
    requires Bounded(r)
    ensures Bounded(AttrStep(r, code, v, entityIds, store, sqlCodes, catalog, fails))
  {
    if r.stop == Running && code in sqlCodes && ByCode(catalog, code).Some? && ByCode(catalog, code).value.id != 0 {
      var m := EntityFold(r, entityIds, ByCode(catalog, code).value.id, store, v, fails);
      EntityFoldSizes(r, entityIds, ByCode(catalog, code).value.id, store, v, fails);
      assert forall j :: 0 <= j < |r.written| ==> m.written[j] == r.written[j];
    }
  }

  /** Started afresh, the update never writes a batch of more than 1000 rows. */
  lemma {:induction false} PlanBatchSizes(attrData: seq<(string, Value)>, entityIds: seq<(Key, Value)>, store: nat,
                                          sqlCodes: seq<string>, catalog: Catalog, fails: nat -> bool)
    ensures var r := Plan(Run([], [], Running), attrData, entityIds, store, sqlCodes, catalog, fails);
      forall j :: 0 <= j < |r.written| ==> |r.written[j]| <= FlushEvery
    ensures Bounded(Plan(Run([], [], Running), attrData, entityIds, store, sqlCodes, catalog, fails))
  {
    if attrData != [] {
      var n := |attrData| - 1;
      PlanBatchSizes(attrData[..n], entityIds, store, sqlCodes, catalog, fails);
      AttrStepBounded(Plan(Run([], [], Running), attrData[..n], entityIds, store, sqlCodes, catalog, fails),
                      attrData[n].0, attrData[n].1, entityIds, store, sqlCodes, catalog, fails);
    }
  }

  /**
   * Started afresh, a run that did not stop has written exactly the rows of
   * the SQL-kept attributes with an id, one per entity, in order, and left
   * nothing pending.
   */
  lemma {:induction false} PlanRows(attrData: seq<(string, Value)>, entityIds: seq<(Key, Value)>, store: nat,
                                    sqlCodes: seq<string>, catalog: Catalog, fails: nat -> bool)
    requires Plan(Run([], [], Running), attrData, entityIds, store, sqlCodes, catalog, fails).stop == Running
    ensures var r := Plan(Run([], [], Running), attrData, entityIds, store, sqlCodes, catalog, fails);
      r.pending == [] && Concat(r.written) == AllRows(attrData, entityIds, store, sqlCodes, catalog)
  {
    if attrData != [] {
      var n := |attrData| - 1;
      var m := Plan(Run([], [], Running), attrData[..n], entityIds, store, sqlCodes, catalog, fails);
      PlanRows(attrData[..n], entityIds, store, sqlCodes, catalog, fails);
      AttrStepRows(m, attrData[n].0, attrData[n].1, entityIds, store, sqlCodes, catalog, fails);
    }
  }

  /** A running entry step from nothing pending writes exactly the entry's rows. */
  lemma {:induction false} AttrStepRows(m: Run, code: string, v: Value, entityIds: seq<(Key, Value)>, store: nat,
                                        sqlCodes: seq<string>, catalog: Catalog, fails: nat -> bool)
    requires m.pending == []
    requires AttrStep(m, code, v, entityIds, store, sqlCodes, catalog, fails).stop == Running
    ensures var r := AttrStep(m, code, v, entityIds, store, sqlCodes, catalog, fails);
      r.pending == [] && Concat(r.written) == Concat(m.written) + AttrRows(code, v, entityIds, store, sqlCodes, catalog)
  {
    var r := AttrStep(m, code, v, entityIds, store, sqlCodes, catalog, fails);
    if m.stop == Running && code in sqlCodes {
      match ByCode(catalog, code)
      case None =>
        assert false;
      case Some(a) =>
        if a.id != 0 {
          var e := EntityFold(m, entityIds, a.id, store, v, fails);
          assert r == FlushRun(e, fails);
          assert e.stop == Running && !fails(|e.written|);
          EntityFoldRows(m, entityIds, a.id, store, v, fails);
          ConcatAppend(e.written, e.pending);
        }
    }
  }

  /** Without write failures and with every SQL code of the data known, the relational part runs to the end. */
  lemma {:induction false} PlanCompletes(attrData: seq<(string, Value)>, entityIds: seq<(Key, Value)>, store: nat,
                                         sqlCodes: seq<string>, catalog: Catalog, fails: nat -> bool)
    requires forall j :: !fails(j)
    requires forall k :: 0 <= k < |attrData| && attrData[k].0 in sqlCodes ==> ByCode(catalog, attrData[k].0).Some?
    ensures Plan(Run([], [], Running), attrData, entityIds, store, sqlCodes, catalog, fails).stop == Running
  {
    if attrData != [] {
      var n := |attrData| - 1;
      PlanCompletes(attrData[..n], entityIds, store, sqlCodes, catalog, fails);
      var (code, v) := attrData[n];
      if code in sqlCodes && ByCode(catalog, code).value.id != 0 {
        EntityFoldRunning(Plan(Run([], [], Running), attrData[..n], entityIds, store, sqlCodes, catalog, fails),
                          entityIds, ByCode(catalog, code).value.id, store, v, fails);
      }
    }
  }

  lemma {:induction false} EntityFoldRunning(r: Run, entityIds: seq<(Key, Value)>, attrId: int, store: nat, v: Value,
                                             fails: nat -> bool)
    requires forall j :: !fails(j)
    requires r.stop == Running
    ensures EntityFold(r, entityIds, attrId, store, v, fails).stop == Running
  {
    if entityIds != [] {
      EntityFoldRunning(r, entityIds[..|entityIds| - 1], attrId, store, v, fails);
    }
  }

  /** The product action resource, over the product resource that owns the documents. */
  class Action {
    const resource: Resource
    /** `_attributeValuesToSave`: rows collected and not yet flushed. */
    var pending: seq<Row>
    /** The batches written in the open transaction. */
    var batches: seq<seq<Row>>
    /** The committed value rows. */
    var stored: seq<Row>

    ghost predicate Valid()
      reads this, resource, resource.docs
    {
      resource.Valid()
    }

    constructor (resource: Resource)
      requires resource.Valid()
      ensures Valid() && this.resource == resource
      ensures pending == [] && batches == [] && stored == []
    {
      this.resource := resource;
      pending := [];
      batches := [];
      stored := [];
    }

    /** The relational state as a run with the given stop. */
    function Current(stop: Stop): Run
      reads this
    {
      Run(batches, pending, stop)
    }

    /** `_processAttributeValues`. */
    method ProcessAttributeValues(fails: nat -> bool) returns (ok: bool)
      modifies this
      ensures Current(if ok then Running else FlushFailed) == FlushRun(old(Current(Running)), fails)
      ensures stored == old(stored)
    {
      if fails(|batches|) {
        ok := false;
      } else {
        batches := batches + [pending];
        pending := [];
        ok := true;
      }
    }

    /** The loop over the attribute data, up to the first stop. */
    method PlanLoop(entityIds: seq<(Key, Value)>, attrData: seq<(string, Value)>, store: nat, fails: nat -> bool,
                    sqlCodes: seq<string>) returns (stop: Stop, i: nat)
      modifies this
      ensures i <= |attrData| && (stop == Running ==> i == |attrData|)
      ensures Current(stop) == Plan(old(Current(Running)), attrData[..i], entityIds, store, sqlCodes, resource.attributes, fails)
      ensures stored == old(stored)
    {
      ghost var r0 := Current(Running);
      i := 0;
      stop := Running;
      while i < |attrData| && stop == Running
        invariant 0 <= i <= |attrData|
        invariant Current(stop) == Plan(r0, attrData[..i], entityIds, store, sqlCodes, resource.attributes, fails)
        invariant stored == old(stored)
      {
        PlanStep(r0, attrData, entityIds, store, sqlCodes, resource.attributes, fails, i);
        stop := AttributeRows(attrData[i].0, attrData[i].1, entityIds, store, fails, sqlCodes);
        i := i + 1;
      }
    }

    /** One turn of the attribute loop: the rows of an SQL-kept attribute, or the stop its missing attribute causes. */
    method AttributeRows(code: string, v: Value, entityIds: seq<(Key, Value)>, store: nat, fails: nat -> bool,
                         sqlCodes: seq<string>) returns (stop: Stop)
      modifies this
      ensures Current(stop) == AttrStep(old(Current(Running)), code, v, entityIds, store, sqlCodes, resource.attributes, fails)
      ensures stored == old(stored)
    {
      stop := Running;
      if code in sqlCodes {
        var attr := ByCode(resource.attributes, code);
        if attr.None? {
          stop := UnknownAttribute(code);
        } else if attr.value.id != 0 {
          var ok := SaveEntities(entityIds, attr.value.id, store, v, fails);
          if !ok {
            stop := FlushFailed;
          }
        }
      }
    }

    /** The entity loop of one attribute and its final flush; `false` when a flush fails. */
    method SaveEntities(entityIds: seq<(Key, Value)>, attrId: int, store: nat, v: Value, fails: nat -> bool) returns (ok: bool)
      modifies this
      ensures Current(if ok then Running else FlushFailed) ==
        FlushRun(EntityFold(old(Current(Running)), entityIds, attrId, store, v, fails), fails)
      ensures stored == old(stored)
    {
      ghost var r0 := Current(Running);
      var i := 0;
      ok := true;
      while i < |entityIds| && ok
        invariant 0 <= i <= |entityIds|
        invariant Current(if ok then Running else FlushFailed) == EntityFold(r0, entityIds[..i], attrId, store, v, fails)
        invariant stored == old(stored)
      {
        assert entityIds[..i + 1][..i] == entityIds[..i];
        pending := pending + [Row(entityIds[i].1, attrId, store, v)];
        i := i + 1;
        if i % FlushEvery == 0 {
          ok := ProcessAttributeValues(fails);
        }
      }
      if ok {
        assert entityIds[..i] == entityIds;
        ok := ProcessAttributeValues(fails);
      } else {
        EntityFoldStopped(r0, entityIds, attrId, store, v, fails, i);
      }
    }

    /**
     * `updateAttributes`: in one transaction, the relational rows of the
     * SQL-kept attributes, then `massDataUpdate` with all of `attrData`,
     * then the commit. A failing flush rolls back before any document is
     * written; a `$set` that throws (at index `docFails`) and a failing
     * commit roll back the rows but not the documents already written; an
     * SQL code without attribute ends the call with nothing committed.
     */
    method UpdateAttributes(entityIds: seq<(Key, Value)>, attrData: seq<(string, Value)>, store: nat,
                            fails: nat -> bool, docFails: Option<nat>, commitFails: bool) returns (outcome: Outcome)
      requires Valid()
      modifies this, resource, resource.docs
      ensures Valid()
      ensures var r := Plan(Run([], old(pending), Running), attrData, entityIds, store,
                            SpecialCodes + resource.entityColumns, resource.attributes, fails);
        pending == r.pending &&
        match r.stop
          case UnknownAttribute(code) =>
            outcome == Fatal(code) && batches == r.written && stored == old(stored) &&
            resource.docs.docs == old(resource.docs.docs)
          case FlushFailed =>
            outcome == RolledBack && batches == [] && stored == old(stored) &&
            resource.docs.docs == old(resource.docs.docs)
          case Running =>
            var n := MassWritten(attrData, docFails);
            batches == [] &&
            resource.docs.docs == MassUpdate(old(resource.docs.docs), QueryBuilder.GetIdsFilter(QueryBuilder.IdArray(entityIds)),
                                             attrData[..n], store, resource.attributes, resource.parse) &&
            (n < |attrData| || commitFails ==> outcome == RolledBack && stored == old(stored)) &&
            (n == |attrData| && !commitFails ==> outcome == Committed && stored == old(stored) + Concat(r.written))
    {
      var sqlCodes := resource.GetSqlAttributesCodes();
      batches := [];
      ghost var r0 := Current(Running);
      var stop, i := PlanLoop(entityIds, attrData, store, fails, sqlCodes);
      if stop != Running {
        PlanStopped(r0, attrData, entityIds, store, sqlCodes, resource.attributes, fails, i);
        if stop == FlushFailed {
          batches := [];
          outcome := RolledBack;
        } else {
          outcome := Fatal(stop.code);
        }
        return;
      }
      assert attrData[..i] == attrData;
      var written := resource.MassDataUpdate(QueryBuilder.IdArray(entityIds), attrData, store, docFails);
      if !written || commitFails {
        batches := [];
        outcome := RolledBack;
      } else {
        stored := stored + Concat(batches);
        batches := [];
        outcome := Committed;
      }
    }
  }
}
