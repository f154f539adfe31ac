/**
 * The `_id` filter every component builds before reading or writing a
 * product document: a list of ids becomes an `$in` over a real (0-indexed)
 * list, a single id an equality, and every id goes through the 32-bit
 * integer wrapper first.
 */
module QueryBuilder {
  import opened Php
  import opened PhpArray

  /** The argument of the filter builder: a PHP array of ids (any keys) or one id. */
  datatype IdsArg = IdArray(entries: seq<(Key, Value)>) | IdScalar(id: Value)

  /** `{_id: {$in: ids}}` or `{_id: id}`. */
  datatype IdFilter = IdIn(ids: seq<int>) | IdEq(id: int)

  /** `new MongoInt32($v)`: the PHP integer conversion, wrapped to 32 bits. */
  function MongoInt32(v: Value): (r: int)
    ensures IsInt32(r)
    ensures IsInt32(IntCast(v)) ==> r == IntCast(v)
  {
    ToInt32(IntCast(v))
  }

  /** The in-place conversion loop: each entry keeps its key, its id is wrapped. */
  function WrapEach(entries: seq<(Key, Value)>): (r: seq<(Key, int)>)
    ensures |r| == |entries|
    ensures forall i :: 0 <= i < |r| ==> r[i] == (entries[i].0, MongoInt32(entries[i].1))
  {
    if entries == [] then [] else [(entries[0].0, MongoInt32(entries[0].1))] + WrapEach(entries[1..])
  }

  function GetIdsFilter(arg: IdsArg): IdFilter
  {
    match arg
    case IdArray(entries) => IdIn(Values(WrapEach(entries)))
    case IdScalar(id) => IdEq(MongoInt32(id))
  }

  /** Whether the document with id `id` is selected by the filter. */
  predicate Matches(f: IdFilter, id: int)
  {
    match f
    case IdIn(ids) => id in ids
    case IdEq(v) => id == v
  }

  /**
   * An id array yields `$in` over a list of the same length, in the same
   * order, whatever keys the input array had, each element the 32-bit id.
   */
  lemma ArrayFilter(entries: seq<(Key, Value)>)
    ensures GetIdsFilter(IdArray(entries)).IdIn?
    ensures |GetIdsFilter(IdArray(entries)).ids| == |entries|
    ensures forall i :: 0 <= i < |entries| ==>
      GetIdsFilter(IdArray(entries)).ids[i] == MongoInt32(entries[i].1) && IsInt32(GetIdsFilter(IdArray(entries)).ids[i])
  {
  }

  /** A scalar id yields a plain equality on the 32-bit id, never an `$in`. */
  lemma ScalarFilter(id: Value)
    ensures !GetIdsFilter(IdScalar(id)).IdIn?
    ensures GetIdsFilter(IdScalar(id)) == IdEq(MongoInt32(id))
  {
  }

  /** A document is selected by an id-array filter exactly when one of the ids converts to its id. */
  lemma ArrayFilterSelects(entries: seq<(Key, Value)>, id: int)
    ensures Matches(GetIdsFilter(IdArray(entries)), id) <==> exists i :: 0 <= i < |entries| && MongoInt32(entries[i].1) == id
  {
    var ids := GetIdsFilter(IdArray(entries)).ids;
    if id in ids {
      var i :| 0 <= i < |ids| && ids[i] == id;
      assert MongoInt32(entries[i].1) == id;
    }
  }

  /** The empty id array selects no document at all. */
  lemma EmptyArraySelectsNothing(id: int)
    ensures !Matches(GetIdsFilter(IdArray([])), id)
  {
  }

  /** A filter selects only ids a 32-bit integer can hold. */
  lemma SelectsOnlyInt32(arg: IdsArg, id: int)
    requires Matches(GetIdsFilter(arg), id)
    ensures IsInt32(id)
  {
    if arg.IdArray? {
      ArrayFilterSelects(arg.entries, id);
    }
  }
}
