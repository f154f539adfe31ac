/**
 * The media gallery backend of the document catalog. `afterLoad` builds
 * the image list a product is edited with from its stored gallery,
 * `beforeSave` moves the gallery out of the data saved as attributes, and
 * `afterSave` rebuilds the gallery from the edited image list, keyed by
 * the md5 of each file, and writes it back ordered by position.
 */
module MediaBackend {
  import opened Wrappers
  import opened Php
  import opened PhpArray
  import opened Documents
  import opened DocStore
  import opened CatalogProduct
  import opened MediaResource
  import QueryBuilder

  /** The admin store view, whose sub-record holds an image's defaults. */
  const AdminStore: nat := 0

  /** The per-store-view attributes of an image. */
  const LocalAttributes: seq<string> := ["label", "position", "disabled"]

  /** The parent backend's default for a missing per-store attribute, given the image so far. */
  type DefaultValue = (string, map<string, Value>) -> Value

  // ----- afterLoad

  /** The sub-record an image is shown with in a store view: that view's own, else the admin one. */
  function SubRecord(img: Image, storeId: nat): Option<Scope>
  {
    if storeId in img.stores then Some(img.stores[storeId])
    else if AdminStore in img.stores then Some(img.stores[AdminStore])
    else None
  }

  /**
   * The image fields merged with its sub-record: a field of the view's own
   * sub-record wins, then one of the admin sub-record, then the record's
   * own field.
   */
  function Merged(img: Image, storeId: nat): (r: map<string, Value>)
    ensures forall k :: k in r <==> k in img.fields || (SubRecord(img, storeId).Some? && k in SubRecord(img, storeId).value)
    ensures forall k :: storeId in img.stores && k in img.stores[storeId] ==> k in r && r[k] == img.stores[storeId][k]
    ensures forall k ::
        storeId !in img.stores && AdminStore in img.stores && k in img.stores[AdminStore] ==>
        k in r && r[k] == img.stores[AdminStore][k]
    ensures forall k ::
        k in img.fields && (SubRecord(img, storeId).None? || k !in SubRecord(img, storeId).value) ==>
        k in r && r[k] == img.fields[k]
  {
    match SubRecord(img, storeId)
    case Some(sub) => img.fields + sub
    case None => img.fields
  }

  /** One step of the default loop: a missing or null attribute gets its default. */
  function FillOne(f: map<string, Value>, k: string, defaults: DefaultValue): map<string, Value>
  {
    if k in f && f[k] != Null then f else f[k := defaults(k, f)]
  }

  /**
   * The default loop of `afterLoad` over `attrs`: every attribute listed
   * is then present, and every field that held a non-null value, or that
   * is not listed, keeps it.
   */
  function FillDefaults(f: map<string, Value>, attrs: seq<string>, defaults: DefaultValue): (r: map<string, Value>)
    ensures forall k :: k in r <==> k in f || k in attrs
    ensures forall k :: k in f && f[k] != Null ==> r[k] == f[k]
    ensures forall k :: k in f && k !in attrs ==> r[k] == f[k]
  {
    if attrs == [] then f
    else
      var pre := attrs[..|attrs| - 1];
      assert attrs == pre + [attrs[|attrs| - 1]];
      FillOne(FillDefaults(f, pre, defaults), attrs[|attrs| - 1], defaults)
  }

  lemma FillDefaultsStep(f: map<string, Value>, attrs: seq<string>, j: nat, defaults: DefaultValue)
    requires j < |attrs|
    ensures FillDefaults(f, attrs[..j + 1], defaults) == FillOne(FillDefaults(f, attrs[..j], defaults), attrs[j], defaults)
  {
    assert attrs[..j + 1][..j] == attrs[..j];
  }

  /** An image as `afterLoad` hands it on. */
  function Prepared(img: Image, storeId: nat, defaults: DefaultValue): (r: Image)
    ensures r.stores == img.stores
    ensures forall k :: k in LocalAttributes ==> k in r.fields
    ensures forall k :: k in Merged(img, storeId) && Merged(img, storeId)[k] != Null ==> k in r.fields && r.fields[k] == Merged(img, storeId)[k]
  {
    Image(FillDefaults(Merged(img, storeId), LocalAttributes, defaults), img.stores)
  }

  /** The key `$a[] = ...` appends under: one past the largest integer key, and never below 0. */
  function NextIndex<V>(a: seq<(Key, V)>): (n: int)
    ensures n >= 0
    ensures forall i :: 0 <= i < |a| && a[i].0.IntKey? ==> a[i].0.n < n
    ensures !HasKey(a, IntKey(n))
  {
    if a == [] then 0
    else
      var m := NextIndex(a[1..]);
      assert forall i :: 1 <= i < |a| ==> a[i] == a[1..][i - 1];
      if a[0].0.IntKey? && a[0].0.n >= m then a[0].0.n + 1 else m
  }

  /** The key an image with an admin sub-record is listed under: that sub-record's position. */
  function PositionKey(img: Image): Key
    requires AdminStore in img.stores
  {
    KeyOf(DataOf(img.stores[AdminStore], "position"))
  }

  /**
   * The keyed image list `afterLoad` builds before sorting: an image with
   * an admin sub-record under its admin position, where a later one with
   * the same position replaces it, and any other image appended.
   */
  function Arranged(loaded: seq<(Key, Image)>, storeId: nat, defaults: DefaultValue): (r: seq<(Key, Image)>)
    ensures DistinctKeys(r)
    ensures |r| <= |loaded|
    ensures FromLoaded(r, loaded, storeId, defaults)
  {
    if loaded == [] then []
    else
      var acc := Arranged(loaded[..|loaded| - 1], storeId, defaults);
      var r := Arrange(acc, loaded[|loaded| - 1].1, storeId, defaults);
      ArrangedFromLoaded(acc, loaded, storeId, defaults, r);
      r
  }

  /** One image of `afterLoad`'s loop, prepared and put under its admin position or appended. */
  function Arrange(acc: seq<(Key, Image)>, img: Image, storeId: nat, defaults: DefaultValue): (r: seq<(Key, Image)>)
    requires DistinctKeys(acc)
    ensures DistinctKeys(r) && |r| <= |acc| + 1
    ensures forall e :: e in r ==> e in acc || e.1 == Prepared(img, storeId, defaults)
  {
    var p := Prepared(img, storeId, defaults);
    if AdminStore in img.stores then
      PutDistinct(acc, PositionKey(img), p);
      Put(acc, PositionKey(img), p)
    else
      acc + [(IntKey(NextIndex(acc)), p)]
  }

  /** Every entry holds one of the loaded images, prepared for the store. */
  ghost predicate FromLoaded(r: seq<(Key, Image)>, loaded: seq<(Key, Image)>, storeId: nat, defaults: DefaultValue)
  {
    forall e :: e in r ==> exists i :: 0 <= i < |loaded| && e.1 == Prepared(loaded[i].1, storeId, defaults)
  }

  /** One step of `Arranged` adds only the last image, prepared, to entries that come from earlier images. */
  lemma ArrangedFromLoaded(acc: seq<(Key, Image)>, loaded: seq<(Key, Image)>, storeId: nat, defaults: DefaultValue, r: seq<(Key, Image)>)
    requires loaded != [] && FromLoaded(acc, loaded[..|loaded| - 1], storeId, defaults)
    requires forall e :: e in r ==> e in acc || e.1 == Prepared(loaded[|loaded| - 1].1, storeId, defaults)
    ensures FromLoaded(r, loaded, storeId, defaults)
  {
    var pre := loaded[..|loaded| - 1];
    forall e | e in r
      ensures exists i :: 0 <= i < |loaded| && e.1 == Prepared(loaded[i].1, storeId, defaults)
    {
      if e in acc {
        var i :| 0 <= i < |pre| && e.1 == Prepared(pre[i].1, storeId, defaults);
        assert pre[i] == loaded[i];
      } else {
        assert e.1 == Prepared(loaded[|loaded| - 1].1, storeId, defaults);
      }
    }
  }

  /** An image with an admin sub-record whose position no later such image takes is listed under that position. */
  lemma {:induction false} ArrangedPositioned(loaded: seq<(Key, Image)>, storeId: nat, defaults: DefaultValue, i: nat)
    requires i < |loaded| && AdminStore in loaded[i].1.stores
    requires forall j ::
        i < j < |loaded| && AdminStore in loaded[j].1.stores ==>
        PositionKey(loaded[j].1) != PositionKey(loaded[i].1)
    ensures Get(Arranged(loaded, storeId, defaults), PositionKey(loaded[i].1)) == Some(Prepared(loaded[i].1, storeId, defaults))
  {
    var pre := loaded[..|loaded| - 1];
    var acc := Arranged(pre, storeId, defaults);
    var img := loaded[|loaded| - 1].1;
    var p := Prepared(img, storeId, defaults);
    var k := PositionKey(loaded[i].1);
    if i == |loaded| - 1 {
      PutGet(acc, k, p, k);
    } else {
      assert pre[i] == loaded[i];
      ArrangedPositioned(pre, storeId, defaults, i);
      if AdminStore in img.stores {
        PutGet(acc, PositionKey(img), p, k);
      } else {
        var n := IntKey(NextIndex(acc));
        assert HasKey(acc, k);
        PutGet(acc, n, p, k);
      }
    }
  }

  /** `$a[] = ...` on a list keyed 0, 1, ... appends under the next number. */
  lemma {:induction false} NextIndexOfRange<V>(a: seq<(Key, V)>, base: nat)
    requires |a| > 0 && forall i :: 0 <= i < |a| ==> a[i].0 == IntKey(base + i)
    ensures NextIndex(a) == base + |a|
  {
    if |a| > 1 {
      NextIndexOfRange(a[1..], base + 1);
    }
  }

  /** The images of a gallery, each prepared for the store, in gallery order. */
  function PreparedAll(loaded: seq<(Key, Image)>, storeId: nat, defaults: DefaultValue): (r: seq<Image>)
    ensures |r| == |loaded| && forall i :: 0 <= i < |loaded| ==> r[i] == Prepared(loaded[i].1, storeId, defaults)
  {
    if loaded == [] then []
    else PreparedAll(loaded[..|loaded| - 1], storeId, defaults) + [Prepared(loaded[|loaded| - 1].1, storeId, defaults)]
  }

  /** A list keyed 0, 1, 2, ... in order. */
  function Numbered<V>(vs: seq<V>): (r: seq<(Key, V)>)
    ensures |r| == |vs| && forall i :: 0 <= i < |vs| ==> r[i] == (IntKey(i), vs[i])
  {
    seq(|vs|, i requires 0 <= i < |vs| => (IntKey(i), vs[i]))
  }

  /**
   * Without admin sub-records every image is appended, in gallery order:
   * the list is keyed 0, 1, 2, ... and holds the prepared images.
   */
  lemma {:induction false} ArrangedAppended(loaded: seq<(Key, Image)>, storeId: nat, defaults: DefaultValue)
    requires forall i :: 0 <= i < |loaded| ==> AdminStore !in loaded[i].1.stores
    ensures Arranged(loaded, storeId, defaults) == Numbered(PreparedAll(loaded, storeId, defaults))
  {
    if loaded != [] {
      var pre := loaded[..|loaded| - 1];
      assert forall i :: 0 <= i < |pre| ==> AdminStore !in pre[i].1.stores by {
        forall i | 0 <= i < |pre| ensures AdminStore !in pre[i].1.stores { assert pre[i] == loaded[i]; }
      }
      ArrangedAppended(pre, storeId, defaults);
      ArrangedAppendsLast(loaded, storeId, defaults);
      NumberedAppend(PreparedAll(pre, storeId, defaults), Prepared(loaded[|loaded| - 1].1, storeId, defaults));
    }
  }

  lemma ArrangedAppendsLast(loaded: seq<(Key, Image)>, storeId: nat, defaults: DefaultValue)
    requires loaded != [] && AdminStore !in loaded[|loaded| - 1].1.stores
    ensures var acc := Arranged(loaded[..|loaded| - 1], storeId, defaults);
      Arranged(loaded, storeId, defaults) == acc + [(IntKey(NextIndex(acc)), Prepared(loaded[|loaded| - 1].1, storeId, defaults))]
  {
  }

  /** Appending to a numbered list keys the new entry with the list's length. */
  lemma NumberedAppend<V>(vs: seq<V>, v: V)
    ensures NextIndex(Numbered(vs)) == |vs|
    ensures Numbered(vs + [v]) == Numbered(vs) + [(IntKey(|vs|), v)]
  {
    if vs != [] {
      NextIndexOfRange(Numbered(vs), 0);
    }
  }

  // ----- beforeSave

  /** The product data after `beforeSave`: the gallery moved to `<code>_tmp`. */
  function Stashed(data: map<string, Value>, code: string): (r: map<string, Value>)
    ensures code !in r
    ensures code + "_tmp" in r && r[code + "_tmp"] == DataOf(data, code)
    ensures forall k :: k != code && k != code + "_tmp" ==> (k in r <==> k in data)
    ensures forall k :: k != code && k != code + "_tmp" && k in r ==> r[k] == data[k]
  {
    assert |code + "_tmp"| == |code| + 4;
    data[code + "_tmp" := DataOf(data, code)] - {code}
  }

  // ----- afterSave

  /** One entry of the edited image list. */
  type ImageData = map<string, Value>

  /** `md5($imageData['file'])`, the image's `value_id`. */
  function Hash(d: ImageData, md5: Md5): string
  {
    md5(ToPhpString(DataOf(d, "file")))
  }

  /** The array key of an image in the rebuilt gallery. */
  function HashKey(d: ImageData, md5: Md5): Key
  {
    KeyOf(Str(Hash(d, md5)))
  }

  /** `!empty($imageData['removed'])`. */
  predicate Removed(d: ImageData)
  {
    !PhpEmpty(DataOf(d, "removed"))
  }

  /** `(int) $imageData['position']`. */
  function Position(d: ImageData): int
  {
    IntCast(DataOf(d, "position"))
  }

  /** The store-view sub-record an edited image is saved with. */
  function StoreData(d: ImageData): (r: Scope)
    ensures r.Keys == set k | k in LocalAttributes
    ensures r["position"] == Int(Position(d))
    ensures r["label"] == DataOf(d, "label") && r["disabled"] == DataOf(d, "disabled")
  {
    map["label" := DataOf(d, "label"), "position" := Int(Position(d)), "disabled" := DataOf(d, "disabled")]
  }

  /** An image's position in a store view, 0 where it has no sub-record there. */
  function StorePosition(img: Image, storeId: nat): int
  {
    if storeId in img.stores then IntCast(DataOf(img.stores[storeId], "position")) else 0
  }

  /** A rebuilt gallery and the positions of the images kept, both keyed by hash. */
  datatype Rebuild = Rebuild(gallery: seq<(Key, Image)>, sorted: seq<(Key, int)>)

  /**
   * The record of a kept image as the loop writes it: only the file, the
   * hash and the sub-records of the view being saved and of the admin
   * view, both the edited values.
   */
  function RecordAsWritten(d: ImageData, storeId: nat, md5: Md5): (r: Image)
    ensures r.stores.Keys == {storeId, AdminStore}
    ensures r.stores[storeId] == StoreData(d) && r.stores[AdminStore] == StoreData(d)
  {
    var stores := map[storeId := StoreData(d)];
    Image(map["file" := DataOf(d, "file"), "value_id" := Str(Hash(d, md5))],
          if AdminStore in stores then stores else stores[AdminStore := StoreData(d)])
  }

  /** One pass of the `afterSave` loop as written: a removed image leaves its position behind. */
  function StepAsWritten(rb: Rebuild, d: ImageData, storeId: nat, md5: Md5): Rebuild
  {
    var k := HashKey(d, md5);
    if Removed(d) then Rebuild(Unset(rb.gallery, k), rb.sorted)
    else Rebuild(Put(rb.gallery, k, RecordAsWritten(d, storeId, md5)), Put(rb.sorted, k, Position(d)))
  }

  /** The `afterSave` loop as written, from the loaded gallery. */
  function RebuiltAsWritten(loaded: seq<(Key, Image)>, images: seq<ImageData>, storeId: nat, md5: Md5): (r: Rebuild)
    ensures images == [] ==> r == Rebuild(loaded, [])
  {
    if images == [] then Rebuild(loaded, [])
    else StepAsWritten(RebuiltAsWritten(loaded, images[..|images| - 1], storeId, md5), images[|images| - 1], storeId, md5)
  }

  /** The records `afterSave` as written hands to the resource, by position entry; `None` is a null record. */
  function SavedAsWritten(rb: Rebuild): (r: seq<Option<Image>>)
    ensures |r| == |rb.sorted|
    ensures forall i :: 0 <= i < |r| ==> r[i] == Get(rb.gallery, rb.sorted[i].0)
  {
    seq(|rb.sorted|, i requires 0 <= i < |rb.sorted| => Get(rb.gallery, rb.sorted[i].0))
  }

  /**
   * The record of a kept image: the loaded record with the edited
   * sub-record for the view being saved; every other view's sub-record is
   * kept, and the admin one is set only where there was none.
   */
  function Record(prior: Option<Image>, d: ImageData, storeId: nat, md5: Md5): (r: Image)
    ensures storeId in r.stores && r.stores[storeId] == StoreData(d)
    ensures AdminStore in r.stores
    ensures prior.Some? ==>
        forall s :: s in prior.value.stores && s != storeId ==> s in r.stores && r.stores[s] == prior.value.stores[s]
    ensures (prior.None? || AdminStore !in prior.value.stores) ==> r.stores[AdminStore] == StoreData(d)
    ensures ValueIdOf(r) == Str(Hash(d, md5))
    ensures "file" in r.fields && r.fields["file"] == DataOf(d, "file")
  {
    var base := if prior.Some? then prior.value else Image(map[], map[]);
    var stores := base.stores[storeId := StoreData(d)];
    Image(base.fields["file" := DataOf(d, "file")]["value_id" := Str(Hash(d, md5))],
          if AdminStore in stores then stores else stores[AdminStore := StoreData(d)])
  }

  /** A record kept for the view `storeId` under key `k` at position `pos`. */
  predicate RecordAt(rec: Option<Image>, k: Key, pos: int, storeId: nat)
  {
    rec.Some? && ImageKey(rec.value) == k && AdminStore in rec.value.stores
    && storeId in rec.value.stores && StorePosition(rec.value, storeId) == pos
  }

  /** Every position entry has its record in the gallery, with that key and position. */
  ghost predicate Consistent(rb: Rebuild, storeId: nat)
  {
    DistinctKeys(rb.gallery) && DistinctKeys(rb.sorted)
    && forall k :: HasKey(rb.sorted, k) ==> RecordAt(Get(rb.gallery, k), k, Get(rb.sorted, k).value, storeId)
  }

  /** One pass of the `afterSave` loop: a removed image loses its record and its position. */
  function Step(rb: Rebuild, d: ImageData, storeId: nat, md5: Md5): Rebuild
  {
    var k := HashKey(d, md5);
    if Removed(d) then Rebuild(Unset(rb.gallery, k), Unset(rb.sorted, k))
    else Rebuild(Put(rb.gallery, k, Record(Get(rb.gallery, k), d, storeId, md5)), Put(rb.sorted, k, Position(d)))
  }

  lemma StepConsistent(rb: Rebuild, d: ImageData, storeId: nat, md5: Md5)
    requires Consistent(rb, storeId)
    ensures Consistent(Step(rb, d, storeId, md5), storeId)
  {
    var k := HashKey(d, md5);
    var r := Step(rb, d, storeId, md5);
    if Removed(d) {
      UnsetDistinct(rb.gallery, k);
      UnsetDistinct(rb.sorted, k);
      forall k' | HasKey(r.sorted, k')
        ensures RecordAt(Get(r.gallery, k'), k', Get(r.sorted, k').value, storeId)
      {
        UnsetHasKey(rb.sorted, k, k');
        UnsetGet(rb.gallery, k, k');
        UnsetGet(rb.sorted, k, k');
      }
    } else {
      var rec := Record(Get(rb.gallery, k), d, storeId, md5);
      PutDistinct(rb.gallery, k, rec);
      PutDistinct(rb.sorted, k, Position(d));
      forall k' | HasKey(r.sorted, k')
        ensures RecordAt(Get(r.gallery, k'), k', Get(r.sorted, k').value, storeId)
      {
        PutGet(rb.gallery, k, rec, k');
        PutGet(rb.sorted, k, Position(d), k');
      }
    }
  }

  /** The `afterSave` loop from the loaded gallery. */
  function Rebuilt(loaded: seq<(Key, Image)>, images: seq<ImageData>, storeId: nat, md5: Md5): (r: Rebuild)
    requires DistinctKeys(loaded)
    ensures Consistent(r, storeId)
  {
    if images == [] then Rebuild(loaded, [])
    else
      var acc := Rebuilt(loaded, images[..|images| - 1], storeId, md5);
      StepConsistent(acc, images[|images| - 1], storeId, md5);
      Step(acc, images[|images| - 1], storeId, md5)
  }

  /** The edit at `i` is the last one of its file and does not remove it. */
  predicate LastKept(images: seq<ImageData>, md5: Md5, i: int)
  {
    0 <= i < |images| && !Removed(images[i])
    && forall j :: i < j < |images| ==> HashKey(images[j], md5) != HashKey(images[i], md5)
  }

  /** Some edit of the file keyed `k` is its last one and keeps it. */
  ghost predicate KeptIn(images: seq<ImageData>, md5: Md5, k: Key)
  {
    exists i :: LastKept(images, md5, i) && HashKey(images[i], md5) == k
  }

  /** Dropping a later edit of another file does not change whether an edit is the last kept one of its file. */
  lemma LastKeptDrop(images: seq<ImageData>, md5: Md5, i: int)
    requires 0 <= i < |images| - 1 && HashKey(images[|images| - 1], md5) != HashKey(images[i], md5)
    ensures LastKept(images, md5, i) <==> LastKept(images[..|images| - 1], md5, i)
  {
    var pre := images[..|images| - 1];
    assert pre[i] == images[i];
    assert forall j :: i < j < |pre| ==> pre[j] == images[j];
  }

  /** An edit of another file leaves the question of keeping `k` to the earlier edits. */
  lemma KeptInOther(images: seq<ImageData>, md5: Md5, k: Key)
    requires images != [] && HashKey(images[|images| - 1], md5) != k
    ensures KeptIn(images, md5, k) <==> KeptIn(images[..|images| - 1], md5, k)
  {
    var pre := images[..|images| - 1];
    if KeptIn(pre, md5, k) {
      var i :| LastKept(pre, md5, i) && HashKey(pre[i], md5) == k;
      assert pre[i] == images[i];
      LastKeptDrop(images, md5, i);
    }
    if KeptIn(images, md5, k) {
      var i :| LastKept(images, md5, i) && HashKey(images[i], md5) == k;
      LastKeptDrop(images, md5, i);
      assert pre[i] == images[i];
    }
  }

  /** The last edit of the file keyed `k` decides whether it is kept. */
  lemma KeptInSame(images: seq<ImageData>, md5: Md5, k: Key)
    requires images != [] && HashKey(images[|images| - 1], md5) == k
    ensures KeptIn(images, md5, k) <==> !Removed(images[|images| - 1])
  {
    var n := |images| - 1;
    if !Removed(images[n]) {
      assert LastKept(images, md5, n);
    }
  }

  /** An image is kept exactly when the last edit of its file does not remove it. */
  lemma {:induction false} RebuiltKept(loaded: seq<(Key, Image)>, images: seq<ImageData>, storeId: nat, md5: Md5, k: Key)
    requires DistinctKeys(loaded)
    ensures HasKey(Rebuilt(loaded, images, storeId, md5).sorted, k) <==> KeptIn(images, md5, k)
  {
    if images != [] {
      var n := |images| - 1;
      var pre := images[..n];
      var d := images[n];
      var acc := Rebuilt(loaded, pre, storeId, md5);
      var kd := HashKey(d, md5);
      if kd == k {
        KeptInSame(images, md5, k);
        if !Removed(d) {
          PutGet(acc.sorted, k, Position(d), k);
        }
      } else {
        RebuiltKept(loaded, pre, storeId, md5, k);
        KeptInOther(images, md5, k);
        if Removed(d) {
          UnsetHasKey(acc.sorted, kd, k);
        } else {
          PutGet(acc.sorted, kd, Position(d), k);
        }
      }
    }
  }

  /** A kept image is saved with the edited values and position of the last edit of its file. */
  lemma {:induction false} RebuiltLastEdit(loaded: seq<(Key, Image)>, images: seq<ImageData>, storeId: nat, md5: Md5, i: nat)
    requires DistinctKeys(loaded) && LastKept(images, md5, i)
    ensures Get(Rebuilt(loaded, images, storeId, md5).sorted, HashKey(images[i], md5)) == Some(Position(images[i]))
    ensures Get(Rebuilt(loaded, images, storeId, md5).gallery, HashKey(images[i], md5)).Some?
    ensures Get(Rebuilt(loaded, images, storeId, md5).gallery, HashKey(images[i], md5)).value.stores[storeId] == StoreData(images[i])
  {
    var n := |images| - 1;
    var pre := images[..n];
    var d := images[n];
    var acc := Rebuilt(loaded, pre, storeId, md5);
    var k := HashKey(images[i], md5);
    assert Rebuilt(loaded, images, storeId, md5) == Step(acc, d, storeId, md5);
    if i == n {
      PutGet(acc.sorted, k, Position(d), k);
      PutGet(acc.gallery, k, Record(Get(acc.gallery, k), d, storeId, md5), k);
    } else {
      LastKeptDrop(images, md5, i);
      assert pre[i] == images[i];
      RebuiltLastEdit(loaded, pre, storeId, md5, i);
      var kd := HashKey(d, md5);
      if Removed(d) {
        UnsetGet(acc.sorted, kd, k);
        UnsetGet(acc.gallery, kd, k);
      } else {
        PutGet(acc.sorted, kd, Position(d), k);
        PutGet(acc.gallery, kd, Record(Get(acc.gallery, kd), d, storeId, md5), k);
      }
    }
  }

  /** An image no edit removes keeps the sub-records of the other store views it was loaded with. */
  lemma {:induction false} RebuiltKeepsOtherViews(loaded: seq<(Key, Image)>, images: seq<ImageData>, storeId: nat, md5: Md5, k: Key, s: nat)
    requires DistinctKeys(loaded)
    requires Get(loaded, k).Some? && s in Get(loaded, k).value.stores && s != storeId
    requires forall i :: 0 <= i < |images| && HashKey(images[i], md5) == k ==> !Removed(images[i])
    ensures Get(Rebuilt(loaded, images, storeId, md5).gallery, k).Some?
    ensures s in Get(Rebuilt(loaded, images, storeId, md5).gallery, k).value.stores
    ensures Get(Rebuilt(loaded, images, storeId, md5).gallery, k).value.stores[s] == Get(loaded, k).value.stores[s]
  {
    if images != [] {
      var n := |images| - 1;
      var pre := images[..n];
      var d := images[n];
      var acc := Rebuilt(loaded, pre, storeId, md5);
      assert forall i :: 0 <= i < n ==> pre[i] == images[i];
      RebuiltKeepsOtherViews(loaded, pre, storeId, md5, k, s);
      var kd := HashKey(d, md5);
      if Removed(d) {
        UnsetGet(acc.gallery, kd, k);
      } else {
        PutGet(acc.gallery, kd, Record(Get(acc.gallery, kd), d, storeId, md5), k);
      }
    }
  }

  /** The saved gallery: the kept records in position order, one per file. */
  ghost predicate SavedGallery(rb: Rebuild, saved: seq<Image>, storeId: nat)
  {
    |saved| == |rb.sorted|
    && (forall x :: x in saved <==> exists k :: HasKey(rb.sorted, k) && Get(rb.gallery, k) == Some(x))
    && (forall i, j :: 0 <= i < j < |saved| ==> StorePosition(saved[i], storeId) <= StorePosition(saved[j], storeId))
    && (forall i, j :: 0 <= i < j < |saved| ==> ImageKey(saved[i]) != ImageKey(saved[j]))
  }

  /** The `$savedGallery[$hash] = $galleryData[$hash]` loop over the ordered positions. */
  function SavedEntries(g: seq<(Key, Image)>, ordered: seq<(Key, int)>): (r: seq<(Key, Image)>)
    requires DistinctKeys(ordered) && forall j :: 0 <= j < |ordered| ==> Get(g, ordered[j].0).Some?
    ensures |r| == |ordered|
    ensures forall j :: 0 <= j < |ordered| ==> r[j] == (ordered[j].0, Get(g, ordered[j].0).value)
  {
    if ordered == [] then []
    else
      var n := |ordered| - 1;
      var acc := SavedEntries(g, ordered[..n]);
      assert !HasKey(acc, ordered[n].0) by {
        forall j | 0 <= j < |acc| ensures acc[j].0 != ordered[n].0 {
          assert ordered[..n][j] == ordered[j];
        }
      }
      Put(acc, ordered[n].0, Get(g, ordered[n].0).value)
  }

  /** Every entry of a reordering of the positions has its record, with that key and position. */
  lemma OrderedRecords(rb: Rebuild, ordered: seq<(Key, int)>, storeId: nat)
    requires Consistent(rb, storeId) && multiset(ordered) == multiset(rb.sorted)
    ensures DistinctKeys(ordered)
    ensures forall j :: 0 <= j < |ordered| ==> HasKey(rb.sorted, ordered[j].0)
    ensures forall j :: 0 <= j < |ordered| ==> RecordAt(Get(rb.gallery, ordered[j].0), ordered[j].0, ordered[j].1, storeId)
  {
    PermutationDistinctKeys(rb.sorted, ordered);
    forall j | 0 <= j < |ordered|
      ensures HasKey(rb.sorted, ordered[j].0)
      ensures RecordAt(Get(rb.gallery, ordered[j].0), ordered[j].0, ordered[j].1, storeId)
    {
      assert ordered[j] in multiset(rb.sorted);
      var m :| 0 <= m < |rb.sorted| && rb.sorted[m] == ordered[j];
      GetDistinct(rb.sorted, ordered[j].0, ordered[j].1);
    }
  }

  /** Sorting the positions and looking up their records gives the saved gallery. */
  lemma {:induction false} SavedGalleryOfOrdered(rb: Rebuild, ordered: seq<(Key, int)>, storeId: nat)
    requires Consistent(rb, storeId) && multiset(ordered) == multiset(rb.sorted) && SortedByValue(ordered)
    requires DistinctKeys(ordered) && forall j :: 0 <= j < |ordered| ==> Get(rb.gallery, ordered[j].0).Some?
    ensures SavedGallery(rb, Values(SavedEntries(rb.gallery, ordered)), storeId)
  {
    OrderedRecords(rb, ordered, storeId);
    assert |ordered| == |multiset(ordered)| == |multiset(rb.sorted)| == |rb.sorted|;
    SavedMembers(rb, ordered);
  }

  /** The saved records are exactly the records of the kept positions. */
  lemma SavedMembers(rb: Rebuild, ordered: seq<(Key, int)>)
    requires multiset(ordered) == multiset(rb.sorted)
    requires DistinctKeys(ordered) && forall j :: 0 <= j < |ordered| ==> Get(rb.gallery, ordered[j].0).Some?
    requires forall j :: 0 <= j < |ordered| ==> HasKey(rb.sorted, ordered[j].0)
    ensures var saved := Values(SavedEntries(rb.gallery, ordered));
      forall x :: x in saved <==> exists k :: HasKey(rb.sorted, k) && Get(rb.gallery, k) == Some(x)
  {
    var saved := Values(SavedEntries(rb.gallery, ordered));
    forall x ensures x in saved <==> exists k :: HasKey(rb.sorted, k) && Get(rb.gallery, k) == Some(x) {
      if x in saved {
        SavedIsKept(rb, ordered, x);
      }
      if exists k :: HasKey(rb.sorted, k) && Get(rb.gallery, k) == Some(x) {
        var k :| HasKey(rb.sorted, k) && Get(rb.gallery, k) == Some(x);
        SavedHasKept(rb, ordered, k);
      }
    }
  }

  /** Every saved record is the record of a kept position. */
  lemma SavedIsKept(rb: Rebuild, ordered: seq<(Key, int)>, x: Image)
    requires DistinctKeys(ordered) && forall j :: 0 <= j < |ordered| ==> Get(rb.gallery, ordered[j].0).Some?
    requires forall j :: 0 <= j < |ordered| ==> HasKey(rb.sorted, ordered[j].0)
    requires x in Values(SavedEntries(rb.gallery, ordered))
    ensures exists k :: HasKey(rb.sorted, k) && Get(rb.gallery, k) == Some(x)
  {
    var saved := Values(SavedEntries(rb.gallery, ordered));
    var j :| 0 <= j < |saved| && saved[j] == x;
    assert HasKey(rb.sorted, ordered[j].0) && Get(rb.gallery, ordered[j].0) == Some(x);
  }

  /** Every kept position's record is saved. */
  lemma SavedHasKept(rb: Rebuild, ordered: seq<(Key, int)>, k: Key)
    requires multiset(ordered) == multiset(rb.sorted)
    requires DistinctKeys(ordered) && forall j :: 0 <= j < |ordered| ==> Get(rb.gallery, ordered[j].0).Some?
    requires HasKey(rb.sorted, k) && Get(rb.gallery, k).Some?
    ensures Get(rb.gallery, k).value in Values(SavedEntries(rb.gallery, ordered))
  {
    var saved := Values(SavedEntries(rb.gallery, ordered));
    var m :| 0 <= m < |rb.sorted| && rb.sorted[m].0 == k;
    assert rb.sorted[m] in multiset(ordered);
    var j :| 0 <= j < |ordered| && ordered[j] == rb.sorted[m];
    assert saved[j] == Get(rb.gallery, k).value;
  }

  lemma RebuiltStep(loaded: seq<(Key, Image)>, list: seq<ImageData>, i: nat, storeId: nat, md5: Md5)
    requires DistinctKeys(loaded) && i < |list|
    ensures Rebuilt(loaded, list[..i + 1], storeId, md5) == Step(Rebuilt(loaded, list[..i], storeId, md5), list[i], storeId, md5)
  {
    assert list[..i + 1][..i] == list[..i];
  }

  lemma SavedEntriesStep(g: seq<(Key, Image)>, ordered: seq<(Key, int)>, i: nat)
    requires DistinctKeys(ordered) && forall j :: 0 <= j < |ordered| ==> Get(g, ordered[j].0).Some?
    requires i < |ordered|
    ensures SavedEntries(g, ordered[..i + 1]) == Put(SavedEntries(g, ordered[..i]), ordered[i].0, Get(g, ordered[i].0).value)
  {
    assert ordered[..i + 1][..i] == ordered[..i];
  }

  /** The gallery behaviour over the product's document. */
  class Backend {
    const resource: Resource
    const code: string
    const md5: Md5
    const defaults: DefaultValue

    constructor (resource: Resource, code: string, md5: Md5, defaults: DefaultValue)
      ensures this.resource == resource && this.code == code && this.md5 == md5 && this.defaults == defaults
    {
      this.resource := resource;
      this.code := code;
      this.md5 := md5;
      this.defaults := defaults;
    }

    /** The loop of `afterLoad` over the loaded records. */
    method ArrangeImages(loaded: seq<(Key, Image)>, storeId: nat) returns (value: seq<(Key, Image)>)
      ensures value == Arranged(loaded, storeId, defaults)
    {
      value := [];
      for i := 0 to |loaded|
        invariant value == Arranged(loaded[..i], storeId, defaults)
      {
        assert loaded[..i + 1][..i] == loaded[..i];
        var img := loaded[i].1;
        var prepared := PrepareImage(img, storeId);
        if AdminStore in img.stores {
          value := Put(value, PositionKey(img), prepared);
        } else {
          value := Put(value, IntKey(NextIndex(value)), prepared);
        }
      }
      assert loaded[..|loaded|] == loaded;
    }

    /**
     * `afterLoad`: the images the product is edited with, in the order of
     * their keys, re-indexed.
     */
    method AfterLoad(product: Product) returns (images: seq<Image>)
      requires resource.docs.Valid()
      ensures exists sorted ::
          SortedByKey(sorted) && images == Values(sorted)
          && multiset(sorted) == multiset(Arranged(Loaded(resource.docs.docs, product.id, code), product.storeId, defaults))
    {
      var loaded := resource.LoadData(product.id, code);
      var value := ArrangeImages(loaded, product.storeId);
      var sorted := KSort(value);
      images := Reindexed(sorted);
    }

    /** The `$sortedImages[] = $sortedImage` loop: the values, re-indexed from 0. */
    static method Reindexed(sorted: seq<(Key, Image)>) returns (images: seq<Image>)
      ensures images == Values(sorted)
    {
      images := [];
      for i := 0 to |sorted|
        invariant images == Values(sorted[..i])
      {
        images := images + [sorted[i].1];
      }
      assert sorted[..|sorted|] == sorted;
    }

    /** The merge and default loops of `afterLoad` for one image. */
    method PrepareImage(img: Image, storeId: nat) returns (prepared: Image)
      ensures prepared == Prepared(img, storeId, defaults)
    {
      var fields := img.fields;
      if storeId in img.stores {
        fields := img.fields + img.stores[storeId];
      } else if AdminStore in img.stores {
        fields := img.fields + img.stores[AdminStore];
      }
      assert fields == Merged(img, storeId);
      for j := 0 to |LocalAttributes|
        invariant fields == FillDefaults(Merged(img, storeId), LocalAttributes[..j], defaults)
      {
        FillDefaultsStep(Merged(img, storeId), LocalAttributes, j, defaults);
        var k := LocalAttributes[j];
        if k !in fields || fields[k] == Null {
          fields := fields[k := defaults(k, fields)];
        }
      }
      assert LocalAttributes[..|LocalAttributes|] == LocalAttributes;
      prepared := Image(fields, img.stores);
    }

    /** `beforeSave`: the gallery is moved to `<code>_tmp` so it is not saved as an attribute. */
    method BeforeSave(product: Product)
      modifies product
      ensures product.data == Stashed(old(product.data), code)
      ensures product.id == old(product.id) && product.isNew == old(product.isNew)
    {
      product.data := product.data[code + "_tmp" := DataOf(product.data, code)];
      product.data := product.data - {code};
    }

    /**
     * `afterSave`: the gallery rebuilt from the edited image list `edits`
     * (`None` when the list is not set) over the loaded one, written back
     * as the kept records in position order.
     */
    method AfterSave(product: Product, edits: Option<seq<ImageData>>) returns (saved: seq<Image>)
      requires resource.docs.Valid()
      modifies resource.docs
      ensures resource.docs.Valid()
      ensures resource.docs.docs == SetGalleryOf(old(resource.docs.docs), QueryBuilder.MongoInt32(product.id), code, saved)
      ensures SavedGallery(Rebuilt(Loaded(old(resource.docs.docs), product.id, code), edits.GetOr([]), product.storeId, md5), saved, product.storeId)
    {
      var loaded := resource.LoadData(product.id, code);
      var list := if edits.Some? then edits.value else [];
      var rb := RebuildLoop(loaded, list, product.storeId, md5);
      var ordered := ASort(rb.sorted);
      OrderedRecords(rb, ordered, product.storeId);
      var savedGallery := SaveLoop(rb.gallery, ordered);
      SavedGalleryOfOrdered(rb, ordered, product.storeId);
      resource.SaveGallery(product.id, code, savedGallery);
      saved := Values(savedGallery);
    }

    /** The loop of `afterSave` over the edited images: a removed one loses its record and position, any other is merged in. */
    static method RebuildLoop(loaded: seq<(Key, Image)>, list: seq<ImageData>, storeId: nat, md5: Md5) returns (rb: Rebuild)
      requires DistinctKeys(loaded)
      ensures rb == Rebuilt(loaded, list, storeId, md5)
    {
      var gallery := loaded;
      var sorted: seq<(Key, int)> := [];
      for i := 0 to |list|
        invariant Rebuild(gallery, sorted) == Rebuilt(loaded, list[..i], storeId, md5)
      {
        RebuiltStep(loaded, list, i, storeId, md5);
        var d := list[i];
        var k := HashKey(d, md5);
        if Removed(d) {
          gallery := Unset(gallery, k);
          sorted := Unset(sorted, k);
        } else {
          gallery := Put(gallery, k, Record(Get(gallery, k), d, storeId, md5));
          sorted := Put(sorted, k, Position(d));
        }
      }
      assert list[..|list|] == list;
      rb := Rebuild(gallery, sorted);
    }

    /** The `$savedGallery[$hash] = $galleryData[$hash]` loop. */
    static method SaveLoop(gallery: seq<(Key, Image)>, ordered: seq<(Key, int)>) returns (savedGallery: seq<(Key, Image)>)
      requires DistinctKeys(ordered) && forall j :: 0 <= j < |ordered| ==> Get(gallery, ordered[j].0).Some?
      ensures savedGallery == SavedEntries(gallery, ordered)
    {
      savedGallery := [];
      for i := 0 to |ordered|
        invariant savedGallery == SavedEntries(gallery, ordered[..i])
      {
        SavedEntriesStep(gallery, ordered, i);
        savedGallery := Put(savedGallery, ordered[i].0, Get(gallery, ordered[i].0).value);
      }
      assert ordered[..|ordered|] == ordered;
    }
  }

  // ----- what the rebuild loop does as written

  /** An edited image whose file is stored as "h". */
  const ExampleMd5: Md5 := s => "h"

  /** A sub-record with the given position. */
  function ExampleSub(pos: int): Scope
  {
    map["label" := Null, "position" := Int(pos), "disabled" := Null]
  }

  /** A gallery holding one image with admin and store 1 sub-records. */
  function ExampleLoaded(): seq<(Key, Image)>
  {
    [(StrKey("h"), Image(map["file" := Str("a.jpg"), "value_id" := Str("h")], map[AdminStore := ExampleSub(1), 1 := ExampleSub(3)]))]
  }

  /** The edit of the examples: the example image's file moved to position 2. */
  function ExampleEdit(): ImageData
  {
    map["file" := Str("a.jpg"), "position" := Int(2)]
  }

  lemma ExampleEditFacts()
    ensures HashKey(ExampleEdit(), ExampleMd5) == StrKey("h") && !Removed(ExampleEdit())
    ensures StoreData(ExampleEdit()) == ExampleSub(2)
  {
    assert StringKey("h") == StrKey("h");
    assert DataOf(ExampleEdit(), "label") == Null && DataOf(ExampleEdit(), "disabled") == Null;
  }

  /** Editing that image's position in store view 2 drops its store 1 sub-record and overwrites its admin one. */
  lemma AsWrittenDropsOtherViews()
    ensures var rec := Get(RebuiltAsWritten(ExampleLoaded(), [ExampleEdit()], 2, ExampleMd5).gallery, StrKey("h"));
      rec.Some? && 1 !in rec.value.stores && AdminStore in rec.value.stores && rec.value.stores[AdminStore] == ExampleSub(2)
      && 1 in ExampleLoaded()[0].1.stores && AdminStore in ExampleLoaded()[0].1.stores
      && ExampleLoaded()[0].1.stores[AdminStore] == ExampleSub(1)
  {
    var e := ExampleEdit();
    ExampleEditFacts();
    assert [e][..0] == [];
    assert RebuiltAsWritten(ExampleLoaded(), [e], 2, ExampleMd5) == StepAsWritten(Rebuild(ExampleLoaded(), []), e, 2, ExampleMd5);
    var rec := RecordAsWritten(e, 2, ExampleMd5);
    PutGet(ExampleLoaded(), StrKey("h"), rec, StrKey("h"));
    assert 1 !in rec.stores.Keys;
    var img := ExampleLoaded()[0].1;
    assert 1 in img.stores && img.stores[AdminStore] == ExampleSub(1);
  }

  /** The same edit rebuilt keeps the store 1 and admin sub-records. */
  lemma RebuiltKeepsExampleViews()
    ensures var rec := Get(Rebuilt(ExampleLoaded(), [ExampleEdit()], 2, ExampleMd5).gallery, StrKey("h"));
      rec.Some? && 1 in rec.value.stores && rec.value.stores[1] == ExampleSub(3)
      && AdminStore in rec.value.stores && rec.value.stores[AdminStore] == ExampleSub(1)
      && 2 in rec.value.stores && rec.value.stores[2] == ExampleSub(2)
  {
    var e := ExampleEdit();
    var k := StrKey("h");
    ExampleEditFacts();
    assert Get(ExampleLoaded(), k) == Some(ExampleLoaded()[0].1);
    RebuiltKeepsOtherViews(ExampleLoaded(), [e], 2, ExampleMd5, k, 1);
    RebuiltKeepsOtherViews(ExampleLoaded(), [e], 2, ExampleMd5, k, AdminStore);
    RebuiltLastEdit(ExampleLoaded(), [e], 2, ExampleMd5, 0);
  }

  /** A file listed twice, kept and then removed, leaves a null record in the gallery as written. */
  lemma AsWrittenSavesNullRecord()
    ensures var kept := map["file" := Str("a.jpg"), "position" := Int(1)];
      var removed := map["file" := Str("a.jpg"), "removed" := Int(1)];
      None in SavedAsWritten(RebuiltAsWritten([], [kept, removed], 0, ExampleMd5))
  {
    var kept := map["file" := Str("a.jpg"), "position" := Int(1)];
    var removed := map["file" := Str("a.jpg"), "removed" := Int(1)];
    assert StringKey("h") == StrKey("h");
    assert [kept, removed][..1] == [kept];
    var first := RebuiltAsWritten([], [kept], 0, ExampleMd5);
    assert first.sorted == [(StrKey("h"), 1)];
    var rb := RebuiltAsWritten([], [kept, removed], 0, ExampleMd5);
    assert rb.sorted == first.sorted;
    assert !HasKey(rb.gallery, StrKey("h"));
    assert SavedAsWritten(rb)[0] == None;
  }

  /** The same list rebuilt drops the file altogether. */
  lemma RebuiltDropsRemovedFile()
    ensures var kept := map["file" := Str("a.jpg"), "position" := Int(1)];
      var removed := map["file" := Str("a.jpg"), "removed" := Int(1)];
      Rebuilt([], [kept, removed], 0, ExampleMd5).sorted == []
  {
    var kept := map["file" := Str("a.jpg"), "position" := Int(1)];
    var removed := map["file" := Str("a.jpg"), "removed" := Int(1)];
    var images := [kept, removed];
    var sorted := Rebuilt([], images, 0, ExampleMd5).sorted;
    if sorted != [] {
      var k := sorted[0].0;
      assert HashKey(images[0], ExampleMd5) == HashKey(images[1], ExampleMd5) && Removed(images[1]);
      RebuiltKept([], images, 0, ExampleMd5, k);
      assert false;
    }
  }
}
