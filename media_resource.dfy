/**
 * The gallery resource: reads the records of `galleries.<code>` of a
 * product's document keyed by their `value_id`, and writes a gallery
 * back as a plain list.
 */
module MediaResource {
  import opened Wrappers
  import opened Php
  import opened PhpArray
  import opened Documents
  import opened DocStore
  import QueryBuilder

  /** `$image['value_id']`, null for a record without one. */
  function ValueIdOf(img: Image): Value
  {
    if "value_id" in img.fields then img.fields["value_id"] else Null
  }

  /** The array key a loaded record is stored under. */
  function ImageKey(img: Image): Key
  {
    KeyOf(ValueIdOf(img))
  }

  /**
   * The loop of `loadData`: each record under its `value_id`, in gallery
   * order; a later record with the same id replaces the earlier one in
   * place.
   */
  function ByValueId(images: seq<Image>): (r: seq<(Key, Image)>)
    ensures DistinctKeys(r)
    ensures |r| <= |images|
    ensures forall k :: HasKey(r, k) <==> exists i :: 0 <= i < |images| && ImageKey(images[i]) == k
  {
    if images == [] then []
    else
      var pre := images[..|images| - 1];
      var img := images[|images| - 1];
      var acc := ByValueId(pre);
      PutDistinct(acc, ImageKey(img), img);
      assert forall i :: 0 <= i < |pre| ==> pre[i] == images[i];
      forall k ensures HasKey(Put(acc, ImageKey(img), img), k) <==> HasKey(acc, k) || k == ImageKey(img) {
        PutGet(acc, ImageKey(img), img, k);
      }
      Put(acc, ImageKey(img), img)
  }

  /** With duplicate ids the last record wins. */
  lemma {:induction false} ByValueIdLast(images: seq<Image>, i: nat)
    requires i < |images|
    requires forall j :: i < j < |images| ==> ImageKey(images[j]) != ImageKey(images[i])
    ensures Get(ByValueId(images), ImageKey(images[i])) == Some(images[i])
  {
    var pre := images[..|images| - 1];
    var img := images[|images| - 1];
    PutGet(ByValueId(pre), ImageKey(img), img, ImageKey(images[i]));
    if i < |images| - 1 {
      assert pre[i] == images[i];
      ByValueIdLast(pre, i);
    }
  }

  /** What `loadData` returns for a product on a given collection state. */
  function Loaded(docs: Docs, productId: Value, code: string): (r: seq<(Key, Image)>)
    ensures DistinctKeys(r)
    ensures Get(docs, QueryBuilder.MongoInt32(productId)).None? ==> r == []
  {
    ByValueId(Gallery(DocOrEmpty(docs, QueryBuilder.MongoInt32(productId)), code))
  }

  /** The gallery resource over the product document collection. */
  class Resource {
    const docs: DocumentCollection

    constructor (docs: DocumentCollection)
      ensures this.docs == docs
    {
      this.docs := docs;
    }

    /**
     * `loadData`: the records of `galleries.<code>` of the document with
     * the product's int32 id, keyed by `value_id`; nothing for a missing
     * document or gallery.
     */
    method LoadData(productId: Value, code: string) returns (r: seq<(Key, Image)>)
      requires docs.Valid()
      ensures r == Loaded(docs.docs, productId, code)
    {
      var d := docs.FindOne(QueryBuilder.MongoInt32(productId));
      r := [];
      if d.Some? && code in d.value.galleries {
        var images := d.value.galleries[code];
        for i := 0 to |images|
          invariant r == ByValueId(images[..i])
        {
          assert images[..i + 1][..i] == images[..i];
          r := Put(r, ImageKey(images[i]), images[i]);
        }
        assert images[..|images|] == images;
      }
    }

    /**
     * `saveGallery`: `$set` of `galleries.<code>` to the records without
     * their keys, on the document with the product's int32 id; no upsert.
     */
    method SaveGallery(productId: Value, code: string, saved: seq<(Key, Image)>)
      requires docs.Valid()
      modifies docs
      ensures docs.Valid()
      ensures docs.docs == SetGalleryOf(old(docs.docs), QueryBuilder.MongoInt32(productId), code, Values(saved))
    {
      docs.SetGalleryList(QueryBuilder.MongoInt32(productId), code, Values(saved));
    }
  }
}
