/**
 * The product object the resource models read and write: its id, the
 * store view it was loaded for, its attribute data and its "new object"
 * flag.
 */
module CatalogProduct {
  import opened Php

  /** `getData($code)` on a product's data: `null` for data the product does not hold. */
  function DataOf(data: map<string, Value>, code: string): (v: Value)
    ensures code in data ==> v == data[code]
    ensures code !in data ==> v == Null
  {
    if code in data then data[code] else Null
  }

  class Product {
    var id: Value
    const storeId: nat
    var data: map<string, Value>
    var isNew: bool

    constructor (id: Value, storeId: nat, data: map<string, Value>, isNew: bool)
      ensures this.id == id && this.storeId == storeId && this.data == data && this.isNew == isNew
    {
      this.id := id;
      this.storeId := storeId;
      this.data := data;
      this.isNew := isNew;
    }
  }
}
