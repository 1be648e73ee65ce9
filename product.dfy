/**
 The `Product` aggregate (SuperMarket.Entities/Entities/Product.cs).  It is a
 heap object because the repository hands out the very instance it stores
 and the order pipeline changes its quantity in place.  The core never
 reassigns the other properties, so they are constants here.
 */
module Products {
  import opened Functional
  import opened Primitives
  import opened ProductNames
  import opened ManufacturerNames
  import opened Emails

  /** The `Category` enumeration is not part of this model; a category is its ordinal. */
  datatype Category = Category(ordinal: int)

  class Product {
    const productId: int
    const category: Category
    const name: ProductName
    const manufacturer: ManufacturerName
    const importerEmail: Maybe<Email>
    var quantity: UInt32

    constructor (productId: int, category: Category, name: ProductName, manufacturer: ManufacturerName,
                 importerEmail: Maybe<Email>, quantity: UInt32)
      ensures this.productId == productId && this.category == category && this.name == name
      ensures this.manufacturer == manufacturer && this.importerEmail == importerEmail
      ensures this.quantity == quantity
    {
      this.productId := productId;
      this.category := category;
      this.name := name;
      this.manufacturer := manufacturer;
      this.importerEmail := importerEmail;
      this.quantity := quantity;
    }
  }
}
