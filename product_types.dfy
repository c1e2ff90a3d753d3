/** The product record the catalog service returns (the fields the core reads). */
module ProductTypes {

  datatype Gender = MEN | WOMEN | UNISEX

  datatype Category = TSHIRT | SHIRT | SHORT | DENIM | OFFICEWEAR

  /** `_id` is `id`; prices are whole numbers here. */
  datatype Product = Product(
    id: string,
    title: string,
    gender: Gender,
    category: Category,
    price: int,
    imageUrls: seq<string>)
}
