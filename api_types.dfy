/** The backend's product and batch records as the front end receives them. */
module ApiTypes {
  import opened Wrappers

  /** A received lot of a product, with its own expiry date and stock. */
  datatype Batch = Batch(id: int, batchCode: string, expirationDate: string, stock: int, purchasePrice: real)

  /** A product; `totalStock` is filled in on the client from the batches. */
  datatype Product = Product(
    id: int,
    name: string,
    sku: string,
    barcode: Option<string>,
    salePrice: real,
    minStock: int,
    provider: Option<string>,
    batches: Option<seq<Batch>>,
    totalStock: Option<int>
  )
}
