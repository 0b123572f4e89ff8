/** The catalogue entities shared by the services: accounts' roles, products
    with their images and OCOP certificate, and cart items. Entities are
    modelled as values; the repositories that hold them are maps from id to
    value inside each service class. */
module Catalog {
  import opened Common

  /** Role: the roles an account may hold. */
  datatype Role = ADMIN | FARMER | CONSUMER

  /** ProductStatus. */
  datatype ProductStatus = ACTIVE | BLOCKED | DELETED | PENDING | REJECTED

  /** OcopStatus: the states of an OCOP certification. */
  datatype OcopStatus = PENDING_VERIFY | VERIFIED | REJECTED

  /** A product image, or the scan of an OCOP certificate (whose `url` is
      modelled as `path`); `id` is `None` until the row is persisted. */
  datatype Image = Image(id: Option<string>, path: string)

  /** The OCOP ("One Commune One Product") certificate attached to a product. */
  datatype Ocop = Ocop(
    star: Option<int>,
    certificateNumber: string,
    issuedYear: Option<int>,
    issuer: string,
    status: OcopStatus,
    verifiedBy: Option<string>,
    verifiedAt: Option<int>,
    reason: Option<string>,
    images: set<Image>)

  /** A product with the fields the services read or write. */
  datatype Product = Product(
    name: string,
    description: string,
    price: int,
    inventory: int,
    sold: int,
    thumbnail: string,
    unitPrice: string,
    status: ProductStatus,
    farmerId: string,
    categoryId: string,
    images: set<Image>,
    ocop: Option<Ocop>,
    deletedAt: Option<int>)

  /** A line of an account's cart. */
  datatype CartItem = CartItem(productId: string, accountId: string, quantity: int)

  /** The paths of a set of images. */
  function Paths(images: set<Image>): (r: set<string>)
    ensures forall p :: p in r <==> exists im :: im in images && im.path == p
  {
    set im | im in images :: im.path
  }
}
