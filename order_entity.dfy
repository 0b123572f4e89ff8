/** The Order entity: its status enums and the state a new order is
    persisted in. */
module OrderEntity {
  import opened Common

  /** OrderStatus: the life cycle of an order. */
  datatype OrderStatus = PENDING | CONFIRMED | DELIVERING | DELIVERED | RECEIVED | CANCELED

  /** PaymentStatus. */
  datatype PaymentStatus = PENDING | PAID | FAILED | REFUNDED | CANCELED

  /** PaymentMethod: the two methods the order service accepts, and any other
      constant of the enum, which it rejects. */
  datatype PaymentMethod = COD | VNPAY | OtherMethod

  /** An order item: a product and the quantity ordered. */
  datatype OrderLine = OrderLine(productId: string, quantity: int)

  /** An order. The totals are `None` (a null Integer) until the order service
      sets them; `reviews` holds the ids of the order's reviews. The three
      status fields are non-null columns and are never `None`. */
  datatype Order = Order(
    totalPrice: Option<int>,
    totalQuantity: Option<int>,
    note: Option<string>,
    lastStatusChangeReason: string,
    status: OrderStatus,
    paymentStatus: PaymentStatus,
    paymentMethod: PaymentMethod,
    createdAt: int,
    addressId: string,
    accountId: string,
    farmerId: string,
    items: seq<OrderLine>,
    reviews: set<string>)

  /** The order built from the request fields and then persisted: the builder
      defaults give empty item and review sets and null totals, and the
      pre-persist hook sets both statuses to PENDING, the reason to "" and the
      creation time to `now`. */
  function Persisted(note: Option<string>, addressId: string, accountId: string, farmerId: string,
                     paymentMethod: PaymentMethod, now: int): (o: Order)
    ensures o.status == OrderStatus.PENDING && o.paymentStatus == PaymentStatus.PENDING
    ensures o.lastStatusChangeReason == "" && o.createdAt == now
    ensures o.items == [] && o.reviews == {}
    ensures o.totalPrice == None && o.totalQuantity == None
    ensures o.note == note && o.paymentMethod == paymentMethod
    ensures o.addressId == addressId && o.accountId == accountId && o.farmerId == farmerId
  {
    Order(None, None, note, "", OrderStatus.PENDING, PaymentStatus.PENDING, paymentMethod, now,
          addressId, accountId, farmerId, [], {})
  }
}
