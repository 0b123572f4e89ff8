# Agricultural serving platform — a verified model of its core

This project models, in Dafny, the core of a farm-produce marketplace. On that
marketplace, consumers buy from farmers, pay through VNPay, and admins review
products and their OCOP ("One Commune One Product") certificates. The system
has a Spring back end and a Next.js front end. Each core source file becomes
one module, and the modules follow those files.

- **Orders** (`OrderService`, `OrderEntity`). `create` clamps each cart line
  to the stock left and reserves that stock. It sums the totals and consumes
  the cart items. The consumer's and the farmer's status changes follow the
  order life cycle and restock or record sales.
- **Payment** (`PaymentService`, `VNPayUtil`, `JavaLang`). The signed payment
  URL is built from the sorted, URL-encoded parameters and a lowercase-hex
  HMAC-SHA512 tag. The return check recomputes that tag. The IPN decision
  cascade settles the payment status at most once. `JavaLang` gives the
  32-bit `int` arithmetic and the number parsing the payment code relies on.
- **Products and OCOP** (`ProductService`, `AdminOcopService`, `Catalog`).
  These cover image reconciliation, the OCOP request and its editing, the
  admin's approve and reject, soft delete, the status change and visibility.
- **Categories** (`CategoryService`). This covers category levels,
  `buildTree`'s linking of nodes to parents, update and delete.
- **Accounts** (`AuthService`, `AccountService`, `FarmerService`, `Accounts`,
  `AccountMapper`, `RefreshTokenUtil`, `CodeUtil`).
  - Registration with a verification code, login, refresh, logout and
    password change, with their checks in the source's order.
  - The per-account refresh token row, and the code store with expiry.
  - The farmer upgrade, the farmer's address and profile patch, and the JWT
    scope string.
- **Cart and market prices** (`CartItemService`, `MarketPriceService`). This
  covers adding to the cart by merging into an existing line, and the market
  price records sorted by date.
- **Front end** (`CartStore`, `OrderStore`, `UseOrder`, `CategoryPage`,
  `ChatbotRoute`, `WeatherChart`, `BackgroundColor`, `HeroCarousel`).
  - The cart and order stores with their actions and getters.
  - The checkout hook that creates pending orders.
  - The admin category page's flattening, search filter, expansion and
    pagination.
  - The chatbot's history trimming.
  - The forecast chart's grouping and its choice of the entry nearest noon.
  - The avatar colour hash and the carousel index.

Services that change stored state are classes. Their repositories are `map`
fields from id to entity, and their methods state the whole new state. Pure
computations are functions, and lemmas state the properties they have. Each
loop in the source is a method with a loop and invariants, proved against a
function that specifies it. Some things the source does not compute itself:
the clock, random numbers, MAC and JWT signing, password hashing, and the
server replies seen by the front end. These are parameters or function-valued
fields.

## Model

| member | source | states |
|---|---|---|
| Common.SortKeys | back-end/src/main/java/javaweb/my_project/util/VNPayUtil.java:69-70 | `Collections.sort` of a key set: a strictly ascending list in `String.compareTo` order holding exactly the keys, the unique such list |
| JavaLang.Wrap32 | back-end/src/main/java/javaweb/my_project/service/PaymentService.java:45 | the value of an `int` product is in the 32-bit range, congruent to the exact product modulo 2^32, and equal to it when it fits |
| JavaLang.JavaDiv | back-end/src/main/java/javaweb/my_project/service/PaymentService.java:159 | Java's `/` truncates toward zero: the remainder lies in [0, b) for a non-negative dividend and in (-b, 0] for a negative one |
| JavaLang.ParseLong | back-end/src/main/java/javaweb/my_project/service/PaymentService.java:159 | `Long.parseLong` accepts only a signed, non-empty digit string, and what it accepts lies in the `long` range |
| JavaLang.ParseValueOf | back-end/src/main/java/javaweb/my_project/service/PaymentService.java:45 | `Long.parseLong(String.valueOf(n)) == n` for every `long` |
| AccountMapper.Token | back-end/src/main/java/javaweb/my_project/mapper/AccountMapper.java:25 | a role's scope token starts with `ROLE_`, holds no space and ends in a letter |
| AccountMapper.RolesToScope | back-end/src/main/java/javaweb/my_project/mapper/AccountMapper.java:21-28 | the loop and the final `trim` give the roles' tokens joined by single spaces |
| AccountMapper.SpacedTrims | back-end/src/main/java/javaweb/my_project/mapper/AccountMapper.java:23-27 | trimming the builder (each token followed by one space) gives the tokens joined by single spaces |
| AccountMapper.ScopeShape | back-end/src/main/java/javaweb/my_project/mapper/AccountMapper.java:21-28 | no roles give an empty scope; otherwise the scope neither starts nor ends with a space and holds exactly one space fewer than there are roles |
| VNPayUtil.ToHexString | back-end/src/main/java/javaweb/my_project/util/VNPayUtil.java:29-30 | `Integer.toHexString` of a byte is one digit exactly when the byte is below 16, and never more than two |
| VNPayUtil.HexEncode | back-end/src/main/java/javaweb/my_project/util/VNPayUtil.java:27-34 | the padding loop yields the two-digits-per-byte lowercase hex of the MAC |
| VNPayUtil.HexShape | back-end/src/main/java/javaweb/my_project/util/VNPayUtil.java:27-34 | the hex string is twice as long as the MAC, holds only lowercase hex digits, and characters 2i and 2i+1 spell byte i |
| VNPayUtil.HexInjective | back-end/src/main/java/javaweb/my_project/util/VNPayUtil.java:27-34 | two MACs with the same hex string are equal: the encoding loses nothing |
| VNPayUtil.HmacSha512 | back-end/src/main/java/javaweb/my_project/util/VNPayUtil.java:21-38 | the signature is the hex of the MAC of the data under the key, two characters per MAC byte |
| VNPayUtil.UrlEncodeFormChars | back-end/src/main/java/javaweb/my_project/util/VNPayUtil.java:79 | an encoded value holds only unreserved characters, `%` and `+`, so never the `&` or `=` of the pair syntax |
| VNPayUtil.UrlEncodeUnreserved | back-end/src/main/java/javaweb/my_project/util/VNPayUtil.java:79 | a string of unreserved characters is its own encoding |
| VNPayUtil.UrlRoundTrip | back-end/src/main/java/javaweb/my_project/util/VNPayUtil.java:79 | form-decoding undoes the US-ASCII encoding of every ASCII string |
| VNPayUtil.NonAsciiEncodesAsQuestionMark | back-end/src/main/java/javaweb/my_project/util/VNPayUtil.java:79 | a character outside US-ASCII encodes as `?` does, so the encoding is lossy there |
| VNPayUtil.TerminatedJoin | back-end/src/main/java/javaweb/my_project/util/VNPayUtil.java:80-84 | the pairs each followed by `&` are the pairs joined by `&` plus one final `&`, which the `setLength` removes |
| VNPayUtil.AppendPairs | back-end/src/main/java/javaweb/my_project/util/VNPayUtil.java:72-82 | the loop appends `key=encoded value&` for exactly the fields with a non-empty value, in the order of the names |
| VNPayUtil.HashAllFields | back-end/src/main/java/javaweb/my_project/util/VNPayUtil.java:68-87 | the result is the canonical string of the fields, or the exception that `setLength(-1)` throws when no field has a value |
| VNPayUtil.CanonicalFields | back-end/src/main/java/javaweb/my_project/util/VNPayUtil.java:68-87 | the canonical string fails exactly when no field has a value; otherwise it is the non-empty fields in ascending key order joined by `&` |
| VNPayUtil.CanonicalIgnoresEmpty | back-end/src/main/java/javaweb/my_project/util/VNPayUtil.java:75 | adding or dropping empty-valued fields leaves the signed string unchanged |
| VNPayUtil.ClientIp | back-end/src/main/java/javaweb/my_project/util/VNPayUtil.java:40-56 | the header wins over the remote address, both IPv6 loopback spellings become `127.0.0.1`, and the result is never an IPv6 loopback |
| VNPayUtil.GetIpAddress | back-end/src/main/java/javaweb/my_project/util/VNPayUtil.java:40-56 | the method returns the client address `ClientIp` describes |
| VNPayUtil.GetRandomNumber | back-end/src/main/java/javaweb/my_project/util/VNPayUtil.java:58-66 | a negative length throws; otherwise the result has that length and character i is the digit of draw i |
| PaymentService.Get | back-end/src/main/java/javaweb/my_project/service/PaymentService.java:150 | `Map.get` is null exactly for an absent key and gives the key's value otherwise |
| PaymentService.NonEmpty | back-end/src/main/java/javaweb/my_project/service/PaymentService.java:131-138 | the copied fields are exactly the parameters with a non-empty value, with their values |
| PaymentService.AmountAsWrittenMisreads | back-end/src/main/java/javaweb/my_project/service/PaymentService.java:45 | as written, every total above 21474836 (up to `Integer.MAX_VALUE`) is sent wrapped, and the IPN reads back a different amount |
| PaymentService.AmountAsWrittenAgrees | back-end/src/main/java/javaweb/my_project/service/PaymentService.java:45 | while the product fits in an `int`, the amount as written equals the `long` amount |
| PaymentService.AmountRoundTrip | back-end/src/main/java/javaweb/my_project/service/PaymentService.java:159 | with the product taken as a `long`, every `Integer` total is read back unchanged by `parseLong(v) / 100` |
| PaymentService.HashDataCanonical | back-end/src/main/java/javaweb/my_project/service/PaymentService.java:64-85 | when the last key has a value, the data the URL loop signs is the canonical string; when it has none, the data keeps a trailing `&` |
| PaymentService.QueryIsHashData | back-end/src/main/java/javaweb/my_project/service/PaymentService.java:74-83 | when every key encodes to itself, the query equals the signed data |
| PaymentService.AppendFields | back-end/src/main/java/javaweb/my_project/service/PaymentService.java:64-85 | the loop builds the signed data and the query field by field, with `&` only before a later key |
| PaymentService.SignedDataCanonical | back-end/src/main/java/javaweb/my_project/service/PaymentService.java:64-88 | for parameters that all have a value, the signed data is `hashAllFields` of them, and so is the query when the names encode to themselves |
| PaymentService.PaymentParamsNames | back-end/src/main/java/javaweb/my_project/service/PaymentService.java:41-62 | the URL carries exactly the fourteen `vnp_` parameter names |
| PaymentService.PaymentParamsShape | back-end/src/main/java/javaweb/my_project/service/PaymentService.java:41-62 | the signature fields are not among them, and `vnp_TxnRef` and `vnp_Amount` carry the order id and the amount |
| PaymentService.PaymentParamsFilled | back-end/src/main/java/javaweb/my_project/service/PaymentService.java:41-62 | with every setting and argument set, every parameter has a value |
| PaymentService.PaymentUrlSigned | back-end/src/main/java/javaweb/my_project/service/PaymentService.java:33-95 | the URL for an order, built with the corrected amount (see Findings), is signed over its canonical parameters; echoed back, they pass the return check for that order and make a notice whose amount reads back as the total |
| PaymentService.SignedUrlEchoed | back-end/src/main/java/javaweb/my_project/service/PaymentService.java:87-90 | the URL's signature is the MAC of the canonical string, and parameters echoed with it are signed and name the same order and amount |
| PaymentService.EchoedSigned | back-end/src/main/java/javaweb/my_project/service/PaymentService.java:98-115 | parameters echoed back with the signature of their canonical string pass the signature check |
| PaymentService.EchoedFields | back-end/src/main/java/javaweb/my_project/service/PaymentService.java:98-109 | the fields the handlers sign are the echoed parameters without the signature |
| PaymentService.ReturnChecksSignature | back-end/src/main/java/javaweb/my_project/service/PaymentService.java:97-127 | the return check fails with payment-e-02 exactly when the parameters are not signed, and a signed return for a stored order yields that order |
| PaymentService.HttpStatus | back-end/src/main/java/javaweb/my_project/controller/PaymentController.java:42-47 | the IPN endpoint answers 200 exactly for RspCode "00", else 400 |
| PaymentService.IpnEffects | back-end/src/main/java/javaweb/my_project/service/PaymentService.java:130-191 | the reply is one of 97, 01, 04, 02 and 00; a non-00 reply changes nothing; a 00 reply moves one unpaid order to PAID with one payment recorded for it, or to FAILED with none |
| PaymentService.IpnChecksSignature | back-end/src/main/java/javaweb/my_project/service/PaymentService.java:140-148 | a notice is answered 97 with nothing changed exactly when its signature does not match |
| PaymentService.IpnConfirmsSignedPayment | back-end/src/main/java/javaweb/my_project/service/PaymentService.java:159-185 | a signed success notice of the right amount for an unpaid order makes it PAID and records one payment for it |
| PaymentService.IpnIdempotent | back-end/src/main/java/javaweb/my_project/service/PaymentService.java:168-170 | re-sending a notice that confirmed a payment is answered 02 and records nothing more |
| PaymentService.ReadIpnNotice | back-end/src/main/java/javaweb/my_project/service/PaymentService.java:131-143 | the handler reads the non-empty parameters, takes out the signature and computes the canonical string of the rest |
| PaymentService.PaymentService.CreatePaymentUrl | back-end/src/main/java/javaweb/my_project/service/PaymentService.java:33-95 | the URL is the signed URL over the order's parameters, with the corrected amount (see Findings); order-e-01 for an unknown order |
| PaymentService.PaymentService.HandleReturn | back-end/src/main/java/javaweb/my_project/service/PaymentService.java:97-127 | the outcome is the return decision: signature (payment-e-02), then the order (order-e-01); nothing is written |
| PaymentService.PaymentService.HandleIpn | back-end/src/main/java/javaweb/my_project/service/PaymentService.java:130-191 | the reply and the new orders and payments are the IPN decision over the notice read from the parameters |
| PaymentService.PaymentService.ApplyIpn | back-end/src/main/java/javaweb/my_project/service/PaymentService.java:140-191 | from the signature check on, the method applies the IPN decision to the stored orders and payments |
| PaymentService.PaymentService.GetPaymentStatus | back-end/src/main/java/javaweb/my_project/service/PaymentService.java:193-197 | order-e-01 exactly for an unknown order, else the name of its payment status |
| PaymentService.StatusName | back-end/src/main/java/javaweb/my_project/service/PaymentService.java:196 | each of the five payment statuses, CANCELED and REFUNDED included, is named by its own constant name and no other status has that name, so distinct statuses have distinct names |
| PaymentService.PaymentService.constructor | back-end/src/main/java/javaweb/my_project/service/PaymentService.java:23-31 | the service starts from its configuration, signer and orders, with no payments recorded |
| OrderEntity.Persisted | back-end/src/main/java/javaweb/my_project/entities/Order.java:58-94 | a newly persisted order has both statuses PENDING, an empty reason, the creation instant, no items, no reviews and null totals, and carries the request's note, payment method, address, account and farmer |
| OrderService.Guard | back-end/src/main/java/javaweb/my_project/service/OrderService.java:119-200 | an endpoint's checks pass exactly for the transitions of its table; a target the endpoint does not offer fails first, with `order-e-02` |
| OrderService.ReceivedIsFinal | back-end/src/main/java/javaweb/my_project/service/OrderService.java:119-200 | neither endpoint moves an order out of RECEIVED |
| OrderService.NewOrderMoves | back-end/src/main/java/javaweb/my_project/service/OrderService.java:119-200 | from a freshly placed order the buyer can only cancel, and the farmer can only confirm or cancel |
| OrderService.Restock | back-end/src/main/java/javaweb/my_project/service/OrderService.java:147-151 | putting an order's lines back in stock keeps the same products |
| OrderService.AddSold | back-end/src/main/java/javaweb/my_project/service/OrderService.java:141-145 | adding an order's lines to the sold counters keeps the same products |
| OrderService.RestockAt | back-end/src/main/java/javaweb/my_project/service/OrderService.java:147-151 | restocking raises each product's inventory by exactly its total quantity in the order and changes nothing else about it |
| OrderService.AddSoldAt | back-end/src/main/java/javaweb/my_project/service/OrderService.java:141-145 | recording a receipt raises each product's sold counter by exactly its total quantity in the order and changes nothing else about it |
| OrderService.Ledgers | back-end/src/main/java/javaweb/my_project/service/OrderService.java:141-151 | both ledger updates, for every product at once |
| OrderService.Step | back-end/src/main/java/javaweb/my_project/service/OrderService.java:64-85 | one turn of the creation loop deletes exactly that cart item, keeps the product ids and appends exactly one order line |
| OrderService.Reserve | back-end/src/main/java/javaweb/my_project/service/OrderService.java:63-86 | a successful loop keeps the product ids and appends one order line per requested cart item, each for a stored product |
| OrderService.ReserveConsumes | back-end/src/main/java/javaweb/my_project/service/OrderService.java:63-86 | a successful loop had every requested cart item in the cart, no id twice, and deletes exactly those items |
| OrderService.ReserveLines | back-end/src/main/java/javaweb/my_project/service/OrderService.java:63-86 | the i-th new line is for the i-th cart item's product, with at most that item's quantity |
| OrderService.ReserveKeepsFields | back-end/src/main/java/javaweb/my_project/service/OrderService.java:63-86 | the loop changes nothing about a product but its inventory |
| OrderService.ReserveConserves | back-end/src/main/java/javaweb/my_project/service/OrderService.java:63-86 | stock is conserved: each product's inventory plus its quantity in the order lines is the same before and after |
| OrderService.ReserveNonNegative | back-end/src/main/java/javaweb/my_project/service/OrderService.java:67-70 | the cap keeps inventories and line quantities non-negative when they start so |
| OrderService.ReserveUntouched | back-end/src/main/java/javaweb/my_project/service/OrderService.java:63-86 | a product that no requested cart item refers to is unchanged |
| OrderService.ReserveClamp | back-end/src/main/java/javaweb/my_project/service/OrderService.java:67-70 | for items of pairwise different products, each line quantity is the cart quantity capped at the inventory, and the inventory drops by exactly that amount |
| OrderService.ReserveCartItems | back-end/src/main/java/javaweb/my_project/service/OrderService.java:63-89 | the loop's outcome is the one `Reserve` describes, with the quantity total the sum of the line quantities and the price total the sum of price times quantity |
| OrderService.PlaceOrder | back-end/src/main/java/javaweb/my_project/service/OrderService.java:36-93 | the checks run in the source's order: a missing address fails with `address-e-01`, then a missing farmer with `farmer-e-01`, then the caller's account error, and only then a payment method other than COD or VNPAY with `order-e-01`, before any cart item is reserved; a placed order needs a stored address, farmer and the caller's account, is PENDING in both statuses, and carries the reserved lines, at most one per product, with totals that match them; lines naming one product twice make the final save throw and the transaction roll back |
| OrderService.ChangeStatus | back-end/src/main/java/javaweb/my_project/service/OrderService.java:119-214 | a change fails exactly when the table refuses it, with the guard's code; an accepted one sets the status, keeps the items and the product ids, and sets the reason only when one is given |
| OrderService.ChangeStatusEffects | back-end/src/main/java/javaweb/my_project/service/OrderService.java:140-207 | CANCELED restocks every item and cancels the payment, RECEIVED adds every item to the sold counters, DELIVERED marks the payment PAID, and the other moves touch neither |
| OrderService.DoubleCancelRestocksTwice | back-end/src/main/java/javaweb/my_project/service/OrderService.java:131-153 | cancelling an already cancelled order is accepted again, and each product ends up with twice its quantity added back |
| OrderService.PlaceThenCancelRestores | back-end/src/main/java/javaweb/my_project/service/OrderService.java:36-153 | cancelling a freshly placed order leaves the product map exactly as it was before the order |
| OrderService.PlacedLines | back-end/src/main/java/javaweb/my_project/service/OrderService.java:63-93 | a placed order has one line per requested cart item, each for a different product, holding the cart quantity capped at the inventory before the order, and that inventory drops by exactly the line's quantity |
| OrderService.SameProductTwiceFails | back-end/src/main/java/javaweb/my_project/service/OrderService.java:63-93 | a request naming two cart items of one product never places an order |
| OrderService.RestockUndoesReserve | back-end/src/main/java/javaweb/my_project/service/OrderService.java:63-86 | putting back the lines of a reservation gives every product back the inventory it had before it |
| OrderService.RestockItems | back-end/src/main/java/javaweb/my_project/service/OrderService.java:147-151 | the restocking loop's result is `Restock` of the order's lines |
| OrderService.RecordSold | back-end/src/main/java/javaweb/my_project/service/OrderService.java:141-145 | the sold-counter loop's result is `AddSold` of the order's lines |
| OrderService.ChangeOrder | back-end/src/main/java/javaweb/my_project/service/OrderService.java:119-214 | an unknown order id fails with `order-e-01`; otherwise the outcome is the status change of that order |
| OrderService.OrderService.constructor | back-end/src/main/java/javaweb/my_project/service/OrderService.java:27-34 | the service starts with the given repositories and no orders or cart items |
| OrderService.OrderService.Create | back-end/src/main/java/javaweb/my_project/service/OrderService.java:36-93 | a failure, including a rejected save of two lines for one product, leaves products, cart and orders as they were (the transaction rolls back); a success stores the placed order under a new id and leaves the products and cart as the reservation left them |
| OrderService.OrderService.ConsumerChangeStatus | back-end/src/main/java/javaweb/my_project/service/OrderService.java:118-161 | the buyer's endpoint stores the outcome of `ChangeOrder` for the consumer, and changes nothing on failure |
| OrderService.OrderService.FarmerChangeStatus | back-end/src/main/java/javaweb/my_project/service/OrderService.java:163-214 | the farmer's endpoint stores the outcome of `ChangeOrder` for the farmer, and changes nothing on failure |
| Catalog.Paths | back-end/src/main/java/javaweb/my_project/service/ProductService.java:98-100 | a path is among the images' paths exactly when some image has it |
| ProductService.NewImages | back-end/src/main/java/javaweb/my_project/service/ProductService.java:72-84 | the fresh images carry exactly the given paths, and none has an id yet |
| ProductService.NewImagesCount | back-end/src/main/java/javaweb/my_project/service/ProductService.java:72-84 | there is one fresh image per path |
| ProductService.ReconciledKeeps | back-end/src/main/java/javaweb/my_project/service/ProductService.java:102-113 | an existing image survives the update exactly when its path is requested |
| ProductService.ReconciledAdds | back-end/src/main/java/javaweb/my_project/service/ProductService.java:106-124 | the images the update adds are the fresh ones for the requested paths that no existing image has |
| ProductService.ReconciledExact | back-end/src/main/java/javaweb/my_project/service/ProductService.java:92-125 | after the update the image paths are exactly the requested ones |
| ProductService.ReconciledPaths | back-end/src/main/java/javaweb/my_project/service/ProductService.java:92-125 | the paths are exactly the requested ones, an old image stays iff requested, and exactly one fresh image is added per missing path |
| ProductService.AddImages | back-end/src/main/java/javaweb/my_project/service/ProductService.java:75-81 | the loop adds one fresh image per path to the set |
| ProductService.AddMissingImages | back-end/src/main/java/javaweb/my_project/service/ProductService.java:227-237 | the loop adds one fresh scan for each requested path not already present |
| ProductService.CreateImagesFromPaths | back-end/src/main/java/javaweb/my_project/service/ProductService.java:72-84 | null paths give no images; otherwise one fresh image per path |
| ProductService.UpdateProductImages | back-end/src/main/java/javaweb/my_project/service/ProductService.java:92-125 | null paths leave the images alone; otherwise the images are reconciled with the request |
| ProductService.OcopFromRequestStarts | back-end/src/main/java/javaweb/my_project/service/ProductService.java:130-169 | a certificate is made exactly for an enabled request (a null path set throws); it starts PENDING_VERIFY, unverified and without a reason, with the request's star and number and one scan per path |
| ProductService.CreateOcopFromRequest | back-end/src/main/java/javaweb/my_project/service/ProductService.java:130-169 | the loop's outcome is the certificate `OcopFromRequest` describes |
| ProductService.Owned | back-end/src/main/java/javaweb/my_project/service/ProductService.java:45-51 | the ownership check passes exactly for the product's own farmer; a security-context error propagates and any other farmer gets `product-e-03` |
| ProductService.EditOcopEffects | back-end/src/main/java/javaweb/my_project/service/ProductService.java:198-244 | a resubmission fails without a certificate, unless it was REJECTED, and for another farmer; a success puts it back to PENDING_VERIFY with exactly the requested scans, keeps reviewer and reason, and changes nothing else about the product |
| ProductService.VisibilityTable | back-end/src/main/java/javaweb/my_project/service/ProductService.java:275-306 | an admin reads any product, a farmer any but a DELETED one, a consumer or anonymous caller only an ACTIVE one; other security errors propagate |
| ProductService.NewProductShape | back-end/src/main/java/javaweb/my_project/service/ProductService.java:171-192 | creation succeeds iff the caller is a farmer, the category exists and a requested certificate has paths; the product is the farmer's, ACTIVE, with nothing sold, the requested paths and a pending certificate exactly when one was enabled |
| ProductService.UpdatedProductKeeps | back-end/src/main/java/javaweb/my_project/service/ProductService.java:313-331 | an update keeps status, sales, owner, certificate, unit and deletion time, and leaves exactly the requested image paths, or the old images when none are given |
| ProductService.SoftDeleteHides | back-end/src/main/java/javaweb/my_project/service/ProductService.java:333-341 | a soft-deleted product stays stored, readable by an admin only |
| ProductService.ProductService.constructor | back-end/src/main/java/javaweb/my_project/service/ProductService.java:34-40 | the service starts over the given products and categories |
| ProductService.ProductService.Create | back-end/src/main/java/javaweb/my_project/service/ProductService.java:171-192 | a failed creation stores nothing; a successful one stores the new product under a fresh id |
| ProductService.ProductService.UpdateOcop | back-end/src/main/java/javaweb/my_project/service/ProductService.java:197-244 | an unknown product fails with `product-e-01`; otherwise the store holds the outcome of the resubmission, unchanged on failure |
| ProductService.ProductService.GetById | back-end/src/main/java/javaweb/my_project/service/ProductService.java:275-306 | an unknown product fails with `product-e-01`; otherwise the product is returned exactly when the caller may see it |
| ProductService.ProductService.Update | back-end/src/main/java/javaweb/my_project/service/ProductService.java:313-331 | an unknown product fails with `product-e-01`; otherwise the store holds the outcome of the update, unchanged on failure |
| ProductService.ProductService.Delete | back-end/src/main/java/javaweb/my_project/service/ProductService.java:333-341 | only the product's farmer deletes it, by setting DELETED and the deletion time; a failure changes nothing |
| ProductService.ProductService.ChangeProductStatus | back-end/src/main/java/javaweb/my_project/service/ProductService.java:343-361 | only ACTIVE, REJECTED or BLOCKED may be set (`product-e-02` otherwise), and the status is all that changes |
| AdminOcopService.ReviewEffects | back-end/src/main/java/javaweb/my_project/service/admin/AdminOcopService.java:43-83 | both reviews fail with `ocop-e-02` without a certificate and `ocop-e-04` unless it awaits verification; a success records verdict, reviewer and time, clears the reason on approval or stores it on rejection, and changes nothing else |
| AdminOcopService.OcopLifecycle | back-end/src/main/java/javaweb/my_project/service/admin/AdminOcopService.java:43-83 | every successful review and every successful farmer resubmission moves the certificate along PENDING_VERIFY to VERIFIED or REJECTED, or REJECTED back to PENDING_VERIFY |
| AdminOcopService.VerifiedIsFinal | back-end/src/main/java/javaweb/my_project/service/admin/AdminOcopService.java:51-53 | a VERIFIED certificate can be neither reviewed again nor resubmitted |
| AdminOcopService.ResubmitThenApprove | back-end/src/main/java/javaweb/my_project/service/admin/AdminOcopService.java:43-83 | rejecting, resubmitting and approving a certificate ends VERIFIED by the admin, with no reason and exactly the resubmitted scans |
| AdminOcopService.AdminOcopService.constructor | back-end/src/main/java/javaweb/my_project/service/admin/AdminOcopService.java:22-25 | the service starts over the given products |
| AdminOcopService.AdminOcopService.ApproveOcop | back-end/src/main/java/javaweb/my_project/service/admin/AdminOcopService.java:43-62 | an unknown product fails with `product-e-01`; otherwise the store holds the outcome of the approval, unchanged on failure |
| AdminOcopService.AdminOcopService.RejectOcop | back-end/src/main/java/javaweb/my_project/service/admin/AdminOcopService.java:64-83 | an unknown product fails with `product-e-01`; otherwise the store holds the outcome of the rejection, unchanged on failure |
| CategoryService.Index | back-end/src/main/java/javaweb/my_project/service/CategoryService.java:40-45 | the map filled from the list holds every listed id and only those, each under its own id |
| CategoryService.IndexHolds | back-end/src/main/java/javaweb/my_project/service/CategoryService.java:42-45 | a listed category is what the map holds for its id unless a later one has the same id |
| CategoryService.LinkedPlacement | back-end/src/main/java/javaweb/my_project/service/CategoryService.java:46-55 | in a built tree a category whose parent is missing from the input is nowhere, and one whose parent is present is in that parent's children only |
| CategoryService.LinkRoot | back-end/src/main/java/javaweb/my_project/service/CategoryService.java:47-48 | a category without a parent becomes a root and keeps the partial tree linked |
| CategoryService.LinkChild | back-end/src/main/java/javaweb/my_project/service/CategoryService.java:50-52 | a category whose parent is present joins exactly that parent's children and keeps the partial tree linked |
| CategoryService.LinkOrphan | back-end/src/main/java/javaweb/my_project/service/CategoryService.java:50-53 | a category whose parent is missing is dropped and the partial tree stays linked |
| CategoryService.BuildTree | back-end/src/main/java/javaweb/my_project/service/CategoryService.java:39-57 | the roots are exactly the parentless categories, each once, and every category's children are exactly the categories naming it as parent, each once |
| CategoryService.LinkNodes | back-end/src/main/java/javaweb/my_project/service/CategoryService.java:46-55 | the linking loop over the map yields a linked tree |
| CategoryService.CategoryService.constructor | back-end/src/main/java/javaweb/my_project/service/CategoryService.java:21-24 | the service starts over the given categories |
| CategoryService.CategoryService.Create | back-end/src/main/java/javaweb/my_project/service/CategoryService.java:26-37 | a missing parent fails with `category-e-01` and stores nothing; otherwise the category is stored at level 0 without a parent or one more than its parent's level, so levels stay equal to depths |
| CategoryService.CategoryService.GetTree | back-end/src/main/java/javaweb/my_project/service/CategoryService.java:59-62 | the tree over all stored categories is linked |
| CategoryService.CategoryService.Update | back-end/src/main/java/javaweb/my_project/service/CategoryService.java:64-70 | an unknown id fails with `category-e-02`; otherwise only the name changes, so levels stay equal to depths |
| CategoryService.CategoryService.Delete | back-end/src/main/java/javaweb/my_project/service/CategoryService.java:72-79 | an unknown id fails with `category-e-02`; otherwise the category and its direct children are removed and nothing else |
| CategoryService.WithoutFamily | back-end/src/main/java/javaweb/my_project/service/CategoryService.java:76-78 | the repository after deletion keeps exactly the categories that are neither the deleted one nor its direct children, unchanged |
| CategoryService.DeleteOrphansGrandchildren | back-end/src/main/java/javaweb/my_project/service/CategoryService.java:72-79 | a grandchild of a deleted category stays stored but no longer appears anywhere in the tree |
| CategoryService.InOrder | back-end/src/main/java/javaweb/my_project/service/CategoryService.java:59-61 | the repository's list holds the stored categories in its order, one per id |
| CategoryService.IndexInOrder | back-end/src/main/java/javaweb/my_project/service/CategoryService.java:59-61 | filling the map from the full repository listing gives back the repository |
| CategoryPage.PreOrderCount | front-end/src/app/admin/category/page.tsx:97-114 | the flattened list has exactly one entry per node of the tree |
| CategoryPage.PreOrderSnoc | front-end/src/app/admin/category/page.tsx:99-110 | one more tree at the end of a forest adds its root's entry and then its subtree's entries at the end of the list |
| CategoryPage.PreOrderHasNodes | front-end/src/app/admin/category/page.tsx:99-110 | every top-level node has an entry, and the first entry is the first node's |
| CategoryPage.Flattener.constructor | front-end/src/app/admin/category/page.tsx:98 | the shared list starts empty |
| CategoryPage.Flattener.Traverse | front-end/src/app/admin/category/page.tsx:99-111 | traversing pushes the items' pre-order list onto the shared list and changes nothing else |
| CategoryPage.Flatten | front-end/src/app/admin/category/page.tsx:97-114 | the flattened list is the pre-order list of the fetched tree, one entry per node |
| CategoryPage.Lower | front-end/src/app/admin/category/page.tsx:265 | `toLowerCase` shifts ASCII capitals by 32 and keeps every other character |
| CategoryPage.LowerStr | front-end/src/app/admin/category/page.tsx:265 | lowercasing a string lowercases each character in place |
| CategoryPage.Select | front-end/src/app/admin/category/page.tsx:268-280 | the kept items are relevant items of the input, never more of them |
| CategoryPage.Pruned | front-end/src/app/admin/category/page.tsx:274-278 | each kept node keeps its fields, with its children replaced by their filtered list |
| CategoryPage.FilterEmpty | front-end/src/app/admin/category/page.tsx:259-282 | for a non-empty term the filtered forest is empty exactly when no top-level node is relevant |
| CategoryPage.FilterSelects | front-end/src/app/admin/category/page.tsx:259-282 | for a non-empty term the filtered forest is the relevant nodes, in their order, each with its children filtered |
| CategoryPage.RelevantIffKept | front-end/src/app/admin/category/page.tsx:268-279 | a node is kept exactly when its name contains the term case-insensitively or one of its children is kept |
| CategoryPage.FilterBounds | front-end/src/app/admin/category/page.tsx:259-282 | an empty term returns the forest unchanged; filtering never adds nodes, and every kept node is a relevant input node with filtered children |
| CategoryPage.Toggled | front-end/src/app/admin/category/page.tsx:249-257 | toggling flips the membership of the given id and of no other |
| CategoryPage.ToggleTwice | front-end/src/app/admin/category/page.tsx:249-257 | toggling the same row twice restores the expanded set |
| CategoryPage.SliceIndex | front-end/src/app/admin/category/page.tsx:399-402 | `slice` clamps an index into the list's bounds |
| CategoryPage.PageWindow | front-end/src/app/admin/category/page.tsx:396-403 | page p shows items (p-1)·n up to p·n cut at the end, at most n of them, and is non-empty exactly for p up to the total page count |
| CategoryPage.TotalPagesBound | front-end/src/app/admin/category/page.tsx:403 | page p starts inside the list exactly when p is at most ⌈length / n⌉ |
| CategoryPage.PagesCover | front-end/src/app/admin/category/page.tsx:396-403 | every item is shown on page i / n + 1, at position i mod n, and that page exists |
| CategoryPage.PageOfIndex | front-end/src/app/admin/category/page.tsx:397-398 | an item's index falls in the window of exactly one page |
| CategoryPage.CategoryPage.constructor | front-end/src/app/admin/category/page.tsx:68-82 | the page starts with no categories, nothing expanded, an empty search, page 1 and ten items a page |
| CategoryPage.CategoryPage.ToggleExpanded | front-end/src/app/admin/category/page.tsx:249-257 | the expanded set becomes the toggled set, and nothing else changes |
| CategoryPage.CategoryPage.Paginate | front-end/src/app/admin/category/page.tsx:405 | only the current page changes |
| CartItemService.MergedEffects | back-end/src/main/java/javaweb/my_project/service/CartItemService.java:38-48 | adding keeps at most one item per (product, account) pair, leaves that pair exactly one item holding the old quantity plus the added one, and changes no other item |
| CartItemService.HeldIs | back-end/src/main/java/javaweb/my_project/service/CartItemService.java:38 | in a cart without duplicate pairs, the quantity held is that of the pair's unique item |
| CartItemService.CartItemService.constructor | back-end/src/main/java/javaweb/my_project/service/CartItemService.java:26-30 | the service starts over the given products and a cart without duplicate pairs |
| CartItemService.CartItemService.AddCartItem | back-end/src/main/java/javaweb/my_project/service/CartItemService.java:33-50 | an unknown product fails with `product-e-01` and a security error propagates, both changing nothing; otherwise the cart is the merged one and the returned item holds the new total for the pair |
| CodeUtil.Fetch | back-end/src/main/java/javaweb/my_project/util/CodeUtil.java:40-48 | `get` returns the payload exactly when the code is stored and its expiry is not before now; otherwise it fails with `code-e-01` |
| CodeUtil.AfterFetch | back-end/src/main/java/javaweb/my_project/util/CodeUtil.java:40-48 | a successful `get` keeps the store; a failed one removes the code |
| CodeUtil.SaveThenFetch | back-end/src/main/java/javaweb/my_project/util/CodeUtil.java:34-48 | a saved code reads back its payload until ttl minutes after saving and fails afterwards, and saving leaves every other code's outcome unchanged |
| CodeUtil.FetchTwice | back-end/src/main/java/javaweb/my_project/util/CodeUtil.java:40-48 | `get` does not consume a live code, so a second `get` gives the same payload; after a failed `get` the code fails at every later instant |
| CodeUtil.CodeUtil.constructor | back-end/src/main/java/javaweb/my_project/util/CodeUtil.java:31 | the store starts empty |
| CodeUtil.CodeUtil.Save | back-end/src/main/java/javaweb/my_project/util/CodeUtil.java:34-37 | the code maps to the payload expiring ttl minutes after now, replacing any earlier entry, and nothing else changes |
| CodeUtil.CodeUtil.Get | back-end/src/main/java/javaweb/my_project/util/CodeUtil.java:40-48 | the outcome and the store after it are those of `Fetch` and `AfterFetch` |
| CodeUtil.CodeUtil.Remove | back-end/src/main/java/javaweb/my_project/util/CodeUtil.java:51 | only the given code is removed |
| RefreshTokenUtil.VerifyIff | back-end/src/main/java/javaweb/my_project/util/jwt/RefreshTokenUtil.java:45-57 | a token verifies exactly when it decodes and is the very token stored for its account; a JWT error propagates and any other failure is `auth-e-05` |
| RefreshTokenUtil.NewTokenRevokesOld | back-end/src/main/java/javaweb/my_project/util/jwt/RefreshTokenUtil.java:35-57 | once a new token is stored for an account, its previous token no longer verifies, and the new one does |
| RefreshTokenUtil.NullRevokesAll | back-end/src/main/java/javaweb/my_project/util/jwt/RefreshTokenUtil.java:53-55 | once an account's row holds null, none of its tokens verifies |
| RefreshTokenUtil.RefreshTokenUtil.constructor | back-end/src/main/java/javaweb/my_project/util/jwt/RefreshTokenUtil.java:15-17 | the store starts with no rows |
| RefreshTokenUtil.RefreshTokenUtil.GenerateToken | back-end/src/main/java/javaweb/my_project/util/jwt/RefreshTokenUtil.java:35-43 | the account's row is created or updated to hold the new token, which is returned; other rows are unchanged |
| RefreshTokenUtil.RefreshTokenUtil.VerifyToken | back-end/src/main/java/javaweb/my_project/util/jwt/RefreshTokenUtil.java:45-57 | the outcome is the one `Verify` describes, and the store is only read |
| Accounts.NewFarmer | back-end/src/main/java/javaweb/my_project/entities/Farmer.java:68-73 | a newly persisted farmer is ACTIVE, has no address, and carries the given name and account |
| Accounts.GetAccount | back-end/src/main/java/javaweb/my_project/security/SecurityUtil.java:21-32 | no authenticated principal fails with `auth-e-00`, an unknown account with `auth-e-01`; otherwise the caller's account id |
| Accounts.GetFarmer | back-end/src/main/java/javaweb/my_project/security/SecurityUtil.java:36-43 | a farmer lookup succeeds only for a stored account holding FARMER, and yields a profile belonging to that account |
| Accounts.GetFarmerIs | back-end/src/main/java/javaweb/my_project/security/SecurityUtil.java:36-43 | with one profile per account, the lookup yields exactly the caller's profile |
| Accounts.FindFarmer | back-end/src/main/java/javaweb/my_project/security/SecurityUtil.java:33-43 | the lookup's outcome is the one `GetFarmer` describes, error codes included |
| AuthService.LoginCheckIff | back-end/src/main/java/javaweb/my_project/service/AuthService.java:66-76 | login succeeds exactly for the account with the email when it holds the requested role and the password matches; a missing role fails with `auth-e-03` before the password is checked, and a wrong password with `auth-e-04` |
| AuthService.AuthService.constructor | back-end/src/main/java/javaweb/my_project/service/AuthService.java:27-33 | the service starts with no accounts and no refresh tokens |
| AuthService.AuthService.Register | back-end/src/main/java/javaweb/my_project/service/AuthService.java:35-40 | `register` passes exactly when no account has the email, and fails with `auth-e-01` otherwise |
| AuthService.AuthService.VerifyRegister | back-end/src/main/java/javaweb/my_project/service/AuthService.java:42-64 | a taken email fails and stores nothing; otherwise a CONSUMER account with the encoded password is stored, its refresh token recorded, and both tokens returned |
| AuthService.AuthService.Login | back-end/src/main/java/javaweb/my_project/service/AuthService.java:66-83 | a failed check changes nothing; a successful login stores the new refresh token for the account and returns both tokens |
| AuthService.AuthService.RefreshToken | back-end/src/main/java/javaweb/my_project/service/AuthService.java:85-92 | a refresh token that does not verify fails with its error; one that does yields a new access token and no refresh token |
| AuthService.AuthService.Logout | back-end/src/main/java/javaweb/my_project/service/AuthService.java:94-102 | a token that does not verify changes nothing; otherwise its account's row is set to null, so none of that account's tokens verifies any more |
| AuthService.AuthService.ChangePassword | back-end/src/main/java/javaweb/my_project/service/AuthService.java:104-114 | an unknown account fails with `auth-e-06` and a wrong current password with `auth-e-07`, both changing nothing; otherwise only the account's password hash changes |
| AuthService.LoginThenLogout | back-end/src/main/java/javaweb/my_project/service/AuthService.java:66-102 | a token handed out at login verifies, and after logout no token of that account verifies |
| AccountService.AccountService.constructor | back-end/src/main/java/javaweb/my_project/service/AccountService.java:25-30 | the service starts over accounts whose farmer profiles all belong to FARMER accounts, one per account |
| AccountService.AccountService.UpgradeToFarmer | back-end/src/main/java/javaweb/my_project/service/AccountService.java:45-58 | a security error propagates and an account already holding FARMER fails with `user-e-01`, both changing nothing; otherwise the account gains FARMER, a new ACTIVE profile with the given name is stored, and the caller's farmer lookup then finds it |
| AccountService.AccountService.Delete | back-end/src/main/java/javaweb/my_project/service/AccountService.java:60-62 | the account with the id is removed together with its farmer profile, through the cascade of `Account.farmer`; every other account and profile is kept, and a missing id changes nothing |
| AccountService.WithoutProfileOf | back-end/src/main/java/javaweb/my_project/entities/Account.java:44-46 | the profiles left after deleting an account are exactly those of other accounts, unchanged |
| AccountService.DeleteCascades | back-end/src/main/java/javaweb/my_project/service/AccountService.java:60-62 | deleting an account and its profile keeps every profile on a stored FARMER account and one per account; the deleted id then fails the farmer lookup with `auth-e-01`, and every other caller's farmer lookup is unchanged |
| FarmerService.Keep | back-end/src/main/java/javaweb/my_project/service/FarmerService.java:107-118 | a null-ignoring copy takes the given value when there is one and keeps the current one otherwise |
| FarmerService.PatchLaws | back-end/src/main/java/javaweb/my_project/service/FarmerService.java:105-121 | each of name, avatar, cover image and description takes the patch's value when given and keeps its own when null; applying a patch twice is applying it once, the all-null patch changes nothing, two patches compose field by field, and status, account and address never change |
| FarmerService.UpdateAddressLaws | back-end/src/main/java/javaweb/my_project/service/FarmerService.java:77-80 | an updated address is always the default and keeps its owner; each of province, ward, detail, receiver name and receiver phone takes the request's value when given and keeps its own when null; repeating the update changes nothing |
| FarmerService.FarmerService.constructor | back-end/src/main/java/javaweb/my_project/service/FarmerService.java:28-34 | the service starts over farmers, one per account, whose addresses are each stored, default and unshared |
| FarmerService.FarmerService.CreateAddress | back-end/src/main/java/javaweb/my_project/service/FarmerService.java:52-68 | a security error propagates and a farmer who already has an address fails with `farmer-e-07`, both changing nothing; otherwise a new default address owned by the farmer's account becomes the farmer's address |
| FarmerService.FarmerService.UpdateAddress | back-end/src/main/java/javaweb/my_project/service/FarmerService.java:70-83 | only the farmer's own address is updated (`farmer-e-08` otherwise), its non-null fields overwritten and its default flag set |
| FarmerService.FarmerService.DeleteAddress | back-end/src/main/java/javaweb/my_project/service/FarmerService.java:85-96 | only the farmer's own address is deleted (`farmer-e-09` otherwise); afterwards the farmer has no address and the address is gone |
| FarmerService.FarmerService.UpdateFarmerInfoPatch | back-end/src/main/java/javaweb/my_project/service/FarmerService.java:105-121 | the calling farmer's profile becomes the patched profile, and nothing else changes |
| FarmerService.FarmerService.ChangeFarmerStatus | back-end/src/main/java/javaweb/my_project/service/FarmerService.java:123-139 | an unknown farmer fails with `farmer-e-01`, a status other than ACTIVE, SELF_BLOCK or ADMIN_BLOCK with `farmer-e-02`; otherwise only the status changes |
| FarmerService.LinkedAfterDelete | back-end/src/main/java/javaweb/my_project/service/FarmerService.java:85-96 | unlinking a farmer's address and deleting it keeps every other farmer's address stored, default and unshared |
| FarmerService.KeepsLinks | back-end/src/main/java/javaweb/my_project/service/FarmerService.java:105-139 | replacing a profile by one with the same account and address keeps one profile per account and the address links |
| MarketPriceService.ByDateOrdered | back-end/src/main/java/javaweb/my_project/service/MarketPriceService.java:42-46 | in a list sorted by date, every record is dated no later than any record after it |
| MarketPriceService.InsertByDate | back-end/src/main/java/javaweb/my_project/service/MarketPriceService.java:44 | inserting adds one record, at the front or after the first |
| MarketPriceService.InsertByDateSorts | back-end/src/main/java/javaweb/my_project/service/MarketPriceService.java:44 | inserting into a date-ordered list keeps it ordered and adds exactly that record |
| MarketPriceService.Listed | back-end/src/main/java/javaweb/my_project/service/MarketPriceService.java:43 | the repository's listing holds the stored records in its order |
| MarketPriceService.PatchLaws | back-end/src/main/java/javaweb/my_project/service/MarketPriceService.java:53-65 | each of product, price, region and date takes the request's value when given and keeps its own when null, and the id is kept; applying a patch twice is applying it once, and the all-null patch changes nothing |
| MarketPriceService.MarketPriceService.constructor | back-end/src/main/java/javaweb/my_project/service/MarketPriceService.java:21-24 | the service starts over the given products and records |
| MarketPriceService.MarketPriceService.Create | back-end/src/main/java/javaweb/my_project/service/MarketPriceService.java:26-33 | an unknown product fails with `product-e-01` and stores nothing; otherwise a record with the request's fields is stored under a new id |
| MarketPriceService.MarketPriceService.UpdatePatch | back-end/src/main/java/javaweb/my_project/service/MarketPriceService.java:48-68 | an unknown record fails with `market-price-e-01` and an unknown new product with `product-e-01`, both changing nothing; otherwise the record becomes the patched record |
| MarketPriceService.MarketPriceService.FindAll | back-end/src/main/java/javaweb/my_project/service/MarketPriceService.java:42-46 | the listing is every stored record, each as often as listed, ascending by date |
| MarketPriceService.MarketPriceService.DeleteById | back-end/src/main/java/javaweb/my_project/service/MarketPriceService.java:70-75 | an unknown record fails with `market-price-e-01`; otherwise exactly that record is removed |
| MarketPriceService.SortByDate | back-end/src/main/java/javaweb/my_project/service/MarketPriceService.java:44 | the sort returns a date-ordered permutation of its input |
| CartStore.Updated | front-end/src/stores/useCartStore.ts:44-50 | updateItem keeps the cart's length; each line whose id matches becomes the line overlaid with the update's present fields, every other line is unchanged |
| CartStore.Removed | front-end/src/stores/useCartStore.ts:52-56 | removeItem leaves only lines from the old cart, none with the removed id |
| CartStore.Matching | front-end/src/stores/useCartStore.ts:52-56 | the lines removeItem drops all come from the cart and all carry the id |
| CartStore.Find | front-end/src/stores/useCartStore.ts:101-104 | getItemById returns a cart line with that id, and returns nothing only when no line has it |
| CartStore.FindIsFirst | front-end/src/stores/useCartStore.ts:101-104 | getItemById returns the line at the first index that holds the id |
| CartStore.FindAfterAppend | front-end/src/stores/useCartStore.ts:38-42 | after addItem, looking an id up gives the earlier line when one existed, otherwise the new line if its id matches |
| CartStore.TotalsAppend | front-end/src/stores/useCartStore.ts:65-99 | getTotalItems and getTotalPrice add up over concatenated carts |
| CartStore.RemoveSplits | front-end/src/stores/useCartStore.ts:52-99 | the totals split exactly into the kept and the removed lines; removing twice equals removing once; kept plus dropped lines count the whole cart |
| CartStore.RemoveKeepsOrder | front-end/src/stores/useCartStore.ts:52-56 | removal distributes over concatenation, so the kept lines stay in their original order |
| CartStore.CartStore.constructor | front-end/src/stores/useCartStore.ts:27-30 | a new store has an empty cart, is not loading and has no error |
| CartStore.CartStore.SetItems | front-end/src/stores/useCartStore.ts:32-36 | setItems replaces the lines and clears the error, leaving the loading flag alone |
| CartStore.CartStore.AddItem | front-end/src/stores/useCartStore.ts:38-42 | addItem appends the line and clears the error; the item total grows by its quantity and the price total by its amount |
| CartStore.CartStore.UpdateItem | front-end/src/stores/useCartStore.ts:44-50 | updateItem merges the update into every line with the id and clears the error |
| CartStore.CartStore.RemoveItem | front-end/src/stores/useCartStore.ts:52-56 | removeItem drops every line with the id and clears the error; the item total drops by their quantities and the id is no longer found |
| CartStore.CartStore.ClearCart | front-end/src/stores/useCartStore.ts:58 | clearCart empties the cart and clears the error; both totals become 0 |
| CartStore.CartStore.SetLoading | front-end/src/stores/useCartStore.ts:60 | setLoading changes only the loading flag |
| CartStore.CartStore.SetError | front-end/src/stores/useCartStore.ts:62 | setError changes only the error |
| OrderStore.Relabeled | front-end/src/stores/useOrderStore.ts:94-102 | updateOrderStatus keeps every order's position and id; the orders with the id take the new status and the others are unchanged |
| OrderStore.WithoutTemp | front-end/src/stores/useOrderStore.ts:109-114 | removePendingOrder keeps exactly the pending orders whose temporary id differs |
| OrderStore.FindOrder | front-end/src/stores/useOrderStore.ts:192-198 | find returns an order that carries the id, and nothing only when no order carries it |
| OrderStore.OfFarmer | front-end/src/stores/useOrderStore.ts:200-210 | a farmer's group holds only that farmer's pending orders |
| OrderStore.GroupedPartitions | front-end/src/stores/useOrderStore.ts:200-210 | getPendingOrdersByFarmer has a group exactly for each farmer with a pending order, and each group is that farmer's pending orders in their order |
| OrderStore.OrderStore.constructor | front-end/src/stores/useOrderStore.ts:76-83 | a new store has no orders of any kind, loads nothing and has no error |
| OrderStore.OrderStore.SetOrders | front-end/src/stores/useOrderStore.ts:88 | setOrders changes only the consumer's orders |
| OrderStore.OrderStore.SetFarmerOrders | front-end/src/stores/useOrderStore.ts:89 | setFarmerOrders changes only the farmer's orders |
| OrderStore.OrderStore.SetLastCreatedOrders | front-end/src/stores/useOrderStore.ts:84-85 | setLastCreatedOrders and clearLastCreatedOrders change only the last created orders |
| OrderStore.OrderStore.SetLoading | front-end/src/stores/useOrderStore.ts:118 | setLoading changes only the loading flag |
| OrderStore.OrderStore.SetLoadingFarmerOrders | front-end/src/stores/useOrderStore.ts:119-120 | setLoadingFarmerOrders changes only the farmer loading flag |
| OrderStore.OrderStore.SetError | front-end/src/stores/useOrderStore.ts:121 | setError changes only the error |
| OrderStore.OrderStore.AddOrder | front-end/src/stores/useOrderStore.ts:90-93 | addOrder puts the order first; the total count grows by one and the order is found by its id |
| OrderStore.OrderStore.UpdateOrderStatus | front-end/src/stores/useOrderStore.ts:94-102 | updateOrderStatus relabels the order in both the consumer's and the farmer's lists and changes nothing else |
| OrderStore.OrderStore.AddPendingOrder | front-end/src/stores/useOrderStore.ts:105-108 | addPendingOrder puts the pending order first and the total count grows by one |
| OrderStore.OrderStore.RemovePendingOrder | front-end/src/stores/useOrderStore.ts:109-114 | removePendingOrder drops the pending orders with that temporary id and changes nothing else |
| OrderStore.OrderStore.ClearPendingOrders | front-end/src/stores/useOrderStore.ts:115 | clearPendingOrders empties only the pending orders |
| OrderStore.OrderStore.FetchAllOrders | front-end/src/stores/useOrderStore.ts:124-140 | fetchAllOrders always ends not loading; an answer replaces the orders (an empty result gives no orders) and clears the error; a reported error or a throw sets the error and keeps the orders |
| OrderStore.OrderStore.FetchFarmerOrders | front-end/src/stores/useOrderStore.ts:142-158 | fetchFarmerOrders does the same for the farmer's orders and the farmer loading flag |
| OrderStore.OrderStore.ChangeOrderStatus | front-end/src/stores/useOrderStore.ts:160-184 | changeOrderStatus succeeds exactly when the server answers, and only then relabels the order; otherwise it sets the error message and keeps the orders |
| OrderStore.OrderStore.TotalOrders | front-end/src/stores/useOrderStore.ts:187-190 | getTotalOrders counts the orders and the pending orders, never below zero |
| OrderStore.OrderStore.OrderById | front-end/src/stores/useOrderStore.ts:192-198 | getOrderById prefers the consumer's order with the id, else a farmer's order with it, and is undefined exactly when neither list holds the id |
| UseOrder.ToItem | front-end/src/hooks/useOrder.ts:33-39 | a pending line keeps the cart line's id and quantity; a missing product gives the name "Sản phẩm", price 0 and no thumbnail; a missing price gives 0; a present name is kept |
| UseOrder.CartItemIds | front-end/src/hooks/useOrder.ts:28-30 | the order request lists exactly the group's cart line ids, in order |
| UseOrder.PendingsAt | front-end/src/hooks/useOrder.ts:23-51 | the pending order built for group k comes from group k alone |
| UseOrder.PendingShape | front-end/src/hooks/useOrder.ts:21-51 | after the hook the store holds one pending order per group, last group first; each names its group's farmer, requests its cart lines in order with the note and address, and falls back to "Không xác định" for a farmer without a name |
| UseOrder.CreatePendingOrders | front-end/src/hooks/useOrder.ts:8-54 | createPendingOrders replaces the pending orders by the groups' pending orders, each prepended in turn, and leaves the rest of the store unchanged |
| ChatbotRoute.DropLast | front-end/src/app/api/chatbot/route.ts:33-34 | slice(0, -1) drops exactly the last message, and an empty history stays empty |
| ChatbotRoute.LeadingBots | front-end/src/app/api/chatbot/route.ts:35-48 | the leading run of bot messages is all bot messages, and the message right after it, if any, is not the bot's |
| ChatbotRoute.KeptPastRun | front-end/src/app/api/chatbot/route.ts:35-48 | the filter keeps every message after the leading bot run |
| ChatbotRoute.FilterKeepsTail | front-end/src/app/api/chatbot/route.ts:35-48 | from the end of the leading bot run on, the filter keeps the history unchanged |
| ChatbotRoute.FilterDropsRun | front-end/src/app/api/chatbot/route.ts:35-48 | the filter drops every message of the leading bot run |
| ChatbotRoute.FilteredIsSuffix | front-end/src/app/api/chatbot/route.ts:33-48 | the filtered history is the history without its last message and without its leading bot messages, so it is empty or starts with a message that is not the bot's |
| ChatbotRoute.ModelRole | front-end/src/app/api/chatbot/route.ts:51-54 | a user message gets the role "user"; every other message gets "model" |
| ChatbotRoute.Turns | front-end/src/app/api/chatbot/route.ts:50-55 | the session history has one turn per filtered message, in order, with its mapped role and its text |
| ChatbotRoute.Prepare | front-end/src/app/api/chatbot/route.ts:14-55 | without an API key the endpoint answers 500; otherwise the session starts from the mapped, filtered history |
| ChatbotRoute.SessionStartsWithUser | front-end/src/app/api/chatbot/route.ts:32-55 | when every message is the user's or the bot's, the session never starts with a model turn |
| ChatbotRoute.LastMessageIgnored | front-end/src/app/api/chatbot/route.ts:16-34 | the last message of the history never reaches the session, and without a key the answer does not depend on the history |
| BackgroundColor.ToInt32 | front-end/src/utils/common/getBackgroundColorClass.ts:17 | the shift's operand and result are read as signed 32-bit integers: the value lies in the 32-bit range and agrees with the input modulo 2^32 |
| BackgroundColor.ColorClass | front-end/src/utils/common/getBackgroundColorClass.ts:1-21 | the class is always one of the ten listed classes, and a null or empty name gets bg-blue-500 |
| BackgroundColor.ToInt32Small | front-end/src/utils/common/getBackgroundColorClass.ts:17 | a value already in the signed 32-bit range passes through the conversion unchanged |
| BackgroundColor.OneCharacter | front-end/src/utils/common/getBackgroundColorClass.ts:15-20 | a one-character name hashes to its code unit and picks the class at that code unit modulo ten |
| BackgroundColor.TwoCharacters | front-end/src/utils/common/getBackgroundColorClass.ts:15-18 | a two-character name hashes to 31 times the first code unit plus the second |
| BackgroundColor.GetBackgroundColorClass | front-end/src/utils/common/getBackgroundColorClass.ts:1-21 | the loop computes the class the hash definition gives for the name |
| HeroCarousel.JsRem | front-end/src/components/common/hero-carousel.tsx:22-30 | JavaScript's remainder: for a non-negative dividend it is the ordinary remainder in [0, n); for a negative one it lies in (-n, 0] |
| HeroCarousel.NextPrevStep | front-end/src/components/common/hero-carousel.tsx:22-30 | from a shown slide, next moves to the following slide and wraps from the last to the first; previous moves back and wraps from the first to the last |
| HeroCarousel.NextPrevInverse | front-end/src/components/common/hero-carousel.tsx:22-30 | both moves stay among the slides and undo each other |
| HeroCarousel.NextTimesWraps | front-end/src/components/common/hero-carousel.tsx:22-41 | k presses of next, or k autoplay ticks, from slide i show slide (i + k) mod n |
| HeroCarousel.ModSucc | front-end/src/components/common/hero-carousel.tsx:23 | the remainder of a successor steps by one and wraps to 0 at n |
| HeroCarousel.SlideOffset | front-end/src/components/common/hero-carousel.tsx:61-70 | a slide is in place exactly when it is the current slide |
| HeroCarousel.ExactlyOneShown | front-end/src/components/common/hero-carousel.tsx:43-70 | for any index the carousel can hold, no slide is in place without images; otherwise exactly the current slide is, the earlier slides sit to its left and the later ones to its right |
| HeroCarousel.HeroCarousel.PlaceholderOrOneSlide | front-end/src/components/common/hero-carousel.tsx:43-70 | the placeholder shows exactly when no slide is in place, and otherwise exactly the current slide is in place |
| HeroCarousel.HeroCarousel.constructor | front-end/src/components/common/hero-carousel.tsx:14-20 | the carousel starts at the first slide |
| HeroCarousel.HeroCarousel.NextSlide | front-end/src/components/common/hero-carousel.tsx:22-24 | nextSlide, reachable only with more than one image, moves to the next slide and keeps the index valid |
| HeroCarousel.HeroCarousel.PrevSlide | front-end/src/components/common/hero-carousel.tsx:26-30 | prevSlide moves to the previous slide and keeps the index valid |
| HeroCarousel.HeroCarousel.GoToSlide | front-end/src/components/common/hero-carousel.tsx:32-34 | goToSlide, reached through the dot of a slide, shows that slide |
| WeatherChart.DatePart | front-end/src/components/weather/weather-forecast-chart.tsx:90 | the date of an entry is a prefix of its timestamp text and holds no space |
| WeatherChart.DaysDistinct | front-end/src/components/weather/weather-forecast-chart.tsx:88-95 | the group keys list no date twice |
| WeatherChart.DayHasEntries | front-end/src/components/weather/weather-forecast-chart.tsx:88-93 | every date with a group has at least one entry in it |
| WeatherChart.NoonIndex | front-end/src/components/weather/weather-forecast-chart.tsx:99-108 | the entry the noon search settles on is one of the date's entries |
| WeatherChart.NoonIndexIsFirstClosest | front-end/src/components/weather/weather-forecast-chart.tsx:99-108 | the chosen entry is the closest to 12:00, and the earliest among entries equally close |
| WeatherChart.ShownDays | front-end/src/components/weather/weather-forecast-chart.tsx:95 | slice(1, 6) shows at most five dates, skipping the first, and only dates that have a group |
| WeatherChart.ChartShape | front-end/src/components/weather/weather-forecast-chart.tsx:80-131 | no forecast, no list or an empty list gives no points; otherwise there is one point per shown date, at most five, each taken from an entry of that date |
| WeatherChart.OfDayFrom | front-end/src/components/weather/weather-forecast-chart.tsx:88-93 | every entry of a date's group comes from the forecast list and carries that date |
| WeatherChart.UnlistedDayEmpty | front-end/src/components/weather/weather-forecast-chart.tsx:88-93 | a date without a key has no entries |
| WeatherChart.GroupStep | front-end/src/components/weather/weather-forecast-chart.tsx:89-93 | pushing one entry keeps the groups equal to the entries of each date so far, adding a key only for a new date |
| WeatherChart.Push | front-end/src/components/weather/weather-forecast-chart.tsx:89-93 | one turn of the grouping loop keeps the groups equal to each date's entries so far, in order |
| WeatherChart.GroupByDay | front-end/src/components/weather/weather-forecast-chart.tsx:88-93 | the grouping loop ends with one key per date, in order of first appearance, each holding that date's entries in order |
| WeatherChart.ClosestToNoon | front-end/src/components/weather/weather-forecast-chart.tsx:99-108 | the loop keeps the first entry closest to noon, as the noon search defines it |
| WeatherChart.PlotDays | front-end/src/components/weather/weather-forecast-chart.tsx:96-130 | the map gives, for each shown date, the point of its noon entry with the value chosen by the chart type, rainfall defaulting to 0 |
| WeatherChart.BuildChartData | front-end/src/components/weather/weather-forecast-chart.tsx:80-131 | buildChartData computes the chart the definition describes |

## Left out

- The HTTP layer is not modelled. This covers controllers, response envelopes, role annotations and DTO validation. The one exception is the IPN endpoint's mapping of RspCode "00" to HTTP 200 and any other code to 400 (`PaymentService.HttpStatus`).
- Persistence is modelled as in-memory maps from id to entity. JPA cascades other than the removal of an account's farmer profile, lazy loading and MapStruct mappers other than `rolesToScope` are not modelled. Entity references are held as ids.
- `Order`'s item set (a `HashSet` keyed by order and product) is a sequence with at most one line per product, and the iteration order of `HashMap` and `HashSet` is not modelled. Results over them are stated for the order the model uses.
- HMAC-SHA512, JWT signing and verification, and password hashing and matching are foreign libraries. They are function-valued fields or parameters, so the proofs hold for any such function.
- The clock and calendar are parameters. This covers `LocalDateTime.now()`, the `Calendar` and `SimpleDateFormat` creation and expiry dates of the payment URL, and their "Etc/GMT+7" zone. JavaScript `Date` parsing, `toISOString` and `Math.random` in the checkout hook are parameters too.
- Concurrency is not modelled. This covers the `ConcurrentHashMap` of the code store and the unguarded check-then-set on repeated IPNs. Calls are sequential.
- I/O is not modelled. This covers e-mail sending, uploads, the weather API routes, the Gemini call of the chatbot route, the axios and session tools and the front end's network wrappers. The server replies that the order store handles are a parameter.
- Floating point is not modelled. This covers product and farmer ratings, `Math.round` of the temperature and the wind speed. Forecast measurements are integers.
- The weekday label of a chart point is not modelled. The page formats it in the vi-VN locale, and the point carries the entry's timestamp instead. The hour of a forecast entry is a field; it is not parsed from `dt_txt`.
- JavaScript numbers are integers in the front-end modules. NaN, `Infinity` (other than the noon search's starting distance), fractions and values beyond 2^53 are not modelled.
- Lower-casing in the category search covers ASCII letters only. Unicode case mapping is not modelled.
- The roles of chatbot messages are arbitrary strings. `ChatbotRoute.SessionStartsWithUser` assumes each message is the user's or the bot's, as the page's message type says.
- The carousel's timer and the rendering of all pages are not modelled. The timer calls `nextSlide` only when autoplay is on and there is more than one image, and `HeroCarousel.HeroCarousel.NextSlide` requires more than one image.
- The enum sources of `OrderStatus`, `PaymentMethod`, `FarmerStatus`, `OcopStatus` and `Role`, and the `AddressRequest` and `VNPayConfig` getters, are not part of this model. Their values and fields are taken from their uses in the services and the front-end types.
- `PaymentMethod` and `FarmerStatus` each have an extra value that stands for any other value. This keeps the whitelist error paths reachable.
- `ProductRequest` declares no `ocopRequest` field, yet `ProductService.create` reads one. The model gives the request an optional OCOP part.
- `OcopImage.url` is modelled as an image `path`.
- `changeProductStatusByAdmin` has the same body as `changeProductStatus`. Both are `ProductService.ProductService.ChangeProductStatus`.
- Some read-only listings are not modelled, because each is a repository query mapped to DTOs:
  - in `ProductService`: `getAllByAdmin`, `getAllByFarmer`, `getAllByFarmerId`, `getAllActiveProduct` and `getProductNames`;
  - `AdminOcopService.getPendingOcopProducts`, which relies on a repository query the shown repository lacks;
  - `CartItemService.getCarItems`;
  - in `OrderService`: `getAll`, `getById`, `getAllByFarmer` and `getOrdersByFarmerId`;
  - in `AccountService`: `getAccount`, `updateAccount` and `getAllAccount`;
  - in `FarmerService`: `getFarmer`, `getFarmerByOwner` and `getAllFarmers`;
  - `MarketPriceService.findById`;
  - `AuthService.getAccountInfo`.
- `FarmerService.updateFarmerInfoPut` is not modelled. It is a plain overwrite of the profile fields.
- `AuthService.forgotPassword` and `verifyForgotPassword` are not modelled. The first only looks the e-mail up. The second resets the password and issues tokens without checking any code, so it has no check order to state.
- `getAllCurrentOrders` of the order store is not modelled. It sorts by JavaScript `Date` values.
- Exceptions such as a failed number parse, a null dereference and `AppException` are outcomes. They are modelled as an error code, or as a parse that yields nothing.
- CartItemService.CartItemService.AddCartItem: the merged quantity is an unbounded integer. The 32-bit `Integer` wrap-around on huge quantities is not modelled.
- OrderService.OrderService.Create: the totals, inventory and sold counts are unbounded integers. The 32-bit `Integer` wrap-around is not modelled here. The payment amount's overflow is modelled separately by `PaymentService.AmountAsWritten` (see Findings).
- OrderService.ReserveCartItems: the totals are unbounded integers, as in `OrderService.OrderService.Create`.
- PaymentService.PaymentService.CreatePaymentUrl: the URL's `vnp_Amount` is 100 times the total computed without overflow, which is the corrected amount of Findings. The source computes an `int` product that wraps for totals above 21474836. `PaymentService.AmountAsWritten` models that product, and `PaymentService.AmountAsWrittenAgrees` proves both agree while the product fits in an `int`.
- PaymentService.PaymentUrl: builds the URL with the corrected amount, for the same reason as `PaymentService.PaymentService.CreatePaymentUrl`.
- PaymentService.PaymentUrlSigned: the amount read back from the notice equals the total for the corrected amount. For the source's amount this holds only while 100 times the total fits in an `int`. Above that, `PaymentService.AmountAsWrittenMisreads` shows the read-back differs.
- OrderService.PlaceOrder: a request with two lines for one product always fails. The model treats the final save as throwing `IllegalStateException`, which is what merging two copies of one entity does by default. The source's outcome depends on the persistence layer's settings. If both lines have quantity 0 they can be equal in the item set, which then keeps one, and the save may succeed. The model does not separate that case.
- OrderService.OrderService.Create: stores nothing for a request with two lines for one product, as described for `OrderService.PlaceOrder`.
- Common.StrLt: orders strings by Unicode code point, while Java's `String.compareTo` compares UTF-16 code units. The two orders differ only when a character from U+10000 up meets one from U+E000 to U+FFFF. The VNPay parameter names are ASCII, so the signed strings are not affected.
- AccountService.AccountService.Delete: removes the account and its farmer profile only. The service holds no other repositories, so the rest of the cascade is not modelled. That covers the account's orders, addresses, forums and forum comments, and the profile's products, orders, address and weather record (Account.java:48-70, Farmer.java:49-66).
- MarketPriceService.MarketPriceService.FindAll: states that the result is ordered by date and holds the same records. It does not state that `List.sort` keeps the order of records with equal dates.
- OrderStore.OrderStore.TotalOrders: states only that the count is not negative. Its growth by one is stated on `AddOrder` and `AddPendingOrder`.

## Findings

| source | as written | input that shows it | evidently intended | confidence | as-written member | corrected member |
|---|---|---|---|---|---|---|
| back-end/src/main/java/javaweb/my_project/service/PaymentService.java:45 | `order.getTotalPrice() * 100` is an `int` product. It wraps for totals above 21474836 before it becomes the `long` amount, so the IPN's `parseLong(vnp_Amount) / 100` reads back a different total and the amount check fails | a total price of 21474837 is sent as -2147483596 and read back as -21474835 | the product is taken in `long`, so every `Integer` total is sent as 100 times itself and read back unchanged | not executed | PaymentService.AmountAsWrittenMisreads | PaymentService.AmountRoundTrip |
