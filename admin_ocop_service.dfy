/** The admin's review of OCOP certificates, and the certificate's life
    cycle across the review and the farmer's resubmission: PENDING_VERIFY
    goes to VERIFIED or REJECTED, REJECTED goes back to PENDING_VERIFY when
    the farmer edits it, and VERIFIED is final. */
module AdminOcopService {
  import opened Common
  import opened Catalog
  import ProductService

  /** The moves a certificate's status can make. */
  predicate OcopMove(from: OcopStatus, to: OcopStatus)
  {
    || (from == PENDING_VERIFY && (to == VERIFIED || to == OcopStatus.REJECTED))
    || (from == OcopStatus.REJECTED && to == PENDING_VERIFY)
  }

  /** `approveOcop` on a product: the certificate must be awaiting
      verification; it becomes VERIFIED by the calling account at `now`, and
      any earlier rejection reason is cleared. */
  function Approve(p: Product, account: Result<string>, now: int): Result<Product>
  {
    if p.ocop.None? then Err("ocop-e-02")
    else if p.ocop.value.status != PENDING_VERIFY then Err("ocop-e-04")
    else if account.Err? then Err(account.code)
    else
      Ok(p.(ocop := Some(p.ocop.value.(status := VERIFIED, verifiedBy := Some(account.value),
                                         verifiedAt := Some(now), reason := None))))
  }

  /** `rejectOcop` on a product: the certificate must be awaiting
      verification; it becomes REJECTED with the given reason, by the calling
      account at `now`. */
  function Reject(p: Product, reason: Option<string>, account: Result<string>, now: int): Result<Product>
  {
    if p.ocop.None? then Err("ocop-e-02")
    else if p.ocop.value.status != PENDING_VERIFY then Err("ocop-e-04")
    else if account.Err? then Err(account.code)
    else
      Ok(p.(ocop := Some(p.ocop.value.(status := OcopStatus.REJECTED, reason := reason,
                                         verifiedBy := Some(account.value), verifiedAt := Some(now)))))
  }

  /** Both reviews fail with ocop-e-02 without a certificate and with
      ocop-e-04 unless it awaits verification; a successful review records
      the reviewer and time, sets the verdict and the reason, and changes
      nothing else of the product or its certificate. */
  lemma ReviewEffects(p: Product, reason: Option<string>, account: Result<string>, now: int)
    ensures p.ocop.None? ==> Approve(p, account, now) == Err("ocop-e-02") && Reject(p, reason, account, now) == Err("ocop-e-02")
    ensures p.ocop.Some? && p.ocop.value.status != PENDING_VERIFY ==>
      Approve(p, account, now) == Err("ocop-e-04") && Reject(p, reason, account, now) == Err("ocop-e-04")
    ensures Approve(p, account, now).Ok? ==>
      var q := Approve(p, account, now).value;
      && q.ocop.Some? && q.ocop.value.status == VERIFIED
      && q.ocop.value.verifiedBy == Some(account.value) && q.ocop.value.verifiedAt == Some(now)
      && q.ocop.value.reason == None
      && q.ocop.value.images == p.ocop.value.images
      && q.(ocop := p.ocop) == p
    ensures Reject(p, reason, account, now).Ok? ==>
      var q := Reject(p, reason, account, now).value;
      && q.ocop.Some? && q.ocop.value.status == OcopStatus.REJECTED
      && q.ocop.value.verifiedBy == Some(account.value) && q.ocop.value.verifiedAt == Some(now)
      && q.ocop.value.reason == reason
      && q.ocop.value.images == p.ocop.value.images
      && q.(ocop := p.ocop) == p
  {
  }

  /** Every successful review and every successful farmer edit moves the
      certificate along an `OcopMove`. */
  lemma OcopLifecycle(p: Product, reason: Option<string>, account: Result<string>, now: int,
                      farmer: Result<string>, request: ProductService.OcopUpdateRequest)
    ensures Approve(p, account, now).Ok? ==>
      OcopMove(p.ocop.value.status, Approve(p, account, now).value.ocop.value.status)
    ensures Reject(p, reason, account, now).Ok? ==>
      OcopMove(p.ocop.value.status, Reject(p, reason, account, now).value.ocop.value.status)
    ensures ProductService.EditOcop(p, farmer, request).Ok? ==>
      p.ocop.Some? && ProductService.EditOcop(p, farmer, request).value.ocop.Some? &&
      OcopMove(p.ocop.value.status, ProductService.EditOcop(p, farmer, request).value.ocop.value.status)
  {
    ProductService.EditOcopEffects(p, farmer, request);
  }

  /** A VERIFIED certificate is final: neither review nor a farmer edit
      succeeds on it. */
  lemma VerifiedIsFinal(p: Product, reason: Option<string>, account: Result<string>, now: int,
                        farmer: Result<string>, request: ProductService.OcopUpdateRequest)
    requires p.ocop.Some? && p.ocop.value.status == VERIFIED
    ensures Approve(p, account, now) == Err("ocop-e-04")
    ensures Reject(p, reason, account, now) == Err("ocop-e-04")
    ensures ProductService.EditOcop(p, farmer, request).Err?
  {
    ProductService.EditOcopEffects(p, farmer, request);
  }

  /** A rejected certificate that its farmer resubmits and an admin then
      approves ends VERIFIED, with no reason and exactly the resubmitted
      scans. */
  lemma ResubmitThenApprove(p: Product, reason: Option<string>, admin: string, farmer: string,
                            request: ProductService.OcopUpdateRequest, t1: int, t2: int)
    requires p.ocop.Some? && p.ocop.value.status == PENDING_VERIFY
    requires p.farmerId == farmer && request.imagePaths.Some?
    ensures Reject(p, reason, Ok(admin), t1).Ok?
    ensures var rejected := Reject(p, reason, Ok(admin), t1).value;
      && ProductService.EditOcop(rejected, Ok(farmer), request).Ok?
      && var edited := ProductService.EditOcop(rejected, Ok(farmer), request).value;
         && Approve(edited, Ok(admin), t2).Ok?
         && var q := Approve(edited, Ok(admin), t2).value;
            && q.ocop.value.status == VERIFIED && q.ocop.value.reason == None
            && Paths(q.ocop.value.images) == request.imagePaths.value
            && q.ocop.value.verifiedBy == Some(admin)
  {
    var rejected := Reject(p, reason, Ok(admin), t1).value;
    ProductService.EditOcopEffects(rejected, Ok(farmer), request);
  }

  /** The admin OCOP service over the product repository. */
  class AdminOcopService {
    var products: map<string, Product>

    constructor(products: map<string, Product>)
      ensures this.products == products
    {
      this.products := products;
    }

    /** `approveOcop`; `account` is what the security context yields for
        the caller's account id. */
    method ApproveOcop(productId: string, account: Result<string>, now: int) returns (r: Result<Product>)
      modifies this
      ensures productId !in old(products) ==> r == Err("product-e-01") && products == old(products)
      ensures productId in old(products) ==>
        match Approve(old(products)[productId], account, now)
        case Err(e) => r == Err(e) && products == old(products)
        case Ok(p) => r == Ok(p) && products == old(products)[productId := p]
    {
      if productId !in products {
        return Err("product-e-01");
      }
      var product := products[productId];
      if product.ocop.None? {
        return Err("ocop-e-02");
      }
      var ocop := product.ocop.value;
      if ocop.status != PENDING_VERIFY {
        return Err("ocop-e-04");
      }
      ocop := ocop.(status := VERIFIED);
      if account.Err? {
        return Err(account.code);
      }
      ocop := ocop.(verifiedBy := Some(account.value));
      ocop := ocop.(verifiedAt := Some(now));
      ocop := ocop.(reason := None);
      product := product.(ocop := Some(ocop));
      products := products[productId := product];
      r := Ok(product);
    }

    /** `rejectOcop`. */
    method RejectOcop(productId: string, reason: Option<string>, account: Result<string>, now: int)
      returns (r: Result<Product>)
      modifies this
      ensures productId !in old(products) ==> r == Err("product-e-01") && products == old(products)
      ensures productId in old(products) ==>
        match Reject(old(products)[productId], reason, account, now)
        case Err(e) => r == Err(e) && products == old(products)
        case Ok(p) => r == Ok(p) && products == old(products)[productId := p]
    {
      if productId !in products {
        return Err("product-e-01");
      }
      var product := products[productId];
      if product.ocop.None? {
        return Err("ocop-e-02");
      }
      var ocop := product.ocop.value;
      if ocop.status != PENDING_VERIFY {
        return Err("ocop-e-04");
      }
      ocop := ocop.(status := OcopStatus.REJECTED);
      ocop := ocop.(reason := reason);
      if account.Err? {
        return Err(account.code);
      }
      ocop := ocop.(verifiedBy := Some(account.value));
      ocop := ocop.(verifiedAt := Some(now));
      product := product.(ocop := Some(ocop));
      products := products[productId := product];
      r := Ok(product);
    }
  }
}
