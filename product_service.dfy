/** The product service: a farmer's products with their images and OCOP
    certificate, kept in a map from product id to product. The caller's
    identity is what the security context yields, passed in as a `Result`
    whose error is the code the lookup throws. */
module ProductService {
  import opened Common
  import opened Catalog

  /** An OCOP part of a product request. */
  datatype OcopRequest = OcopRequest(
    enabled: bool,
    star: Option<int>,
    certificateNumber: string,
    issuedYear: Option<int>,
    issuer: string,
    imagePaths: Option<set<string>>)

  /** A request to create a product. */
  datatype ProductRequest = ProductRequest(
    name: string,
    description: string,
    price: int,
    inventory: int,
    thumbnail: string,
    unitPrice: string,
    imagePaths: Option<set<string>>,
    categoryId: string,
    ocopRequest: Option<OcopRequest>)

  /** A request to update a product's basic information and images. */
  datatype ProductUpdateRequest = ProductUpdateRequest(
    name: string,
    description: string,
    price: int,
    inventory: int,
    thumbnail: string,
    imagePaths: Option<set<string>>,
    categoryId: string)

  /** A farmer's resubmission of a rejected OCOP certificate. */
  datatype OcopUpdateRequest = OcopUpdateRequest(
    star: int,
    certificateNumber: string,
    issuedYear: int,
    issuer: string,
    imagePaths: Option<set<string>>)

  // ---------------------------------------------------------------------------
  // Images

  /** Fresh images, one for each path. */
  function NewImages(paths: set<string>): (r: set<Image>)
    ensures Paths(r) == paths
    ensures forall im :: im in r ==> im.id == None && im.path in paths
  {
    var r := set p | p in paths :: Image(None, p);
    assert forall p | p in paths :: Image(None, p) in r;
    r
  }

  /** There are as many fresh images as paths. */
  lemma {:induction false} NewImagesCount(paths: set<string>)
    ensures |NewImages(paths)| == |paths|
    decreases |paths|
  {
    if paths != {} {
      var p :| p in paths;
      var rest := paths - {p};
      NewImagesCount(rest);
      assert NewImages(paths) == NewImages(rest) + {Image(None, p)};
      assert Image(None, p) !in NewImages(rest);
    }
  }

  /** The images after reconciling `images` with the requested `paths`:
      those whose path is requested, plus a fresh image for each requested
      path no image had. */
  function Reconciled(images: set<Image>, paths: set<string>): set<Image>
  {
    (set im | im in images && im.path in paths) + NewImages(paths - Paths(images))
  }

  /** Reconciliation keeps an old image exactly when its path is requested. */
  lemma ReconciledKeeps(images: set<Image>, paths: set<string>)
    ensures forall im :: im in images ==> (im in Reconciled(images, paths) <==> im.path in paths)
  {
    forall im | im in images ensures im in Reconciled(images, paths) <==> im.path in paths {
      if im.path in paths {
        assert im in (set x | x in images && x.path in paths);
      }
    }
  }

  /** The images reconciliation adds are the fresh ones for the missing
      paths. */
  lemma ReconciledAdds(images: set<Image>, paths: set<string>)
    ensures Reconciled(images, paths) - images == NewImages(paths - Paths(images))
  {
    ReconciledKeeps(images, paths);
    var added := NewImages(paths - Paths(images));
    forall im | im in added ensures im !in images {
      assert im in images ==> im.path in Paths(images);
    }
  }

  /** Reconciliation leaves exactly the requested paths. */
  lemma ReconciledExact(images: set<Image>, paths: set<string>)
    ensures Paths(Reconciled(images, paths)) == paths
  {
    var r := Reconciled(images, paths);
    forall p | p in paths ensures p in Paths(r) {
      if p in Paths(images) {
        var im :| im in images && im.path == p;
        assert im in r;
      } else {
        assert Image(None, p) in r;
      }
    }
  }

  /** After reconciliation the paths are exactly the requested ones; an image
      whose path is requested is kept as it was, one whose path is not is
      gone, and the only new images are fresh ones for the paths that were
      missing, one per path. */
  lemma ReconciledPaths(images: set<Image>, paths: set<string>)
    ensures var r := Reconciled(images, paths);
      && Paths(r) == paths
      && (forall im :: im in images ==> (im in r <==> im.path in paths))
      && (forall im :: im in r && im !in images ==> im.id == None && im.path in paths - Paths(images))
      && |r - images| == |paths - Paths(images)|
  {
    ReconciledExact(images, paths);
    ReconciledKeeps(images, paths);
    ReconciledAdds(images, paths);
    NewImagesCount(paths - Paths(images));
  }

  /** The loop adding a fresh image for each path (in `createImagesFromPaths`
      and in `updateProductImages`). */
  method AddImages(images: set<Image>, paths: set<string>) returns (r: set<Image>)
    ensures r == images + NewImages(paths)
  {
    r := images;
    var rest := paths;
    while rest != {}
      invariant rest <= paths
      invariant r == images + NewImages(paths - rest)
      decreases |rest|
    {
      var p :| p in rest;
      r := r + {Image(None, p)};
      rest := rest - {p};
      assert paths - rest == (paths - (rest + {p})) + {p};
    }
    assert paths - rest == paths;
  }

  /** The loop of `updateOcop` adding a fresh image for each requested path
      not among the `existing` ones. */
  method AddMissingImages(images: set<Image>, paths: set<string>, existing: set<string>) returns (r: set<Image>)
    ensures r == images + NewImages(paths - existing)
  {
    r := images;
    var rest := paths;
    while rest != {}
      invariant rest <= paths
      invariant r == images + NewImages((paths - rest) - existing)
      decreases |rest|
    {
      var p :| p in rest;
      if p !in existing {
        r := r + {Image(None, p)};
      }
      rest := rest - {p};
      assert paths - rest == (paths - (rest + {p})) + {p};
    }
    assert paths - rest == paths;
  }

  /** `createImagesFromPaths`: one fresh image per path, none for an absent
      or empty set of paths. */
  method CreateImagesFromPaths(imagePaths: Option<set<string>>) returns (images: set<Image>)
    ensures imagePaths.None? ==> images == {}
    ensures imagePaths.Some? ==> images == NewImages(imagePaths.value)
    ensures imagePaths.Some? ==> |images| == |imagePaths.value|
  {
    images := {};
    if imagePaths.Some? && imagePaths.value != {} {
      images := AddImages(images, imagePaths.value);
    }
    if imagePaths.Some? {
      NewImagesCount(imagePaths.value);
    }
  }

  /** `updateProductImages`: absent paths leave the images alone; otherwise
      the images are reconciled with the requested paths. */
  method UpdateProductImages(images: set<Image>, newImagePaths: Option<set<string>>) returns (r: set<Image>)
    ensures newImagePaths.None? ==> r == images
    ensures newImagePaths.Some? ==> r == Reconciled(images, newImagePaths.value)
  {
    if newImagePaths.None? {
      return images;
    }
    var currentImagePaths := Paths(images);
    var imagesToRemove := currentImagePaths - newImagePaths.value;
    var imagesToAdd := newImagePaths.value - currentImagePaths;
    ghost var kept := set im | im in images && im.path in newImagePaths.value;
    r := images;
    if imagesToRemove != {} {
      r := set im | im in r && im.path !in imagesToRemove;
    }
    assert r == kept by {
      forall im | im in images ensures im in r <==> im in kept {
        assert im.path in currentImagePaths;
      }
    }
    if imagesToAdd != {} {
      r := AddImages(r, imagesToAdd);
    }
    assert imagesToAdd == {} ==> NewImages(imagesToAdd) == {};
  }

  // ---------------------------------------------------------------------------
  // OCOP

  /** `createOcopFromRequest`: no certificate for an absent or disabled
      request; otherwise a new certificate awaiting verification with a scan
      per image path (an absent set of paths throws). */
  function OcopFromRequest(request: Option<OcopRequest>): Result<Option<Ocop>>
  {
    if request.None? || !request.value.enabled then Ok(None)
    else if request.value.imagePaths.None? then Err("NullPointerException")
    else
      var q := request.value;
      Ok(Some(Ocop(q.star, q.certificateNumber, q.issuedYear, q.issuer, OcopStatus.PENDING_VERIFY,
                   None, None, None, NewImages(q.imagePaths.value))))
  }

  /** A certificate is created exactly for an enabled request; it starts
      PENDING_VERIFY, unverified and without a reason, with one scan per
      requested path. */
  lemma OcopFromRequestStarts(request: Option<OcopRequest>)
    ensures OcopFromRequest(request) == Ok(None) <==> request.None? || !request.value.enabled
    ensures OcopFromRequest(request).Err? <==>
      request.Some? && request.value.enabled && request.value.imagePaths.None?
    ensures OcopFromRequest(request).Ok? && OcopFromRequest(request).value.Some? ==>
      var o := OcopFromRequest(request).value.value;
      var paths := request.value.imagePaths.value;
      && o.status == OcopStatus.PENDING_VERIFY
      && o.verifiedBy == None && o.verifiedAt == None && o.reason == None
      && o.star == request.value.star && o.certificateNumber == request.value.certificateNumber
      && Paths(o.images) == paths && |o.images| == |paths|
  {
    if request.Some? && request.value.enabled && request.value.imagePaths.Some? {
      NewImagesCount(request.value.imagePaths.value);
    }
  }

  /** The loop of `createOcopFromRequest`. */
  method CreateOcopFromRequest(request: Option<OcopRequest>) returns (r: Result<Option<Ocop>>)
    ensures r == OcopFromRequest(request)
  {
    if request.None? || !request.value.enabled {
      return Ok(None);
    }
    var q := request.value;
    if q.imagePaths.None? {
      return Err("NullPointerException");
    }
    var ocopImages := AddImages({}, q.imagePaths.value);
    assert ocopImages == NewImages(q.imagePaths.value);
    r := Ok(Some(Ocop(q.star, q.certificateNumber, q.issuedYear, q.issuer, OcopStatus.PENDING_VERIFY,
                      None, None, None, ocopImages)));
  }

  /** `validateProductOwnership`: the caller must be the product's farmer. */
  function Owned(p: Product, farmer: Result<string>): (r: Outcome)
    ensures r.Done? <==> farmer.Ok? && farmer.value == p.farmerId
    ensures farmer.Err? ==> r == Fail(farmer.code)
    ensures farmer.Ok? && farmer.value != p.farmerId ==> r == Fail("product-e-03")
  {
    if farmer.Err? then Fail(farmer.code)
    else if p.farmerId != farmer.value then Fail("product-e-03")
    else Done
  }

  /** `updateOcop` on a product: only its farmer, only a certificate that was
      rejected; the new details are stored, the scans reconciled with the
      requested paths, and the certificate goes back to PENDING_VERIFY. */
  function EditOcop(p: Product, farmer: Result<string>, request: OcopUpdateRequest): Result<Product>
  {
    var owned := Owned(p, farmer);
    if owned.Fail? then Err(owned.code)
    else if p.ocop.None? then Err("ocop-e-02")
    else if p.ocop.value.status != OcopStatus.REJECTED then Err("ocop-e-03")
    else if request.imagePaths.None? then Err("NullPointerException")
    else
      var o := p.ocop.value;
      Ok(p.(ocop := Some(o.(star := Some(request.star), certificateNumber := request.certificateNumber,
                            issuedYear := Some(request.issuedYear), issuer := request.issuer,
                            status := OcopStatus.PENDING_VERIFY,
                            images := Reconciled(o.images, request.imagePaths.value)))))
  }

  /** An edit succeeds only for the owner of a product whose certificate was
      rejected; it resubmits the certificate with exactly the requested scans
      and leaves the rest of the product, and the verifier and reason of the
      rejection, as they were. */
  lemma EditOcopEffects(p: Product, farmer: Result<string>, request: OcopUpdateRequest)
    ensures p.ocop.None? ==> EditOcop(p, farmer, request).Err?
    ensures p.ocop.Some? && p.ocop.value.status != OcopStatus.REJECTED ==> EditOcop(p, farmer, request).Err?
    ensures farmer.Ok? && farmer.value != p.farmerId ==> EditOcop(p, farmer, request) == Err("product-e-03")
    ensures EditOcop(p, farmer, request).Ok? ==>
      var q := EditOcop(p, farmer, request).value;
      && farmer == Ok(p.farmerId)
      && p.ocop.Some? && p.ocop.value.status == OcopStatus.REJECTED
      && q.ocop.Some? && q.ocop.value.status == OcopStatus.PENDING_VERIFY
      && Paths(q.ocop.value.images) == request.imagePaths.value
      && q.ocop.value.verifiedBy == p.ocop.value.verifiedBy && q.ocop.value.reason == p.ocop.value.reason
      && q.(ocop := p.ocop) == p
  {
    if EditOcop(p, farmer, request).Ok? {
      ReconciledPaths(p.ocop.value.images, request.imagePaths.value);
    }
  }

  // ---------------------------------------------------------------------------
  // Visibility and creation

  /** Who may read a product of the given status in `getById`: an admin any,
      a farmer any but a deleted one, a consumer or an anonymous caller (the
      security context throws auth-e-00) only an active one; any other error
      of the security context propagates. */
  function Visibility(account: Result<set<Role>>, status: ProductStatus): Outcome
  {
    if account.Ok? && ADMIN in account.value then Done
    else if account.Ok? && FARMER in account.value then
      if status == ProductStatus.DELETED then Fail("product-e-03") else Done
    else if account.Err? && account.code != "auth-e-00" then Fail(account.code)
    else if status != ProductStatus.ACTIVE then Fail("product-e-03")
    else Done
  }

  /** The visibility table: an admin sees every status, a farmer every status
      but DELETED, a consumer or anonymous caller only ACTIVE; an active
      product is visible to everyone the security context accepts. */
  lemma VisibilityTable(account: Result<set<Role>>, status: ProductStatus)
    ensures account.Ok? && ADMIN in account.value ==> Visibility(account, status) == Done
    ensures account.Ok? && ADMIN !in account.value && FARMER in account.value ==>
      (Visibility(account, status) == Done <==> status != ProductStatus.DELETED)
    ensures (account == Err("auth-e-00") || (account.Ok? && ADMIN !in account.value && FARMER !in account.value)) ==>
      (Visibility(account, status) == Done <==> status == ProductStatus.ACTIVE)
    ensures account.Err? && account.code != "auth-e-00" ==> Visibility(account, status) == Fail(account.code)
    ensures Visibility(account, status).Fail? ==>
      Visibility(account, status) == Fail("product-e-03") || (account.Err? && Visibility(account, status) == Fail(account.code))
  {
  }

  /** `create`: the caller must be a farmer and the category must exist;
      the product starts ACTIVE with nothing sold, one fresh image per path,
      and the certificate the request asks for. */
  function NewProduct(categories: set<string>, farmer: Result<string>, request: ProductRequest): Result<Product>
  {
    if farmer.Err? then Err(farmer.code)
    else if request.categoryId !in categories then Err("category-e-02")
    else
      var ocop := OcopFromRequest(request.ocopRequest);
      if ocop.Err? then Err(ocop.code)
      else
        Ok(Product(request.name, request.description, request.price, request.inventory, 0, request.thumbnail,
                   request.unitPrice, ProductStatus.ACTIVE, farmer.value, request.categoryId,
                   if request.imagePaths.Some? then NewImages(request.imagePaths.value) else {},
                   ocop.value, None))
  }

  /** A created product belongs to the calling farmer, is ACTIVE, has sold
      nothing, has exactly the requested image paths, and carries a
      certificate exactly when one was enabled, awaiting verification. */
  lemma NewProductShape(categories: set<string>, farmer: Result<string>, request: ProductRequest)
    ensures NewProduct(categories, farmer, request).Ok? <==>
      farmer.Ok? && request.categoryId in categories && OcopFromRequest(request.ocopRequest).Ok?
    ensures NewProduct(categories, farmer, request).Ok? ==>
      var p := NewProduct(categories, farmer, request).value;
      && p.farmerId == farmer.value && p.status == ProductStatus.ACTIVE && p.sold == 0
      && p.inventory == request.inventory && p.price == request.price
      && Paths(p.images) == (if request.imagePaths.Some? then request.imagePaths.value else {})
      && (p.ocop.Some? <==> request.ocopRequest.Some? && request.ocopRequest.value.enabled)
      && (p.ocop.Some? ==> p.ocop.value.status == OcopStatus.PENDING_VERIFY)
      && p.deletedAt == None
  {
    OcopFromRequestStarts(request.ocopRequest);
  }

  /** `update` on a product: only its farmer, into an existing category; the
      basic fields are overwritten and the images reconciled. */
  function UpdatedProduct(categories: set<string>, p: Product, farmer: Result<string>,
                          request: ProductUpdateRequest): Result<Product>
  {
    var owned := Owned(p, farmer);
    if owned.Fail? then Err(owned.code)
    else if request.categoryId !in categories then Err("category-e-02")
    else
      Ok(p.(name := request.name, description := request.description, price := request.price,
            inventory := request.inventory, thumbnail := request.thumbnail, categoryId := request.categoryId,
            images := if request.imagePaths.Some? then Reconciled(p.images, request.imagePaths.value) else p.images))
  }

  /** An update keeps status, sales, owner, certificate and deletion time;
      absent paths keep the images, present ones make the paths exactly the
      requested set. */
  lemma UpdatedProductKeeps(categories: set<string>, p: Product, farmer: Result<string>,
                            request: ProductUpdateRequest)
    ensures UpdatedProduct(categories, p, farmer, request).Ok? ==>
      var q := UpdatedProduct(categories, p, farmer, request).value;
      && q.status == p.status && q.sold == p.sold && q.farmerId == p.farmerId
      && q.ocop == p.ocop && q.deletedAt == p.deletedAt && q.unitPrice == p.unitPrice
      && (request.imagePaths.None? ==> q.images == p.images)
      && (request.imagePaths.Some? ==> Paths(q.images) == request.imagePaths.value)
  {
    if UpdatedProduct(categories, p, farmer, request).Ok? && request.imagePaths.Some? {
      ReconciledPaths(p.images, request.imagePaths.value);
    }
  }

  /** A soft-deleted product stays stored but is hidden from its farmer and
      from consumers; only an admin still sees it. */
  lemma SoftDeleteHides(p: Product, now: int, account: Result<set<Role>>)
    ensures var q := p.(status := ProductStatus.DELETED, deletedAt := Some(now));
      && (account.Ok? && ADMIN in account.value ==> Visibility(account, q.status) == Done)
      && (account.Ok? && ADMIN !in account.value ==> Visibility(account, q.status) == Fail("product-e-03"))
      && (account == Err("auth-e-00") ==> Visibility(account, q.status) == Fail("product-e-03"))
  {
  }

  /** The statuses `changeProductStatus` accepts. */
  const Assignable: set<ProductStatus> := {ProductStatus.ACTIVE, ProductStatus.REJECTED, ProductStatus.BLOCKED}

  // ---------------------------------------------------------------------------
  // The service

  /** The product service over its repositories: products by id and the ids
      of the stored categories. */
  class ProductService {
    var products: map<string, Product>
    var categories: set<string>

    constructor(products: map<string, Product>, categories: set<string>)
      ensures this.products == products && this.categories == categories
    {
      this.products := products;
      this.categories := categories;
    }

    /** `create`, storing the product under the generated id `newId`. */
    method Create(newId: string, farmer: Result<string>, request: ProductRequest) returns (r: Result<Product>)
      requires newId !in products
      modifies this
      ensures categories == old(categories)
      ensures match NewProduct(categories, farmer, request)
        case Err(e) => r == Err(e) && products == old(products)
        case Ok(p) => r == Ok(p) && products == old(products)[newId := p]
    {
      if farmer.Err? {
        return Err(farmer.code);
      }
      if request.categoryId !in categories {
        return Err("category-e-02");
      }
      var images := CreateImagesFromPaths(request.imagePaths);
      var ocop := CreateOcopFromRequest(request.ocopRequest);
      if ocop.Err? {
        return Err(ocop.code);
      }
      var product := Product(request.name, request.description, request.price, request.inventory, 0,
                             request.thumbnail, request.unitPrice, ProductStatus.ACTIVE, farmer.value,
                             request.categoryId, images, ocop.value, None);
      products := products[newId := product];
      r := Ok(product);
    }

    /** `updateOcop`. */
    method UpdateOcop(productId: string, farmer: Result<string>, request: OcopUpdateRequest) returns (r: Result<Product>)
      modifies this
      ensures categories == old(categories)
      ensures productId !in old(products) ==> r == Err("product-e-01") && products == old(products)
      ensures productId in old(products) ==>
        match EditOcop(old(products)[productId], farmer, request)
        case Err(e) => r == Err(e) && products == old(products)
        case Ok(p) => r == Ok(p) && products == old(products)[productId := p]
    {
      if productId !in products {
        return Err("product-e-01");
      }
      var product := products[productId];
      var owned := Owned(product, farmer);
      if owned.Fail? {
        return Err(owned.code);
      }
      if product.ocop.None? {
        return Err("ocop-e-02");
      }
      var ocop := product.ocop.value;
      if ocop.status != OcopStatus.REJECTED {
        return Err("ocop-e-03");
      }
      ocop := ocop.(star := Some(request.star), certificateNumber := request.certificateNumber,
                    issuedYear := Some(request.issuedYear), issuer := request.issuer,
                    status := OcopStatus.PENDING_VERIFY);
      if request.imagePaths.None? {
        return Err("NullPointerException");
      }
      var newOcopImagePaths := request.imagePaths.value;
      var currentOcopImages := set im | im in ocop.images && im.path in newOcopImagePaths;
      var existingOcopImageUrls := Paths(currentOcopImages);
      currentOcopImages := AddMissingImages(currentOcopImages, newOcopImagePaths, existingOcopImageUrls);
      assert newOcopImagePaths - existingOcopImageUrls == newOcopImagePaths - Paths(ocop.images);
      ocop := ocop.(images := currentOcopImages);
      product := product.(ocop := Some(ocop));
      products := products[productId := product];
      r := Ok(product);
    }

    /** `getById`: reads only. */
    method GetById(id: string, account: Result<set<Role>>) returns (r: Result<Product>)
      ensures id !in products ==> r == Err("product-e-01")
      ensures id in products ==>
        match Visibility(account, products[id].status)
        case Done => r == Ok(products[id])
        case Fail(e) => r == Err(e)
    {
      if id !in products {
        return Err("product-e-01");
      }
      var product := products[id];
      if account.Ok? {
        var roles := account.value;
        if ADMIN in roles {
          return Ok(product);
        }
        if FARMER in roles {
          if product.status == ProductStatus.DELETED {
            return Err("product-e-03");
          }
          return Ok(product);
        }
      } else if account.code != "auth-e-00" {
        return Err(account.code);
      }
      if product.status != ProductStatus.ACTIVE {
        return Err("product-e-03");
      }
      r := Ok(product);
    }

    /** `update`. */
    method Update(id: string, farmer: Result<string>, request: ProductUpdateRequest) returns (r: Result<Product>)
      modifies this
      ensures categories == old(categories)
      ensures id !in old(products) ==> r == Err("product-e-01") && products == old(products)
      ensures id in old(products) ==>
        match UpdatedProduct(categories, old(products)[id], farmer, request)
        case Err(e) => r == Err(e) && products == old(products)
        case Ok(p) => r == Ok(p) && products == old(products)[id := p]
    {
      if id !in products {
        return Err("product-e-01");
      }
      var product := products[id];
      var owned := Owned(product, farmer);
      if owned.Fail? {
        return Err(owned.code);
      }
      if request.categoryId !in categories {
        return Err("category-e-02");
      }
      product := product.(name := request.name, description := request.description, price := request.price,
                          inventory := request.inventory, thumbnail := request.thumbnail,
                          categoryId := request.categoryId);
      var images := UpdateProductImages(product.images, request.imagePaths);
      product := product.(images := images);
      products := products[id := product];
      r := Ok(product);
    }

    /** `delete`: a soft delete by the product's farmer. */
    method Delete(id: string, farmer: Result<string>, now: int) returns (r: Outcome)
      modifies this
      ensures categories == old(categories)
      ensures id !in old(products) ==> r == Fail("product-e-01") && products == old(products)
      ensures id in old(products) ==> r == Owned(old(products)[id], farmer)
      ensures id in old(products) && r.Done? ==>
        products == old(products)[id := old(products)[id].(status := ProductStatus.DELETED, deletedAt := Some(now))]
      ensures r.Fail? ==> products == old(products)
    {
      if id !in products {
        return Fail("product-e-01");
      }
      var product := products[id];
      r := Owned(product, farmer);
      if r.Fail? {
        return;
      }
      product := product.(status := ProductStatus.DELETED, deletedAt := Some(now));
      products := products[id := product];
    }

    /** `changeProductStatus` (and `changeProductStatusByAdmin`, which has
        the same body): only ACTIVE, REJECTED or BLOCKED, from any status. */
    method ChangeProductStatus(id: string, status: ProductStatus) returns (r: Result<Product>)
      modifies this
      ensures categories == old(categories)
      ensures id !in old(products) ==> r == Err("product-e-01") && products == old(products)
      ensures id in old(products) && status !in Assignable ==> r == Err("product-e-02") && products == old(products)
      ensures id in old(products) && status in Assignable ==>
        && r == Ok(old(products)[id].(status := status))
        && products == old(products)[id := old(products)[id].(status := status)]
    {
      if id !in products {
        return Err("product-e-01");
      }
      var product := products[id];
      if status !in Assignable {
        return Err("product-e-02");
      }
      product := product.(status := status);
      products := products[id := product];
      r := Ok(product);
    }
  }
}
