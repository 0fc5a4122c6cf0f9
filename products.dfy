/** The catalogue handlers of `internal/handlers/product.go`. Every query is confined to the
  * shop named by the caller's token, and only a SuperAdmin is shown purchase prices. */
module Products {
  import opened Outcomes
  import opened Seqs
  import opened Text
  import opened Uuids
  import opened Dates
  import opened Models
  import opened Dto
  import opened Database
  import opened Middleware

  /** `toPrivateResponse`: the product's fields, with the purchase price left at zero unless
    * the caller's role is exactly "SuperAdmin". */
  function ToPrivateResponse(p: Product, role: string): (r: PrivateProductResponse)
    ensures r.purchasePrice == (if role == RoleName(SuperAdmin) then p.purchasePrice else 0.0)
    ensures && r.id == p.id && r.name == p.name && r.description == p.description
            && r.category == p.category && r.sellingPrice == p.sellingPrice && r.stock == p.stock
            && r.imageUrl == p.imageUrl && r.shopId == p.shopId
  {
    PrivateProductResponse(
      p.id, p.name, p.description, p.category,
      if role == RoleName(SuperAdmin) then p.purchasePrice else 0.0,
      p.sellingPrice, p.stock, p.imageUrl, p.shopId)
  }

  /** A caller who is not a SuperAdmin cannot tell two products apart by purchase price. */
  lemma PurchasePriceHidden(p: Product, q: Product, role: string)
    requires role != "SuperAdmin"
    requires p.(purchasePrice := q.purchasePrice) == q
    ensures ToPrivateResponse(p, role) == ToPrivateResponse(q, role)
  {
  }

  function PrivateView(role: string): Product -> PrivateProductResponse {
    p => ToPrivateResponse(p, role)
  }

  // ---------------------------------------------------------------- listing

  /** The rows `GetProducts` selects: live rows of the shop, of the given category when one
    * is given, whose name contains the search text in any ASCII letter case when one is
    * given. */
  predicate InCatalogue(p: Product, shop: Uuid, category: string, search: string) {
    && p.Live() && p.shopId == shop
    && (category != "" ==> p.category == category)
    && (search != "" ==> Contains(AsciiLower(p.name), AsciiLower(search)))
  }

  function CatalogueBy(shop: Uuid, category: string, search: string): Product -> bool {
    p => InCatalogue(p, shop, category, search)
  }

  datatype ProductList = ProductList(products: seq<PrivateProductResponse>, total: nat)

  /** `GetProducts`: the selected rows in table order, each converted for the caller's role. */
  method GetProducts(db: Db, ctx: Context, category: string, search: string) returns (r: Outcome<ProductList>)
    ensures !ctx.ShopId().1 ==> r == Fail(Unauthorized("Unauthorized"))
    ensures ctx.ShopId().1 ==> r.Ok?
    ensures r.Ok? ==>
      && r.value.products == Map(Filter(db.products, CatalogueBy(ctx.ShopId().0, category, search)), PrivateView(ctx.Role()))
      && r.value.total == |r.value.products|
  {
    var (shop, ok) := ctx.ShopId();
    if !ok {
      return Fail(Unauthorized("Unauthorized"));
    }
    var role := ctx.Role();
    var rows := Filter(db.products, CatalogueBy(shop, category, search));
    var responses: seq<PrivateProductResponse> := [];
    var i := 0;
    while i < |rows|
      invariant 0 <= i <= |rows|
      invariant |responses| == i
      invariant forall j :: 0 <= j < i ==> responses[j] == ToPrivateResponse(rows[j], role)
    {
      responses := responses + [ToPrivateResponse(rows[i], role)];
      i := i + 1;
    }
    assert responses == Map(rows, PrivateView(role));
    return Ok(ProductList(responses, |responses|));
  }

  /** The listing shows only the caller's shop, each entry the view of one of its live rows,
    * and to anyone but a SuperAdmin no purchase price. */
  lemma CatalogueIsolated(products: seq<Product>, shop: Uuid, category: string, search: string, role: string)
    ensures var listed := Map(Filter(products, CatalogueBy(shop, category, search)), PrivateView(role));
      forall i :: 0 <= i < |listed| ==> (
        && listed[i].shopId == shop
        && (role != "SuperAdmin" ==> listed[i].purchasePrice == 0.0)
        && exists p :: p in products && p.Live() && p.shopId == shop && listed[i] == ToPrivateResponse(p, role))
  {
    var rows := Filter(products, CatalogueBy(shop, category, search));
    var listed := Map(rows, PrivateView(role));
    forall i | 0 <= i < |listed|
      ensures listed[i].shopId == shop && (role != "SuperAdmin" ==> listed[i].purchasePrice == 0.0)
      ensures exists p :: p in products && p.Live() && p.shopId == shop && listed[i] == ToPrivateResponse(p, role)
    {
      assert rows[i] in rows;
      assert rows[i] in products && InCatalogue(rows[i], shop, category, search);
      assert listed[i] == ToPrivateResponse(rows[i], role);
    }
  }

  // ---------------------------------------------------------------- single product

  /** `GetProduct`: a live product of the caller's shop by its id. */
  method GetProduct(db: Db, ctx: Context, idText: string) returns (r: Outcome<PrivateProductResponse>)
    ensures !ctx.ShopId().1 ==> r == Fail(Unauthorized("Unauthorized"))
    ensures ctx.ShopId().1 && Parse(idText).None? ==> r == Fail(BadRequest("Invalid product ID"))
    ensures ctx.ShopId().1 && Parse(idText).Some? && TenantProduct(db.products, Parse(idText).value, ctx.ShopId().0).None? ==>
      r == Fail(NotFound("Product not found"))
    ensures r.Ok? <==> ctx.ShopId().1 && Parse(idText).Some? && TenantProduct(db.products, Parse(idText).value, ctx.ShopId().0).Some?
    ensures r.Ok? ==> exists k :: (
      && 0 <= k < |db.products|
      && db.products[k].Live() && db.products[k].id == Parse(idText).value && db.products[k].shopId == ctx.ShopId().0
      && r.value == ToPrivateResponse(db.products[k], ctx.Role()))
  {
    var (shop, ok) := ctx.ShopId();
    if !ok {
      return Fail(Unauthorized("Unauthorized"));
    }
    var id := Parse(idText);
    if id.None? {
      return Fail(BadRequest("Invalid product ID"));
    }
    var found := TenantProduct(db.products, id.value, shop);
    if found.None? {
      return Fail(NotFound("Product not found"));
    }
    return Ok(ToPrivateResponse(db.products[found.value], ctx.Role()));
  }

  // ---------------------------------------------------------------- creation

  /** The row a creation request becomes: the shop comes from the token, never the body. */
  function NewProduct(req: CreateProductRequest, shop: Uuid, now: Instant): Product {
    Product(Nil, req.name, req.description, req.category, req.purchasePrice, req.sellingPrice,
            req.stock, req.imageUrl, shop, now, None)
  }

  /** `CreateProduct`. */
  method CreateProduct(db: Db, ctx: Context, body: Option<CreateProductRequest>, newId: Uuid, now: Instant)
    returns (r: Outcome<PrivateProductResponse>)
    requires db.Valid()
    modifies db
    ensures db.Valid()
    ensures db.shops == old(db.shops) && db.users == old(db.users) && db.transactions == old(db.transactions)
    ensures r.Fail? ==> db.products == old(db.products)
    ensures !ctx.ShopId().1 ==> r == Fail(Unauthorized("Unauthorized"))
    ensures ctx.ShopId().1 && Bind(body, CreateProductBinds).Fail? ==> r == Fail(Bind(body, CreateProductBinds).failure)
    ensures ctx.ShopId().1 && Bind(body, CreateProductBinds).Ok? ==>
      var row := NewProduct(body.value, ctx.ShopId().0, now).BeforeCreate(newId);
      if newId !in ProductIds(old(db.products)) && ctx.ShopId().0 in ShopIds(old(db.shops)) then
        r == Ok(ToPrivateResponse(row, ctx.Role())) && db.products == old(db.products) + [row]
      else
        r == Fail(Internal("Failed to create product"))
  {
    var (shop, ok) := ctx.ShopId();
    if !ok {
      return Fail(Unauthorized("Unauthorized"));
    }
    var bound := Bind(body, CreateProductBinds);
    if bound.Fail? {
      return Fail(bound.failure);
    }
    var row := NewProduct(bound.value, shop, now).BeforeCreate(newId);
    var inserted := db.InsertProduct(row);
    if !inserted {
      return Fail(Internal("Failed to create product"));
    }
    return Ok(ToPrivateResponse(row, ctx.Role()));
  }

  // ---------------------------------------------------------------- update

  /** A value in the column map handed to `Updates`. */
  datatype SqlValue = SqlText(text: string) | SqlReal(number: real) | SqlInt(count: int)

  /** The update map: a text column when its field is non-empty, a price when it is positive,
    * and the stock whenever it is not negative, so that a body without `stock` (which
    * decodes to 0) sets the stock to 0. */
  function UpdateSet(req: UpdateProductRequest): (m: map<string, SqlValue>)
    ensures forall key :: key in m ==> key in {"name", "description", "category", "purchase_price", "selling_price", "stock", "image_url"}
  {
    var m0: map<string, SqlValue> := map[];
    var m1 := if req.name != "" then m0["name" := SqlText(req.name)] else m0;
    var m2 := if req.description != "" then m1["description" := SqlText(req.description)] else m1;
    var m3 := if req.category != "" then m2["category" := SqlText(req.category)] else m2;
    var m4 := if req.purchasePrice > 0.0 then m3["purchase_price" := SqlReal(req.purchasePrice)] else m3;
    var m5 := if req.sellingPrice > 0.0 then m4["selling_price" := SqlReal(req.sellingPrice)] else m4;
    var m6 := if req.stock >= 0 then m5["stock" := SqlInt(req.stock)] else m5;
    if req.imageUrl != "" then m6["image_url" := SqlText(req.imageUrl)] else m6
  }

  function TextColumn(m: map<string, SqlValue>, key: string, current: string): string {
    if key in m && m[key].SqlText? then m[key].text else current
  }

  function RealColumn(m: map<string, SqlValue>, key: string, current: real): real {
    if key in m && m[key].SqlReal? then m[key].number else current
  }

  function IntColumn(m: map<string, SqlValue>, key: string, current: int): int {
    if key in m && m[key].SqlInt? then m[key].count else current
  }

  /** `Model(&product).Updates(m)`: the mapped columns take their new values; an empty map
    * issues no statement at all. */
  function ApplyUpdates(p: Product, m: map<string, SqlValue>): (q: Product)
    ensures q.id == p.id && q.shopId == p.shopId && q.createdAt == p.createdAt && q.deletedAt == p.deletedAt
  {
    p.(name := TextColumn(m, "name", p.name),
       description := TextColumn(m, "description", p.description),
       category := TextColumn(m, "category", p.category),
       purchasePrice := RealColumn(m, "purchase_price", p.purchasePrice),
       sellingPrice := RealColumn(m, "selling_price", p.sellingPrice),
       stock := IntColumn(m, "stock", p.stock),
       imageUrl := TextColumn(m, "image_url", p.imageUrl))
  }

  /** What an update request does to a row, field by field: empty texts and non-positive
    * prices keep the stored value, a stock of 0 or more replaces it, and the row keeps its
    * identity, shop, creation time and deletion state. */
  lemma UpdateMeaning(p: Product, req: UpdateProductRequest)
    ensures var q := ApplyUpdates(p, UpdateSet(req));
      && q.name == (if req.name != "" then req.name else p.name)
      && q.description == (if req.description != "" then req.description else p.description)
      && q.category == (if req.category != "" then req.category else p.category)
      && q.purchasePrice == (if req.purchasePrice > 0.0 then req.purchasePrice else p.purchasePrice)
      && q.sellingPrice == (if req.sellingPrice > 0.0 then req.sellingPrice else p.sellingPrice)
      && q.stock == (if req.stock >= 0 then req.stock else p.stock)
      && q.imageUrl == (if req.imageUrl != "" then req.imageUrl else p.imageUrl)
      && q.id == p.id && q.shopId == p.shopId && q.createdAt == p.createdAt && q.deletedAt == p.deletedAt
  {
  }

  /** Sending the same update twice leaves the row as sending it once. */
  lemma UpdateIdempotent(p: Product, req: UpdateProductRequest)
    ensures ApplyUpdates(ApplyUpdates(p, UpdateSet(req)), UpdateSet(req)) == ApplyUpdates(p, UpdateSet(req))
  {
    UpdateMeaning(p, req);
    UpdateMeaning(ApplyUpdates(p, UpdateSet(req)), req);
  }

  /** The stock an update leaves is never negative when it was not before. */
  lemma UpdateKeepsStockNonNegative(p: Product, req: UpdateProductRequest)
    requires p.stock >= 0
    ensures ApplyUpdates(p, UpdateSet(req)).stock >= 0
  {
    UpdateMeaning(p, req);
  }

  /** An update body decodes without any further constraint. */
  predicate AnyUpdate(req: UpdateProductRequest) { true }

  /** `UpdateProduct`: the tenant's live product is looked up before the body is read, the
    * update map is applied to it, and the row is read back by id. */
  method UpdateProduct(db: Db, ctx: Context, idText: string, body: Option<UpdateProductRequest>)
    returns (r: Outcome<PrivateProductResponse>)
    requires db.Valid()
    modifies db
    ensures db.Valid()
    ensures db.shops == old(db.shops) && db.users == old(db.users) && db.transactions == old(db.transactions)
    ensures r.Fail? ==> db.products == old(db.products)
    ensures !ctx.ShopId().1 ==> r == Fail(Unauthorized("Unauthorized"))
    ensures ctx.ShopId().1 && Parse(idText).None? ==> r == Fail(BadRequest("Invalid product ID"))
    ensures ctx.ShopId().1 && Parse(idText).Some? && TenantProduct(old(db.products), Parse(idText).value, ctx.ShopId().0).None? ==>
      r == Fail(NotFound("Product not found"))
    ensures ctx.ShopId().1 && Parse(idText).Some? && TenantProduct(old(db.products), Parse(idText).value, ctx.ShopId().0).Some? ==>
      var k := TenantProduct(old(db.products), Parse(idText).value, ctx.ShopId().0).value;
      if body.None? then r == Fail(BadRequest("invalid request body")) && db.products == old(db.products)
      else
        var q := ApplyUpdates(old(db.products)[k], UpdateSet(body.value));
        && db.products == old(db.products)[k := q]
        && r == Ok(ToPrivateResponse(q, ctx.Role()))
  {
    var (shop, ok) := ctx.ShopId();
    if !ok {
      return Fail(Unauthorized("Unauthorized"));
    }
    var id := Parse(idText);
    if id.None? {
      return Fail(BadRequest("Invalid product ID"));
    }
    var found := TenantProduct(db.products, id.value, shop);
    if found.None? {
      return Fail(NotFound("Product not found"));
    }
    var k := found.value;
    var bound := Bind(body, AnyUpdate);
    if bound.Fail? {
      return Fail(bound.failure);
    }
    var updated := ApplyUpdates(db.products[k], UpdateSet(bound.value));
    UpdateKeepsStockNonNegative(db.products[k], bound.value);
    db.WriteProduct(k, updated);
    // The reload by id finds the row just written: ids are unique.
    assert db.products[k].Live() && db.products[k].id == id.value;
    var reloaded := LiveProductById(db.products, id.value);
    assert reloaded.Some?;
    KeyedRowUnique(db.products, reloaded.value, k);
    return Ok(ToPrivateResponse(db.products[reloaded.value], ctx.Role()));
  }

  // ---------------------------------------------------------------- deletion

  /** The table after the soft delete of row `k` at time `now`. */
  function SoftDelete(products: seq<Product>, k: nat, now: Instant): (r: seq<Product>)
    requires k < |products|
    ensures |r| == |products| && ProductIds(r) == ProductIds(products)
    ensures forall i :: 0 <= i < |r| && i != k ==> r[i] == products[i]
    ensures r[k].deletedAt == Some(now) && r[k].(deletedAt := products[k].deletedAt) == products[k]
  {
    MapUpdate(products, k, products[k].(deletedAt := Some(now)), ProductKey);
    products[k := products[k].(deletedAt := Some(now))]
  }

  /** After its soft delete a product is gone from every product query, while its row (and
    * every ledger row naming it) stays. */
  lemma SoftDeleteHides(products: seq<Product>, k: nat, now: Instant, shop: Uuid)
    requires Distinct(ProductIds(products)) && k < |products|
    ensures TenantProduct(SoftDelete(products, k, now), products[k].id, shop).None?
    ensures LiveProductById(SoftDelete(products, k, now), products[k].id).None?
  {
    var r := SoftDelete(products, k, now);
    forall i | 0 <= i < |r| && r[i].id == products[k].id
      ensures !r[i].Live()
    {
      assert ProductIds(r)[i] == r[i].id;
      KeyedRowUnique(r, i, k);
    }
  }

  /** `DeleteProduct`: the soft delete touches the live row with this id in the caller's shop;
    * when there is none no row is affected and the answer is a 404. */
  method DeleteProduct(db: Db, ctx: Context, idText: string, now: Instant) returns (r: Outcome<string>)
    requires db.Valid()
    modifies db
    ensures db.Valid()
    ensures db.shops == old(db.shops) && db.users == old(db.users) && db.transactions == old(db.transactions)
    ensures r.Fail? ==> db.products == old(db.products)
    ensures !ctx.ShopId().1 ==> r == Fail(Unauthorized("Unauthorized"))
    ensures ctx.ShopId().1 && Parse(idText).None? ==> r == Fail(BadRequest("Invalid product ID"))
    ensures ctx.ShopId().1 && Parse(idText).Some? ==>
      var found := TenantProduct(old(db.products), Parse(idText).value, ctx.ShopId().0);
      && (found.None? ==> r == Fail(NotFound("Product not found")))
      && (found.Some? ==> r == Ok("Product deleted successfully") && db.products == SoftDelete(old(db.products), found.value, now))
  {
    var (shop, ok) := ctx.ShopId();
    if !ok {
      return Fail(Unauthorized("Unauthorized"));
    }
    var id := Parse(idText);
    if id.None? {
      return Fail(BadRequest("Invalid product ID"));
    }
    var found := TenantProduct(db.products, id.value, shop);
    if found.None? {
      return Fail(NotFound("Product not found"));
    }
    var k := found.value;
    db.WriteProduct(k, db.products[k].(deletedAt := Some(now)));
    return Ok("Product deleted successfully");
  }
}
