/** The unauthenticated storefront of `internal/handlers/public.go`: a shop's catalogue as
  * customers see it, without purchase prices, and the WhatsApp links that contact the shop. */
module Public {
  import opened Outcomes
  import opened Seqs
  import opened Utf8
  import opened UrlEscape
  import opened Uuids
  import opened Models
  import opened Dto
  import opened Database

  const LinkPrefix: string := "https://wa.me/"
  const MessagePrefix: string := "Bonjour je veux plus d'information sur "

  /** The text a customer's message starts with, followed by the product name. */
  function WhatsAppMessage(productName: string): string {
    MessagePrefix + productName
  }

  /** `buildWhatsAppLink`: the shop's number in the path and the escaped message as `text`. */
  function BuildWhatsAppLink(whatsAppNumber: string, productName: string): string {
    LinkPrefix + whatsAppNumber + "?text=" + QueryEscape(WhatsAppMessage(productName))
  }

  /** The link starts with the shop's address, and its `text` parameter is made only of
    * characters that cannot end the parameter and decodes to the UTF-8 message naming the
    * product. */
  lemma WhatsAppLinkDecodes(whatsAppNumber: string, productName: string)
    ensures var head := LinkPrefix + whatsAppNumber + "?text=";
      var link := BuildWhatsAppLink(whatsAppNumber, productName);
      && |head| <= |link| && link[..|head|] == head
      && (forall i :: |head| <= i < |link| ==> SafeChar(link[i]))
      && UnescapeBytes(link[|head|..]) == Some(Encode(MessagePrefix) + Encode(productName))
  {
    var head := LinkPrefix + whatsAppNumber + "?text=";
    var escaped := QueryEscape(WhatsAppMessage(productName));
    var link := BuildWhatsAppLink(whatsAppNumber, productName);
    assert link == head + escaped;
    assert link[|head|..] == escaped;
    QueryRoundTrip(WhatsAppMessage(productName));
    EncodeAppend(MessagePrefix, productName);
    EscapedIsSafe(Encode(WhatsAppMessage(productName)));
    forall i | |head| <= i < |link|
      ensures SafeChar(link[i])
    {
      assert link[i] == escaped[i - |head|];
    }
  }

  /** The stock label: none left, fewer than five, or in stock. */
  function StockStatus(stock: int): (s: string)
    ensures s == "Rupture de stock" <==> stock == 0
    ensures s == "Stock limité" <==> stock != 0 && stock < 5
    ensures s == "En stock" <==> stock >= 5
  {
    if stock == 0 then "Rupture de stock"
    else if stock < 5 then "Stock limité"
    else "En stock"
  }

  /** The public view of a product: no purchase price, a stock label, and a link to the shop. */
  function PublicView(p: Product, shop: Shop): (r: PublicProductResponse)
    ensures r.id == p.id && r.name == p.name && r.sellingPrice == p.sellingPrice && r.stock == p.stock
    ensures r.description == p.description && r.category == p.category && r.imageUrl == p.imageUrl
    ensures r.stockStatus == StockStatus(p.stock)
    ensures r.whatsAppLink == BuildWhatsAppLink(shop.whatsAppNumber, p.name)
  {
    PublicProductResponse(
      p.id, p.name, p.description, p.category, p.sellingPrice, p.stock,
      StockStatus(p.stock), p.imageUrl, BuildWhatsAppLink(shop.whatsAppNumber, p.name))
  }

  /** Nothing a customer sees depends on what the shop paid for a product. */
  lemma PublicViewIgnoresPurchasePrice(p: Product, shop: Shop, price: real)
    ensures PublicView(p.(purchasePrice := price), shop) == PublicView(p, shop)
  {
  }

  function PublicViewIn(shop: Shop): Product -> PublicProductResponse {
    p => PublicView(p, shop)
  }

  /** The rows of the storefront: live rows of the shop, of the category when one is given,
    * and with stock left when only those are asked for. */
  predicate OnShelf(p: Product, shop: Uuid, category: string, inStockOnly: bool) {
    && p.Live() && p.shopId == shop
    && (category != "" ==> p.category == category)
    && (inStockOnly ==> p.stock > 0)
  }

  function ShelfBy(shop: Uuid, category: string, inStockOnly: bool): Product -> bool {
    p => OnShelf(p, shop, category, inStockOnly)
  }

  datatype Storefront = Storefront(shopId: Uuid, shopName: string, products: seq<PublicProductResponse>, total: nat)

  /** `GetPublicProducts`: an active shop's shelf; `in_stock_only` counts only when it is
    * exactly "true". */
  method GetPublicProducts(db: Db, shopIdText: string, category: string, inStockOnlyText: string)
    returns (r: Outcome<Storefront>)
    ensures Parse(shopIdText).None? ==> r == Fail(BadRequest("Invalid shop ID format"))
    ensures Parse(shopIdText).Some? && ActiveShopById(db.shops, Parse(shopIdText).value).None? ==>
      r == Fail(NotFound("Shop not found or inactive"))
    ensures r.Ok? <==> Parse(shopIdText).Some? && ActiveShopById(db.shops, Parse(shopIdText).value).Some?
    ensures r.Ok? ==>
      var shop := db.shops[ActiveShopById(db.shops, Parse(shopIdText).value).value];
      && r.value.shopId == shop.id && r.value.shopName == shop.name
      && r.value.products == Map(Filter(db.products, ShelfBy(shop.id, category, inStockOnlyText == "true")), PublicViewIn(shop))
      && r.value.total == |r.value.products|
  {
    var shopId := Parse(shopIdText);
    if shopId.None? {
      return Fail(BadRequest("Invalid shop ID format"));
    }
    var found := ActiveShopById(db.shops, shopId.value);
    if found.None? {
      return Fail(NotFound("Shop not found or inactive"));
    }
    var shop := db.shops[found.value];
    var hideOutOfStock := inStockOnlyText == "true";
    var rows := Filter(db.products, ShelfBy(shop.id, category, hideOutOfStock));
    var responses := RenderShelf(rows, shop);
    return Ok(Storefront(shop.id, shop.name, responses, |responses|));
  }

  /** The loop of `GetPublicProducts` that builds one response per row, in row order. */
  method RenderShelf(rows: seq<Product>, shop: Shop) returns (responses: seq<PublicProductResponse>)
    ensures |responses| == |rows|
    ensures forall j :: 0 <= j < |rows| ==> responses[j] == PublicView(rows[j], shop)
    ensures responses == Map(rows, PublicViewIn(shop))
  {
    responses := [];
    var i := 0;
    while i < |rows|
      invariant 0 <= i <= |rows|
      invariant |responses| == i
      invariant forall j :: 0 <= j < i ==> responses[j] == PublicView(rows[j], shop)
    {
      responses := responses + [PublicView(rows[i], shop)];
      i := i + 1;
    }
  }

  /** Every storefront entry is the view of a live row of that shop, and with `in_stock_only`
    * no entry is labelled out of stock. */
  lemma StorefrontShows(products: seq<Product>, shop: Shop, category: string, inStockOnly: bool)
    ensures forall q :: q in Map(Filter(products, ShelfBy(shop.id, category, inStockOnly)), PublicViewIn(shop)) ==>
      && (inStockOnly ==> q.stockStatus != "Rupture de stock")
      && exists p :: p in products && p.Live() && p.shopId == shop.id && q == PublicView(p, shop)
  {
    var rows := Filter(products, ShelfBy(shop.id, category, inStockOnly));
    var listed := Map(rows, PublicViewIn(shop));
    forall q | q in listed
      ensures inStockOnly ==> q.stockStatus != "Rupture de stock"
      ensures exists p :: p in products && p.Live() && p.shopId == shop.id && q == PublicView(p, shop)
    {
      var i :| 0 <= i < |listed| && listed[i] == q;
      assert rows[i] in rows;
      assert OnShelf(rows[i], shop.id, category, inStockOnly);
      assert q == PublicView(rows[i], shop);
    }
  }

  datatype WhatsAppLinkResponse = WhatsAppLinkResponse(productId: Uuid, productName: string, whatsAppLink: string, shopName: string)

  /** `GetWhatsAppLink`: both ids are checked in turn, then the shop must be active and the
    * live product must be one of its own. */
  method GetWhatsAppLink(db: Db, shopIdText: string, productIdText: string) returns (r: Outcome<WhatsAppLinkResponse>)
    ensures Parse(shopIdText).None? ==> r == Fail(BadRequest("Invalid shop ID"))
    ensures Parse(shopIdText).Some? && Parse(productIdText).None? ==> r == Fail(BadRequest("Invalid product ID"))
    ensures Parse(shopIdText).Some? && Parse(productIdText).Some? ==>
      var shopAt := ActiveShopById(db.shops, Parse(shopIdText).value);
      var productAt := TenantProduct(db.products, Parse(productIdText).value, Parse(shopIdText).value);
      && (shopAt.None? ==> r == Fail(NotFound("Shop not found")))
      && (shopAt.Some? && productAt.None? ==> r == Fail(NotFound("Product not found")))
      && (shopAt.Some? && productAt.Some? ==>
            var shop := db.shops[shopAt.value];
            var product := db.products[productAt.value];
            r == Ok(WhatsAppLinkResponse(product.id, product.name, BuildWhatsAppLink(shop.whatsAppNumber, product.name), shop.name)))
  {
    var shopId := Parse(shopIdText);
    if shopId.None? {
      return Fail(BadRequest("Invalid shop ID"));
    }
    var productId := Parse(productIdText);
    if productId.None? {
      return Fail(BadRequest("Invalid product ID"));
    }
    var shopAt := ActiveShopById(db.shops, shopId.value);
    if shopAt.None? {
      return Fail(NotFound("Shop not found"));
    }
    var shop := db.shops[shopAt.value];
    var productAt := TenantProduct(db.products, productId.value, shopId.value);
    if productAt.None? {
      return Fail(NotFound("Product not found"));
    }
    var product := db.products[productAt.value];
    return Ok(WhatsAppLinkResponse(product.id, product.name, BuildWhatsAppLink(shop.whatsAppNumber, product.name), shop.name));
  }
}
