/** The shop settings handlers of `internal/handlers/shop.go`. */
module Shops {
  import opened Outcomes
  import opened Seqs
  import opened Uuids
  import opened Models
  import opened Dto
  import opened Database
  import opened Middleware

  /** `GetShop`: the caller's own shop row. */
  method GetShop(db: Db, ctx: Context) returns (r: Outcome<Shop>)
    ensures !ctx.ShopId().1 ==> r == Fail(Unauthorized("Unauthorized"))
    ensures ctx.ShopId().1 && ShopById(db.shops, ctx.ShopId().0).None? ==> r == Fail(NotFound("Shop not found"))
    ensures r.Ok? <==> ctx.ShopId().1 && ShopById(db.shops, ctx.ShopId().0).Some?
    ensures r.Ok? ==> r.value in db.shops && r.value.id == ctx.ShopId().0
  {
    var (shop, ok) := ctx.ShopId();
    if !ok {
      return Fail(Unauthorized("Unauthorized"));
    }
    var found := ShopById(db.shops, shop);
    if found.None? {
      return Fail(NotFound("Shop not found"));
    }
    return Ok(db.shops[found.value]);
  }

  datatype WhatsAppUpdated = WhatsAppUpdated(message: string, whatsAppNumber: string)

  /** A new number on row `k` is what every lookup of that shop sees afterwards, active or
    * not, and no other shop changes. */
  lemma NumberChangeSeen(shops: seq<Shop>, k: nat, number: string)
    requires Distinct(ShopIds(shops)) && k < |shops|
    ensures var updated := shops[k := shops[k].(whatsAppNumber := number)];
      && ShopById(updated, shops[k].id) == Some(k)
      && updated[k].whatsAppNumber == number
      && ActiveShopById(updated, shops[k].id) == (if shops[k].active then Some(k) else None)
  {
    var updated := shops[k := shops[k].(whatsAppNumber := number)];
    forall j | 0 <= j < |updated| && j != k
      ensures updated[j].id != shops[k].id
    {
      assert ShopIds(shops)[j] == shops[j].id && ShopIds(shops)[k] == shops[k].id;
    }
    assert updated[k].id == shops[k].id;
    var found := ShopById(updated, shops[k].id);
    assert found.Some?;
    assert found.value == k;
  }

  /** `UpdateWhatsApp`: the number is set on the caller's shop; no matching row is a 404. */
  method UpdateWhatsApp(db: Db, ctx: Context, body: Option<UpdateWhatsAppRequest>) returns (r: Outcome<WhatsAppUpdated>)
    requires db.Valid()
    modifies db
    ensures db.Valid()
    ensures db.users == old(db.users) && db.products == old(db.products) && db.transactions == old(db.transactions)
    ensures r.Fail? ==> db.shops == old(db.shops)
    ensures !ctx.ShopId().1 ==> r == Fail(Unauthorized("Unauthorized"))
    ensures ctx.ShopId().1 && Bind(body, UpdateWhatsAppBinds).Fail? ==> r == Fail(Bind(body, UpdateWhatsAppBinds).failure)
    ensures ctx.ShopId().1 && Bind(body, UpdateWhatsAppBinds).Ok? ==>
      var found := ShopById(old(db.shops), ctx.ShopId().0);
      var number := body.value.whatsAppNumber;
      && (found.None? ==> r == Fail(NotFound("Shop not found")))
      && (found.Some? ==>
            && r == Ok(WhatsAppUpdated("WhatsApp number updated successfully", number))
            && db.shops == old(db.shops)[found.value := old(db.shops)[found.value].(whatsAppNumber := number)])
  {
    var (shop, ok) := ctx.ShopId();
    if !ok {
      return Fail(Unauthorized("Unauthorized"));
    }
    var bound := Bind(body, UpdateWhatsAppBinds);
    if bound.Fail? {
      return Fail(bound.failure);
    }
    var found := ShopById(db.shops, shop);
    if found.None? {
      return Fail(NotFound("Shop not found"));
    }
    var k := found.value;
    db.WriteShop(k, db.shops[k].(whatsAppNumber := bound.value.whatsAppNumber));
    return Ok(WhatsAppUpdated("WhatsApp number updated successfully", bound.value.whatsAppNumber));
  }
}
