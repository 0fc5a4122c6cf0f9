/** The ledger handlers of `internal/handlers/transaction.go`: recording a transaction, with
  * the stock check and decrement of a Sale done all-or-nothing, and the filtered listing. */
module Transactions {
  import opened Outcomes
  import opened Seqs
  import opened Uuids
  import opened Dates
  import opened Models
  import opened Dto
  import opened Database
  import opened Middleware

  /** A ledger row as the handlers send it, with its product preloaded. */
  datatype TransactionView = TransactionView(row: Transaction, product: Option<Product>)

  /** `Preload("Product")`: the live product the row names, if there is one. */
  function Preload(products: seq<Product>, t: Transaction): (r: Option<Product>)
    ensures r.Some? ==> t.productId == Some(r.value.id) && r.value.Live() && r.value in products
    ensures r.None? && t.productId.Some? ==> LiveProductById(products, t.productId.value).None?
  {
    if t.productId.None? then None
    else
      var found := LiveProductById(products, t.productId.value);
      if found.None? then None else Some(products[found.value])
  }

  // ---------------------------------------------------------------- recording

  /** Go's `string(rune(n))`: `n` is cut to 32 bits, and a value that is no Unicode scalar
    * value becomes U+FFFD. */
  function RuneText(n: int): (s: string)
    ensures |s| == 1
  {
    var r := (n + 0x8000_0000) % 0x1_0000_0000 - 0x8000_0000;
    if (0 <= r < 0xD800) || (0xE000 <= r <= 0x10FFFF) then [r as char] else [0xFFFD as char]
  }

  /** The message of the stock check: the single rune `'0' + stock`. */
  function InsufficientStockMessage(stock: int): string {
    "insufficient stock: available " + RuneText('0' as int + stock)
  }

  /** The checks a Sale goes through, in the order the code makes them, and the product row it
    * then draws on. Every failure is a 400 carrying the error's text. */
  function SaleTarget(products: seq<Product>, req: CreateTransactionRequest, shop: Uuid): (r: Outcome<nat>)
    ensures r.Fail? ==> r.failure.BadRequest?
    ensures req.productId.None? ==> r == Fail(BadRequest("product_id is required for Sale transactions"))
    ensures req.productId.Some? && req.quantity <= 0 ==> r == Fail(BadRequest("quantity must be greater than 0 for Sales"))
    ensures req.productId.Some? && req.quantity > 0 && TenantProduct(products, req.productId.value, shop).None? ==>
      r == Fail(BadRequest("product not found"))
    ensures r.Ok? <==> (
      && req.productId.Some? && req.quantity > 0 && TenantProduct(products, req.productId.value, shop).Some?
      && products[TenantProduct(products, req.productId.value, shop).value].stock >= req.quantity)
    ensures r.Ok? ==> r.value == TenantProduct(products, req.productId.value, shop).value
  {
    if req.productId.None? then Fail(BadRequest("product_id is required for Sale transactions"))
    else if req.quantity <= 0 then Fail(BadRequest("quantity must be greater than 0 for Sales"))
    else
      var found := TenantProduct(products, req.productId.value, shop);
      if found.None? then Fail(BadRequest("product not found"))
      else if products[found.value].stock < req.quantity then
        Fail(BadRequest(InsufficientStockMessage(products[found.value].stock)))
      else Ok(found.value)
  }

  /** A Sale can only draw on a live product of the caller's shop, and only as much as it has. */
  lemma SaleTargetIsTenantStock(products: seq<Product>, req: CreateTransactionRequest, shop: Uuid)
    requires SaleTarget(products, req, shop).Ok?
    ensures var k := SaleTarget(products, req, shop).value;
      && k < |products| && products[k].Live()
      && products[k].id == req.productId.value && products[k].shopId == shop
      && 0 < req.quantity <= products[k].stock
  {
  }

  /** The row a request becomes, before the database fills in its id. */
  function NewRecord(req: CreateTransactionRequest, kind: TransactionType, shop: Uuid, now: Instant): Transaction {
    Transaction(Nil, kind, req.productId, req.quantity, req.amount, "", shop, now)
  }

  /** The Sale half of the unit of work: the checks of `SaleTarget`, then the stock of that
    * row lowered by the quantity. Returns the row and its previous state, to undo the draw. */
  method DrawStock(db: Db, req: CreateTransactionRequest, shop: Uuid) returns (r: Outcome<(nat, Product)>)
    requires db.Valid()
    modifies db
    ensures db.Valid()
    ensures db.shops == old(db.shops) && db.users == old(db.users) && db.transactions == old(db.transactions)
    ensures r.Fail? <==> SaleTarget(old(db.products), req, shop).Fail?
    ensures r.Fail? ==> r == Fail(SaleTarget(old(db.products), req, shop).failure) && db.products == old(db.products)
    ensures r.Ok? ==>
      var k := SaleTarget(old(db.products), req, shop).value;
      && r.value == (k, old(db.products)[k])
      && db.products == old(db.products)[k := old(db.products)[k].(stock := old(db.products)[k].stock - req.quantity)]
      && ProductIds(db.products) == ProductIds(old(db.products))
      && OwnedBy(db.products, req.productId.value, shop)
  {
    if req.productId.None? {
      return Fail(BadRequest("product_id is required for Sale transactions"));
    }
    if req.quantity <= 0 {
      return Fail(BadRequest("quantity must be greater than 0 for Sales"));
    }
    var found := TenantProduct(db.products, req.productId.value, shop);
    if found.None? {
      return Fail(BadRequest("product not found"));
    }
    var k := found.value;
    var product := db.products[k];
    if product.stock < req.quantity {
      return Fail(BadRequest(InsufficientStockMessage(product.stock)));
    }
    MapUpdate(db.products, k, product.(stock := product.stock - req.quantity), ProductKey);
    db.WriteProduct(k, product.(stock := product.stock - req.quantity));
    assert db.products[k].id == req.productId.value && db.products[k].shopId == shop;
    return Ok((k, product));
  }

  /** The function passed to `db.Transaction`: the stock draw of a Sale, then the insert.
    * Either both take effect or, on any error, the products and the ledger are as they were. */
  method RecordUnit(db: Db, req: CreateTransactionRequest, shop: Uuid, newId: Uuid, now: Instant)
    returns (r: Outcome<TransactionView>)
    requires db.Valid() && CreateTransactionBinds(req)
    modifies db
    ensures db.Valid()
    ensures db.shops == old(db.shops) && db.users == old(db.users)
    ensures r.Fail? ==> db.products == old(db.products) && db.transactions == old(db.transactions)
    ensures r.Fail? ==> r.failure.BadRequest?
    ensures r.Ok? ==>
      && r.value.row == NewRecord(req, ParseType(req.kind).value, shop, now).BeforeCreate(newId)
      && db.transactions == old(db.transactions) + [r.value.row]
      && r.value.product == Preload(db.products, r.value.row)
    ensures ParseType(req.kind) != Some(Sale) ==> db.products == old(db.products)
    ensures ParseType(req.kind) == Some(Sale) ==>
      var sale := SaleTarget(old(db.products), req, shop);
      && (sale.Fail? ==> r == Fail(sale.failure))
      && (r.Ok? ==> (
            && sale.Ok?
            && var k := sale.value;
               db.products == old(db.products)[k := old(db.products)[k].(stock := old(db.products)[k].stock - req.quantity)]))
    ensures (ParseType(req.kind) == Some(Sale) ==> SaleTarget(old(db.products), req, shop).Ok?) ==>
      var insertable := newId !in TransactionIds(old(db.transactions))
        && (req.productId.Some? ==> req.productId.value in ProductIds(old(db.products)));
      && (r.Ok? <==> insertable)
      && (!insertable ==> r == Fail(BadRequest("failed to create transaction")))
  {
    var kind := ParseType(req.kind).value;
    var drawn: Option<(nat, Product)> := None;
    if kind == Sale {
      var sale := DrawStock(db, req, shop);
      if sale.Fail? {
        return Fail(sale.failure);
      }
      drawn := Some(sale.value);
    }
    var row := NewRecord(req, kind, shop, now).BeforeCreate(newId);
    var inserted := db.InsertTransaction(row);
    if !inserted {
      if drawn.Some? {
        db.WriteProduct(drawn.value.0, drawn.value.1);
        assert db.products == old(db.products);
      }
      return Fail(BadRequest("failed to create transaction"));
    }
    return Ok(TransactionView(row, Preload(db.products, row)));
  }

  /** `CreateTransaction`. The shop comes from the token; the recording is one unit of work. */
  method CreateTransaction(db: Db, ctx: Context, body: Option<CreateTransactionRequest>, newId: Uuid, now: Instant)
    returns (r: Outcome<TransactionView>)
    requires db.Valid()
    modifies db
    ensures db.Valid()
    ensures db.shops == old(db.shops) && db.users == old(db.users)
    ensures r.Fail? ==> db.products == old(db.products) && db.transactions == old(db.transactions)
    ensures r.Fail? ==> r.failure.Unauthorized? || r.failure.BadRequest?
    ensures !ctx.ShopId().1 ==> r == Fail(Unauthorized("Unauthorized"))
    ensures ctx.ShopId().1 && Bind(body, CreateTransactionBinds).Fail? ==> r == Fail(Bind(body, CreateTransactionBinds).failure)
    ensures r.Ok? ==> ctx.ShopId().1 && Bind(body, CreateTransactionBinds).Ok?
    ensures r.Ok? ==>
      var req := body.value;
      var kind := ParseType(req.kind).value;
      && r.value.row == NewRecord(req, kind, ctx.ShopId().0, now).BeforeCreate(newId)
      && db.transactions == old(db.transactions) + [r.value.row]
      && r.value.product == Preload(db.products, r.value.row)
    ensures ctx.ShopId().1 && Bind(body, CreateTransactionBinds).Ok? && ParseType(body.value.kind) != Some(Sale) ==>
      db.products == old(db.products)
    ensures ctx.ShopId().1 && Bind(body, CreateTransactionBinds).Ok? && ParseType(body.value.kind) == Some(Sale) ==>
      var sale := SaleTarget(old(db.products), body.value, ctx.ShopId().0);
      && (sale.Fail? ==> r == Fail(sale.failure))
      && (r.Ok? ==> (
            && sale.Ok?
            && var k := sale.value;
               db.products == old(db.products)[k := old(db.products)[k].(stock := old(db.products)[k].stock - body.value.quantity)]))
    ensures ctx.ShopId().1 && Bind(body, CreateTransactionBinds).Ok?
            && (ParseType(body.value.kind) == Some(Sale) ==> SaleTarget(old(db.products), body.value, ctx.ShopId().0).Ok?) ==>
      var insertable := newId !in TransactionIds(old(db.transactions))
        && (body.value.productId.Some? ==> body.value.productId.value in ProductIds(old(db.products)));
      && (r.Ok? <==> insertable)
      && (!insertable ==> r == Fail(BadRequest("failed to create transaction")))
  {
    var (shop, ok) := ctx.ShopId();
    if !ok {
      return Fail(Unauthorized("Unauthorized"));
    }
    var bound := Bind(body, CreateTransactionBinds);
    if bound.Fail? {
      return Fail(bound.failure);
    }
    r := RecordUnit(db, bound.value, shop, newId, now);
  }

  // ---------------------------------------------------------------- listing

  /** One `Where` of the listing query. */
  datatype Condition =
    | ShopIs(shop: Uuid)
    | TypeIs(name: string)
    | CreatedFrom(start: Instant)
    | CreatedUntil(end: Instant)

  predicate Holds(c: Condition, t: Transaction) {
    match c
    case ShopIs(s) => t.shopId == s
    case TypeIs(n) => TypeName(t.kind) == n
    case CreatedFrom(s) => t.createdAt >= s
    case CreatedUntil(e) => t.createdAt <= e
  }

  predicate HoldsAll(conds: seq<Condition>, t: Transaction) {
    forall i :: 0 <= i < |conds| ==> Holds(conds[i], t)
  }

  /** The listing as the query string describes it: the caller's shop, the given type name
    * when there is one, and the day bounds of the dates that parse; a date that does not
    * parse is ignored. `date_to` reaches 23:59:59 of its day. */
  predicate Listed(t: Transaction, shop: Uuid, typeName: string, dateFrom: string, dateTo: string) {
    && t.shopId == shop
    && (typeName != "" ==> TypeName(t.kind) == typeName)
    && (ParseDate(dateFrom).Some? ==> t.createdAt >= ParseDate(dateFrom).value)
    && (ParseDate(dateTo).Some? ==> t.createdAt <= ParseDate(dateTo).value + Day - Second)
  }

  function ListedBy(shop: Uuid, typeName: string, dateFrom: string, dateTo: string): Transaction -> bool {
    t => Listed(t, shop, typeName, dateFrom, dateTo)
  }

  function MatchingAll(conds: seq<Condition>): Transaction -> bool {
    t => HoldsAll(conds, t)
  }

  /** Puts `t` in front of the first row that is not newer than it. */
  function InsertNewest(t: Transaction, s: seq<Transaction>): seq<Transaction> {
    if s == [] || t.createdAt >= s[0].createdAt then [t] + s else [s[0]] + InsertNewest(t, s[1..])
  }

  /** `Order("created_at DESC")`: newest first; rows with equal times keep their order in `s`. */
  function NewestFirst(s: seq<Transaction>): seq<Transaction> {
    if s == [] then [] else InsertNewest(s[0], NewestFirst(s[1..]))
  }

  predicate IsNewestFirst(s: seq<Transaction>) {
    forall i, j :: 0 <= i < j < |s| ==> s[i].createdAt >= s[j].createdAt
  }

  /** Each row is at least as new as the next one. */
  predicate StepsNewestFirst(s: seq<Transaction>) {
    forall i :: 0 <= i < |s| - 1 ==> s[i].createdAt >= s[i + 1].createdAt
  }

  lemma {:induction false} StepsGiveOrder(s: seq<Transaction>)
    requires StepsNewestFirst(s)
    ensures IsNewestFirst(s)
  {
    if |s| > 1 {
      var tail := s[1..];
      assert StepsNewestFirst(tail) by {
        forall i | 0 <= i < |tail| - 1 ensures tail[i].createdAt >= tail[i + 1].createdAt {
          assert tail[i] == s[i + 1] && tail[i + 1] == s[i + 2];
        }
      }
      StepsGiveOrder(tail);
      forall i, j | 0 <= i < j < |s| ensures s[i].createdAt >= s[j].createdAt {
        if i == 0 {
          assert s[1] == tail[0];
          if j > 1 {
            assert s[j] == tail[j - 1];
          }
        } else {
          assert s[i] == tail[i - 1] && s[j] == tail[j - 1];
        }
      }
    }
  }

  lemma {:induction false} InsertNewestCounts(t: Transaction, s: seq<Transaction>)
    ensures |InsertNewest(t, s)| == |s| + 1
    ensures multiset(InsertNewest(t, s)) == multiset(s) + multiset{t}
    ensures InsertNewest(t, s)[0] == t || InsertNewest(t, s)[0] == s[0]
  {
    if !(s == [] || t.createdAt >= s[0].createdAt) {
      InsertNewestCounts(t, s[1..]);
      assert s == [s[0]] + s[1..];
    }
  }

  lemma {:induction false} InsertNewestSteps(t: Transaction, s: seq<Transaction>)
    requires StepsNewestFirst(s)
    ensures StepsNewestFirst(InsertNewest(t, s))
  {
    if !(s == [] || t.createdAt >= s[0].createdAt) {
      var tail := s[1..];
      assert StepsNewestFirst(tail) by {
        forall i | 0 <= i < |tail| - 1 ensures tail[i].createdAt >= tail[i + 1].createdAt {
          assert tail[i] == s[i + 1] && tail[i + 1] == s[i + 2];
        }
      }
      InsertNewestSteps(t, tail);
      InsertNewestCounts(t, tail);
      var inner := InsertNewest(t, tail);
      var r := [s[0]] + inner;
      forall i | 0 <= i < |r| - 1 ensures r[i].createdAt >= r[i + 1].createdAt {
        if i > 0 {
          assert r[i] == inner[i - 1] && r[i + 1] == inner[i];
        } else if tail != [] {
          assert s[1] == tail[0];
        }
      }
    }
  }

  /** The ordering is newest first and loses or adds no row. */
  lemma {:induction false} NewestFirstSorts(s: seq<Transaction>)
    ensures IsNewestFirst(NewestFirst(s))
    ensures multiset(NewestFirst(s)) == multiset(s)
  {
    NewestFirstSteps(s);
    StepsGiveOrder(NewestFirst(s));
    NewestFirstCounts(s);
  }

  lemma {:induction false} NewestFirstSteps(s: seq<Transaction>)
    ensures StepsNewestFirst(NewestFirst(s))
  {
    if s != [] {
      NewestFirstSteps(s[1..]);
      InsertNewestSteps(s[0], NewestFirst(s[1..]));
    }
  }

  lemma {:induction false} NewestFirstCounts(s: seq<Transaction>)
    ensures multiset(NewestFirst(s)) == multiset(s)
  {
    if s != [] {
      NewestFirstCounts(s[1..]);
      InsertNewestCounts(s[0], NewestFirst(s[1..]));
      assert s == [s[0]] + s[1..];
    }
  }

  function Views(products: seq<Product>, rows: seq<Transaction>): (r: seq<TransactionView>)
    ensures |r| == |rows|
    ensures forall i :: 0 <= i < |rows| ==> r[i] == TransactionView(rows[i], Preload(products, rows[i]))
  {
    seq(|rows|, i requires 0 <= i < |rows| => TransactionView(rows[i], Preload(products, rows[i])))
  }

  datatype TransactionList = TransactionList(transactions: seq<TransactionView>, total: nat)

  lemma HoldsAllAppend(a: seq<Condition>, b: seq<Condition>, t: Transaction)
    ensures HoldsAll(a + b, t) == (HoldsAll(a, t) && HoldsAll(b, t))
  {
    if HoldsAll(a, t) && HoldsAll(b, t) {
      forall i | 0 <= i < |a + b| ensures Holds((a + b)[i], t) {
        if i >= |a| {
          assert (a + b)[i] == b[i - |a|];
        }
      }
    }
    if HoldsAll(a + b, t) {
      forall i | 0 <= i < |a| ensures Holds(a[i], t) {
        assert (a + b)[i] == a[i];
      }
      forall i | 0 <= i < |b| ensures Holds(b[i], t) {
        assert (a + b)[|a| + i] == b[i];
      }
    }
  }

  lemma HoldsAllSingle(c: Condition, t: Transaction)
    ensures HoldsAll([c], t) == Holds(c, t)
  {
    assert [c][0] == c;
  }

  /** The conditions the chain of `Where` calls adds up to are exactly the listing's. */
  lemma ConditionsMeanListed(conds: seq<Condition>, shop: Uuid, typeName: string, dateFrom: string, dateTo: string)
    requires conds == [ShopIs(shop)]
      + (if typeName != "" then [TypeIs(typeName)] else [])
      + (if dateFrom != "" && ParseDate(dateFrom).Some? then [CreatedFrom(ParseDate(dateFrom).value)] else [])
      + (if dateTo != "" && ParseDate(dateTo).Some? then [CreatedUntil(ParseDate(dateTo).value + Day - Second)] else [])
    ensures forall t :: HoldsAll(conds, t) == Listed(t, shop, typeName, dateFrom, dateTo)
  {
    var c0 := [ShopIs(shop)];
    var c1 := if typeName != "" then [TypeIs(typeName)] else [];
    var c2 := if dateFrom != "" && ParseDate(dateFrom).Some? then [CreatedFrom(ParseDate(dateFrom).value)] else [];
    var c3 := if dateTo != "" && ParseDate(dateTo).Some? then [CreatedUntil(ParseDate(dateTo).value + Day - Second)] else [];
    forall t ensures HoldsAll(conds, t) == Listed(t, shop, typeName, dateFrom, dateTo) {
      HoldsAllAppend(c0 + c1 + c2, c3, t);
      HoldsAllAppend(c0 + c1, c2, t);
      HoldsAllAppend(c0, c1, t);
      HoldsAllSingle(ShopIs(shop), t);
      if typeName != "" { HoldsAllSingle(TypeIs(typeName), t); }
      if c2 != [] { HoldsAllSingle(c2[0], t); }
      if c3 != [] { HoldsAllSingle(c3[0], t); }
    }
  }

  /** `GetTransactions`: the query is built up condition by condition, as the code reassigns
    * `query`, then ordered newest first, with each row's product preloaded. */
  method GetTransactions(db: Db, ctx: Context, typeName: string, dateFrom: string, dateTo: string)
    returns (r: Outcome<TransactionList>)
    ensures !ctx.ShopId().1 ==> r == Fail(Unauthorized("Unauthorized"))
    ensures ctx.ShopId().1 ==> r.Ok?
    ensures r.Ok? ==>
      var rows := NewestFirst(Filter(db.transactions, ListedBy(ctx.ShopId().0, typeName, dateFrom, dateTo)));
      r.value.transactions == Views(db.products, rows) && r.value.total == |rows|
  {
    var (shop, ok) := ctx.ShopId();
    if !ok {
      return Fail(Unauthorized("Unauthorized"));
    }
    var conds := [ShopIs(shop)];
    if typeName != "" {
      conds := conds + [TypeIs(typeName)];
    }
    if dateFrom != "" {
      var start := ParseDate(dateFrom);
      if start.Some? {
        conds := conds + [CreatedFrom(start.value)];
      }
    }
    if dateTo != "" {
      var day := ParseDate(dateTo);
      if day.Some? {
        conds := conds + [CreatedUntil(day.value + Day - Second)];
      }
    }
    ConditionsMeanListed(conds, shop, typeName, dateFrom, dateTo);
    FilterSame(db.transactions, MatchingAll(conds), ListedBy(shop, typeName, dateFrom, dateTo));
    var rows := NewestFirst(Filter(db.transactions, MatchingAll(conds)));
    return Ok(TransactionList(Views(db.products, rows), |rows|));
  }

  /** The listing holds exactly the caller's rows that meet the filters, newest first. */
  lemma ListingIsFilteredAndOrdered(transactions: seq<Transaction>, shop: Uuid, typeName: string, dateFrom: string, dateTo: string)
    ensures var rows := NewestFirst(Filter(transactions, ListedBy(shop, typeName, dateFrom, dateTo)));
      && IsNewestFirst(rows)
      && multiset(rows) == multiset(Filter(transactions, ListedBy(shop, typeName, dateFrom, dateTo)))
      && (forall t :: t in rows <==> t in transactions && Listed(t, shop, typeName, dateFrom, dateTo))
  {
    var kept := Filter(transactions, ListedBy(shop, typeName, dateFrom, dateTo));
    NewestFirstSorts(kept);
    forall t ensures t in NewestFirst(kept) <==> t in kept {
      assert t in NewestFirst(kept) <==> t in multiset(NewestFirst(kept));
      assert t in kept <==> t in multiset(kept);
    }
  }

  /** With both dates given as the same day, a row is listed when it lies between that day's
    * midnight and 23:59:59 exactly; a row later within that last second is not. */
  lemma SameDayBounds(t: Transaction, shop: Uuid, y: nat, m: int, d: int)
    requires y < 10000 && ValidDate(y, m, d) && t.shopId == shop
    ensures Listed(t, shop, "", FormatDate(y, m, d), FormatDate(y, m, d)) <==>
      DayStart(y, m, d) <= t.createdAt <= DayStart(y, m, d) + Day - Second
  {
    ParseFormatDate(y, m, d);
  }

  /** A new row shows up in every listing whose filters it meets, and leaves the others alone. */
  lemma ListingAfterAppend(transactions: seq<Transaction>, row: Transaction, shop: Uuid, typeName: string, dateFrom: string, dateTo: string)
    ensures Filter(transactions + [row], ListedBy(shop, typeName, dateFrom, dateTo)) ==
      Filter(transactions, ListedBy(shop, typeName, dateFrom, dateTo))
      + (if Listed(row, shop, typeName, dateFrom, dateTo) then [row] else [])
  {
    FilterAppend(transactions, [row], ListedBy(shop, typeName, dateFrom, dateTo));
    assert [row][1..] == [];
  }
}
