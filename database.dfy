/** The PostgreSQL store as four in-memory tables. GORM's `AutoMigrate` gives every table its
  * primary key, `users.email` a unique index, and three foreign keys: `users.shop_id` and
  * `products.shop_id` reference `shops`, `transactions.product_id` references `products`
  * (any row, soft-deleted or not); `transactions.shop_id` has none. Rows are kept in
  * insertion order. */
module Database {
  import opened Outcomes
  import opened Seqs
  import opened Uuids
  import opened Dates
  import opened Models

  function ShopKey(s: Shop): Uuid { s.id }
  function UserKey(u: User): Uuid { u.id }
  function UserEmail(u: User): string { u.email }
  function ProductKey(p: Product): Uuid { p.id }
  function TransactionKey(t: Transaction): Uuid { t.id }

  function ShopIds(shops: seq<Shop>): seq<Uuid> { Map(shops, ShopKey) }
  function UserIds(users: seq<User>): seq<Uuid> { Map(users, UserKey) }
  function Emails(users: seq<User>): seq<string> { Map(users, UserEmail) }
  function ProductIds(products: seq<Product>): seq<Uuid> { Map(products, ProductKey) }
  function TransactionIds(transactions: seq<Transaction>): seq<Uuid> { Map(transactions, TransactionKey) }

  /** Some product row, deleted or not, has this id and belongs to this shop. */
  predicate OwnedBy(products: seq<Product>, id: Uuid, shop: Uuid) {
    exists i :: 0 <= i < |products| && products[i].id == id && products[i].shopId == shop
  }

  /** What every ledger row satisfies: the binding constraints on its amount and quantity, an
    * existing product when it names one, and for a Sale a product of the same shop and a
    * positive quantity. The comment is empty because no request can fill it. */
  predicate LedgerRowOk(t: Transaction, products: seq<Product>) {
    && t.amount > 0.0 && t.quantity >= 0 && t.comment == ""
    && (t.productId.Some? ==> t.productId.value in ProductIds(products))
    && (t.kind == Sale ==> t.productId.Some? && t.quantity > 0 && OwnedBy(products, t.productId.value, t.shopId))
  }

  /** The integrity that the schema and the handlers keep between them. */
  predicate Consistent(shops: seq<Shop>, users: seq<User>, products: seq<Product>, transactions: seq<Transaction>) {
    && Distinct(ShopIds(shops))
    && Distinct(UserIds(users))
    && Distinct(Emails(users))
    && Distinct(ProductIds(products))
    && Distinct(TransactionIds(transactions))
    && (forall i :: 0 <= i < |users| ==> users[i].shopId in ShopIds(shops))
    && (forall i :: 0 <= i < |products| ==> products[i].shopId in ShopIds(shops))
    && (forall i :: 0 <= i < |products| ==> products[i].stock >= 0)
    && (forall i :: 0 <= i < |transactions| ==> LedgerRowOk(transactions[i], products))
  }

  /** Two product tables with the same ids and owners in the same places. */
  predicate SameKeys(a: seq<Product>, b: seq<Product>) {
    |a| == |b| && forall i :: 0 <= i < |a| ==> a[i].id == b[i].id && a[i].shopId == b[i].shopId
  }

  lemma SameKeysLedger(a: seq<Product>, b: seq<Product>, transactions: seq<Transaction>)
    requires SameKeys(a, b)
    requires forall i :: 0 <= i < |transactions| ==> LedgerRowOk(transactions[i], a)
    ensures forall i :: 0 <= i < |transactions| ==> LedgerRowOk(transactions[i], b)
  {
    assert ProductIds(a) == ProductIds(b);
    forall i | 0 <= i < |transactions|
      ensures LedgerRowOk(transactions[i], b)
    {
      var t := transactions[i];
      if t.kind == Sale {
        var k :| 0 <= k < |a| && a[k].id == t.productId.value && a[k].shopId == t.shopId;
        assert b[k].id == t.productId.value && b[k].shopId == t.shopId;
      }
    }
  }

  lemma AppendLedger(products: seq<Product>, p: Product, transactions: seq<Transaction>)
    requires forall i :: 0 <= i < |transactions| ==> LedgerRowOk(transactions[i], products)
    ensures forall i :: 0 <= i < |transactions| ==> LedgerRowOk(transactions[i], products + [p])
  {
    MapAppend(products, p, ProductKey);
    forall i | 0 <= i < |transactions|
      ensures LedgerRowOk(transactions[i], products + [p])
    {
      var t := transactions[i];
      if t.kind == Sale {
        var k :| 0 <= k < |products| && products[k].id == t.productId.value && products[k].shopId == t.shopId;
        assert (products + [p])[k] == products[k];
      }
    }
  }

  /** `First(&shop, "id = ?", id)`. */
  function ShopById(shops: seq<Shop>, id: Uuid): Option<nat> {
    Find(shops, (s: Shop) => s.id == id)
  }

  /** `Where("id = ? AND active = true", id).First(&shop)`. */
  function ActiveShopById(shops: seq<Shop>, id: Uuid): Option<nat> {
    Find(shops, (s: Shop) => s.id == id && s.active)
  }

  /** `Where("email = ?", email).First(&user)`. */
  function UserByEmail(users: seq<User>, email: string): Option<nat> {
    Find(users, (u: User) => u.email == email)
  }

  /** `Where("id = ? AND shop_id = ?", id, shop).First(&product)`; the soft-delete scope
    * hides deleted rows. */
  function TenantProduct(products: seq<Product>, id: Uuid, shop: Uuid): Option<nat> {
    Find(products, (p: Product) => p.Live() && p.id == id && p.shopId == shop)
  }

  /** `First(&product, "id = ?", id)` and `Preload("Product")`: a live product by id alone. */
  function LiveProductById(products: seq<Product>, id: Uuid): Option<nat> {
    Find(products, (p: Product) => p.Live() && p.id == id)
  }

  /** Only one row can match a lookup by primary key. */
  lemma KeyedRowUnique(products: seq<Product>, i: nat, j: nat)
    requires Distinct(ProductIds(products)) && i < |products| && j < |products|
    requires products[i].id == products[j].id
    ensures i == j
  {
    assert ProductIds(products)[i] == products[i].id && ProductIds(products)[j] == products[j].id;
  }

  class Db {
    var shops: seq<Shop>
    var users: seq<User>
    var products: seq<Product>
    var transactions: seq<Transaction>

    ghost predicate Valid()
      reads this
    {
      Consistent(shops, users, products, transactions)
    }

    /** A freshly migrated, empty database. */
    constructor ()
      ensures Valid()
      ensures shops == [] && users == [] && products == [] && transactions == []
    {
      shops, users, products, transactions := [], [], [], [];
    }

    /** `INSERT INTO shops`: only a clash on the primary key makes it fail. */
    method InsertShop(row: Shop) returns (ok: bool)
      requires Valid()
      modifies this
      ensures Valid()
      ensures ok <==> row.id !in ShopIds(old(shops))
      ensures shops == if ok then old(shops) + [row] else old(shops)
      ensures users == old(users) && products == old(products) && transactions == old(transactions)
    {
      if row.id in ShopIds(shops) {
        return false;
      }
      MapAppend(shops, row, ShopKey);
      DistinctAppend(ShopIds(shops), row.id);
      shops := shops + [row];
      return true;
    }

    /** `INSERT INTO users`: fails on a clashing id, an email already in use, or a shop that
      * does not exist. */
    method InsertUser(row: User) returns (ok: bool)
      requires Valid()
      modifies this
      ensures Valid()
      ensures ok <==> row.id !in UserIds(old(users)) && row.email !in Emails(old(users)) && row.shopId in ShopIds(old(shops))
      ensures users == if ok then old(users) + [row] else old(users)
      ensures shops == old(shops) && products == old(products) && transactions == old(transactions)
    {
      if row.id in UserIds(users) || row.email in Emails(users) || row.shopId !in ShopIds(shops) {
        return false;
      }
      MapAppend(users, row, UserKey);
      MapAppend(users, row, UserEmail);
      DistinctAppend(UserIds(users), row.id);
      DistinctAppend(Emails(users), row.email);
      users := users + [row];
      return true;
    }

    /** `INSERT INTO products`: fails on a clashing id or a shop that does not exist. */
    method InsertProduct(row: Product) returns (ok: bool)
      requires Valid() && row.stock >= 0
      modifies this
      ensures Valid()
      ensures ok <==> row.id !in ProductIds(old(products)) && row.shopId in ShopIds(old(shops))
      ensures products == if ok then old(products) + [row] else old(products)
      ensures shops == old(shops) && users == old(users) && transactions == old(transactions)
    {
      if row.id in ProductIds(products) || row.shopId !in ShopIds(shops) {
        return false;
      }
      MapAppend(products, row, ProductKey);
      DistinctAppend(ProductIds(products), row.id);
      AppendLedger(products, row, transactions);
      products := products + [row];
      return true;
    }

    /** `INSERT INTO transactions`: fails on a clashing id or a product id no product row has. */
    method InsertTransaction(row: Transaction) returns (ok: bool)
      requires Valid()
      requires row.amount > 0.0 && row.quantity >= 0 && row.comment == ""
      requires row.kind == Sale ==> row.productId.Some? && row.quantity > 0 && OwnedBy(products, row.productId.value, row.shopId)
      modifies this
      ensures Valid()
      ensures ok <==> row.id !in TransactionIds(old(transactions)) && (row.productId.Some? ==> row.productId.value in ProductIds(old(products)))
      ensures transactions == if ok then old(transactions) + [row] else old(transactions)
      ensures shops == old(shops) && users == old(users) && products == old(products)
    {
      if row.id in TransactionIds(transactions) || (row.productId.Some? && row.productId.value !in ProductIds(products)) {
        return false;
      }
      if row.kind == Sale {
        var k :| 0 <= k < |products| && products[k].id == row.productId.value && products[k].shopId == row.shopId;
        assert ProductIds(products)[k] == row.productId.value;
      }
      MapAppend(transactions, row, TransactionKey);
      DistinctAppend(TransactionIds(transactions), row.id);
      transactions := transactions + [row];
      return true;
    }

    /** `UPDATE products SET ... WHERE id = ?` on row `k`; the id and the owning shop stay. */
    method WriteProduct(k: nat, row: Product)
      requires Valid() && k < |products|
      requires row.id == products[k].id && row.shopId == products[k].shopId && row.stock >= 0
      modifies this
      ensures Valid()
      ensures products == old(products)[k := row]
      ensures shops == old(shops) && users == old(users) && transactions == old(transactions)
    {
      MapUpdate(products, k, row, ProductKey);
      assert SameKeys(products, products[k := row]);
      SameKeysLedger(products, products[k := row], transactions);
      products := products[k := row];
    }

    /** `UPDATE shops SET ... WHERE id = ?` on row `k`; the id stays. */
    method WriteShop(k: nat, row: Shop)
      requires Valid() && k < |shops| && row.id == shops[k].id
      modifies this
      ensures Valid()
      ensures shops == old(shops)[k := row]
      ensures users == old(users) && products == old(products) && transactions == old(transactions)
    {
      MapUpdate(shops, k, row, ShopKey);
      shops := shops[k := row];
    }

    /** `DELETE FROM users` of row `k` (users have no soft delete). */
    method RemoveUser(k: nat)
      requires Valid() && k < |users|
      modifies this
      ensures Valid()
      ensures users == old(users)[..k] + old(users)[k + 1..]
      ensures shops == old(shops) && products == old(products) && transactions == old(transactions)
    {
      MapRemove(users, k, UserKey);
      MapRemove(users, k, UserEmail);
      DistinctRemove(UserIds(users), k);
      DistinctRemove(Emails(users), k);
      var rest := users[..k] + users[k + 1..];
      assert forall i :: 0 <= i < |rest| ==> rest[i] == (if i < k then users[i] else users[i + 1]);
      users := rest;
    }
  }
}
