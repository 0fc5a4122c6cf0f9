/** The SuperAdmin dashboard of `internal/handlers/report.go`: ledger totals, the products
  * running low, and row counts, all for the caller's shop only. */
module Reports {
  import opened Outcomes
  import opened Seqs
  import opened Uuids
  import opened Models
  import opened Dto
  import opened Database
  import opened Middleware

  function Amount(t: Transaction): real { t.amount }

  function InShop(shop: Uuid): Transaction -> bool {
    (t: Transaction) => t.shopId == shop
  }

  function SaleIn(shop: Uuid): Transaction -> bool {
    (t: Transaction) => t.shopId == shop && t.kind == Sale
  }

  /** `type IN ('Expense', 'Withdrawal')`: everything that takes money out. */
  function SpendingIn(shop: Uuid): Transaction -> bool {
    (t: Transaction) => t.shopId == shop && (t.kind == Expense || t.kind == Withdrawal)
  }

  /** `COALESCE(SUM(amount), 0)` over the shop's Sale rows. */
  function TotalSales(transactions: seq<Transaction>, shop: Uuid): real {
    Sum(Filter(transactions, SaleIn(shop)), Amount)
  }

  /** The same sum over the shop's Expense and Withdrawal rows. */
  function TotalExpenses(transactions: seq<Transaction>, shop: Uuid): real {
    Sum(Filter(transactions, SpendingIn(shop)), Amount)
  }

  /** Every ledger row of the shop counts once, on one side or the other: sales and expenses
    * add up to the sum of all the shop's amounts. */
  lemma {:induction false} LedgerSplits(transactions: seq<Transaction>, shop: Uuid)
    ensures TotalSales(transactions, shop) + TotalExpenses(transactions, shop) == Sum(Filter(transactions, InShop(shop)), Amount)
  {
    if transactions != [] {
      var t := transactions[0];
      var rest := transactions[1..];
      LedgerSplits(rest, shop);
      if t.shopId == shop {
        var sales, spending, all := Filter(rest, SaleIn(shop)), Filter(rest, SpendingIn(shop)), Filter(rest, InShop(shop));
        assert ([t] + all)[0] == t && ([t] + all)[1..] == all;
        if t.kind == Sale {
          assert ([t] + sales)[0] == t && ([t] + sales)[1..] == sales;
        } else {
          assert ([t] + spending)[0] == t && ([t] + spending)[1..] == spending;
        }
      }
    }
  }

  /** Recording a transaction moves exactly one total of its own shop by its amount and
    * leaves the figures of every other shop alone. */
  lemma RecordingMovesOneTotal(transactions: seq<Transaction>, t: Transaction, shop: Uuid)
    ensures TotalSales(transactions + [t], shop) ==
      TotalSales(transactions, shop) + (if t.shopId == shop && t.kind == Sale then t.amount else 0.0)
    ensures TotalExpenses(transactions + [t], shop) ==
      TotalExpenses(transactions, shop) + (if t.shopId == shop && t.kind != Sale then t.amount else 0.0)
  {
    FilterAppend(transactions, [t], SaleIn(shop));
    FilterAppend(transactions, [t], SpendingIn(shop));
    SumAppend(Filter(transactions, SaleIn(shop)), Filter([t], SaleIn(shop)), Amount);
    SumAppend(Filter(transactions, SpendingIn(shop)), Filter([t], SpendingIn(shop)), Amount);
    assert [t][1..] == [];
  }

  /** With every amount positive (as the ledger keeps them), neither total is negative, and
    * the sales total is zero exactly when the shop has no Sale. */
  lemma TotalsNonNegative(transactions: seq<Transaction>, shop: Uuid)
    requires forall i :: 0 <= i < |transactions| ==> transactions[i].amount > 0.0
    ensures TotalSales(transactions, shop) >= 0.0 && TotalExpenses(transactions, shop) >= 0.0
    ensures TotalSales(transactions, shop) == 0.0 <==> forall i :: 0 <= i < |transactions| ==> !SaleIn(shop)(transactions[i])
  {
    var sales, spending := Filter(transactions, SaleIn(shop)), Filter(transactions, SpendingIn(shop));
    assert forall i :: 0 <= i < |sales| ==> sales[i] in transactions;
    assert forall i :: 0 <= i < |spending| ==> spending[i] in transactions;
    SumPositive(sales, Amount);
    SumPositive(spending, Amount);
    if sales == [] {
      forall i | 0 <= i < |transactions|
        ensures !SaleIn(shop)(transactions[i])
      {
        assert transactions[i] !in sales;
      }
    } else {
      assert sales[0] in transactions;
    }
  }

  /** `stock < 5` among the shop's live rows. */
  function LowStockIn(shop: Uuid): Product -> bool {
    (p: Product) => p.Live() && p.shopId == shop && p.stock < 5
  }

  function LiveIn(shop: Uuid): Product -> bool {
    (p: Product) => p.Live() && p.shopId == shop
  }

  function ToLowStockItem(p: Product): LowStockItem {
    LowStockItem(p.id, p.name, p.stock, p.category)
  }

  /** The low-stock list names only the shop's live products with fewer than five left, and
    * each of those. */
  lemma LowStockListIsComplete(products: seq<Product>, shop: Uuid)
    ensures forall q :: q in Map(Filter(products, LowStockIn(shop)), ToLowStockItem) ==> q.stock < 5
    ensures forall p :: p in products && p.Live() && p.shopId == shop && p.stock < 5 ==>
      ToLowStockItem(p) in Map(Filter(products, LowStockIn(shop)), ToLowStockItem)
  {
    var rows := Filter(products, LowStockIn(shop));
    var listed := Map(rows, ToLowStockItem);
    forall q | q in listed
      ensures q.stock < 5
    {
      var i :| 0 <= i < |listed| && listed[i] == q;
      assert rows[i] in rows;
    }
    forall p | p in products && p.Live() && p.shopId == shop && p.stock < 5
      ensures ToLowStockItem(p) in listed
    {
      assert p in rows;
      var i :| 0 <= i < |rows| && rows[i] == p;
      assert listed[i] == ToLowStockItem(p);
    }
  }

  /** `GetDashboard`. Net profit is sales less expenses; the product count leaves out
    * soft-deleted rows, the transaction count takes every ledger row of the shop. */
  method GetDashboard(db: Db, ctx: Context) returns (r: Outcome<DashboardResponse>)
    ensures !ctx.ShopId().1 ==> r == Fail(Unauthorized("Unauthorized"))
    ensures ctx.ShopId().1 ==> r.Ok?
    ensures r.Ok? ==> var shop := ctx.ShopId().0;
      && r.value.totalSales == TotalSales(db.transactions, shop)
      && r.value.totalExpenses == TotalExpenses(db.transactions, shop)
      && r.value.netProfit == r.value.totalSales - r.value.totalExpenses
      && r.value.lowStockProducts == Map(Filter(db.products, LowStockIn(shop)), ToLowStockItem)
      && r.value.totalProducts == |Filter(db.products, LiveIn(shop))|
      && r.value.totalTransactions == |Filter(db.transactions, InShop(shop))|
  {
    var (shop, ok) := ctx.ShopId();
    if !ok {
      return Fail(Unauthorized("Unauthorized"));
    }
    var totalSales := TotalSales(db.transactions, shop);
    var totalExpenses := TotalExpenses(db.transactions, shop);
    var low := Filter(db.products, LowStockIn(shop));
    var items: seq<LowStockItem> := [];
    var i := 0;
    while i < |low|
      invariant 0 <= i <= |low|
      invariant |items| == i
      invariant forall j :: 0 <= j < i ==> items[j] == ToLowStockItem(low[j])
    {
      items := items + [ToLowStockItem(low[i])];
      i := i + 1;
    }
    assert items == Map(low, ToLowStockItem);
    var totalProducts := |Filter(db.products, LiveIn(shop))|;
    var totalTransactions := |Filter(db.transactions, InShop(shop))|;
    return Ok(DashboardResponse(totalSales, totalExpenses, totalSales - totalExpenses, items, totalProducts, totalTransactions));
  }
}
