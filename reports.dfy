/**
 * The report screen's figures over the sales of the chosen period: counts and
 * sums, sales per day, the five best-selling products, sales per category and
 * per payment method, and the revenue column of the product table.
 */
module Reports {
  import opened Wrappers
  import opened Seqs
  import opened Catalog
  import opened Ledger
  import opened Grouping

  /** The period selector: 'todo', 'hoy', 'semana', 'mes', 'personalizado' with its two date fields. */
  datatype Period = All | Today | Week | Month | Custom(start: string, end: string)

  /**
   * `ventasFiltradas`: 'todo', and a custom period with a date field left empty, keep the
   * whole ledger; otherwise the sales that fall in the period. Whether a sale falls in it
   * is a comparison of parsed dates, passed in as `inPeriod`.
   */
  function PeriodSales(ledger: seq<Sale>, period: Period, inPeriod: Sale -> bool): (r: seq<Sale>)
    ensures period.All? ==> r == ledger
    ensures period.Custom? && (period.start == "" || period.end == "") ==> r == ledger
    ensures !period.All? && !(period.Custom? && (period.start == "" || period.end == "")) ==>
      forall s :: s in r <==> s in ledger && inPeriod(s)
  {
    match period
    case All => ledger
    case Custom(start, end) => if start == "" || end == "" then ledger else Filter(ledger, inPeriod)
    case _ => Filter(ledger, inPeriod)
  }

  /** Σ cantidad over a sale's lines. */
  function LineQuantities(items: seq<SaleLine>): (r: int)
    ensures (forall l :: l in items ==> l.quantity >= 0) ==> r >= 0
  {
    if items == [] then 0
    else
      assert forall l :: l in items[1..] ==> l in items;
      items[0].quantity + LineQuantities(items[1..])
  }

  /** `productosVendidos`: Σ over the sales of Σ cantidad over their lines. */
  function ItemsSold(sales: seq<Sale>): (r: int)
    ensures sales == [] ==> r == 0
    ensures (forall s, l :: s in sales && l in s.items ==> l.quantity >= 0) ==> r >= 0
  {
    if sales == [] then 0
    else
      assert forall s :: s in sales[1..] ==> s in sales;
      assert sales[0] in sales;
      LineQuantities(sales[0].items) + ItemsSold(sales[1..])
  }

  /** Σ over the sales of the sum of their frozen lines. */
  function SnapshotRevenue(sales: seq<Sale>): int
  {
    if sales == [] then 0 else SnapshotTotal(sales[0].items) + SnapshotRevenue(sales[1..])
  }

  /** For a ledger of consistent sales, summing the frozen lines gives the revenue. */
  lemma {:induction false} SnapshotRevenueIsRevenue(sales: seq<Sale>)
    requires forall s :: s in sales ==> Consistent(s)
    ensures SnapshotRevenue(sales) == Revenue(sales)
  {
    if sales != [] {
      assert sales[0] in sales;
      assert forall s :: s in sales[1..] ==> s in sales;
      SnapshotRevenueIsRevenue(sales[1..]);
    }
  }

  lemma ConsistentRevenue(sales: seq<Sale>)
    ensures (forall s :: s in sales ==> Consistent(s)) ==> SnapshotRevenue(sales) == Revenue(sales)
  {
    if forall s :: s in sales ==> Consistent(s) {
      SnapshotRevenueIsRevenue(sales);
    }
  }

  /** What a sale line contributes to a dictionary: its quantity under its product name, or its amount under its category. */
  datatype LineKey = ProductName | CategoryIn(catalog: seq<Product>)

  /** The label of sales whose product is no longer in the catalog, or has no category. */
  const Uncategorized: string := "Sin categor\U{ed}a"

  /** `productos.find(p => p.nombre === name)?.categoria || 'Sin categoría'`. */
  function CategoryOf(catalog: seq<Product>, name: string): (r: string)
    ensures LookupByName(catalog, name).None? ==> r == Uncategorized
    ensures LookupByName(catalog, name).Some? && LookupByName(catalog, name).value.category == "" ==> r == Uncategorized
    ensures LookupByName(catalog, name).Some? && LookupByName(catalog, name).value.category != "" ==>
      r == LookupByName(catalog, name).value.category
  {
    match LookupByName(catalog, name)
    case None => Uncategorized
    case Some(p) => if p.category == "" then Uncategorized else p.category
  }

  function LineEntry(kind: LineKey, l: SaleLine): Entry
  {
    match kind
    case ProductName => Entry(l.product, l.quantity)
    case CategoryIn(catalog) => Entry(CategoryOf(catalog, l.product), l.quantity * l.price)
  }

  function ItemEntries(items: seq<SaleLine>, kind: LineKey): (r: seq<Entry>)
    ensures |r| == |items|
    ensures forall i :: 0 <= i < |items| ==> r[i] == LineEntry(kind, items[i])
  {
    if items == [] then [] else [LineEntry(kind, items[0])] + ItemEntries(items[1..], kind)
  }

  /** The contributions of every line of every sale, in ledger order and then line order (the nested `forEach`). */
  function LineEntries(sales: seq<Sale>, kind: LineKey): seq<Entry>
  {
    if sales == [] then [] else ItemEntries(sales[0].items, kind) + LineEntries(sales[1..], kind)
  }

  /** A sale's lines contribute their quantities, or (by category) the sum of their frozen lines. */
  lemma {:induction false} ItemEntriesTotal(items: seq<SaleLine>, kind: LineKey)
    ensures kind.ProductName? ==> Total(ItemEntries(items, kind)) == LineQuantities(items)
    ensures kind.CategoryIn? ==> Total(ItemEntries(items, kind)) == SnapshotTotal(items)
  {
    if items != [] {
      ItemEntriesTotal(items[1..], kind);
      assert ItemEntries(items, kind)[1..] == ItemEntries(items[1..], kind);
    }
  }

  /** All the lines contribute the items sold, or (by category) the sum of all frozen lines. */
  lemma {:induction false} LineEntriesTotal(sales: seq<Sale>, kind: LineKey)
    ensures kind.ProductName? ==> Total(LineEntries(sales, kind)) == ItemsSold(sales)
    ensures kind.CategoryIn? ==> Total(LineEntries(sales, kind)) == SnapshotRevenue(sales)
  {
    if sales != [] {
      LineEntriesTotal(sales[1..], kind);
      ItemEntriesTotal(sales[0].items, kind);
      TotalConcat(ItemEntries(sales[0].items, kind), LineEntries(sales[1..], kind));
    }
  }

  /** The four headline figures (`estadisticas`). */
  datatype Stats = Stats(count: nat, revenue: int, average: real, itemsSold: int)

  /**
   * `estadisticas`: the number of sales, their revenue, the average sale (0 without
   * sales) and the units sold, which are also the units the product ranking counts.
   */
  function Statistics(sales: seq<Sale>): (r: Stats)
    ensures r.count == |sales| && r.revenue == Revenue(sales)
    ensures r.count == 0 ==> r.average == 0.0
    ensures r.count > 0 ==> r.average * (r.count as real) == r.revenue as real
    ensures r.itemsSold == ItemsSold(sales) == Total(LineEntries(sales, ProductName))
  {
    LineEntriesTotal(sales, ProductName);
    Stats(|sales|, Revenue(sales), Average(Revenue(sales), |sales|), ItemsSold(sales))
  }

  /** What a sale contributes to a dictionary: its total under its date, or under its payment method. */
  datatype SaleKey = Date | Method

  function SaleEntries(sales: seq<Sale>, kind: SaleKey): (r: seq<Entry>)
    ensures |r| == |sales|
    ensures forall i :: 0 <= i < |sales| ==>
      r[i] == Entry(if kind == Date then sales[i].date else sales[i].paymentMethod, sales[i].total)
  {
    if sales == [] then []
    else [Entry(if kind == Date then sales[0].date else sales[0].paymentMethod, sales[0].total)]
         + SaleEntries(sales[1..], kind)
  }

  /** The sales' totals, whatever key they are filed under, add up to the revenue. */
  lemma {:induction false} SaleEntriesTotal(sales: seq<Sale>, kind: SaleKey)
    ensures Total(SaleEntries(sales, kind)) == Revenue(sales)
  {
    if sales != [] {
      SaleEntriesTotal(sales[1..], kind);
      assert SaleEntries(sales, kind)[1..] == SaleEntries(sales[1..], kind);
    }
  }

  /** The keys of the per-sale contributions are the sales' dates, or their payment methods. */
  lemma SaleEntriesKeys(sales: seq<Sale>, kind: SaleKey)
    ensures forall k :: k in Keys(SaleEntries(sales, kind)) <==>
      exists s :: s in sales && k == (if kind == Date then s.date else s.paymentMethod)
  {
    var es := SaleEntries(sales, kind);
    forall k ensures k in Keys(es) <==> exists s :: s in sales && k == (if kind == Date then s.date else s.paymentMethod) {
      if k in Keys(es) {
        var i :| 0 <= i < |es| && Keys(es)[i] == k;
        assert sales[i] in sales;
      }
      if exists s :: s in sales && k == (if kind == Date then s.date else s.paymentMethod) {
        var s :| s in sales && k == (if kind == Date then s.date else s.paymentMethod);
        var i :| 0 <= i < |sales| && sales[i] == s;
        assert Keys(es)[i] == k;
      }
    }
  }

  /**
   * `ventasPorDia`: one entry per date on which there were sales, holding that date's
   * revenue, sorted by date; together they add up to the revenue.
   */
  function SalesByDay(sales: seq<Sale>): (r: seq<Entry>)
    ensures DistinctKeys(r)
    ensures Sorted(r, ByKey)
    ensures forall d :: d in Keys(r) <==> exists s :: s in sales && s.date == d
    ensures forall e :: e in r ==> e.amount == KeyTotal(SaleEntries(sales, Date), e.key)
    ensures Total(r) == Revenue(sales)
  {
    OrdersArePreorders();
    SaleEntriesKeys(sales, Date);
    SaleEntriesTotal(sales, Date);
    var g := Group(SaleEntries(sales, Date));
    SortIsSorted(g, ByKey);
    Sort(g, ByKey)
  }

  /** `ventasPorMetodoPago`: one entry per payment method used, holding its revenue; they add up to the revenue. */
  function SalesByMethod(sales: seq<Sale>): (r: seq<Entry>)
    ensures DistinctKeys(r)
    ensures forall m :: m in Keys(r) <==> exists s :: s in sales && s.paymentMethod == m
    ensures forall e :: e in r ==> e.amount == KeyTotal(SaleEntries(sales, Method), e.key)
    ensures Total(r) == Revenue(sales)
  {
    SaleEntriesKeys(sales, Method);
    SaleEntriesTotal(sales, Method);
    Group(SaleEntries(sales, Method))
  }

  /**
   * `ventasPorCategoria`: one entry per category label, holding Σ cantidad × precio of the
   * frozen lines filed under it; for a consistent ledger they add up to the revenue.
   */
  function SalesByCategory(sales: seq<Sale>, catalog: seq<Product>): (r: seq<Entry>)
    ensures DistinctKeys(r)
    ensures forall c :: c in Keys(r) <==> c in Keys(LineEntries(sales, CategoryIn(catalog)))
    ensures forall e :: e in r ==> e.amount == KeyTotal(LineEntries(sales, CategoryIn(catalog)), e.key)
    ensures Total(r) == SnapshotRevenue(sales)
    ensures (forall s :: s in sales ==> Consistent(s)) ==> Total(r) == Revenue(sales)
  {
    LineEntriesTotal(sales, CategoryIn(catalog));
    ConsistentRevenue(sales);
    Group(LineEntries(sales, CategoryIn(catalog)))
  }

  /** How many entries the ranking keeps. */
  const TopCount: nat := 5

  /**
   * `productosMasVendidos`: the product names ranked by units sold, most first, cut to
   * five. Each entry holds everything sold under its name, and no product left out
   * sold more than any product kept.
   */
  function TopProducts(sales: seq<Sale>): (r: seq<Entry>)
    ensures |r| <= TopCount
    ensures |r| == |Group(LineEntries(sales, ProductName))| || |r| == TopCount
    ensures DistinctKeys(r)
    ensures Sorted(r, ByAmountDesc)
    ensures forall e :: e in r ==> e in Group(LineEntries(sales, ProductName))
    ensures |Group(LineEntries(sales, ProductName))| <= TopCount ==>
      forall e :: e in Group(LineEntries(sales, ProductName)) ==> e in r
    ensures forall e :: e in r ==> e.amount == KeyTotal(LineEntries(sales, ProductName), e.key)
    ensures forall e, x :: e in Group(LineEntries(sales, ProductName)) && e !in r && x in r ==> x.amount >= e.amount
  {
    var g := Group(LineEntries(sales, ProductName));
    OrdersArePreorders();
    SortIsSorted(g, ByAmountDesc);
    var sorted := Sort(g, ByAmountDesc);
    var n := if |sorted| < TopCount then |sorted| else TopCount;
    RankingPrefix(sorted, n);
    sorted[..n]
  }

  /** The first n entries of a ranking are a ranking, and none left out is above one kept. */
  lemma RankingPrefix(s: seq<Entry>, n: nat)
    requires Sorted(s, ByAmountDesc) && DistinctKeys(s) && n <= |s|
    ensures Sorted(s[..n], ByAmountDesc) && DistinctKeys(s[..n])
    ensures forall e :: e in s[..n] ==> e in s
    ensures forall e, x :: e in s && e !in s[..n] && x in s[..n] ==> x.amount >= e.amount
  {
    forall e, x | e in s && e !in s[..n] && x in s[..n] ensures x.amount >= e.amount {
      var i :| 0 <= i < |s| && s[i] == e;
      var j :| 0 <= j < n && s[..n][j] == x;
      assert ByAmountDesc(s[j], s[i]);
    }
  }

  /**
   * The revenue column of the product table: units sold times the product's CURRENT
   * catalog price, or 0 when no product has that name (not the prices the sales froze).
   */
  function DetailRevenue(catalog: seq<Product>, e: Entry): (r: int)
    ensures LookupByName(catalog, e.key).None? ==> r == 0
    ensures LookupByName(catalog, e.key).Some? ==> r == e.amount * LookupByName(catalog, e.key).value.price
  {
    match LookupByName(catalog, e.key)
    case None => 0
    case Some(p) => e.amount * p.price
  }

  /** Three units sold at 2000 after the price went up to 2500 are reported as 7500, though the sale took 6000. */
  lemma DetailUsesCurrentPrice(p: Product, sale: Sale)
    requires p.name == "Latte" && p.price == 2500
    requires sale.items == [SaleLine("Latte", 3, 2000)] && Consistent(sale)
    ensures sale.total == 6000
    ensures DetailRevenue([p], Entry("Latte", 3)) == 7500
  {
    assert SnapshotTotal(sale.items) == 6000 + SnapshotTotal(sale.items[1..]);
  }
}
