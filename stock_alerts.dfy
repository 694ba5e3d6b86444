/**
 * The stock alerts shown above the stocked sale screen and on the management
 * screen: the products at or under a threshold, split into sold-out products and
 * products that are low but still available.
 */
module StockAlerts {
  import opened Wrappers
  import opened Seqs
  import opened Catalog

  /** The threshold both alert components use when none is given. */
  const DefaultThreshold: int := 10

  predicate IsLow(threshold: int, p: Product)
  {
    p.stock <= threshold
  }

  predicate IsSoldOut(p: Product)
  {
    p.stock == 0
  }

  predicate IsAvailable(p: Product)
  {
    p.stock > 0
  }

  /** `productos.filter(producto => producto.stock <= threshold)`. */
  function LowStock(products: seq<Product>, threshold: int): (r: seq<Product>)
    ensures forall p :: p in r <==> p in products && p.stock <= threshold
  {
    Filter(products, p => IsLow(threshold, p))
  }

  /** `productos.filter(producto => producto.stock === 0)`. */
  function OutOfStock(products: seq<Product>): (r: seq<Product>)
    ensures forall p :: p in r <==> p in products && p.stock == 0
  {
    Filter(products, IsSoldOut)
  }

  /** `productosStockBajo.filter(p => p.stock > 0)`. */
  function LowButAvailable(products: seq<Product>, threshold: int): (r: seq<Product>)
    ensures forall p :: p in r <==> p in products && 0 < p.stock <= threshold
  {
    Filter(LowStock(products, threshold), IsAvailable)
  }

  /** The two lists an alert shows. */
  datatype Alerts = Alerts(outOfStock: seq<Product>, lowButAvailable: seq<Product>)

  /**
   * What `StockAlerts` and `StockAlertsCard` render: nothing when no product is low,
   * otherwise the sold-out list and the low-but-available list.
   */
  function AlertsFor(products: seq<Product>, threshold: int): (r: Option<Alerts>)
    ensures r.None? <==> forall p :: p in products ==> p.stock > threshold
    ensures r.Some? ==> r.value.outOfStock == OutOfStock(products) &&
                        r.value.lowButAvailable == LowButAvailable(products, threshold)
  {
    var low := LowStock(products, threshold);
    if |low| == 0 then
      None
    else
      assert low[0] in low;
      Some(Alerts(OutOfStock(products), LowButAvailable(products, threshold)))
  }

  /** No product is both sold out and low but available. */
  lemma AlertListsDisjoint(products: seq<Product>, threshold: int)
    ensures forall p :: p in OutOfStock(products) ==> p !in LowButAvailable(products, threshold)
  {
  }

  /**
   * With a threshold of at least 0 and no negative stock, the low list is split exactly
   * by the two alert lists: every low product is in one of them, once.
   */
  lemma {:induction false} LowStockSplits(products: seq<Product>, threshold: int)
    requires threshold >= 0
    requires forall p :: p in products ==> p.stock >= 0
    ensures multiset(LowStock(products, threshold)) ==
            multiset(OutOfStock(products)) + multiset(LowButAvailable(products, threshold))
  {
    if products != [] {
      var p, rest := products[0], products[1..];
      assert forall q :: q in rest ==> q in products;
      LowStockSplits(rest, threshold);
      var low', out', avail' := LowStock(rest, threshold), OutOfStock(rest), LowButAvailable(rest, threshold);
      if p.stock == 0 {
        assert LowStock(products, threshold) == [p] + low';
        assert OutOfStock(products) == [p] + out';
        assert LowButAvailable(products, threshold) == avail' by {
          assert ([p] + low')[1..] == low';
        }
      } else if p.stock <= threshold {
        assert LowStock(products, threshold) == [p] + low';
        assert OutOfStock(products) == out';
        assert LowButAvailable(products, threshold) == [p] + avail' by {
          assert ([p] + low')[1..] == low';
        }
      } else {
        assert LowStock(products, threshold) == low';
        assert OutOfStock(products) == out';
      }
    }
  }

  /** With a threshold of at least 0, every sold-out product is also in the low list. */
  lemma SoldOutIsLow(products: seq<Product>, threshold: int)
    requires threshold >= 0
    ensures forall p :: p in OutOfStock(products) ==> p in LowStock(products, threshold)
  {
  }

  /**
   * A product whose stock went below zero (sales do not check stock) counts as low, so an
   * alert is shown, but it is listed in neither of the alert's lists.
   */
  lemma NegativeStockUnlisted(products: seq<Product>, threshold: int, p: Product)
    requires threshold >= 0
    requires p in products && p.stock < 0
    ensures AlertsFor(products, threshold).Some?
    ensures p !in AlertsFor(products, threshold).value.outOfStock
    ensures p !in AlertsFor(products, threshold).value.lowButAvailable
  {
  }

  /**
   * On a first start, with the default threshold, the alert shows the Muffin (8 left)
   * as low and nothing as sold out.
   */
  lemma FreshCatalogAlerts()
    ensures AlertsFor(Loaded(None), DefaultThreshold).Some?
    ensures OutOfStock(Loaded(None)) == []
    ensures InitialProducts[7] in LowButAvailable(Loaded(None), DefaultThreshold)
  {
    var ps := Loaded(None);
    InitialCatalogWellFormed();
    assert ps[7] in ps;
    NothingSoldOut(ps);
  }

  /** With every product in stock, the sold-out list is empty. */
  lemma {:induction false} NothingSoldOut(products: seq<Product>)
    requires forall p :: p in products ==> p.stock > 0
    ensures OutOfStock(products) == []
  {
    if products != [] {
      assert products[0] in products;
      NothingSoldOut(products[1..]);
    }
  }
}
