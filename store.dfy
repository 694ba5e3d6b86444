/**
 * The shared application state: the product catalog and the sale ledger, with the
 * handlers that replace them (product add, update and delete, and sale registration).
 * Loading and saving both lists to the browser's storage is not part of this model.
 */
module AppState {
  import opened Wrappers
  import opened Catalog
  import opened Ledger

  class Store {
    var products: seq<Product>
    var sales: seq<Sale>

    /** Every sale in the ledger carries the sum of its frozen lines as its total. */
    ghost predicate Consistent()
      reads this
    {
      forall s :: s in sales ==> Ledger.Consistent(s)
    }

    /** The state as loaded: the stored catalog or the initial one, and the stored ledger or an empty one. */
    constructor (savedProducts: Option<seq<Product>>, savedSales: Option<seq<Sale>>)
      ensures products == Loaded(savedProducts)
      ensures savedSales.Some? ==> sales == savedSales.value
      ensures savedSales.None? ==> sales == []
    {
      products := Loaded(savedProducts);
      sales := if savedSales.Some? then savedSales.value else [];
    }

    /** `agregarProducto`: the new product, with the identity given, goes at the end of the catalog. */
    method AddProduct(draft: ProductDraft, id: int)
      modifies this`products
      ensures products == old(products) + [draft.WithId(id)]
    {
      products := products + [draft.WithId(id)];
    }

    /** `actualizarProducto`: every product with the same identity is replaced. */
    method UpdateProduct(updated: Product)
      modifies this`products
      ensures products == Replaced(old(products), updated)
    {
      products := Replaced(products, updated);
    }

    /** `eliminarProducto`: every product with the identity goes, the others stay in order. */
    method DeleteProduct(id: int)
      modifies this`products
      ensures products == Deleted(old(products), id)
    {
      products := Deleted(products, id);
    }

    /**
     * `registrarVenta`: the new sale goes to the FRONT of the ledger, then one stock
     * update per line runs over the catalog. Stock is not checked and may go negative.
     */
    method RegisterSale(lines: seq<CartLine>, paymentMethod: string, tender: Option<int>,
                        id: int, date: string, time: string) returns (sale: Sale)
      modifies this
      ensures sale == NewSale(lines, paymentMethod, tender, id, date, time)
      ensures sales == [sale] + old(sales)
      ensures products == Decremented(old(products), lines)
      ensures old(Consistent()) ==> Consistent()
    {
      sale := NewSale(lines, paymentMethod, tender, id, date, time);
      sales := [sale] + sales;
      var i := 0;
      while i < |lines|
        invariant 0 <= i <= |lines|
        invariant Decremented(products, lines[i..]) == Decremented(old(products), lines)
        invariant sales == [sale] + old(sales)
      {
        assert lines[i..][0] == lines[i] && lines[i..][1..] == lines[i + 1..];
        products := DecrementLine(products, lines[i]);
        i := i + 1;
      }
      assert lines[i..] == [];
    }
  }
}
