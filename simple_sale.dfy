/**
 * The basic sale screen: a fixed menu, a cart with no stock limits, the category
 * buttons and the "process sale" action that only clears the cart.
 */
module SimpleSale {
  import opened Catalog
  import opened Ledger
  import opened Cart

  /** The screen's built-in menu. Its products carry no stock; the model gives them 0, which this screen never reads. */
  const Menu: seq<Product> := [
    Product(1, "Caf\U{e9} Americano", 2500, "Bebidas Calientes", 0),
    Product(2, "Cappuccino", 3500, "Bebidas Calientes", 0),
    Product(3, "Latte", 4000, "Bebidas Calientes", 0),
    Product(4, "Espresso", 2000, "Bebidas Calientes", 0),
    Product(5, "Frapp\U{e9}", 4500, "Bebidas Fr\U{ed}as", 0),
    Product(6, "Jugo Natural", 3000, "Bebidas Fr\U{ed}as", 0),
    Product(7, "Croissant", 2800, "Panader\U{ed}a", 0),
    Product(8, "Muffin", 2200, "Panader\U{ed}a", 0)
  ]

  /** The screen state of `VentaView`: its cart. */
  class SimpleSaleScreen {
    var cart: seq<CartLine>

    constructor ()
      ensures cart == []
    {
      cart := [];
    }

    /** `agregarAlCarrito`: no stock bound. */
    method AddToCart(p: Product)
      modifies this
      ensures cart == Incremented(old(cart), p)
    {
      cart := Incremented(cart, p);
    }

    /** `actualizarCantidad`: 0 or less removes the line, anything else sets it. */
    method SetQuantity(id: int, q: int)
      modifies this
      ensures q <= 0 ==> cart == Without(old(cart), id)
      ensures q > 0 ==> cart == WithQuantity(old(cart), id, q)
    {
      if q <= 0 {
        cart := Without(cart, id);
      } else {
        cart := WithQuantity(cart, id, q);
      }
    }

    /** `procesarVenta`: an empty cart is left alone; otherwise the total is announced and the cart emptied. */
    method Process() returns (processed: bool, total: int)
      modifies this
      ensures processed <==> old(cart) != []
      ensures processed ==> cart == [] && total == LinesTotal(old(cart))
      ensures !processed ==> cart == old(cart)
    {
      if cart == [] {
        return false, 0;
      }
      total := LinesTotal(cart);
      cart := [];
      processed := true;
    }
  }
}
