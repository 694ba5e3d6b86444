/**
 * The stocked sale screen: adding to the cart and setting quantities under the
 * catalog's stock, the cart total, and the checkout that validates, records the
 * sale, bumps the open shift's counters and resets the screen. Notifications are
 * the screen's outcome values; nothing is rendered.
 */
module Checkout {
  import opened Wrappers
  import opened Inputs
  import opened Catalog
  import opened Ledger
  import opened Cart
  import opened Auth
  import opened Shifts
  import AppState

  /** What `agregarAlCarrito` does: add, or refuse with the "Sin stock" or "Stock insuficiente" notice. */
  datatype AddOutcome = Added | NoStock | StockLimitReached

  /** The two stock guards of `agregarAlCarrito`, in order. */
  function AddDecision(cart: seq<CartLine>, p: Product): (r: AddOutcome)
    ensures r == NoStock <==> p.stock <= 0
    ensures r == StockLimitReached <==> p.stock > 0 && QuantityInCart(cart, p.id) >= p.stock
    ensures r == Added <==> 0 < p.stock && QuantityInCart(cart, p.id) < p.stock
  {
    if p.stock <= 0 then NoStock
    else if QuantityInCart(cart, p.id) >= p.stock then StockLimitReached
    else Added
  }

  /** The cart after `agregarAlCarrito`. */
  function AfterAdd(cart: seq<CartLine>, p: Product): (r: seq<CartLine>)
    ensures |cart| <= |r| <= |cart| + 1
    ensures forall k :: 0 <= k < |cart| ==> r[k].product == cart[k].product
  {
    if AddDecision(cart, p) == Added then Incremented(cart, p) else cart
  }

  /** The stock guard of `actualizarCantidad`: only a positive quantity above a known product's stock is refused. */
  function QuantityAccepted(catalog: seq<Product>, id: int, q: int): (r: bool)
    ensures !r <==> q > 0 && Lookup(catalog, id).Some? && q > Lookup(catalog, id).value.stock
  {
    q <= 0 || match Lookup(catalog, id)
              case None => true
              case Some(p) => q <= p.stock
  }

  /** The cart after `actualizarCantidad`. */
  function AfterSetQuantity(cart: seq<CartLine>, catalog: seq<Product>, id: int, q: int): (r: seq<CartLine>)
    ensures |r| <= |cart|
    ensures forall l :: l in r ==> l in cart || (l.product.id == id && l.quantity == q)
  {
    if q <= 0 then Without(cart, id)
    else if QuantityAccepted(catalog, id, q) then WithQuantity(cart, id, q)
    else cart
  }

  /** A refused add leaves the cart as it was; an accepted one adds exactly one unit of the product. */
  lemma AddToCartEffect(cart: seq<CartLine>, p: Product)
    ensures AddDecision(cart, p) != Added ==> AfterAdd(cart, p) == cart
    ensures AddDecision(cart, p) == Added ==>
      QuantityInCart(AfterAdd(cart, p), p.id) == QuantityInCart(cart, p.id) + 1 &&
      QuantityInCart(AfterAdd(cart, p), p.id) <= p.stock
    ensures forall id :: id != p.id ==> QuantityInCart(AfterAdd(cart, p), id) == QuantityInCart(cart, id)
    ensures UniqueIds(cart) ==> UniqueIds(AfterAdd(cart, p))
  {
    AddOneUnit(cart, p);
  }

  /**
   * Setting a quantity: a quantity of 0 or less removes the product's line and keeps the
   * others; a refused quantity leaves the cart as it was; an accepted one is the
   * product's new quantity, and other products' quantities do not change.
   */
  lemma SetQuantityEffect(cart: seq<CartLine>, catalog: seq<Product>, id: int, q: int)
    ensures q <= 0 ==> !HasProduct(AfterSetQuantity(cart, catalog, id, q), id)
    ensures !QuantityAccepted(catalog, id, q) ==> AfterSetQuantity(cart, catalog, id, q) == cart
    ensures q > 0 && QuantityAccepted(catalog, id, q) && HasProduct(cart, id) ==>
      QuantityInCart(AfterSetQuantity(cart, catalog, id, q), id) == q
    ensures q > 0 && !HasProduct(cart, id) ==> AfterSetQuantity(cart, catalog, id, q) == cart
    ensures forall other :: other != id ==>
      QuantityInCart(AfterSetQuantity(cart, catalog, id, q), other) == QuantityInCart(cart, other)
    ensures UniqueIds(cart) ==> UniqueIds(AfterSetQuantity(cart, catalog, id, q))
  {
    if q <= 0 {
      RemoveLineGone(cart, id);
      forall other | other != id
        ensures QuantityInCart(Without(cart, id), other) == QuantityInCart(cart, other)
      {
        RemoveLineOthers(cart, id, other);
      }
      if UniqueIds(cart) {
        RemoveLineUnique(cart, id);
      }
    } else {
      SetLineQuantity(cart, id, q);
    }
  }

  /** A product that is not in the catalog gets any positive quantity: the stock check is skipped. */
  lemma UnknownProductSkipsStockCheck(cart: seq<CartLine>, catalog: seq<Product>, id: int, q: int)
    requires q > 0
    requires forall p :: p in catalog ==> p.id != id
    ensures AfterSetQuantity(cart, catalog, id, q) == WithQuantity(cart, id, q)
  {
  }

  /** No line of the cart holds more of a catalog product than the product's stock. */
  predicate WithinStock(cart: seq<CartLine>, catalog: seq<Product>)
  {
    forall p :: p in catalog && HasProduct(cart, p.id) ==> QuantityInCart(cart, p.id) <= p.stock
  }

  /** No two catalog products share an identity. */
  predicate UniqueProductIds(catalog: seq<Product>)
  {
    forall i, j :: 0 <= i < j < |catalog| ==> catalog[i].id != catalog[j].id
  }

  /** With unique identities, looking a catalog product up by its identity finds that product. */
  lemma {:induction false} LookupFindsMember(catalog: seq<Product>, p: Product)
    requires UniqueProductIds(catalog)
    requires p in catalog
    ensures Lookup(catalog, p.id) == Some(p)
  {
    if catalog[0] != p {
      assert p in catalog[1..];
      var k :| 0 <= k < |catalog[1..]| && catalog[1..][k] == p;
      assert catalog[k + 1] == p;
      LookupFindsMember(catalog[1..], p);
    }
  }

  /** Adding a catalog product to a cart that is within stock keeps it within stock. */
  lemma AddKeepsWithinStock(cart: seq<CartLine>, catalog: seq<Product>, p: Product)
    requires UniqueProductIds(catalog)
    requires p in catalog
    requires WithinStock(cart, catalog)
    ensures WithinStock(AfterAdd(cart, p), catalog)
  {
    var r := AfterAdd(cart, p);
    AddToCartEffect(cart, p);
    forall x | x in catalog && HasProduct(r, x.id) ensures QuantityInCart(r, x.id) <= x.stock {
      if x.id == p.id {
        LookupFindsMember(catalog, p);
        LookupFindsMember(catalog, x);
        if AddDecision(cart, p) != Added {
          assert r == cart;
        }
      } else {
        AddOneUnit(cart, p);
        if AddDecision(cart, p) == Added {
          assert HasProduct(cart, x.id) by {
            if !HasProduct(cart, p.id) {
              FindLineAppend(cart, CartLine(p, 1), x.id);
            } else {
              FindLineSameIds(r, cart, x.id);
            }
          }
        }
      }
    }
  }

  /** Setting a quantity keeps a cart within stock. */
  lemma SetQuantityKeepsWithinStock(cart: seq<CartLine>, catalog: seq<Product>, id: int, q: int)
    requires UniqueProductIds(catalog)
    requires WithinStock(cart, catalog)
    ensures WithinStock(AfterSetQuantity(cart, catalog, id, q), catalog)
  {
    var r := AfterSetQuantity(cart, catalog, id, q);
    SetQuantityEffect(cart, catalog, id, q);
    forall x | x in catalog && HasProduct(r, x.id) ensures QuantityInCart(r, x.id) <= x.stock {
      if x.id != id {
        if q <= 0 {
          RemoveLineOthers(cart, id, x.id);
        } else if QuantityAccepted(catalog, id, q) {
          FindLineSameIds(r, cart, x.id);
        }
      } else if q > 0 && QuantityAccepted(catalog, id, q) {
        LookupFindsMember(catalog, x);
        FindLineSameIds(r, cart, x.id);
      }
    }
  }

  /**
   * A cart that is within stock, with one line per product, never drives a stock
   * below zero when it is committed, although the commit itself checks nothing.
   */
  lemma CommitWithinStock(cart: seq<CartLine>, catalog: seq<Product>)
    requires UniqueIds(cart)
    requires WithinStock(cart, catalog)
    requires forall p :: p in catalog ==> p.stock >= 0
    ensures forall k :: 0 <= k < |catalog| ==> Decremented(catalog, cart)[k].stock >= 0
  {
    var r := Decremented(catalog, cart);
    forall k | 0 <= k < |catalog| ensures r[k].stock >= 0 {
      var p := catalog[k];
      assert p in catalog;
      QuantityForUnique(cart, p.id);
      if !HasProduct(cart, p.id) {
        QuantityForAbsent(cart, p.id);
      }
    }
  }

  /** Why `confirmarVenta` stops: "Carrito vacío", "Turno no iniciado" or "Monto insuficiente". */
  datatype CheckoutError = EmptyCart | ShiftRequired | InsufficientTender

  /**
   * The three checks of `confirmarVenta`, in order, and on success the change handed back.
   * `tender` is `Number(montoPagado)`: None stands for NaN.
   */
  function CheckoutDecision(cart: seq<CartLine>, isAdmin: bool, shiftOpen: bool, tender: Option<int>): (r: Result<int, CheckoutError>)
    ensures r == Err(EmptyCart) <==> cart == []
    ensures r == Err(ShiftRequired) <==> cart != [] && !isAdmin && !shiftOpen
    ensures r == Err(InsufficientTender) <==>
      cart != [] && (isAdmin || shiftOpen) && (tender.None? || tender.value < LinesTotal(cart))
    ensures r.Ok? ==> tender.Some? && r.value == tender.value - LinesTotal(cart) && r.value >= 0
  {
    if cart == [] then Err(EmptyCart)
    else if !isAdmin && !shiftOpen then Err(ShiftRequired)
    else match tender
      case None => Err(InsufficientTender)
      case Some(m) => if m < LinesTotal(cart) then Err(InsufficientTender) else Ok(m - LinesTotal(cart))
  }

  /** A tender of exactly the total goes through with no change. */
  lemma ExactTenderSucceeds(cart: seq<CartLine>, isAdmin: bool, shiftOpen: bool)
    requires cart != [] && (isAdmin || shiftOpen)
    ensures CheckoutDecision(cart, isAdmin, shiftOpen, AsNumber(Numeric(LinesTotal(cart)))) == Ok(0)
  {
  }

  /** A tender one unit short of the total is refused. */
  lemma OneShortFails(cart: seq<CartLine>, isAdmin: bool, shiftOpen: bool)
    requires cart != [] && (isAdmin || shiftOpen)
    ensures CheckoutDecision(cart, isAdmin, shiftOpen, AsNumber(Numeric(LinesTotal(cart) - 1))) == Err(InsufficientTender)
  {
  }

  /** An administrator never needs an open shift; a signed-in cashier without one always does. */
  lemma AdminBypassesShift(cart: seq<CartLine>, user: Option<User>, tender: Option<int>)
    requires cart != []
    ensures user.Some? && user.value.role == Admin ==>
      CheckoutDecision(cart, HasRole(user, Admin), false, tender) != Err(ShiftRequired)
    ensures (user.None? || user.value.role == Cashier) ==>
      CheckoutDecision(cart, HasRole(user, Admin), false, tender) == Err(ShiftRequired)
  {
  }

  /** Two bags of 2000 x 3 and 1500 x 2 come to 9000; a tender of 10000 leaves 1000 of change. */
  lemma TwoLineCheckout(x: Product, y: Product)
    requires x.price == 2000 && y.price == 1500
    ensures LinesTotal([CartLine(x, 3), CartLine(y, 2)]) == 9000
    ensures CheckoutDecision([CartLine(x, 3), CartLine(y, 2)], true, false, Some(10000)) == Ok(1000)
  {
    LinesTotalSteps([], CartLine(x, 3));
    LinesTotalSteps([CartLine(x, 3)], CartLine(y, 2));
    assert [CartLine(x, 3)] + [CartLine(y, 2)] == [CartLine(x, 3), CartLine(y, 2)];
  }

  /** A product with 2 in stock: two adds go through, the third is refused and the cart keeps 2. */
  lemma ThirdAddRefused(p: Product)
    requires p.stock == 2
    ensures AddDecision(AfterAdd([], p), p) == Added
    ensures AddDecision(AfterAdd(AfterAdd([], p), p), p) == StockLimitReached
    ensures AfterAdd(AfterAdd(AfterAdd([], p), p), p) == AfterAdd(AfterAdd([], p), p)
    ensures QuantityInCart(AfterAdd(AfterAdd([], p), p), p.id) == 2
  {
    AddToCartEffect([], p);
    AddToCartEffect(AfterAdd([], p), p);
  }

  /**
   * The change shown under the tender field while typing: 0 for an empty field, never
   * negative for a number, and NaN (None) for text that is not a number.
   */
  function ChangePreview(tender: AmountInput, total: int): (r: Option<int>)
    ensures tender.Blank? ==> r == Some(0)
    ensures tender.NotANumber? <==> r.None?
    ensures tender.Numeric? ==> r.Some? && r.value >= 0 && r.value >= tender.amount - total
    ensures tender.Numeric? && r.value > 0 ==> r.value == tender.amount - total
  {
    match tender
    case Blank => Some(0)
    case NotANumber => None
    case Numeric(n) => Some(if n - total > 0 then n - total else 0)
  }

  /**
   * When checkout goes through, the change it hands back is the change the screen was
   * showing, unless the total is negative and the field empty (the preview shows 0).
   */
  lemma PreviewMatchesChange(cart: seq<CartLine>, isAdmin: bool, shiftOpen: bool, tender: AmountInput)
    requires tender.Numeric? || LinesTotal(cart) >= 0
    requires CheckoutDecision(cart, isAdmin, shiftOpen, AsNumber(tender)).Ok?
    ensures ChangePreview(tender, LinesTotal(cart)) == Some(CheckoutDecision(cart, isAdmin, shiftOpen, AsNumber(tender)).value)
  {
  }

  /**
   * A cleared cart holds nothing of any product, keeps every stock bound, totals 0,
   * and is refused at checkout as empty.
   */
  lemma ClearedCartState(catalog: seq<Product>, isAdmin: bool, shiftOpen: bool, tender: Option<int>)
    ensures forall id :: QuantityInCart([], id) == 0
    ensures WithinStock([], catalog) && UniqueIds([])
    ensures LinesTotal([]) == 0
    ensures CheckoutDecision([], isAdmin, shiftOpen, tender) == Err(EmptyCart)
  {
  }

  /** What `ultimaVenta` keeps for the receipt. */
  datatype Receipt = Receipt(items: seq<CartLine>, total: int, amountPaid: int, change: int)

  /** The screen state of `VentaViewOdoo` that its handlers change. */
  class SaleScreen {
    var cart: seq<CartLine>
    var paymentMethod: string
    var tender: AmountInput
    var lastSale: Option<Receipt>

    /** An empty cart, cash as the method, an empty tender field, no receipt. */
    constructor ()
      ensures cart == [] && paymentMethod == "efectivo" && tender == Blank && lastSale.None?
    {
      cart := [];
      paymentMethod := "efectivo";
      tender := Blank;
      lastSale := None;
    }

    /** `agregarAlCarrito`, for the product as the catalog currently lists it. */
    method AddToCart(p: Product) returns (outcome: AddOutcome)
      modifies this`cart
      ensures outcome == AddDecision(old(cart), p)
      ensures cart == AfterAdd(old(cart), p)
    {
      if p.stock <= 0 {
        return NoStock;
      }
      if QuantityInCart(cart, p.id) >= p.stock {
        return StockLimitReached;
      }
      cart := Incremented(cart, p);
      return Added;
    }

    /** `actualizarCantidad`, checked against the current catalog. */
    method SetQuantity(catalog: seq<Product>, id: int, q: int) returns (accepted: bool)
      modifies this`cart
      ensures accepted == QuantityAccepted(catalog, id, q)
      ensures cart == AfterSetQuantity(old(cart), catalog, id, q)
    {
      if q <= 0 {
        cart := Without(cart, id);
        return true;
      }
      var product := Lookup(catalog, id);
      if product.Some? && q > product.value.stock {
        return false;
      }
      cart := WithQuantity(cart, id, q);
      return true;
    }

    /** `setMontoPagado`. */
    method SetTender(input: AmountInput)
      modifies this`tender
      ensures tender == input
    {
      tender := input;
    }

    /** `setMetodoPago`. */
    method SetPaymentMethod(chosen: string)
      modifies this`paymentMethod
      ensures paymentMethod == chosen
    {
      paymentMethod := chosen;
    }

    /** The "Limpiar" button: `setCarrito([])`. */
    method ClearCart()
      modifies this`cart
      ensures cart == []
    {
      cart := [];
    }

    /** `handlePrintComplete`: the receipt is dropped once printed. */
    method ClearReceipt()
      modifies this`lastSale
      ensures lastSale.None?
    {
      lastSale := None;
    }

    /**
     * `confirmarVenta`. A refused checkout changes nothing. A successful one keeps the
     * receipt, registers the sale in the store, sets the open shift's counters to one
     * more sale and the sale's total more, and resets the cart, tender and method.
     */
    method Confirm(store: AppState.Store, register: ShiftRegister, user: Option<User>,
                   saleId: int, date: string, time: string) returns (result: Result<int, CheckoutError>)
      modifies this, store, register
      ensures result == CheckoutDecision(old(cart), HasRole(user, Admin), old(register.current).Some?, AsNumber(old(tender)))
      ensures result.Err? ==>
        cart == old(cart) && tender == old(tender) && paymentMethod == old(paymentMethod) &&
        lastSale == old(lastSale) &&
        store.products == old(store.products) && store.sales == old(store.sales) &&
        register.State() == old(register.State())
      ensures result.Ok? ==>
        lastSale == Some(Receipt(old(cart), LinesTotal(old(cart)), AsNumber(old(tender)).value, result.value)) &&
        store.sales == [NewSale(old(cart), old(paymentMethod), AsNumber(old(tender)), saleId, date, time)] + old(store.sales) &&
        store.products == Decremented(old(store.products), old(cart)) &&
        register.State() == AfterUpdate(old(register.State()),
                                        if old(register.current).Some? then old(register.current).value.salesCount + 1 else 0,
                                        if old(register.current).Some? then old(register.current).value.salesTotal + LinesTotal(old(cart)) else 0) &&
        cart == [] && tender == Blank && paymentMethod == "efectivo"
      ensures old(store.Consistent()) ==> store.Consistent()
    {
      result := CheckoutDecision(cart, HasRole(user, Admin), register.current.Some?, AsNumber(tender));
      if result.Err? {
        return;
      }
      var total := LinesTotal(cart);
      var paid := AsNumber(tender).value;
      lastSale := Some(Receipt(cart, total, paid, result.value));
      var sale := store.RegisterSale(cart, paymentMethod, Some(paid), saleId, date, time);
      if register.current.Some? {
        register.Update(register.current.value.salesCount + 1, register.current.value.salesTotal + total);
      }
      cart := [];
      tender := Blank;
      paymentMethod := "efectivo";
    }
  }
}
