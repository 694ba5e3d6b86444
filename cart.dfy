/**
 * The cart updates that both sale screens hand to `setCarrito`: add one unit of a
 * product, drop a product's line, set a product's quantity. The stock checks that
 * the stocked screen runs before them live in module Checkout.
 */
module Cart {
  import opened Wrappers
  import opened Seqs
  import opened Catalog
  import opened Ledger

  /** No two lines of the cart are for the same product identity. */
  predicate UniqueIds(cart: seq<CartLine>)
  {
    forall i, j :: 0 <= i < j < |cart| ==> cart[i].product.id != cart[j].product.id
  }

  /** Position of `cart.find(item => item.producto.id === id)`. */
  function FindLine(cart: seq<CartLine>, id: int): (r: Option<nat>)
    ensures r.Some? ==> r.value < |cart| && cart[r.value].product.id == id &&
                        forall j :: 0 <= j < r.value ==> cart[j].product.id != id
    ensures r.None? <==> forall j :: 0 <= j < |cart| ==> cart[j].product.id != id
  {
    if cart == [] then None
    else if cart[0].product.id == id then Some(0)
    else match FindLine(cart[1..], id)
      case None => None
      case Some(j) => Some(j + 1)
  }

  predicate HasProduct(cart: seq<CartLine>, id: int)
  {
    FindLine(cart, id).Some?
  }

  /** `cart.find(item => item.producto.id === id)?.cantidad || 0`. */
  function QuantityInCart(cart: seq<CartLine>, id: int): (r: int)
    ensures (forall k :: 0 <= k < |cart| ==> cart[k].product.id != id) ==> r == 0
    ensures r != 0 ==> exists k :: 0 <= k < |cart| && cart[k].product.id == id && cart[k].quantity == r
    ensures HasProduct(cart, id) ==> r == cart[FindLine(cart, id).value].quantity
  {
    match FindLine(cart, id)
    case Some(i) => cart[i].quantity
    case None => 0
  }

  /** Two carts with the same product identities at the same positions find the same lines. */
  lemma {:induction false} FindLineSameIds(a: seq<CartLine>, b: seq<CartLine>, id: int)
    requires |a| == |b|
    requires forall k :: 0 <= k < |a| ==> a[k].product.id == b[k].product.id
    ensures FindLine(a, id) == FindLine(b, id)
  {
    if a != [] {
      FindLineSameIds(a[1..], b[1..], id);
    }
  }

  /** `prev.map(item => item.producto.id === id ? {...item, cantidad: item.cantidad + 1} : item)`. */
  function IncrementAll(cart: seq<CartLine>, id: int): (r: seq<CartLine>)
    ensures |r| == |cart|
    ensures forall k :: 0 <= k < |r| ==>
      r[k].product == cart[k].product &&
      r[k].quantity == cart[k].quantity + (if cart[k].product.id == id then 1 else 0)
  {
    if cart == [] then []
    else
      var l := cart[0];
      [if l.product.id == id then l.(quantity := l.quantity + 1) else l] + IncrementAll(cart[1..], id)
  }

  /** The `setCarrito` updater of `agregarAlCarrito`: one more unit on the product's line, or a new line of 1 at the end. */
  function Incremented(cart: seq<CartLine>, p: Product): (r: seq<CartLine>)
    ensures |r| == if HasProduct(cart, p.id) then |cart| else |cart| + 1
    ensures forall k :: 0 <= k < |cart| ==> r[k].product == cart[k].product
    ensures forall k :: 0 <= k < |cart| && cart[k].product.id != p.id ==> r[k] == cart[k]
    ensures !HasProduct(cart, p.id) ==> r[|cart|] == CartLine(p, 1)
  {
    if HasProduct(cart, p.id) then IncrementAll(cart, p.id) else cart + [CartLine(p, 1)]
  }

  /**
   * Adding raises the product's quantity by exactly one and changes no other product's
   * quantity. A product already in the cart keeps its line, position and frozen product,
   * and no other line moves; a new product gets a line of quantity 1 at the end.
   * Product identities stay unique.
   */
  lemma AddOneUnit(cart: seq<CartLine>, p: Product)
    ensures QuantityInCart(Incremented(cart, p), p.id) == QuantityInCart(cart, p.id) + 1
    ensures forall id :: id != p.id ==> QuantityInCart(Incremented(cart, p), id) == QuantityInCart(cart, id)
    ensures HasProduct(cart, p.id) ==>
      |Incremented(cart, p)| == |cart| &&
      forall k :: 0 <= k < |cart| ==>
        Incremented(cart, p)[k].product == cart[k].product &&
        (cart[k].product.id != p.id ==> Incremented(cart, p)[k] == cart[k])
    ensures !HasProduct(cart, p.id) ==> Incremented(cart, p) == cart + [CartLine(p, 1)]
    ensures UniqueIds(cart) ==> UniqueIds(Incremented(cart, p))
  {
    var r := Incremented(cart, p);
    if HasProduct(cart, p.id) {
      forall id ensures FindLine(r, id) == FindLine(cart, id) {
        FindLineSameIds(r, cart, id);
      }
    } else {
      forall id | id != p.id ensures FindLine(r, id) == FindLine(cart, id) {
        FindLineAppend(cart, CartLine(p, 1), id);
      }
      FindLineAppend(cart, CartLine(p, 1), p.id);
    }
  }

  /** Looking up an identity in a cart with one line appended. */
  lemma {:induction false} FindLineAppend(cart: seq<CartLine>, line: CartLine, id: int)
    ensures HasProduct(cart, id) ==> FindLine(cart + [line], id) == FindLine(cart, id)
    ensures !HasProduct(cart, id) && line.product.id == id ==> FindLine(cart + [line], id) == Some(|cart|)
    ensures !HasProduct(cart, id) && line.product.id != id ==> FindLine(cart + [line], id) == None
  {
    if cart != [] {
      assert (cart + [line])[1..] == cart[1..] + [line];
      FindLineAppend(cart[1..], line, id);
    }
  }

  predicate OtherProduct(id: int, line: CartLine)
  {
    line.product.id != id
  }

  /** `prev.filter(item => item.producto.id !== id)`. */
  function Without(cart: seq<CartLine>, id: int): (r: seq<CartLine>)
    ensures forall l :: l in r <==> l in cart && l.product.id != id
  {
    Filter(cart, l => OtherProduct(id, l))
  }

  /** `prev.map(item => item.producto.id === id ? {...item, cantidad: q} : item)`. */
  function WithQuantity(cart: seq<CartLine>, id: int, q: int): (r: seq<CartLine>)
    ensures |r| == |cart|
    ensures forall k :: 0 <= k < |r| ==>
      r[k].product == cart[k].product &&
      r[k].quantity == if cart[k].product.id == id then q else cart[k].quantity
  {
    if cart == [] then []
    else
      var l := cart[0];
      [if l.product.id == id then l.(quantity := q) else l] + WithQuantity(cart[1..], id, q)
  }

  /** `Without` takes the cart apart line by line. */
  lemma WithoutCons(cart: seq<CartLine>, id: int)
    requires cart != []
    ensures Without(cart, id) == (if cart[0].product.id != id then [cart[0]] else []) + Without(cart[1..], id)
  {
  }

  /** Removing a product leaves no line for it. */
  lemma RemoveLineGone(cart: seq<CartLine>, id: int)
    ensures !HasProduct(Without(cart, id), id)
  {
  }

  /** Removing a product keeps the product identities unique. */
  lemma {:induction false} RemoveLineUnique(cart: seq<CartLine>, id: int)
    requires UniqueIds(cart)
    ensures UniqueIds(Without(cart, id))
  {
    if cart != [] {
      RemoveLineUnique(cart[1..], id);
      WithoutCons(cart, id);
      var rest := Without(cart[1..], id);
      forall j | 0 <= j < |rest| ensures rest[j].product.id != cart[0].product.id {
        assert rest[j] in rest;
        var m :| 0 <= m < |cart[1..]| && cart[1..][m] == rest[j];
        assert cart[m + 1] == rest[j];
      }
    }
  }

  /** Removing a product leaves every other product's quantity as it was. */
  lemma {:induction false} RemoveLineOthers(cart: seq<CartLine>, id: int, other: int)
    requires other != id
    ensures QuantityInCart(Without(cart, id), other) == QuantityInCart(cart, other)
    ensures HasProduct(Without(cart, id), other) == HasProduct(cart, other)
  {
    if cart != [] {
      var rest := Without(cart[1..], id);
      RemoveLineOthers(cart[1..], id, other);
      WithoutCons(cart, id);
      assert cart == [cart[0]] + cart[1..];
      FindLineCons(cart[0], cart[1..], other);
      if cart[0].product.id != id {
        assert Without(cart, id) == [cart[0]] + rest;
        FindLineCons(cart[0], rest, other);
      } else {
        assert Without(cart, id) == rest;
      }
    }
  }

  /** Looking up an identity in a cart with one line in front. */
  lemma FindLineCons(line: CartLine, cart: seq<CartLine>, id: int)
    ensures line.product.id == id ==> FindLine([line] + cart, id) == Some(0)
    ensures line.product.id != id ==> HasProduct([line] + cart, id) == HasProduct(cart, id)
    ensures line.product.id == id ==> QuantityInCart([line] + cart, id) == line.quantity
    ensures line.product.id != id ==> QuantityInCart([line] + cart, id) == QuantityInCart(cart, id)
  {
    assert ([line] + cart)[1..] == cart;
  }

  /** Setting a quantity changes only that product's quantity, and keeps identities unique. */
  lemma SetLineQuantity(cart: seq<CartLine>, id: int, q: int)
    ensures HasProduct(cart, id) ==> QuantityInCart(WithQuantity(cart, id, q), id) == q
    ensures !HasProduct(cart, id) ==> WithQuantity(cart, id, q) == cart
    ensures forall other :: other != id ==>
      QuantityInCart(WithQuantity(cart, id, q), other) == QuantityInCart(cart, other)
    ensures UniqueIds(cart) ==> UniqueIds(WithQuantity(cart, id, q))
  {
    var r := WithQuantity(cart, id, q);
    forall x ensures FindLine(r, x) == FindLine(cart, x) {
      FindLineSameIds(r, cart, x);
    }
  }

  /** A cart without a line for the product holds none of it. */
  lemma {:induction false} QuantityForAbsent(cart: seq<CartLine>, id: int)
    requires !HasProduct(cart, id)
    ensures QuantityFor(cart, id) == 0
  {
    if cart != [] {
      FindLineCons(cart[0], cart[1..], id);
      assert [cart[0]] + cart[1..] == cart;
      QuantityForAbsent(cart[1..], id);
    }
  }

  /**
   * With one line per product, the quantity that the stock update subtracts for a
   * product (the sum over all its lines) is the quantity on its one line.
   */
  lemma {:induction false} QuantityForUnique(cart: seq<CartLine>, id: int)
    requires UniqueIds(cart)
    ensures QuantityFor(cart, id) == QuantityInCart(cart, id)
  {
    if cart != [] {
      FindLineCons(cart[0], cart[1..], id);
      assert [cart[0]] + cart[1..] == cart;
      if cart[0].product.id == id {
        assert !HasProduct(cart[1..], id);
        QuantityForAbsent(cart[1..], id);
      } else {
        QuantityForUnique(cart[1..], id);
      }
    }
  }
}
