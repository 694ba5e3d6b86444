/**
 * Cart lines, sales and the arithmetic of a sale: the total, the frozen snapshot
 * of the lines, the amount paid and the change, and the stock each sale takes
 * out of the catalog.
 */
module Ledger {
  import opened Wrappers
  import opened Seqs
  import opened Catalog

  /** A cart line (`ItemVenta`): the product as it was when it entered the cart, and a quantity. */
  datatype CartLine = CartLine(product: Product, quantity: int)
  {
    function Subtotal(): int
    {
      product.price * quantity
    }
  }

  /** A frozen sale line: product name, quantity and unit price at the time of the sale. */
  datatype SaleLine = SaleLine(product: string, quantity: int, price: int)
  {
    function Subtotal(): int
    {
      price * quantity
    }
  }

  /** A committed sale (`Venta`). */
  datatype Sale = Sale(
    id: int,
    date: string,
    time: string,
    total: int,
    items: seq<SaleLine>,
    paymentMethod: string,
    amountPaid: int,
    change: int)

  function LineSubtotal(line: CartLine): int
  {
    line.Subtotal()
  }

  function SaleLineSubtotal(line: SaleLine): int
  {
    line.Subtotal()
  }

  /** `lines.reduce((sum, item) => sum + item.producto.precio * item.cantidad, 0)`. */
  function LinesTotal(lines: seq<CartLine>): (r: int)
    ensures lines == [] ==> r == 0
    ensures (forall l :: l in lines ==> l.product.price >= 0 && l.quantity >= 0) ==> r >= 0
  {
    SumOfNonNegative(lines, LineSubtotal);
    SumOf(lines, LineSubtotal)
  }

  /** The same sum over frozen sale lines. */
  function SnapshotTotal(items: seq<SaleLine>): int
  {
    SumOf(items, SaleLineSubtotal)
  }

  /** The total of an empty cart is 0, and each line adds its price times its quantity. */
  lemma LinesTotalSteps(lines: seq<CartLine>, line: CartLine)
    ensures LinesTotal([]) == 0
    ensures LinesTotal(lines + [line]) == LinesTotal(lines) + line.product.price * line.quantity
  {
    SumOfSnoc(lines, line, LineSubtotal);
  }

  function Freeze(line: CartLine): SaleLine
  {
    SaleLine(line.product.name, line.quantity, line.product.price)
  }

  /** `items.map(item => ({ producto: nombre, cantidad, precio }))`. */
  function Snapshot(lines: seq<CartLine>): (r: seq<SaleLine>)
    ensures |r| == |lines|
    ensures forall i :: 0 <= i < |lines| ==>
      r[i].product == lines[i].product.name && r[i].quantity == lines[i].quantity &&
      r[i].price == lines[i].product.price
  {
    if lines == [] then [] else [Freeze(lines[0])] + Snapshot(lines[1..])
  }

  /** The frozen lines add up to the cart total: the sale total can be recomputed from the sale alone. */
  lemma {:induction false} SnapshotKeepsTotal(lines: seq<CartLine>)
    ensures SnapshotTotal(Snapshot(lines)) == LinesTotal(lines)
  {
    if lines != [] {
      SnapshotKeepsTotal(lines[1..]);
      assert Snapshot(lines)[1..] == Snapshot(lines[1..]);
    }
  }

  /** Each frozen line's subtotal (price times quantity) is the subtotal of the cart line it copies. */
  lemma SnapshotLineSubtotal(lines: seq<CartLine>, i: nat)
    requires i < |lines|
    ensures Snapshot(lines)[i].Subtotal() == lines[i].Subtotal()
  {
  }

  /** `montoPagado || total`: an absent or zero tender records the total as paid. */
  function AmountPaid(tender: Option<int>, total: int): (r: int)
    ensures tender.None? || tender.value == 0 ==> r == total
    ensures tender.Some? && tender.value != 0 ==> r == tender.value
  {
    match tender
    case None => total
    case Some(m) => if m == 0 then total else m
  }

  /** `montoPagado ? Math.max(0, montoPagado - total) : 0`. */
  function ChangeDue(tender: Option<int>, total: int): (r: int)
    ensures r >= 0
    ensures tender.Some? && tender.value != 0 && tender.value >= total ==> r == tender.value - total
    ensures tender.None? || tender.value == 0 || tender.value <= total ==> r == 0
  {
    match tender
    case None => 0
    case Some(m) => if m == 0 then 0 else if m - total > 0 then m - total else 0
  }

  /** Whenever the recorded payment covers the total, the recorded change is exactly the excess. */
  lemma ChangeIsExcess(tender: Option<int>, total: int)
    requires AmountPaid(tender, total) >= total
    ensures ChangeDue(tender, total) == AmountPaid(tender, total) - total
  {
  }

  /** The sale that `registrarVenta` builds from the cart lines. */
  function NewSale(lines: seq<CartLine>, paymentMethod: string, tender: Option<int>,
                   id: int, date: string, time: string): (s: Sale)
    ensures s.total == LinesTotal(lines) == SnapshotTotal(s.items)
    ensures s.items == Snapshot(lines)
    ensures s.paymentMethod == paymentMethod && s.id == id && s.date == date && s.time == time
    ensures s.change >= 0
    ensures s.amountPaid >= s.total ==> s.change == s.amountPaid - s.total
    ensures s.amountPaid == AmountPaid(tender, s.total) && s.change == ChangeDue(tender, s.total)
  {
    var total := LinesTotal(lines);
    SnapshotKeepsTotal(lines);
    Sale(id, date, time, total, Snapshot(lines), paymentMethod, AmountPaid(tender, total), ChangeDue(tender, total))
  }

  /** A sale whose recorded total is the sum of its frozen lines. */
  predicate Consistent(sale: Sale)
  {
    sale.total == SnapshotTotal(sale.items)
  }

  /** Σ quantity over the lines whose product has this identity. */
  function QuantityFor(lines: seq<CartLine>, id: int): int
  {
    SumOf(lines, (l: CartLine) => if l.product.id == id then l.quantity else 0)
  }

  /** One pass of the stock update: `prev.map(p => p.id === line.producto.id ? {...p, stock: p.stock - cantidad} : p)`. */
  function DecrementLine(products: seq<Product>, line: CartLine): (r: seq<Product>)
    ensures |r| == |products|
    ensures forall k :: 0 <= k < |r| ==>
      r[k] == if products[k].id == line.product.id
              then products[k].(stock := products[k].stock - line.quantity)
              else products[k]
  {
    if products == [] then []
    else
      var p := products[0];
      [if p.id == line.product.id then p.(stock := p.stock - line.quantity) else p]
        + DecrementLine(products[1..], line)
  }

  /** The catalog after one stock update per line, in line order. */
  function Decremented(products: seq<Product>, lines: seq<CartLine>): (r: seq<Product>)
    ensures |r| == |products|
    ensures forall k :: 0 <= k < |r| ==>
      r[k] == products[k].(stock := products[k].stock - QuantityFor(lines, products[k].id))
    decreases |lines|
  {
    if lines == [] then products
    else Decremented(DecrementLine(products, lines[0]), lines[1..])
  }

  /** `sales.reduce((sum, venta) => sum + venta.total, 0)`. */
  function Revenue(sales: seq<Sale>): (r: int)
    ensures sales == [] ==> r == 0
    ensures (forall s :: s in sales ==> s.total >= 0) ==> r >= 0
  {
    SumOfNonNegative(sales, (s: Sale) => s.total);
    SumOf(sales, (s: Sale) => s.total)
  }

  /** Revenue over two runs of the ledger adds up. */
  lemma RevenueConcat(a: seq<Sale>, b: seq<Sale>)
    ensures Revenue(a + b) == Revenue(a) + Revenue(b)
  {
    SumOfConcat(a, b, (s: Sale) => s.total);
  }

  /** `count > 0 ? total / count : 0`, exactly (the screens round it for display). */
  function Average(total: int, count: nat): (r: real)
    ensures count == 0 ==> r == 0.0
    ensures count > 0 ==> r * (count as real) == total as real
  {
    if count > 0 then (total as real) / (count as real) else 0.0
  }
}
