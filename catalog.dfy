/**
 * The product catalog of the point of sale: products, the lookups the screens
 * do on them, the list updates behind the catalog management handlers, and the
 * category buttons of the sale screens.
 */
module Catalog {
  import opened Wrappers
  import opened Seqs

  /** A product (`Producto`): whole currency units for the price, a stock count that sales decrement. */
  datatype Product = Product(id: int, name: string, price: int, category: string, stock: int)

  /** A product as the management form submits it, before it gets an identity. */
  datatype ProductDraft = ProductDraft(name: string, price: int, category: string, stock: int)
  {
    /** `{ ...draft, id }`. */
    function WithId(id: int): Product
    {
      Product(id, name, price, category, stock)
    }
  }

  /** `products.find(wanted)`: the first product that satisfies `wanted`. */
  function Find(products: seq<Product>, wanted: Product -> bool): (r: Option<Product>)
    ensures r.Some? ==> r.value in products && wanted(r.value)
    ensures r.Some? ==> exists i :: 0 <= i < |products| && products[i] == r.value &&
                                    forall j :: 0 <= j < i ==> !wanted(products[j])
    ensures r.None? <==> forall p :: p in products ==> !wanted(p)
  {
    if products == [] then None
    else if wanted(products[0]) then
      assert products[0] == products[0];
      Some(products[0])
    else
      var r := Find(products[1..], wanted);
      if r.Some? then
        var i :| 0 <= i < |products[1..]| && products[1..][i] == r.value &&
                 forall j :: 0 <= j < i ==> !wanted(products[1..][j]);
        assert products[i + 1] == r.value;
        assert forall j :: 0 <= j < i + 1 ==> !wanted(products[j]) by {
          forall j | 0 <= j < i + 1 ensures !wanted(products[j]) {
            if j > 0 { assert products[j] == products[1..][j - 1]; }
          }
        }
        r
      else
        r
  }

  predicate HasId(id: int, p: Product)
  {
    p.id == id
  }

  predicate HasName(name: string, p: Product)
  {
    p.name == name
  }

  /** `products.find(p => p.id === id)`. */
  function Lookup(products: seq<Product>, id: int): (r: Option<Product>)
    ensures r.Some? ==> r.value in products && r.value.id == id
    ensures r.None? <==> forall p :: p in products ==> p.id != id
  {
    Find(products, p => HasId(id, p))
  }

  /** `products.find(p => p.nombre === name)`. */
  function LookupByName(products: seq<Product>, name: string): (r: Option<Product>)
    ensures r.Some? ==> r.value in products && r.value.name == name
    ensures r.None? <==> forall p :: p in products ==> p.name != name
  {
    Find(products, p => HasName(name, p))
  }

  /** `products.map(p => p.id === updated.id ? updated : p)`. */
  function Replaced(products: seq<Product>, updated: Product): (r: seq<Product>)
    ensures |r| == |products|
    ensures forall k :: 0 <= k < |r| ==>
      r[k] == if products[k].id == updated.id then updated else products[k]
  {
    if products == [] then []
    else [if products[0].id == updated.id then updated else products[0]] + Replaced(products[1..], updated)
  }

  /** Replacing under an identity that no product has leaves the catalog as it was. */
  lemma {:induction false} ReplacedUnknownId(products: seq<Product>, updated: Product)
    requires forall p :: p in products ==> p.id != updated.id
    ensures Replaced(products, updated) == products
  {
    if products != [] {
      assert products[0] in products;
      ReplacedUnknownId(products[1..], updated);
    }
  }

  predicate KeepsId(id: int, p: Product)
  {
    p.id != id
  }

  /** `products.filter(p => p.id !== id)`. */
  function Deleted(products: seq<Product>, id: int): (r: seq<Product>)
    ensures |r| <= |products|
    ensures forall p :: p in r <==> p in products && p.id != id
  {
    Filter(products, p => KeepsId(id, p))
  }

  /** Deleting twice is deleting once. */
  lemma DeletedIdempotent(products: seq<Product>, id: int)
    ensures Deleted(Deleted(products, id), id) == Deleted(products, id)
  {
    FilterKeepsAll(Deleted(products, id), p => KeepsId(id, p));
  }

  /** Deletion keeps the other products in their order: it works part by part. */
  lemma DeletedConcat(a: seq<Product>, b: seq<Product>, id: int)
    ensures Deleted(a + b, id) == Deleted(a, id) + Deleted(b, id)
  {
    FilterConcat(a, b, p => KeepsId(id, p));
  }

  /** The label of the button that shows every product. */
  const AllCategories: string := "todas"

  function CategoryColumn(products: seq<Product>): (r: seq<string>)
    ensures |r| == |products|
    ensures forall k :: 0 <= k < |r| ==> r[k] == products[k].category
  {
    if products == [] then [] else [products[0].category] + CategoryColumn(products[1..])
  }

  /** `['todas', ...Array.from(new Set(products.map(p => p.categoria)))]`. */
  function Categories(products: seq<Product>): (r: seq<string>)
    ensures |r| >= 1 && r[0] == AllCategories
    ensures forall c :: c in r[1..] <==> exists p :: p in products && p.category == c
    ensures forall i, j :: 1 <= i < j < |r| ==> r[i] != r[j]
  {
    var column := CategoryColumn(products);
    assert forall c :: c in column <==> exists p :: p in products && p.category == c by {
      forall c ensures c in column <==> exists p :: p in products && p.category == c {
        if c in column {
          var k :| 0 <= k < |column| && column[k] == c;
          assert products[k] in products;
        }
        if exists p :: p in products && p.category == c {
          var p :| p in products && p.category == c;
          var k :| 0 <= k < |products| && products[k] == p;
          assert column[k] == c;
        }
      }
    }
    var r := [AllCategories] + Distinct(column);
    assert r[1..] == Distinct(column);
    r
  }

  predicate InCategory(category: string, p: Product)
  {
    p.category == category
  }

  /** The category part of the product filter: 'todas' shows everything, any other label its products. */
  function InSelectedCategory(products: seq<Product>, selected: string): (r: seq<Product>)
    ensures selected == AllCategories ==> r == products
    ensures selected != AllCategories ==> forall p :: p in r <==> p in products && p.category == selected
  {
    if selected == AllCategories then products else Filter(products, p => InCategory(selected, p))
  }

  /** The catalog the application starts with when nothing is stored. */
  const InitialProducts: seq<Product> := [
    Product(1, "Caf\U{e9} Americano", 2500, "Bebidas Calientes", 50),
    Product(2, "Cappuccino", 3500, "Bebidas Calientes", 30),
    Product(3, "Latte", 4000, "Bebidas Calientes", 25),
    Product(4, "Espresso", 2000, "Bebidas Calientes", 40),
    Product(5, "Frapp\U{e9}", 4500, "Bebidas Fr\U{ed}as", 20),
    Product(6, "Jugo Natural", 3000, "Bebidas Fr\U{ed}as", 15),
    Product(7, "Croissant", 2800, "Panader\U{ed}a", 12),
    Product(8, "Muffin", 2200, "Panader\U{ed}a", 8)
  ]

  /** The catalog as loaded: the stored one when there is one, otherwise the initial one. */
  function Loaded(saved: Option<seq<Product>>): (r: seq<Product>)
    ensures saved.Some? ==> r == saved.value
    ensures saved.None? ==> r == InitialProducts
  {
    if saved.Some? then saved.value else InitialProducts
  }

  /**
   * A first start, with nothing stored, loads a catalog with distinct identities and
   * positive prices and stock on every product; a stored catalog is loaded as saved.
   */
  lemma InitialCatalogWellFormed()
    ensures forall i, j :: 0 <= i < j < |Loaded(None)| ==> Loaded(None)[i].id != Loaded(None)[j].id
    ensures forall p :: p in Loaded(None) ==> p.price > 0 && p.stock > 0
    ensures Lookup(Loaded(None), 3) == Some(InitialProducts[2])
    ensures forall saved: seq<Product> :: Loaded(Some(saved)) == saved
  {
  }
}
