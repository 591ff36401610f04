/**
 * The two inventory requests of the satellite server (`app.go`):
 * `handleUpdateStockEcho` sets or adjusts the stock of a product found by SKU,
 * and `handlePOSScan` forwards a scanned product with a quantity that defaults to 1.
 */
module Inventory {
  import opened Wrappers
  import opened Records
  import opened Strconv

  /** The request type that replaces the stock; any other type adds to it. */
  const SetType: string := "set"
  const ProductNotFound: string := "Product not found"

  /** 2^64, the modulus of Go's `int` arithmetic on a 64-bit platform. */
  const Modulus: int := 0x1_0000_0000_0000_0000

  /** `x` wrapped into the range of a 64-bit `int`, as Go's `+=` leaves it on overflow. */
  function Wrap(x: int): (r: int)
    ensures MinInt <= r <= MaxInt
    ensures MinInt <= x <= MaxInt ==> r == x
  {
    (x - MinInt) % Modulus + MinInt
  }

  /** The new stock: the quantity for a "set", the old stock plus the quantity otherwise, with no lower bound. */
  function UpdatedStock(stock: int, quantity: int, kind: string): int
  {
    if kind == SetType then quantity else Wrap(stock + quantity)
  }

  /** Wrapping first and adding afterwards is wrapping the whole sum. */
  lemma WrapAdd(x: int, y: int)
    ensures Wrap(Wrap(x) + y) == Wrap(x + y)
  {
    var q := (x - MinInt) / Modulus;
    assert Wrap(x) == x - q * Modulus;
    ShiftedMod(x + y - MinInt, q);
  }

  lemma ShiftedMod(z: int, q: int)
    ensures (z - q * Modulus) % Modulus == z % Modulus
  {
    var r := z % Modulus;
    var d := z / Modulus;
    assert z == d * Modulus + r;
    assert z - q * Modulus == (d - q) * Modulus + r;
  }

  /**
   * Adjustments accumulate: two of them are one adjustment by the sum (in Go's
   * wrap-around arithmetic), and a "set" forgets what came before it. A stock can
   * go below zero: a removal larger than the stock leaves a negative stock.
   */
  lemma StockUpdatesCompose(stock: int, a: int, b: int, kind: string)
    ensures kind != SetType ==> UpdatedStock(UpdatedStock(stock, a, kind), b, kind) == UpdatedStock(stock, a + b, kind)
    ensures UpdatedStock(UpdatedStock(stock, a, kind), b, SetType) == b
    ensures MinInt <= stock + a <= MaxInt && stock + a < 0 && kind != SetType ==> UpdatedStock(stock, a, kind) < 0
  {
    if kind != SetType {
      WrapAdd(stock + a, b);
      assert stock + a + b == stock + (a + b);
    }
  }

  /**
   * `handleUpdateStockEcho` after the request is bound: an unknown SKU is a "Product
   * not found" answer and changes nothing; otherwise only that product's stock is
   * rewritten, and the new stock is returned.
   */
  method UpdateStock(store: Store, sku: string, quantity: int, kind: string) returns (r: Result<int>)
    modifies store`products
    ensures sku !in old(store.products) ==> r == Err(ProductNotFound) && store.products == old(store.products)
    ensures sku in old(store.products) ==>
      && r == Ok(UpdatedStock(old(store.products)[sku].stock, quantity, kind))
      && store.products == old(store.products)[sku := old(store.products)[sku].(stock := r.value)]
  {
    if sku !in store.products {
      return Err(ProductNotFound);
    }
    var product := store.products[sku];
    if kind == SetType {
      product := product.(stock := quantity);
    } else {
      product := product.(stock := Wrap(product.stock + quantity));
    }
    store.products := store.products[sku := product];
    return Ok(product.stock);
  }

  /** `handlePOSScan`: a quantity of 0 (or none in the request) means one unit. */
  function ScanQuantity(quantity: int): (r: int)
    ensures r != 0
    ensures quantity != 0 ==> r == quantity
  {
    if quantity == 0 then 1 else quantity
  }

  /** The default applies once: a forwarded quantity is never defaulted again, and only 0 becomes 1. */
  lemma ScanQuantityStable(quantity: int)
    ensures ScanQuantity(ScanQuantity(quantity)) == ScanQuantity(quantity)
    ensures ScanQuantity(quantity) == 1 <==> quantity == 0 || quantity == 1
  {
  }
}
