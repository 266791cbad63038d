/** What the three scan front-ends share: a product record (`{"name", "price"}`),
    the cart as a list of products in scan order, the running total
    (`sum(item['price'] for item in cart)`) and the "look up the code in a
    static product table and append" step. */
module Cart {
  import opened Wrappers

  datatype Product = Product(name: string, price: int)

  /** The debounce memory kept next to the cart: the last accepted code and its time (seconds). */
  datatype ScanState = ScanState(cart: seq<Product>, lastCode: Option<string>, lastTime: real)

  /** Python's `sum(item['price'] for item in cart)`, added left to right. */
  function TotalPrice(cart: seq<Product>): int
    decreases |cart|
  {
    if cart == [] then 0 else TotalPrice(cart[..|cart| - 1]) + cart[|cart| - 1].price
  }

  /** `[item['name'] for item in cart]` */
  function Names(cart: seq<Product>): seq<string>
  {
    seq(|cart|, i requires 0 <= i < |cart| => cart[i].name)
  }

  /** `if code in db: cart.append(db[code])`; an unregistered code adds nothing. */
  function AddScanned(db: map<string, Product>, cart: seq<Product>, code: string): seq<Product>
  {
    if code in db then cart + [db[code]] else cart
  }

  /** The total on the checkout screen: none for an empty cart ("カートは空です"),
      otherwise the sum of the prices. */
  function CheckoutTotal(cart: seq<Product>): Option<int>
  {
    if cart == [] then None else Some(TotalPrice(cart))
  }

  /** `n` copies of `x`. */
  function Repeat<T>(x: T, n: nat): (r: seq<T>)
    ensures |r| == n && forall i :: 0 <= i < n ==> r[i] == x
  {
    seq(n, _ => x)
  }

  /** The total of two carts laid end to end is the sum of their totals. */
  lemma {:induction false} TotalPriceConcat(a: seq<Product>, b: seq<Product>)
    ensures TotalPrice(a + b) == TotalPrice(a) + TotalPrice(b)
    decreases |b|
  {
    if b == [] {
      assert a + b == a;
    } else {
      var b' := b[..|b| - 1];
      assert (a + b)[..|a + b| - 1] == a + b';
      TotalPriceConcat(a, b');
    }
  }

  /** `n` copies of one product cost `n` times its price. */
  lemma {:induction false} TotalPriceRepeat(p: Product, n: nat)
    ensures TotalPrice(Repeat(p, n)) == n * p.price
  {
    if n > 0 {
      assert Repeat(p, n)[..n - 1] == Repeat(p, n - 1);
      TotalPriceRepeat(p, n - 1);
    }
  }

  /** A scan adds at most the code's own product, at the end, and keeps the earlier entries. */
  lemma AddScannedExtends(db: map<string, Product>, cart: seq<Product>, code: string)
    ensures |AddScanned(db, cart, code)| == |cart| + (if code in db then 1 else 0)
    ensures AddScanned(db, cart, code)[..|cart|] == cart
    ensures code in db ==> AddScanned(db, cart, code)[|cart|] == db[code]
    ensures TotalPrice(AddScanned(db, cart, code)) == TotalPrice(cart) + (if code in db then db[code].price else 0)
  {
    if code in db {
      assert (cart + [db[code]])[..|cart|] == cart;
    }
  }

  /** The checkout total after a scan: a registered code makes it the old
      cart's sum plus the product's price, even when the cart was empty
      before; an unregistered code leaves it as it was. A cleared cart shows
      no total. */
  lemma CheckoutTotalAfterScan(db: map<string, Product>, cart: seq<Product>, code: string)
    ensures code in db ==> CheckoutTotal(AddScanned(db, cart, code)) == Some(TotalPrice(cart) + db[code].price)
    ensures code !in db ==> CheckoutTotal(AddScanned(db, cart, code)) == CheckoutTotal(cart)
    ensures CheckoutTotal([]) == None
  {
    AddScannedExtends(db, cart, code);
  }
}
