/** The barcode variant of the Streamlit front end (`app_ba-ko-do.py`): the
    same cart and checkout, its own product table, and a `process_barcode`
    without any debounce. */
module AppBaKoDo {
  import opened Wrappers
  import opened Cart
  import App

  /** `PRODUCT_DB`, with the test code `1234567890123`. */
  const ProductDb: map<string, Product> := map[
    "4902102000186" := Product("コカ・コーラ 500ml", 160),
    "4901330573429" := Product("じゃがりこ サラダ", 150),
    "4902720130541" := Product("森永牛乳 1000ml", 240),
    "4901301348022" := Product("ニベア ボディウォッシュ", 450),
    "1234567890123" := Product("特選和牛ステーキ", 2000)
  ]

  /** The cart after `process_barcode` of each code of `codes`, in order. */
  function ScanAll(cart: seq<Product>, codes: seq<string>): seq<Product>
    decreases |codes|
  {
    if codes == [] then cart
    else AddScanned(ProductDb, ScanAll(cart, codes[..|codes| - 1]), codes[|codes| - 1])
  }

  /** `st.session_state` as far as the cart uses it; a `has...` flag says
      whether the key has been set. `last_scanned_code` is only ever set to `None`. */
  class Session {
    var hasCart: bool
    var cart: seq<Product>
    var hasTotalPrice: bool
    var totalPrice: int
    var hasLastScannedCode: bool

    /** A new browser session: no key set yet. */
    constructor ()
      ensures !hasCart && !hasTotalPrice && !hasLastScannedCode
    {
      hasCart, cart := false, [];
      hasTotalPrice, totalPrice := false, 0;
      hasLastScannedCode := false;
    }

    /** `init_cart_session`, run when the script starts: each missing key is
        set to its empty value; an existing cart or total is left as it is. */
    method InitCartSession()
      modifies this`hasCart, this`cart, this`hasTotalPrice, this`totalPrice
      ensures hasCart && hasTotalPrice
      ensures cart == (if old(hasCart) then old(cart) else [])
      ensures totalPrice == (if old(hasTotalPrice) then old(totalPrice) else 0)
    {
      if !hasCart {
        hasCart, cart := true, [];
      }
      if !hasTotalPrice {
        hasTotalPrice, totalPrice := true, 0;
      }
    }

    /** `process_barcode(code)`: every read of a registered code appends its
        product; an unregistered code only shows an error. Appending needs
        the `cart` key, which the script sets when it starts. */
    method ProcessBarcode(code: string)
      requires hasCart || code !in ProductDb
      modifies this`cart, this`hasLastScannedCode
      ensures hasLastScannedCode
      ensures cart == AddScanned(ProductDb, old(cart), code)
    {
      if !hasLastScannedCode {
        hasLastScannedCode := true;
      }
      if code in ProductDb {
        var product := ProductDb[code];
        cart := cart + [product];
      }
    }

    /** "カートを空にする" on the checkout screen, and "トップに戻る" after payment. */
    method ClearCart()
      modifies this`hasCart, this`cart
      ensures hasCart && cart == []
    {
      hasCart, cart := true, [];
    }
  }

  /** What a run of scans adds does not depend on the cart it starts from:
      it is appended after the products already there. */
  lemma {:induction false} ScanAllAppends(cart: seq<Product>, codes: seq<string>)
    ensures ScanAll(cart, codes) == cart + ScanAll([], codes)
    ensures TotalPrice(ScanAll(cart, codes)) == TotalPrice(cart) + TotalPrice(ScanAll([], codes))
    decreases |codes|
  {
    if codes == [] {
      assert cart + [] == cart;
    } else {
      var earlier := codes[..|codes| - 1];
      var code := codes[|codes| - 1];
      ScanAllAppends(cart, earlier);
      if code in ProductDb {
        assert cart + ScanAll([], earlier) + [ProductDb[code]] == cart + (ScanAll([], earlier) + [ProductDb[code]]);
      }
    }
    TotalPriceConcat(cart, ScanAll([], codes));
  }

  /** With no debounce, `n` reads of one registered code append `n` copies of
      its product and raise the total by `n` times its price. */
  lemma RepeatedScansAllAppend(cart: seq<Product>, code: string, n: nat)
    requires code in ProductDb
    ensures ScanAll(cart, Repeat(code, n)) == cart + Repeat(ProductDb[code], n)
    ensures TotalPrice(ScanAll(cart, Repeat(code, n))) == TotalPrice(cart) + n * ProductDb[code].price
  {
    var p := ProductDb[code];
    RepeatedScansCart(cart, code, p, n);
    TotalPriceConcat(cart, Repeat(p, n));
    TotalPriceRepeat(p, n);
  }

  /** The cart part of `RepeatedScansAllAppend`, by induction on `n`. */
  lemma {:induction false} RepeatedScansCart(cart: seq<Product>, code: string, p: Product, n: nat)
    requires code in ProductDb && ProductDb[code] == p
    ensures ScanAll(cart, Repeat(code, n)) == cart + Repeat(p, n)
  {
    if n == 0 {
      assert cart + [] == cart;
    } else {
      assert Repeat(code, n)[..n - 1] == Repeat(code, n - 1);
      RepeatedScansCart(cart, code, p, n - 1);
      assert Repeat(p, n - 1) + [p] == Repeat(p, n);
    }
  }

  /** Codes missing from `PRODUCT_DB` leave the cart as it was. */
  lemma {:induction false} UnregisteredScansKeepCart(cart: seq<Product>, codes: seq<string>)
    requires forall i :: 0 <= i < |codes| ==> codes[i] !in ProductDb
    ensures ScanAll(cart, codes) == cart
    decreases |codes|
  {
    if codes != [] {
      UnregisteredScansKeepCart(cart, codes[..|codes| - 1]);
    }
  }

  /** Two reads of the test steak code bill 4000 yen. */
  lemma TestCodeTwiceTotal()
    ensures CheckoutTotal(ScanAll([], ["1234567890123", "1234567890123"])) == Some(4000)
  {
    RepeatedScansAllAppend([], "1234567890123", 2);
    assert ["1234567890123", "1234567890123"] == Repeat("1234567890123", 2);
  }

  /** The milk read twice one second apart: `app.py` adds it once, this app twice. */
  lemma NoDebounceUnlikeApp(s: ScanState, t: real)
    requires !App.Ignored(s.lastCode, s.lastTime, "4902720130541", t)
    ensures App.Scan(App.Scan(s, "4902720130541", t), "4902720130541", t + 1.0).cart ==
      s.cart + [Product("森永牛乳 1000ml", 240)]
    ensures ScanAll(s.cart, ["4902720130541", "4902720130541"]) ==
      s.cart + [Product("森永牛乳 1000ml", 240), Product("森永牛乳 1000ml", 240)]
  {
    RepeatedScansAllAppend(s.cart, "4902720130541", 2);
    assert ["4902720130541", "4902720130541"] == Repeat("4902720130541", 2);
  }
}
