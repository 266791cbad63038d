/** The barcode scanner node (`cart_scanner.py`): every barcode decoded from
    a camera frame goes through a 2-second debounce; an accepted registered
    code is appended to the cart and the cart summary is published on
    `/cart_update`. The clock is a parameter: each decoded barcode comes with
    the time read for it. */
module CartScanner {
  import opened Wrappers
  import opened Cart

  /** `PRODUCT_DB` */
  const ProductDb: map<string, Product> := map[
    "4900000000001" := Product("りんご", 150),
    "4900000000002" := Product("牛乳", 200),
    "4900000000003" := Product("卵パック", 250),
    "4900000000004" := Product("キャベツ", 120)
  ]

  /** The `/cart_update` message: `latest_item`, `total_price`, `item_count`, `items`. */
  datatype CartUpdate = CartUpdate(latestItem: string, totalPrice: int, itemCount: nat, items: seq<Product>)

  /** The debounce of line 96: a different code, or more than 2.0 s since the last accepted scan. */
  predicate Accepts(lastCode: Option<string>, lastTime: real, code: string, now: real)
  {
    lastCode != Some(code) || now - lastTime > 2.0
  }

  /** The summary published for a cart that has just grown by its last item. */
  function UpdateOf(cart: seq<Product>): CartUpdate
    requires cart != []
  {
    CartUpdate(cart[|cart| - 1].name, TotalPrice(cart), |cart|, cart)
  }

  /** A message agrees with the cart it carries. */
  predicate Consistent(m: CartUpdate)
  {
    m.items != [] && m.latestItem == m.items[|m.items| - 1].name &&
    m.totalPrice == TotalPrice(m.items) && m.itemCount == |m.items|
  }

  /** One decoded barcode read at `now`: the state afterwards. */
  function Scan(s: ScanState, code: string, now: real): ScanState
  {
    if Accepts(s.lastCode, s.lastTime, code, now)
    then ScanState(AddScanned(ProductDb, s.cart, code), Some(code), now)
    else s
  }

  /** One decoded barcode read at `now`: the message it publishes, if any. */
  function Message(s: ScanState, code: string, now: real): seq<CartUpdate>
  {
    if Accepts(s.lastCode, s.lastTime, code, now) && code in ProductDb
    then [UpdateOf(s.cart + [ProductDb[code]])]
    else []
  }

  /** The state after the barcodes of `scans`, in order. */
  function ScanAll(s: ScanState, scans: seq<(string, real)>): ScanState
    decreases |scans|
  {
    if scans == [] then s
    else
      var last := scans[|scans| - 1];
      Scan(ScanAll(s, scans[..|scans| - 1]), last.0, last.1)
  }

  /** The messages published for the barcodes of `scans`, in order. */
  function MessagesOf(s: ScanState, scans: seq<(string, real)>): seq<CartUpdate>
    decreases |scans|
  {
    if scans == [] then []
    else
      var earlier := scans[..|scans| - 1];
      var last := scans[|scans| - 1];
      MessagesOf(s, earlier) + Message(ScanAll(s, earlier), last.0, last.1)
  }

  class CartScannerNode {
    var cartItems: seq<Product>
    var lastCode: Option<string>
    var lastScanTime: real
    /** Every message published on `/cart_update`, in order. */
    var published: seq<CartUpdate>

    constructor ()
      ensures cartItems == [] && lastCode == None && lastScanTime == 0.0 && published == []
    {
      cartItems := [];
      lastCode := None;
      lastScanTime := 0.0;
      published := [];
    }

    function State(): ScanState
      reads this
    {
      ScanState(cartItems, lastCode, lastScanTime)
    }

    /** `process_item`: a registered code appends its product and publishes the
        summary of the grown cart; an unregistered code changes nothing. */
    method ProcessItem(barcode: string)
      modifies this`cartItems, this`published
      ensures cartItems == AddScanned(ProductDb, old(cartItems), barcode)
      ensures published == old(published) + (if barcode in ProductDb then [UpdateOf(cartItems)] else [])
    {
      if barcode in ProductDb {
        var item := ProductDb[barcode];
        cartItems := cartItems + [item];
        var totalPrice := TotalPrice(cartItems);
        published := published + [CartUpdate(item.name, totalPrice, |cartItems|, cartItems)];
      }
    }

    /** Lines 96-99 for one decoded barcode: an accepted scan is processed and
        recorded as the last one, even when the code is unregistered. */
    method OnBarcode(code: string, now: real)
      modifies this
      ensures State() == Scan(old(State()), code, now)
      ensures published == old(published) + Message(old(State()), code, now)
    {
      if lastCode != Some(code) || now - lastScanTime > 2.0 {
        ProcessItem(code);
        lastCode := Some(code);
        lastScanTime := now;
      }
    }

    /** `for obj in decoded_objects`: the barcodes of one frame, in decoding order. */
    method OnFrame(scans: seq<(string, real)>)
      modifies this
      ensures State() == ScanAll(old(State()), scans)
      ensures published == old(published) + MessagesOf(old(State()), scans)
    {
      var i := 0;
      while i < |scans|
        invariant 0 <= i <= |scans|
        invariant State() == ScanAll(old(State()), scans[..i])
        invariant published == old(published) + MessagesOf(old(State()), scans[..i])
      {
        assert scans[..i + 1][..i] == scans[..i];
        OnBarcode(scans[i].0, scans[i].1);
        i := i + 1;
      }
      assert scans[..i] == scans;
    }
  }

  /** A rejected scan (the same code again within 2.0 s, bounds included)
      changes neither the cart nor the debounce memory, and publishes nothing. */
  lemma RejectedScanChangesNothing(s: ScanState, code: string, now: real)
    requires s.lastCode == Some(code) && now - s.lastTime <= 2.0
    ensures Scan(s, code, now) == s && Message(s, code, now) == []
  {
  }

  /** An accepted scan records its code and time whether or not the code is
      registered; an unregistered one leaves the cart as it was. */
  lemma AcceptedScanIsRecorded(s: ScanState, code: string, now: real)
    requires Accepts(s.lastCode, s.lastTime, code, now)
    ensures Scan(s, code, now).lastCode == Some(code) && Scan(s, code, now).lastTime == now
    ensures code !in ProductDb ==> Scan(s, code, now).cart == s.cart && Message(s, code, now) == []
    ensures code in ProductDb ==> Scan(s, code, now).cart == s.cart + [ProductDb[code]]
  {
  }

  /** The 2.0 s bound is strict: the same code exactly 2.0 s later is still
      ignored, and any later time is accepted. */
  lemma DebounceBoundary(code: string, t: real, later: real)
    requires later > t + 2.0
    ensures !Accepts(Some(code), t, code, t + 2.0)
    ensures Accepts(Some(code), t, code, later)
  {
  }

  /** Each accepted registered scan publishes one message whose item count is
      one more than before, whose latest item is the scanned product's name
      and whose total has grown by its price. */
  lemma AcceptedScanCounts(s: ScanState, code: string, now: real)
    requires Accepts(s.lastCode, s.lastTime, code, now) && code in ProductDb
    ensures |Message(s, code, now)| == 1
    ensures Message(s, code, now)[0].itemCount == |s.cart| + 1
    ensures Message(s, code, now)[0].latestItem == ProductDb[code].name
    ensures Message(s, code, now)[0].totalPrice == TotalPrice(s.cart) + ProductDb[code].price
  {
    assert (s.cart + [ProductDb[code]])[..|s.cart|] == s.cart;
  }

  /** Over any run of scans the cart only grows at its end, by at most one
      product per barcode, and each added entry is a product of `PRODUCT_DB`. */
  lemma {:induction false} ScanAllGrowsCart(s: ScanState, scans: seq<(string, real)>)
    ensures |s.cart| <= |ScanAll(s, scans).cart| <= |s.cart| + |scans|
    ensures ScanAll(s, scans).cart[..|s.cart|] == s.cart
    ensures forall i :: |s.cart| <= i < |ScanAll(s, scans).cart| ==> ScanAll(s, scans).cart[i] in ProductDb.Values
    decreases |scans|
  {
    if scans != [] {
      var earlier := scans[..|scans| - 1];
      var last := scans[|scans| - 1];
      var mid := ScanAll(s, earlier);
      ScanAllGrowsCart(s, earlier);
      if Accepts(mid.lastCode, mid.lastTime, last.0, last.1) && last.0 in ProductDb {
        var grown := mid.cart + [ProductDb[last.0]];
        assert grown[..|mid.cart|] == mid.cart;
        assert grown[..|s.cart|] == mid.cart[..|s.cart|];
        forall i | |s.cart| <= i < |grown|
          ensures grown[i] in ProductDb.Values
        {
          if i < |mid.cart| {
            assert grown[i] == mid.cart[i];
          } else {
            assert grown[i] == ProductDb[last.0];
          }
        }
      }
    }
  }

  /** Every message published carries a total equal to the sum of the prices
      of its items, a count equal to their number, and the newest item's name. */
  lemma {:induction false} MessagesAreConsistent(s: ScanState, scans: seq<(string, real)>)
    ensures forall m :: m in MessagesOf(s, scans) ==> Consistent(m)
    decreases |scans|
  {
    if scans != [] {
      MessagesAreConsistent(s, scans[..|scans| - 1]);
    }
  }

  /** Holding a code in front of the camera: a second read of the same code
      within 2.0 s of the first accepted one adds nothing. */
  lemma DuplicateWithinWindowIgnored(s: ScanState, code: string, t: real, d: real)
    requires Accepts(s.lastCode, s.lastTime, code, t) && 0.0 <= d <= 2.0
    ensures ScanAll(s, [(code, t), (code, t + d)]) == ScanAll(s, [(code, t)])
    ensures MessagesOf(s, [(code, t), (code, t + d)]) == MessagesOf(s, [(code, t)])
  {
    assert [(code, t), (code, t + d)][..1] == [(code, t)];
    assert [(code, t)][..0] == [];
  }
}
