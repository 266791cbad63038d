/** The Streamlit front end (`app.py`): the session keys it keeps (`cart`,
    `total_price`, `robot_list`, `last_scanned_code`, `last_scan_time`),
    the 5-second debounce of `process_barcode`, the shopping checklist of the
    checkout screen and the list editor of the category screen. The clock is
    the parameter `now` of each scan. */
module App {
  import opened Wrappers
  import opened Strings
  import opened Cart
  import CartScanner

  /** `PRODUCT_DB` */
  const ProductDb: map<string, Product> := map[
    "4902102000186" := Product("コカ・コーラ 500ml", 160),
    "4901330573429" := Product("じゃがりこ サラダ", 150),
    "4902720130541" := Product("森永牛乳 1000ml", 240),
    "4901301348022" := Product("ニベア ボディウォッシュ", 450),
    "1920193011005" := Product("マスカレード・ナイト", 1100),
    "1928030015001" := Product("なぜ僕らは働くのか", 1500),
    "1111111111111" := Product("玉ねぎ", 200)
  ]

  /** `CATEGORY_ITEMS`: the products of each sales floor. */
  const CategoryItems: map<string, seq<string>> := map[
    "野菜・果物" := ["キャベツ", "レタス", "トマト", "玉ねぎ", "人参", "バナナ", "リンゴ"],
    "精肉・鮮魚" := ["鶏もも肉", "豚バラ肉", "牛ミンチ", "サケの切り身", "マグロ刺身"],
    "乳製品・卵" := ["牛乳", "ヨーグルト", "チーズ", "卵(10個入)", "バター"],
    "調味料・粉" := ["醤油", "マヨネーズ", "カレールー", "小麦粉", "パン粉"],
    "お菓子・飲料" := ["ポテトチップス", "チョコレート", "コーラ", "お茶", "水(2L)"]
  ]

  /** `CATEGORY_ITEMS.get(category, [])`: a floor that is not in the table has no products. */
  function ItemsOf(category: string): seq<string>
  {
    if category in CategoryItems then CategoryItems[category] else []
  }

  // ---------------------------------------------------------------------
  // process_barcode

  /** The early return of `process_barcode`: the same code as the last
      recorded one, less than 5.0 s after it. */
  predicate Ignored(lastCode: Option<string>, lastTime: real, code: string, now: real)
  {
    lastCode == Some(code) && now - lastTime < 5.0
  }

  /** `process_barcode(code)` at time `now`: an ignored scan changes nothing;
      otherwise a registered code appends its product, and registered or
      not, the code and the time are recorded. */
  function Scan(s: ScanState, code: string, now: real): ScanState
  {
    if Ignored(s.lastCode, s.lastTime, code, now) then s
    else ScanState(AddScanned(ProductDb, s.cart, code), Some(code), now)
  }

  // ---------------------------------------------------------------------
  // The checklist of the checkout screen

  /** `target_item in scanned_name` for some scanned name: the list entry is
      a substring of a product name in the cart. Only this direction is tested. */
  predicate Found(target: string, cart: seq<Product>)
  {
    exists j :: 0 <= j < |cart| && Contains(cart[j].name, target)
  }

  /** `found_count` after the checklist loop: the number of list entries found. */
  function CountFound(targets: seq<string>, cart: seq<Product>): nat
    decreases |targets|
  {
    if targets == [] then 0
    else CountFound(targets[..|targets| - 1], cart) + (if Found(targets[|targets| - 1], cart) then 1 else 0)
  }

  /** The checklist of `show_checkout_screen`: one mark per list entry, in list
      order, and the number of marked entries. The search over the scanned
      names stops at the first hit. */
  method Checklist(targetList: seq<string>, cartItems: seq<Product>) returns (checked: seq<bool>, foundCount: nat)
    ensures |checked| == |targetList|
    ensures forall i :: 0 <= i < |targetList| ==> (checked[i] <==> Found(targetList[i], cartItems))
    ensures foundCount == CountFound(targetList, cartItems)
  {
    var scannedNames := Names(cartItems);
    checked := [];
    foundCount := 0;
    for t := 0 to |targetList|
      invariant |checked| == t
      invariant forall i :: 0 <= i < t ==> (checked[i] <==> Found(targetList[i], cartItems))
      invariant foundCount == CountFound(targetList[..t], cartItems)
    {
      var targetItem := targetList[t];
      var isFound := false;
      for j := 0 to |scannedNames|
        invariant !isFound
        invariant forall j' :: 0 <= j' < j ==> !Contains(cartItems[j'].name, targetItem)
      {
        if Contains(scannedNames[j], targetItem) {
          isFound := true;
          break;
        }
      }
      assert targetList[..t + 1][..t] == targetList[..t];
      if isFound {
        foundCount := foundCount + 1;
      }
      checked := checked + [isFound];
    }
    assert targetList[..|targetList|] == targetList;
  }

  /** The count lies between 0 and the length of the list; it is the full
      length exactly when every entry is found and 0 exactly when none is. */
  lemma {:induction false} CountFoundBounds(targets: seq<string>, cart: seq<Product>)
    ensures CountFound(targets, cart) <= |targets|
    ensures CountFound(targets, cart) == |targets| <==> forall i :: 0 <= i < |targets| ==> Found(targets[i], cart)
    ensures CountFound(targets, cart) == 0 <==> forall i :: 0 <= i < |targets| ==> !Found(targets[i], cart)
    decreases |targets|
  {
    if targets != [] {
      var earlier := targets[..|targets| - 1];
      CountFoundBounds(earlier, cart);
      assert forall i :: 0 <= i < |earlier| ==> earlier[i] == targets[i];
    }
  }

  /** A scanned product stays in the cart, so a found entry stays found
      whatever is scanned afterwards. */
  lemma FoundPersists(target: string, cart: seq<Product>, more: seq<Product>)
    requires Found(target, cart)
    ensures Found(target, cart + more)
  {
    var j :| 0 <= j < |cart| && Contains(cart[j].name, target);
    assert (cart + more)[j] == cart[j];
  }

  /** Scanning more products never lowers the count. */
  lemma {:induction false} CountFoundMonotone(targets: seq<string>, cart: seq<Product>, more: seq<Product>)
    ensures CountFound(targets, cart) <= CountFound(targets, cart + more)
    decreases |targets|
  {
    if targets != [] {
      CountFoundMonotone(targets[..|targets| - 1], cart, more);
      if Found(targets[|targets| - 1], cart) {
        FoundPersists(targets[|targets| - 1], cart, more);
      }
    }
  }

  /** After the cart is cleared no entry is found. */
  lemma {:induction false} EmptyCartFindsNothing(targets: seq<string>)
    ensures CountFound(targets, []) == 0
    decreases |targets|
  {
    if targets != [] {
      EmptyCartFindsNothing(targets[..|targets| - 1]);
    }
  }

  /** Scanned products are not used up: one product that satisfies an entry
      satisfies every repetition of it. */
  lemma {:induction false} RepeatedEntriesAllFound(target: string, cart: seq<Product>, n: nat)
    requires Found(target, cart)
    ensures CountFound(Repeat(target, n), cart) == n
  {
    if n > 0 {
      assert Repeat(target, n)[..n - 1] == Repeat(target, n - 1);
      RepeatedEntriesAllFound(target, cart, n - 1);
    }
  }

  /** "牛乳" is checked off by "森永牛乳 1000ml", but an entry "森永牛乳 1000ml"
      is not checked off by a product named "牛乳": the name must contain the
      entry, not the other way round. */
  lemma ContainmentIsOneDirectional()
    ensures Found("牛乳", [Product("森永牛乳 1000ml", 240)])
    ensures !Found("森永牛乳 1000ml", [Product("牛乳", 240)])
  {
    assert OccursAt("森永牛乳 1000ml", "牛乳", 2);
    assert Contains([Product("森永牛乳 1000ml", 240)][0].name, "牛乳");
  }

  /** Scanning the cola, the milk and the onion of `PRODUCT_DB` checks off the
      floor products "コーラ", "牛乳" and "玉ねぎ". */
  lemma ScannedProductsCheckCategoryItems()
    ensures CountFound(["コーラ", "牛乳", "玉ねぎ"],
      [ProductDb["4902102000186"], ProductDb["4902720130541"], ProductDb["1111111111111"]]) == 3
  {
    var cart := [ProductDb["4902102000186"], ProductDb["4902720130541"], ProductDb["1111111111111"]];
    var targets := ["コーラ", "牛乳", "玉ねぎ"];
    assert OccursAt(cart[0].name, "コーラ", 3);
    assert Contains(cart[0].name, targets[0]);
    assert OccursAt(cart[1].name, "牛乳", 2);
    assert Contains(cart[1].name, targets[1]);
    assert OccursAt(cart[2].name, "玉ねぎ", 0);
    assert Contains(cart[2].name, targets[2]);
    CountFoundBounds(targets, cart);
  }

  // ---------------------------------------------------------------------
  // The list editor of the category screen

  /** The entries of `list`, in order, whose membership in `items` is `inside`:
      `[item for item in list if item in items]` for `true`, and the
      `not in` filter for `false`. */
  function Keep(list: seq<string>, items: seq<string>, inside: bool): (r: seq<string>)
    ensures |r| <= |list|
    ensures forall x :: x in r <==> x in list && ((x in items) == inside)
    decreases |list|
  {
    if list == [] then []
    else (if (list[0] in items) == inside then [list[0]] else []) + Keep(list[1..], items, inside)
  }

  /** `current_selection`: the entries of the list that belong to this floor,
      shown pre-selected. */
  function CurrentSelection(robotList: seq<string>, items: seq<string>): seq<string>
  {
    Keep(robotList, items, true)
  }

  /** `other_items + selected_items`: the entries of other floors, in their
      order, then the products selected on this floor. */
  function RebuildList(robotList: seq<string>, items: seq<string>, selected: seq<string>): (r: seq<string>)
    ensures forall x :: x in r <==> (x in robotList && x !in items) || x in selected
    ensures |r| == |Keep(robotList, items, false)| + |selected|
    ensures var other := Keep(robotList, items, false); r[..|other|] == other && r[|other|..] == selected
  {
    Keep(robotList, items, false) + selected
  }

  /** Filtering distributes over concatenation, so it keeps the relative order of the entries. */
  lemma {:induction false} KeepConcat(a: seq<string>, b: seq<string>, items: seq<string>, inside: bool)
    ensures Keep(a + b, items, inside) == Keep(a, items, inside) + Keep(b, items, inside)
    decreases |a|
  {
    if a == [] {
      assert a + b == b;
    } else {
      assert (a + b)[0] == a[0];
      assert (a + b)[1..] == a[1..] + b;
      KeepConcat(a[1..], b, items, inside);
    }
  }

  /** A list all of whose entries have the wanted membership is kept whole. */
  lemma {:induction false} KeepAll(list: seq<string>, items: seq<string>, inside: bool)
    requires forall x :: x in list ==> (x in items) == inside
    ensures Keep(list, items, inside) == list
    decreases |list|
  {
    if list != [] {
      assert forall x :: x in list[1..] ==> x in list;
      KeepAll(list[1..], items, inside);
    }
  }

  /** A list none of whose entries has the wanted membership keeps nothing. */
  lemma {:induction false} KeepNone(list: seq<string>, items: seq<string>, inside: bool)
    requires forall x :: x in list ==> (x in items) != inside
    ensures Keep(list, items, inside) == []
    decreases |list|
  {
    if list != [] {
      assert forall x :: x in list[1..] ==> x in list;
      KeepNone(list[1..], items, inside);
    }
  }

  /** The two filters split the list: together they hold each entry as often as the list does. */
  lemma {:induction false} KeepSplits(list: seq<string>, items: seq<string>)
    ensures multiset(Keep(list, items, true)) + multiset(Keep(list, items, false)) == multiset(list)
    decreases |list|
  {
    if list != [] {
      KeepSplits(list[1..], items);
      assert list == [list[0]] + list[1..];
    }
  }

  /** Filtering by one floor, then by a disjoint floor, is filtering by the second floor. */
  lemma {:induction false} KeepDisjoint(list: seq<string>, items: seq<string>, items2: seq<string>)
    requires forall x :: x in items ==> x !in items2
    ensures Keep(Keep(list, items, false), items2, true) == Keep(list, items2, true)
    decreases |list|
  {
    if list != [] {
      KeepDisjoint(list[1..], items, items2);
      var head := if list[0] in items then [] else [list[0]];
      KeepConcat(head, Keep(list[1..], items, false), items2, true);
      if list[0] !in items {
        assert Keep(head, items2, true) == (if list[0] in items2 then [list[0]] else []) by {
          assert head[1..] == [];
        }
      }
    }
  }

  /** After an update the screen pre-selects exactly what was selected:
      the selection comes back from the rebuilt list. */
  lemma SelectionRoundTrip(robotList: seq<string>, items: seq<string>, selected: seq<string>)
    requires forall x :: x in selected ==> x in items
    ensures CurrentSelection(RebuildList(robotList, items, selected), items) == selected
  {
    var other := Keep(robotList, items, false);
    KeepConcat(other, selected, items, true);
    KeepAll(other, items, false);
    KeepNone(other, items, true);
    KeepAll(selected, items, true);
  }

  /** Pressing update twice with the same selection gives the same list as pressing it once. */
  lemma RebuildIdempotent(robotList: seq<string>, items: seq<string>, selected: seq<string>)
    requires forall x :: x in selected ==> x in items
    ensures RebuildList(RebuildList(robotList, items, selected), items, selected) == RebuildList(robotList, items, selected)
  {
    var other := Keep(robotList, items, false);
    KeepConcat(other, selected, items, false);
    KeepAll(other, items, false);
    KeepNone(selected, items, false);
  }

  /** Updating with the pre-selected entries unchanged keeps every entry of
      the list, as often as before; this floor's entries move to the end. */
  lemma UnchangedSelectionKeepsEntries(robotList: seq<string>, items: seq<string>)
    ensures multiset(RebuildList(robotList, items, CurrentSelection(robotList, items))) == multiset(robotList)
  {
    KeepSplits(robotList, items);
  }

  /** An update on one floor leaves the entries of any other floor as they
      were, in their order. */
  lemma OtherFloorUntouched(robotList: seq<string>, items: seq<string>, selected: seq<string>, items2: seq<string>)
    requires forall x :: x in selected ==> x in items
    requires forall x :: x in items ==> x !in items2
    ensures CurrentSelection(RebuildList(robotList, items, selected), items2) == CurrentSelection(robotList, items2)
  {
    KeepConcat(Keep(robotList, items, false), selected, items2, true);
    KeepDisjoint(robotList, items, items2);
    KeepNone(selected, items2, true);
  }

  /** No product is on two floors: the products of two different floor
      names, listed or not, have nothing in common. */
  lemma FloorsDisjoint(c1: string, c2: string)
    requires c1 != c2
    ensures forall x :: x in ItemsOf(c1) ==> x !in ItemsOf(c2)
  {
    if c1 in CategoryItems && c2 in CategoryItems {
      forall x | x in ItemsOf(c1)
        ensures x !in ItemsOf(c2)
      {
        if x in ItemsOf(c2) {
          OnOneFloor(c1, x);
          OnOneFloor(c2, x);
        }
      }
    }
  }

  /** The floor a product is on, read off `CATEGORY_ITEMS`. */
  function FloorOf(x: string): string
  {
    if x in CategoryItems["野菜・果物"] then "野菜・果物"
    else if x in CategoryItems["精肉・鮮魚"] then "精肉・鮮魚"
    else if x in CategoryItems["乳製品・卵"] then "乳製品・卵"
    else if x in CategoryItems["調味料・粉"] then "調味料・粉"
    else "お菓子・飲料"
  }

  /** A product listed on a floor is on that floor and no other. */
  lemma OnOneFloor(c: string, x: string)
    requires c in CategoryItems && x in CategoryItems[c]
    ensures FloorOf(x) == c
  {
  }

  /** Editing the list on one floor's screen leaves what every other floor's
      screen pre-selects as it was, in the same order. */
  lemma EditKeepsOtherFloors(robotList: seq<string>, category: string, selected: seq<string>, other: string)
    requires category != other
    requires forall x :: x in selected ==> x in ItemsOf(category)
    ensures CurrentSelection(RebuildList(robotList, ItemsOf(category), selected), ItemsOf(other)) ==
      CurrentSelection(robotList, ItemsOf(other))
  {
    FloorsDisjoint(category, other);
    OtherFloorUntouched(robotList, ItemsOf(category), selected, ItemsOf(other));
  }

  /** With no floor selected (`'未選択'`), the floor has no products: the
      list stays as it is and the selection is appended. */
  lemma UnselectedFloorAppends(robotList: seq<string>, selected: seq<string>)
    ensures RebuildList(robotList, ItemsOf("未選択"), selected) == robotList + selected
  {
    KeepAll(robotList, [], false);
  }

  // ---------------------------------------------------------------------
  // The session

  /** `st.session_state` as far as the cart, the list and the debounce use it.
      A `has...` flag says whether the key has been set; `last_scanned_code`
      and `last_scan_time` are read only after `process_barcode` has set
      them to `None` and `0` when missing, which are their initial values here. */
  class Session {
    var hasCart: bool
    var cart: seq<Product>
    var hasTotalPrice: bool
    var totalPrice: int
    var hasRobotList: bool
    var robotList: seq<string>
    var lastScannedCode: Option<string>
    var lastScanTime: real

    /** A new browser session: no key set yet. */
    constructor ()
      ensures !hasCart && !hasTotalPrice && !hasRobotList
      ensures lastScannedCode == None && lastScanTime == 0.0
    {
      hasCart, cart := false, [];
      hasTotalPrice, totalPrice := false, 0;
      hasRobotList, robotList := false, [];
      lastScannedCode, lastScanTime := None, 0.0;
    }

    /** The cart and the debounce memory. */
    function State(): ScanState
      reads this
    {
      ScanState(cart, lastScannedCode, lastScanTime)
    }

    /** `init_cart_session`: each missing key is set to its empty value; a key
        already set keeps its value. */
    method InitCartSession()
      modifies this`hasCart, this`cart, this`hasTotalPrice, this`totalPrice, this`hasRobotList, this`robotList
      ensures hasCart && hasTotalPrice && hasRobotList
      ensures cart == (if old(hasCart) then old(cart) else [])
      ensures totalPrice == (if old(hasTotalPrice) then old(totalPrice) else 0)
      ensures robotList == (if old(hasRobotList) then old(robotList) else [])
    {
      if !hasCart {
        hasCart, cart := true, [];
      }
      if !hasTotalPrice {
        hasTotalPrice, totalPrice := true, 0;
      }
      if !hasRobotList {
        hasRobotList, robotList := true, [];
      }
    }

    /** `process_barcode(code)` with `time.time()` read as `now`. Appending
        needs the `cart` key, which `main` sets before any screen runs. */
    method ProcessBarcode(code: string, now: real)
      requires hasCart || code !in ProductDb || Ignored(lastScannedCode, lastScanTime, code, now)
      modifies this`cart, this`lastScannedCode, this`lastScanTime
      ensures State() == Scan(old(State()), code, now)
    {
      var lastCode := lastScannedCode;
      var lastTime := lastScanTime;
      if lastCode == Some(code) && now - lastTime < 5.0 {
        return;
      }
      if code in ProductDb {
        var product := ProductDb[code];
        cart := cart + [product];
        lastScannedCode := Some(code);
        lastScanTime := now;
      } else {
        lastScannedCode := Some(code);
        lastScanTime := now;
      }
    }

    /** "カートを空にする" on the checkout screen, and "トップに戻る" after payment. */
    method ClearCart()
      modifies this`hasCart, this`cart
      ensures hasCart && cart == []
    {
      hasCart, cart := true, [];
    }

    /** "リストを更新して戻る" on the screen of `category`, with the products
        ticked in the multiselect. */
    method UpdateRobotList(category: string, selected: seq<string>)
      requires hasRobotList
      modifies this`robotList
      ensures robotList == RebuildList(old(robotList), ItemsOf(category), selected)
    {
      var items := ItemsOf(category);
      var otherItems := Keep(robotList, items, false);
      robotList := otherItems + selected;
    }
  }

  // ---------------------------------------------------------------------
  // Properties of the debounce

  /** The same code again less than 5.0 s after the recorded scan changes
      neither the cart nor the recorded code and time. */
  lemma IgnoredScanChangesNothing(s: ScanState, code: string, now: real)
    requires s.lastCode == Some(code) && now - s.lastTime < 5.0
    ensures Scan(s, code, now) == s
  {
  }

  /** Any other scan records its code and time; a registered code appends
      exactly its product at the end, an unregistered one leaves the cart. */
  lemma AcceptedScanIsRecorded(s: ScanState, code: string, now: real)
    requires !Ignored(s.lastCode, s.lastTime, code, now)
    ensures Scan(s, code, now).lastCode == Some(code) && Scan(s, code, now).lastTime == now
    ensures code in ProductDb ==> Scan(s, code, now).cart == s.cart + [ProductDb[code]]
    ensures code !in ProductDb ==> Scan(s, code, now).cart == s.cart
  {
  }

  /** The 5.0 s bound is strict the other way round from the scanner node's
      2.0 s bound: the same code exactly 5.0 s later is accepted again. */
  lemma DebounceBoundary(code: string, t: real, d: real)
    requires 0.0 <= d < 5.0
    ensures Ignored(Some(code), t, code, t + d)
    ensures !Ignored(Some(code), t, code, t + 5.0)
  {
  }

  /** The two debounce rules differ: the same code read again 3.0 s after its
      accepted scan is appended by the scanner node and ignored here. */
  lemma DebounceRulesDiffer(code: string, t: real)
    ensures CartScanner.Accepts(Some(code), t, code, t + 3.0)
    ensures Ignored(Some(code), t, code, t + 3.0)
  {
  }

  /** Every scan leaves the products already in the cart where they were. */
  lemma ScanKeepsCart(s: ScanState, code: string, now: real)
    ensures |s.cart| <= |Scan(s, code, now).cart| <= |s.cart| + 1
    ensures Scan(s, code, now).cart[..|s.cart|] == s.cart
  {
    AddScannedExtends(ProductDb, s.cart, code);
  }
}
