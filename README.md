# Smart cart: item resolver, shopping trip, scan debounce and checklist

A verified Dafny model of the sequential logic of the smart shopping cart system
(itachi-1031/Smartcart_systems). The cart robot takes a shopping list from a
Streamlit app. It looks each item up in a catalog of shelf locations, drives to
each shelf it finds, and ends at the cashier. A camera reads product barcodes
into the cart, and the app checks the list against the scanned products.

The model covers the following pieces:

- **Resolver** (`find_coordinates`): the item name is lower-cased, then the
  catalog is scanned in declared order. The first key that is a substring of
  the name, or that has the name as a substring, wins.
- **Navigation**: the trip of both navigator nodes.
  - `listener_callback` parses the message; `execute_shopping_trip` walks the
    list; `go_to_spot` maps the backend's terminal status to a boolean.
  - The nav2 backend is an oracle: `verdict(k)` is the terminal status of the
    k-th goal ever sent.
  - The trip is generic in the node's `find_coordinates`.
- **SimpleNavigator** / **RealNavigator**: the two catalogs, the cashier
  locations and facts about concrete lists.
- **Cart**: products, carts in scan order, the sum of prices, the "look up and
  append" step and the checkout total.
- **CartScanner**: the ROS scanner node's 2-second debounce, `process_item`,
  and the `/cart_update` messages it publishes.
- **JsonFence**: `extract_json_from_text`, which is the same in both Streamlit
  apps.
- **App** (`app.py`), covering:
  - the session keys;
  - the 5-second debounce of `process_barcode`;
  - the checklist of the checkout screen;
  - the list editor of the category screen.
- **AppBaKoDo** (`app_ba-ko-do.py`): the session keys and `process_barcode`,
  which has no debounce.

Inputs the code gets from outside are parameters:

- Time is a real number of seconds, passed with each scan.
- A shopping-list message is either malformed or an already-parsed JSON
  document.
- The multiselect's choice is an input to the list update.

Python iteration over a parsed document is modelled:

- An array yields its elements, an object its keys, a string its characters.
- A scalar raises `TypeError`, which `listener_callback` catches.
- An element that is not a string raises `AttributeError` at `.lower()`. The
  trip stops there, without the cashier goal, and `listener_callback` catches
  the exception.

Where the code and its description differ, the model follows the code:

- The checklist only tests "list entry is a substring of a scanned name"
  (`app.py:511`), never the other way round.
- A scanned product can check off any number of entries.
- A new shopping list does not reset the checklist: the count is recomputed
  from the cart on every render, and only clearing the cart unchecks entries.
- A list element that is an object (for example `{"en": ..., "ja": ...}`)
  aborts the trip before the cashier goal. It does not skip that element.
- The result of the final goal to the cashier is discarded
  (`simple_navigator.py:100`, `shopping_navigator_real.py:76`), so no
  return-to-base outcome is recorded: `TripReportOf`'s `Finished` carries
  only the items' outcomes, and the cashier goal shows up only among the
  goals sent.
- Ties between catalog keys go to the key declared first, so the two
  navigators resolve the same name differently when their key orders differ.

## Model

| member | source | states |
|---|---|---|
| Resolver.Matches | src/smartcart_pkg/smartcart_pkg/simple_navigator.py:105 | `key in search_key or search_key in key`: either string contains the other. |
| Strings.Contains | src/smartcart_pkg/smartcart_pkg/simple_navigator.py:105 | Python's `sub in s`: `sub` occurs in `s` at some index. |
| Strings.Lower | src/smartcart_pkg/smartcart_pkg/simple_navigator.py:103 | `str.lower()` for the characters that lower-case to ASCII letters: A-Z and the KELVIN SIGN; everything else is kept. |
| Resolver.FirstMatch | src/smartcart_pkg/smartcart_pkg/simple_navigator.py:104-107 | The index returned matches and no earlier key matches; the result is `None` iff no key matches. |
| Resolver.FindCoordinates | src/smartcart_pkg/smartcart_pkg/simple_navigator.py:102-107 | `None` iff no key is contained in, or contains, `lower(name)`; otherwise the coordinates of the first such key in declared order. |
| Resolver.FirstMatchUnique | src/smartcart_pkg/smartcart_pkg/simple_navigator.py:104-106 | The first match is unique, so the entry returned is well defined. |
| Resolver.FindCoordinatesIgnoresCase | src/smartcart_pkg/smartcart_pkg/simple_navigator.py:103 | `find_coordinates(n) == find_coordinates(lower(n))`. |
| Resolver.SoleMatchResolves | src/smartcart_pkg/smartcart_pkg/simple_navigator.py:104-106 | A name that matches exactly one key resolves to that key's coordinates. |
| Resolver.EarlierEntryWins | smartcart_sys/shopping_navigator_real.py:80-82 | When entry `i` matches, the entry chosen is `i` or an earlier one. |
| Resolver.EmptyNameFindsFirstEntry | src/smartcart_pkg/smartcart_pkg/simple_navigator.py:103-106 | An empty name resolves to the first entry of any non-empty catalog. |
| SimpleNavigator.Create | src/smartcart_pkg/smartcart_pkg/simple_navigator.py:15-29 | The node's resolver is `find_coordinates` over the ten-entry catalog, and its cashier is `CASHIER_LOCATION`. |
| SimpleNavigator.EmptyNameResolvesToCurryRoux | src/smartcart_pkg/smartcart_pkg/simple_navigator.py:15-16 | `find_coordinates("")` is the "curry roux" pose. |
| SimpleNavigator.UpperCaseNameResolves | src/smartcart_pkg/smartcart_pkg/simple_navigator.py:15-17 | "BEEF" resolves to the beef pose, even though "curry roux" comes first. |
| SimpleNavigator.KelvinSignNameResolves | src/smartcart_pkg/smartcart_pkg/simple_navigator.py:103-106 | "POR" followed by U+212A lower-cases to "pork" and resolves to the pork pose. |
| SimpleNavigator.BeefTrip | src/smartcart_pkg/smartcart_pkg/simple_navigator.py:79-100 | The list ["BEEF"] sends the beef goal and then the cashier goal. It logs Reached or Unreachable according to the backend's verdict. |
| SimpleNavigator.BilingualElementAbortsTrip | src/smartcart_pkg/smartcart_pkg/simple_navigator.py:71-81 | ["BEEF", {"en", "ja"}] sends only the beef goal: the object stops the trip before the cashier. |
| RealNavigator.Create | smartcart_sys/shopping_navigator_real.py:16-26 | The node resolves over the five-entry 2-D catalog and ends at `CASHIER_LOCATION`. |
| RealNavigator.CarrotBeatsCurryRoux | smartcart_sys/shopping_navigator_real.py:16-22 | "Carrot Curry Roux" matches both "carrot" and "curry roux", and resolves to "carrot", which is declared first. |
| RealNavigator.EmptyListOnlyCashier | smartcart_sys/shopping_navigator_real.py:57-76 | An empty list sends exactly one goal, the cashier, and logs no outcome. |
| Navigation.Iterate | src/smartcart_pkg/smartcart_pkg/simple_navigator.py:80 | `for item_name in shopping_list` over a `json.loads` result: an array gives its elements, an object its keys, a string its characters, and a scalar cannot be iterated. |
| Navigation.Goals | src/smartcart_pkg/smartcart_pkg/simple_navigator.py:80-88 | The goals the first `n` elements send: one per resolved element, in list order. |
| Navigation.Outcomes | src/smartcart_pkg/smartcart_pkg/simple_navigator.py:88-96 | The outcome logged for each of the first `n` elements, from its resolution and the verdict of its own goal. |
| Navigation.TripGoals | src/smartcart_pkg/smartcart_pkg/simple_navigator.py:79-100 | All goals of a trip: those of the visited elements, then the cashier unless a non-string element stopped the trip. |
| Navigation.TripReportOf | src/smartcart_pkg/smartcart_pkg/simple_navigator.py:79-100 | Finished with the outcomes of all elements, or Aborted with those of the elements before the first non-string one. |
| Navigation.Backend.GetResult | src/smartcart_pkg/smartcart_pkg/simple_navigator.py:140 | `getResult()`: the oracle's terminal status for the latest goal sent. |
| Navigation.OutcomeOf | src/smartcart_pkg/smartcart_pkg/simple_navigator.py:83-96 | The outcome logged for one name: location unknown when it does not resolve, otherwise reached when its goal's result is SUCCEEDED and unreachable for any other result. |
| Navigation.Visited | src/smartcart_pkg/smartcart_pkg/simple_navigator.py:73-75 | The elements the trip visits: none when `json.loads` fails or the document cannot be iterated, otherwise the iteration of the parsed document. |
| Navigation.Stop | src/smartcart_pkg/smartcart_pkg/simple_navigator.py:80-81 | The trip visits the longest all-string prefix of the list; the element after it, if there is one, is not a string. |
| Navigation.Backend.GoToPose | src/smartcart_pkg/smartcart_pkg/simple_navigator.py:127-131 | Sending a goal appends exactly that goal to the backend's record. |
| Navigation.ShoppingNavigator.GoToSpot | src/smartcart_pkg/smartcart_pkg/simple_navigator.py:109-149 | Sends one goal and returns true iff its terminal status is SUCCEEDED; CANCELED, FAILED and any other status give false. |
| Navigation.ShoppingNavigator.VisitItem | src/smartcart_pkg/smartcart_pkg/simple_navigator.py:81-96 | A resolved name sends one goal to its coordinates and logs Reached or Unreachable by the verdict; an unresolved one sends nothing and logs LocationUnknown. |
| Navigation.ShoppingNavigator.ExecuteShoppingTrip | src/smartcart_pkg/smartcart_pkg/simple_navigator.py:79-100 | Goals sent are those of the resolved names in list order, then exactly one cashier goal when every element is a string; the report holds one outcome per visited name. The same loop is at `shopping_navigator_real.py:57-76`. |
| Navigation.ShoppingNavigator.ListenerCallback | src/smartcart_pkg/smartcart_pkg/simple_navigator.py:71-77 | A malformed or non-iterable payload sends no goal; otherwise the trip runs over the iterated elements. |
| Navigation.GoalsPrefix | src/smartcart_pkg/smartcart_pkg/simple_navigator.py:80-88 | The goals of a shorter list prefix are a prefix of those of a longer one, so goals are sent in list order. |
| Navigation.GoalOfResolvedName | src/smartcart_pkg/smartcart_pkg/simple_navigator.py:81-88 | A resolved name's goal is its coordinates, placed after the goals of the names before it. |
| Navigation.UnresolvedNameSendsNoGoal | src/smartcart_pkg/smartcart_pkg/simple_navigator.py:95-96 | An unresolved name adds no goal, and the loop goes on: `n` names then send at most `n - 1` goals. |
| Navigation.GoalsCount | src/smartcart_pkg/smartcart_pkg/simple_navigator.py:80-88 | At most one goal is sent per element. |
| Navigation.GoalsTail | src/smartcart_pkg/smartcart_pkg/simple_navigator.py:80-88 | The elements between `k` and `n` add at most one goal each. |
| Navigation.GoalsComeFromResolvedNames | src/smartcart_pkg/smartcart_pkg/simple_navigator.py:81-88 | Every goal sent is the coordinates of a visited name that resolves; the g-th goal belongs to the name preceded by exactly g goals. |
| Navigation.OutcomeOfName | src/smartcart_pkg/smartcart_pkg/simple_navigator.py:88-96 | Outcome `k` is LocationUnknown iff name `k` is unresolved. Otherwise it is Reached iff that name's own goal SUCCEEDED. A failed goal does not change later outcomes. |
| Navigation.OutcomesLength | src/smartcart_pkg/smartcart_pkg/simple_navigator.py:80-96 | One outcome is logged per visited element. |
| Navigation.CompleteTripEndsAtCashier | src/smartcart_pkg/smartcart_pkg/simple_navigator.py:98-100 | An all-string list finishes with the cashier as its last goal, whatever the backend answers, and logs one outcome per element. |
| Navigation.NonStringElementAbortsTrip | src/smartcart_pkg/smartcart_pkg/simple_navigator.py:103 | An element that is not a string, after an all-string prefix of length `k`, stops the trip: only the prefix's goals are sent, there is no cashier goal, and `k` outcomes are logged. |
| Cart.TotalPrice | app.py:539 | `sum(item['price'] for item in cart)`, added left to right; the same sum is at `app_ba-ko-do.py:397` and `cart_scanner.py:130`. |
| Cart.CheckoutTotal | app.py:533-552 | The total the checkout screen shows: none for an empty cart ("カートは空です"), otherwise the left-to-right sum of the prices. The same display is at `app_ba-ko-do.py:392-412`. |
| Cart.AddScanned | app.py:574-576 | `if code in PRODUCT_DB: cart.append(PRODUCT_DB[code])`; the same step is at `app_ba-ko-do.py:423-425` and `cart_scanner.py:125-127`. |
| Cart.CheckoutTotalAfterScan | app.py:533-552 | After a registered scan the checkout shows the old sum plus the product's price, even if the cart was empty before. An unregistered scan leaves the shown total as it was. An empty or cleared cart shows no total ("カートは空です"). |
| Cart.TotalPriceConcat | app.py:539 | The total of two carts laid end to end is the sum of their totals. |
| Cart.TotalPriceRepeat | src/smartcart_pkg/smartcart_pkg/app_ba-ko-do.py:397 | `n` copies of a product total `n` times its price. |
| Cart.AddScannedExtends | smartcart_sys/cart_scanner.py:125-127 | A registered code appends exactly its product at the end and raises the total by its price; earlier entries are unchanged; an unregistered code adds nothing. |
| CartScanner.Accepts | smartcart_sys/cart_scanner.py:96 | A scan is accepted iff the code differs from the last one or more than 2.0 s have passed. |
| CartScanner.Scan | smartcart_sys/cart_scanner.py:96-99 | An accepted scan appends the product of a registered code and records code and time; a rejected one changes nothing. |
| CartScanner.UpdateOf | smartcart_sys/cart_scanner.py:130-138 | The `/cart_update` message of a grown cart: its last item's name, the sum of prices, the item count and the items. |
| CartScanner.Message | smartcart_sys/cart_scanner.py:133-143 | One message for an accepted registered scan, none otherwise. |
| CartScanner.ScanAll | smartcart_sys/cart_scanner.py:84-99 | The state after the barcodes of a run, in decoding order. |
| CartScanner.MessagesOf | smartcart_sys/cart_scanner.py:84-143 | The messages published over a run of barcodes, in order. |
| CartScanner.CartScannerNode.constructor | smartcart_sys/cart_scanner.py:33-38 | The node starts with an empty cart, no last code and last time 0. |
| CartScanner.CartScannerNode.ProcessItem | smartcart_sys/cart_scanner.py:123-147 | A registered code appends its product and publishes a message of the grown cart; an unregistered one changes nothing. |
| CartScanner.CartScannerNode.OnBarcode | smartcart_sys/cart_scanner.py:96-99 | The new state and the messages are those of the debounce rule applied to the old state. |
| CartScanner.CartScannerNode.OnFrame | smartcart_sys/cart_scanner.py:84-99 | Decoding a frame applies the per-barcode step to each code in order. |
| CartScanner.RejectedScanChangesNothing | smartcart_sys/cart_scanner.py:96 | The same code within 2.0 s, bounds included, changes neither the cart nor `last_code`/`last_scan_time`, and publishes nothing. |
| CartScanner.AcceptedScanIsRecorded | smartcart_sys/cart_scanner.py:96-99 | An accepted scan records its code and time even when unregistered. A registered code appends its product; an unregistered one leaves the cart. |
| CartScanner.DebounceBoundary | smartcart_sys/cart_scanner.py:96 | Exactly 2.0 s later the same code is still ignored; any later time is accepted. |
| CartScanner.AcceptedScanCounts | smartcart_sys/cart_scanner.py:127-138 | An accepted registered scan publishes one message. Its `item_count` is one more than before, `latest_item` is the product's name, and `total_price` has grown by its price. |
| CartScanner.ScanAllGrowsCart | smartcart_sys/cart_scanner.py:125-127 | Over any run of scans the cart grows only at its end, by at most one `PRODUCT_DB` product per barcode. |
| CartScanner.MessagesAreConsistent | smartcart_sys/cart_scanner.py:130-138 | In every message published, the total is the sum of the items' prices, the count is their number, and `latest_item` is the newest item's name. |
| CartScanner.DuplicateWithinWindowIgnored | smartcart_sys/cart_scanner.py:96 | A second read of the same code within 2.0 s of an accepted one adds nothing and publishes nothing. |
| JsonFence.ExtractJsonFromText | app.py:128-138 | `None` iff there is no opening fence followed by a closing fence. Otherwise the result is the text between the first opening fence and the first closing fence after it. The same function is at `app_ba-ko-do.py:117-127`. |
| JsonFence.ExtractFencedBody | app.py:132-134 | A reply laid out as prefix, fence, body, fence, suffix gives back the body, when the prefix opens no fence and the body closes none. |
| JsonFence.FenceLayout | app.py:132 | Where the fences and the body of such a reply sit. |
| JsonFence.NoEarlierOpener | app.py:132 | No opening fence starts inside a prefix that opens none, whatever follows it. |
| JsonFence.NoEarlierCloser | app.py:132 | No closing fence starts inside a body that closes none, whatever surrounds it. |
| JsonFence.ExtractAt | app.py:132-134 | The first opening fence and the first closing fence after it determine the result. |
| JsonFence.UnclosedFenceYieldsNone | app.py:135-136 | A reply whose first opening fence is never closed yields `None`. |
| App.Ignored | app.py:570 | The early return: the same code as the last recorded one, less than 5.0 s later. |
| App.Scan | app.py:566-596 | An ignored scan changes nothing. Any other scan appends the product of a registered code, and records code and time whether or not the code is registered. |
| App.ItemsOf | app.py:247 | `CATEGORY_ITEMS.get(category, [])`: the floor's list of products, or `[]` for a name not in `CATEGORY_ITEMS`. |
| App.Found | app.py:508-513 | A list entry is found iff it is a substring of the name of some product in the cart. |
| App.CountFound | app.py:502-518 | The number of found entries of the list. |
| App.OnOneFloor | app.py:156-161 | Every product listed in `CATEGORY_ITEMS` sits on exactly one floor. |
| App.FloorsDisjoint | app.py:156-161 | `CATEGORY_ITEMS.get` gives two different floor names no common product, whether or not the names are listed. |
| App.Checklist | app.py:492-526 | One mark per list entry, true iff the entry is a substring of some scanned name; `found_count` is the number of marked entries. |
| App.CountFoundBounds | app.py:502-526 | `0 <= found_count <= len(target_list)`; it equals the length iff every entry is found, and 0 iff none is. |
| App.FoundPersists | app.py:510-513 | A found entry stays found whatever is scanned afterwards. |
| App.CountFoundMonotone | app.py:502-518 | Appending to the cart never lowers `found_count`. |
| App.EmptyCartFindsNothing | app.py:549 | After the cart is cleared, `found_count` is 0. |
| App.RepeatedEntriesAllFound | app.py:505-518 | A product is not used up: all `n` repetitions of an entry it satisfies are found. |
| App.ContainmentIsOneDirectional | app.py:511 | "牛乳" is found in "森永牛乳 1000ml", but the entry "森永牛乳 1000ml" is not found in a product named "牛乳". |
| App.ScannedProductsCheckCategoryItems | app.py:156-174 | Scanning the cola, milk and onion codes of `PRODUCT_DB` checks off the floor products "コーラ", "牛乳" and "玉ねぎ". |
| App.Keep | app.py:251 | The filtered list holds exactly the entries whose membership in the floor is the one asked for, and is no longer than the list. |
| App.CurrentSelection | app.py:251 | The entries of the list that belong to the floor, in list order. |
| App.RebuildList | app.py:262-264 | An entry is in the new list iff it was in the list outside this floor or was selected. The new list is the other floors' entries followed by the selection. |
| App.KeepConcat | app.py:262 | Filtering distributes over concatenation, so other-floor entries keep their order. |
| App.KeepAll | app.py:251 | A list whose entries all have the wanted membership is kept whole. |
| App.KeepNone | app.py:251 | A list none of whose entries has the wanted membership keeps nothing. |
| App.KeepSplits | app.py:251-262 | The two filters together hold each entry as often as the list does. |
| App.KeepDisjoint | app.py:262 | Filtering out one floor, then keeping a disjoint floor, is keeping the second floor. |
| App.SelectionRoundTrip | app.py:251-264 | After an update, the pre-selection computed from the new list is exactly the selection. |
| App.RebuildIdempotent | app.py:262-264 | Updating twice with the same selection gives the same list as updating once. |
| App.UnchangedSelectionKeepsEntries | app.py:251-264 | Updating with the pre-selection unchanged keeps every entry as often as before. |
| App.OtherFloorUntouched | app.py:262-264 | An update on one floor leaves the entries of any disjoint floor as they were, in order. |
| App.EditKeepsOtherFloors | app.py:247-264 | Updating the list on one floor's screen leaves what any other floor's screen pre-selects unchanged, in the same order. |
| App.UnselectedFloorAppends | app.py:236-247 | With no floor selected ('未選択') the list is kept whole and the selection is appended. |
| App.Session.constructor | app.py:626-628 | A fresh Streamlit session, before `main` calls `init_cart_session`, has no keys set; the debounce fields hold the `None` and `0` that `process_barcode` would give them. |
| App.Session.InitCartSession | app.py:144-153 | Each missing key (`cart`, `total_price`, `robot_list`) gets its empty value; a key already set keeps its value. |
| App.Session.ProcessBarcode | app.py:554-596 | The new cart and last-scan fields are those of the 5-second debounce rule applied to the old ones. |
| App.Session.ClearCart | app.py:548-549 | The cart is empty afterwards. |
| App.Session.UpdateRobotList | app.py:260-264 | The list becomes the other floors' entries followed by the selection. |
| App.IgnoredScanChangesNothing | app.py:567-571 | The same code less than 5.0 s later changes neither the cart nor the last code and time. |
| App.AcceptedScanIsRecorded | app.py:574-596 | Any other scan records code and time. A registered code appends exactly its product; an unregistered one leaves the cart unchanged. |
| App.DebounceBoundary | app.py:570 | Any delay under 5.0 s is ignored; exactly 5.0 s later the code is accepted. |
| App.DebounceRulesDiffer | app.py:570 | The same code 3.0 s after its scan is accepted by the scanner node's rule and ignored by this one. |
| App.ScanKeepsCart | app.py:574-576 | A scan adds at most one product, at the end; the products already in the cart stay as they were. |
| AppBaKoDo.Session.constructor | src/smartcart_pkg/smartcart_pkg/app_ba-ko-do.py:152 | A fresh Streamlit session, before the start-up call to `init_cart_session`, has no keys set. |
| AppBaKoDo.Session.InitCartSession | src/smartcart_pkg/smartcart_pkg/app_ba-ko-do.py:144-149 | Missing `cart`/`total_price` keys get empty values; an existing cart is left untouched. |
| AppBaKoDo.Session.ProcessBarcode | src/smartcart_pkg/smartcart_pkg/app_ba-ko-do.py:414-430 | A registered code appends exactly its product, with no debounce; an unregistered one leaves the cart. |
| AppBaKoDo.Session.ClearCart | src/smartcart_pkg/smartcart_pkg/app_ba-ko-do.py:408-409 | The cart is empty afterwards. |
| AppBaKoDo.ScanAll | src/smartcart_pkg/smartcart_pkg/app_ba-ko-do.py:423-430 | The cart after `process_barcode` of each code of a run, in order, with no debounce. |
| AppBaKoDo.ScanAllAppends | src/smartcart_pkg/smartcart_pkg/app_ba-ko-do.py:423-425 | A run of scans appends the same products whatever cart it starts from, and adds their prices to the total. |
| AppBaKoDo.RepeatedScansAllAppend | src/smartcart_pkg/smartcart_pkg/app_ba-ko-do.py:420-425 | `n` reads of one registered code append `n` copies of its product, and the total grows by `n` times its price. |
| AppBaKoDo.RepeatedScansCart | src/smartcart_pkg/smartcart_pkg/app_ba-ko-do.py:423-425 | The cart part of the previous row, by induction. |
| AppBaKoDo.UnregisteredScansKeepCart | src/smartcart_pkg/smartcart_pkg/app_ba-ko-do.py:429-430 | Codes missing from `PRODUCT_DB` leave the cart unchanged. |
| AppBaKoDo.TestCodeTwiceTotal | src/smartcart_pkg/smartcart_pkg/app_ba-ko-do.py:141 | Two reads of the test steak code total 4000 yen at checkout. |
| AppBaKoDo.NoDebounceUnlikeApp | src/smartcart_pkg/smartcart_pkg/app_ba-ko-do.py:414-425 | The milk read twice one second apart is added once by `app.py` and twice by this app. |

## Left out

- Navigation.ShoppingNavigator.GoToSpot: the polling loop, its feedback log every 5th or 10th poll and the `time.sleep` calls are not modelled. The status of a goal is the backend oracle's verdict once the goal is complete.
- `time.sleep` after a successful arrival, and all logging and toasts.
- Euler-to-quaternion conversion, the goal header and timestamp, `waitUntilNav2Active` and `set_initial_pose`. These are floating-point geometry and ROS set-up; coordinates are opaque values.
- `json.loads` / `json.dumps`. A message is `Malformed` or an already-parsed document, and the app's list comes from the multiselect or the reply.
- How a parsed Gemini reply replaces `robot_list` (`app.py:314-322`, `app.py:419-426`), and the Gemini calls themselves. These are foreign network calls.
- Streamlit screens, widgets, `st.rerun`, the `step` dispatch, and the cart and checklist display text.
- App.Checklist: `robot_list` is taken to be a list of strings. That is what the prompts at `app.py:106-115` and `app.py:387-395` ask the reply to contain, and what the category screen writes. A reply that parses to something else is not modelled. An array with non-string entries raises `TypeError` at `target_item in scanned_name` (`app.py:511`) once the cart is non-empty. A bare JSON string would be checked one character at a time (`app.py:505`). The same narrowing applies to `App.Keep`, `App.RebuildList` and `App.Session.robotList`.
- The progress ratio `found_count / len(target_list)` (`app.py:524`), which is floating point.
- ROS publishers, subscribers, `rclpy.spin`, threads and image publishing.
- The camera, `cv2` and `pyzbar`. Decoded barcodes are inputs.
- CartScanner.CartScannerNode.OnBarcode: the two `time.time()` reads of `cart_scanner.py:96` and `:99` are merged into one `now` per barcode, so the recorded time is the time the check used.
- App.Session.ProcessBarcode: the second guard at `app.py:591` repeats the one at line 570 with the same values, so it never returns early and is not written out.
- App.Session.ProcessBarcode: the `last_scanned_code` / `last_scan_time` keys are set to `None` / `0` when missing, right before being read; the model starts them at those values.
- Strings.Lower: `str.lower()` is modelled only for the characters that lower-case to ASCII letters: `A`-`Z` and U+212A KELVIN SIGN, which becomes `k`. Every catalog key is ASCII, so other characters cannot take part in a match whether they are lower-cased or not. U+0130 becomes `i` followed by U+0307 in Python, but no key contains U+0307 and no key ends in `i`, so it does not change any result either.
- The `total_price` session key is only ever initialised to 0. Both apps recompute the displayed total from the cart (`Cart.CheckoutTotal`).
- The payment message `{"action": "payment_completed", "total": ...}` sent at checkout. It is ROS output carrying `Cart.CheckoutTotal`.
- The order in which the category screen lists floors, which follows dictionary key order. Only `CATEGORY_ITEMS.get` is modelled.
- `odom_to_tf.py`, `vel_converter.py`, the launch files and `setup.py`.
