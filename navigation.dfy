/** The trip executor shared by both navigator nodes (`ShoppingNavigator`):
    `listener_callback` parses the message, `execute_shopping_trip` walks the
    list in order, sends one goal per resolved item, keeps going after a failed
    goal, and ends with one goal to the cashier; `go_to_spot` turns the
    backend's terminal status into a boolean.

    The navigation backend (nav2's BasicNavigator) is an oracle: it records
    every goal it is sent and reports, for the k-th goal ever sent, the
    terminal status `verdict(k)`. Which spot an item name stands for is the
    node's own `find_coordinates`, given to the trip as `resolve`. */
module Navigation {
  import opened Wrappers

  /** nav2's `TaskResult`. */
  datatype TaskResult = Unknown | Succeeded | Canceled | Failed

  /** A document as `json.loads` returns it, as far as iterating it matters. */
  datatype Json =
    | JArray(elements: seq<Json>)
    | JObject(keys: seq<string>)
    | JString(text: string)
    | JScalar  // a number, true, false or null

  /** The `shopping_list` message: text `json.loads` rejects, or a document. */
  datatype Payload = Malformed | Parsed(doc: Json)

  /** What the trip logs for one list item. */
  datatype ItemOutcome =
    | Reached          // "Arrived at ..."
    | Unreachable      // "Failed to reach ..."
    | LocationUnknown  // "Location unknown for ..."

  /** What one `shopping_list` message led to. */
  datatype TripReport =
    | NotStarted                            // the JSON error branch: no goal sent
    | Aborted(outcomes: seq<ItemOutcome>)    // an element without `.lower()` stopped the trip
    | Finished(outcomes: seq<ItemOutcome>)   // every element visited, cashier goal sent

  /** The elements `for item_name in shopping_list` visits: the elements of an
      array, the keys of an object, the characters of a string; `None` for a
      scalar, which Python refuses to iterate. */
  function Iterate(doc: Json): Option<seq<Json>>
  {
    match doc
    case JArray(elements) => Some(elements)
    case JObject(keys) => Some(seq(|keys|, i requires 0 <= i < |keys| => JString(keys[i])))
    case JString(text) => Some(seq(|text|, i requires 0 <= i < |text| => JString([text[i]])))
    case JScalar => None
  }

  /** Every element is a string. */
  predicate AllNames(items: seq<Json>)
  {
    forall i :: 0 <= i < |items| ==> items[i].JString?
  }

  /** The index of the first element at or after `i` that is not a string
      (`|items|` when there is none): where `item_name.lower()` raises. */
  function StopFrom(items: seq<Json>, i: nat): (n: nat)
    requires i <= |items|
    ensures i <= n <= |items|
    ensures forall k :: i <= k < n ==> items[k].JString?
    ensures n < |items| ==> !items[n].JString?
    decreases |items| - i
  {
    if i == |items| || !items[i].JString? then i else StopFrom(items, i + 1)
  }

  /** How many elements the trip visits before it stops or runs out. */
  function Stop(items: seq<Json>): (n: nat)
    ensures n <= |items|
    ensures forall k :: 0 <= k < n ==> items[k].JString?
    ensures n < |items| ==> !items[n].JString?
  {
    StopFrom(items, 0)
  }

  /** What `find_coordinates` returns for a visited element; only the
      leading string elements are ever visited. */
  function Resolved<C>(resolve: string -> Option<C>, item: Json): Option<C>
  {
    match item
    case JString(name) => resolve(name)
    case _ => None
  }

  /** The goals sent for the first `n` elements: one per resolved name, in
      list order. None of them depends on what the backend answers. */
  function Goals<C>(resolve: string -> Option<C>, items: seq<Json>, n: nat): seq<C>
    requires n <= |items|
    decreases n
  {
    if n == 0 then []
    else
      var earlier := Goals(resolve, items, n - 1);
      match Resolved(resolve, items[n - 1])
      case Some(coords) => earlier + [coords]
      case None => earlier
  }

  /** The outcome logged for each of the first `n` elements, when the first
      goal of the trip is goal number `first` of the backend. */
  function Outcomes<C>(resolve: string -> Option<C>, items: seq<Json>, n: nat, verdict: nat -> TaskResult, first: nat): seq<ItemOutcome>
    requires n <= |items|
    decreases n
  {
    if n == 0 then []
    else
      Outcomes(resolve, items, n - 1, verdict, first) +
        [OutcomeOf(Resolved(resolve, items[n - 1]), verdict(first + |Goals(resolve, items, n - 1)|))]
  }

  /** The outcome of one name: its resolution, and the status of its goal if it has one. */
  function OutcomeOf<C>(target: Option<C>, result: TaskResult): ItemOutcome
  {
    match target
    case None => LocationUnknown
    case Some(_) => if result == Succeeded then Reached else Unreachable
  }

  /** All goals a trip over `items` sends: those of the visited names, then the
      cashier unless an element stopped the trip. */
  function TripGoals<C>(resolve: string -> Option<C>, cashier: C, items: seq<Json>): seq<C>
  {
    Goals(resolve, items, Stop(items)) + (if Stop(items) == |items| then [cashier] else [])
  }

  function TripReportOf<C>(resolve: string -> Option<C>, items: seq<Json>, verdict: nat -> TaskResult, first: nat): TripReport
  {
    var outcomes := Outcomes(resolve, items, Stop(items), verdict, first);
    if Stop(items) == |items| then Finished(outcomes) else Aborted(outcomes)
  }

  /** The elements a message makes the trip visit; `None` when no trip starts. */
  function Visited(payload: Payload): Option<seq<Json>>
  {
    match payload
    case Malformed => None
    case Parsed(doc) => Iterate(doc)
  }

  /** nav2's BasicNavigator, seen from the node. */
  class Backend<C> {
    /** Every goal sent with `goToPose`, in order. */
    var issued: seq<C>
    /** The oracle: the terminal status of the k-th goal (from 0). */
    const verdict: nat -> TaskResult

    constructor (verdict: nat -> TaskResult)
      ensures issued == [] && this.verdict == verdict
    {
      issued := [];
      this.verdict := verdict;
    }

    /** `goToPose(goal)` followed by waiting until `isTaskComplete()`. */
    method GoToPose(goal: C)
      modifies this
      ensures issued == old(issued) + [goal]
    {
      issued := issued + [goal];
    }

    /** `getResult()`: the terminal status of the latest goal. */
    function GetResult(): TaskResult
      reads this
      requires issued != []
    {
      verdict(|issued| - 1)
    }
  }

  class ShoppingNavigator<C> {
    /** The node's `find_coordinates`. */
    const resolve: string -> Option<C>
    const cashier: C
    const backend: Backend<C>

    constructor (resolve: string -> Option<C>, cashier: C, backend: Backend<C>)
      ensures this.resolve == resolve && this.cashier == cashier && this.backend == backend
    {
      this.resolve := resolve;
      this.cashier := cashier;
      this.backend := backend;
    }

    /** `go_to_spot`: sends one goal and reports whether it SUCCEEDED; CANCELED,
        FAILED and any other status give false. */
    method GoToSpot(goal: C) returns (success: bool)
      modifies backend
      ensures backend.issued == old(backend.issued) + [goal]
      ensures success <==> backend.verdict(|old(backend.issued)|) == Succeeded
    {
      backend.GoToPose(goal);
      var result := backend.GetResult();
      match result
      case Succeeded => success := true;
      case Canceled => success := false;
      case Failed => success := false;
      case Unknown => success := false;
    }

    /** One pass of the trip loop: resolve the name, and drive to it when it
        resolves. */
    method VisitItem(itemName: string) returns (target: Option<C>, outcome: ItemOutcome)
      modifies backend
      ensures target == resolve(itemName)
      ensures backend.issued == old(backend.issued) + (if target.Some? then [target.value] else [])
      ensures outcome == OutcomeOf(target, backend.verdict(|old(backend.issued)|))
    {
      target := resolve(itemName);
      match target {
        case Some(coords) =>
          var success := GoToSpot(coords);
          outcome := if success then Reached else Unreachable;
        case None =>
          outcome := LocationUnknown;
      }
    }

    /** `execute_shopping_trip`: the goals sent are those of the resolved
        names in list order, then the cashier, whatever the backend answers;
        an element that is not a string raises in `.lower()` and ends the trip
        before the cashier goal. */
    method ExecuteShoppingTrip(items: seq<Json>) returns (report: TripReport)
      modifies backend
      ensures backend.issued == old(backend.issued) + TripGoals(resolve, cashier, items)
      ensures report == TripReportOf(resolve, items, backend.verdict, |old(backend.issued)|)
    {
      ghost var issued0 := backend.issued;
      ghost var first := |issued0|;
      var outcomes: seq<ItemOutcome> := [];
      var n := 0;
      while n < |items| && items[n].JString?
        invariant n <= Stop(items)
        invariant backend.issued == issued0 + Goals(resolve, items, n)
        invariant outcomes == Outcomes(resolve, items, n, backend.verdict, first)
      {
        var target, outcome := VisitItem(items[n].text);
        outcomes := outcomes + [outcome];
        n := n + 1;
      }
      if n < |items| {
        // `item_name.lower()` raises on this element; listener_callback catches it
        report := Aborted(outcomes);
      } else {
        var _ := GoToSpot(cashier);
        report := Finished(outcomes);
      }
    }

    /** `listener_callback`: a message that does not parse, or parses to a
        scalar, sends no goal; otherwise the trip runs over the visited elements. */
    method ListenerCallback(payload: Payload) returns (report: TripReport)
      modifies backend
      ensures Visited(payload).None? ==> backend.issued == old(backend.issued) && report == NotStarted
      ensures Visited(payload).Some? ==>
        backend.issued == old(backend.issued) + TripGoals(resolve, cashier, Visited(payload).value) &&
        report == TripReportOf(resolve, Visited(payload).value, backend.verdict, |old(backend.issued)|)
    {
      match payload
      case Malformed =>
        report := NotStarted;
      case Parsed(doc) =>
        match Iterate(doc)
        case None =>
          report := NotStarted;
        case Some(items) =>
          report := ExecuteShoppingTrip(items);
    }
  }

  /** The goals of a shorter prefix of the list are a prefix of the goals of a longer one. */
  lemma {:induction false} GoalsPrefix<C>(resolve: string -> Option<C>, items: seq<Json>, k: nat, n: nat)
    requires k <= n <= |items|
    ensures |Goals(resolve, items, k)| <= |Goals(resolve, items, n)|
    ensures Goals(resolve, items, n)[..|Goals(resolve, items, k)|] == Goals(resolve, items, k)
    decreases n
  {
    if k < n {
      GoalsPrefix(resolve, items, k, n - 1);
    }
  }

  /** A visited name that resolves gets the goal at position "number of goals
      of the names before it", and that goal is its coordinates. */
  lemma GoalOfResolvedName<C>(resolve: string -> Option<C>, items: seq<Json>, k: nat, n: nat)
    requires k < n <= |items| && Resolved(resolve, items[k]).Some?
    ensures |Goals(resolve, items, k)| < |Goals(resolve, items, n)|
    ensures Goals(resolve, items, n)[|Goals(resolve, items, k)|] == Resolved(resolve, items[k]).value
  {
    GoalsPrefix(resolve, items, k + 1, n);
  }

  /** A visited name that does not resolve sends no goal (the trip goes on to
      the next name), so the first `n` names send fewer than `n` goals. */
  lemma UnresolvedNameSendsNoGoal<C>(resolve: string -> Option<C>, items: seq<Json>, k: nat, n: nat)
    requires k < n <= |items| && Resolved(resolve, items[k]).None?
    ensures Goals(resolve, items, k + 1) == Goals(resolve, items, k)
    ensures |Goals(resolve, items, n)| <= n - 1
  {
    GoalsCount(resolve, items, k);
    GoalsTail(resolve, items, k + 1, n);
  }

  /** At most one goal per element. */
  lemma {:induction false} GoalsCount<C>(resolve: string -> Option<C>, items: seq<Json>, n: nat)
    requires n <= |items|
    ensures |Goals(resolve, items, n)| <= n
    decreases n
  {
    if n > 0 {
      GoalsCount(resolve, items, n - 1);
    }
  }

  /** The elements from `k` to `n` add at most one goal each. */
  lemma {:induction false} GoalsTail<C>(resolve: string -> Option<C>, items: seq<Json>, k: nat, n: nat)
    requires k <= n <= |items|
    ensures |Goals(resolve, items, n)| <= |Goals(resolve, items, k)| + (n - k)
    decreases n
  {
    if k < n {
      GoalsTail(resolve, items, k, n - 1);
    }
  }

  /** Every goal sent belongs to a visited name that resolves: the g-th goal is
      the coordinates of the name preceded by exactly g goals. */
  lemma {:induction false} GoalsComeFromResolvedNames<C>(resolve: string -> Option<C>, items: seq<Json>, n: nat, g: nat)
    requires n <= |items| && g < |Goals(resolve, items, n)|
    ensures exists k :: (0 <= k < n && |Goals(resolve, items, k)| == g &&
                         Resolved(resolve, items[k]) == Some(Goals(resolve, items, n)[g]))
    decreases n
  {
    var earlier := Goals(resolve, items, n - 1);
    var goal := Goals(resolve, items, n)[g];
    if g < |earlier| {
      GoalsComeFromResolvedNames(resolve, items, n - 1, g);
      var k :| 0 <= k < n - 1 && |Goals(resolve, items, k)| == g &&
               Resolved(resolve, items[k]) == Some(earlier[g]);
      assert earlier[g] == goal by {
        GoalsPrefix(resolve, items, n - 1, n);
        assert Goals(resolve, items, n)[..|earlier|][g] == goal;
      }
      assert 0 <= k < n && |Goals(resolve, items, k)| == g && Resolved(resolve, items[k]) == Some(goal);
    } else {
      assert Resolved(resolve, items[n - 1]) == Some(goal);
      assert 0 <= n - 1 < n && |Goals(resolve, items, n - 1)| == g;
    }
  }

  /** One outcome per visited name: the outcome of name `k` is
      LocationUnknown exactly when it is unresolved, Reached exactly when it
      is resolved and its goal (the one after the goals of the names before
      it) SUCCEEDED, and Unreachable otherwise. */
  lemma {:induction false} OutcomeOfName<C>(resolve: string -> Option<C>, items: seq<Json>, verdict: nat -> TaskResult, first: nat, k: nat, n: nat)
    requires k < n <= |items|
    ensures |Outcomes(resolve, items, n, verdict, first)| == n
    ensures Outcomes(resolve, items, n, verdict, first)[k] ==
      OutcomeOf(Resolved(resolve, items[k]), verdict(first + |Goals(resolve, items, k)|))
    decreases n
  {
    OutcomesLength(resolve, items, n - 1, verdict, first);
    if k < n - 1 {
      OutcomeOfName(resolve, items, verdict, first, k, n - 1);
    }
  }

  lemma {:induction false} OutcomesLength<C>(resolve: string -> Option<C>, items: seq<Json>, n: nat, verdict: nat -> TaskResult, first: nat)
    requires n <= |items|
    ensures |Outcomes(resolve, items, n, verdict, first)| == n
    decreases n
  {
    if n > 0 {
      OutcomesLength(resolve, items, n - 1, verdict, first);
    }
  }

  /** A trip over an all-string list visits every element, logs one outcome
      per element, and its last goal is the cashier, whatever the backend
      answers. */
  lemma CompleteTripEndsAtCashier<C>(resolve: string -> Option<C>, cashier: C, items: seq<Json>, verdict: nat -> TaskResult, first: nat)
    requires AllNames(items)
    ensures TripGoals(resolve, cashier, items) == Goals(resolve, items, |items|) + [cashier]
    ensures TripReportOf(resolve, items, verdict, first).Finished?
    ensures |TripReportOf(resolve, items, verdict, first).outcomes| == |items|
  {
    OutcomesLength(resolve, items, |items|, verdict, first);
  }

  /** An element that is not a string (a bilingual `{"en": ..., "ja": ...}`
      object, a number) stops the trip there: the names before it keep their
      goals and outcomes, and no cashier goal is sent. */
  lemma NonStringElementAbortsTrip<C>(resolve: string -> Option<C>, cashier: C, items: seq<Json>, k: nat, verdict: nat -> TaskResult, first: nat)
    requires k < |items| && AllNames(items[..k]) && !items[k].JString?
    ensures TripGoals(resolve, cashier, items) == Goals(resolve, items, k)
    ensures TripReportOf(resolve, items, verdict, first) == Aborted(Outcomes(resolve, items, k, verdict, first))
    ensures |TripReportOf(resolve, items, verdict, first).outcomes| == k
  {
    assert Stop(items) == k;
    OutcomesLength(resolve, items, k, verdict, first);
  }
}
