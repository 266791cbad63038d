/** The real-robot navigator node (`shopping_navigator_real.py`): the same
    resolver and trip as the simulation node, over a five-entry catalog of
    2-D points declared in a different order. */
module RealNavigator {
  import opened Wrappers
  import opened Strings
  import opened Resolver
  import opened Navigation

  /** A map point: x and y in metres. */
  datatype Point = Point(x: real, y: real)

  /** `ITEM_LOCATIONS`, in declared order. */
  const ItemLocations: Catalog<Point> := [
    ("carrot", Point(2.5, 0.5)),
    ("onion", Point(1.2, -1.5)),
    ("potato", Point(-0.5, 2.0)),
    ("curry roux", Point(3.0, 1.0)),
    ("beef", Point(0.0, 0.0))
  ]

  /** `CASHIER_LOCATION` */
  const CashierLocation: Point := Point(0.0, 0.0)

  /** The node as constructed: its trip resolves names with
      `find_coordinates` over `ITEM_LOCATIONS` and ends at the cashier. */
  method Create(backend: Backend<Point>) returns (node: ShoppingNavigator<Point>)
    ensures fresh(node)
    ensures node.backend == backend && node.cashier == CashierLocation
    ensures forall name :: node.resolve(name) == FindCoordinates(ItemLocations, name)
  {
    node := new ShoppingNavigator(name => FindCoordinates(ItemLocations, name), CashierLocation, backend);
  }

  /** Declared order breaks ties: a name holding both "carrot" and
      "curry roux" matches both keys and resolves to "carrot", declared first. */
  lemma CarrotBeatsCurryRoux()
    ensures Matches("carrot", Lower("Carrot Curry Roux")) && Matches("curry roux", Lower("Carrot Curry Roux"))
    ensures FindCoordinates(ItemLocations, "Carrot Curry Roux") == Some(Point(2.5, 0.5))
  {
    var key := Lower("Carrot Curry Roux");
    assert key == "carrot curry roux";
    assert OccursAt(key, "carrot", 0);
    assert OccursAt(key, "curry roux", 7);
    EarlierEntryWins(ItemLocations, "Carrot Curry Roux", 0);
  }

  /** An empty list sends exactly one goal, the cashier, and logs nothing. */
  lemma EmptyListOnlyCashier(verdict: nat -> TaskResult, first: nat)
    ensures TripGoals(name => FindCoordinates(ItemLocations, name), CashierLocation, []) == [CashierLocation]
    ensures TripReportOf(name => FindCoordinates(ItemLocations, name), [], verdict, first) == Finished([])
  {
  }
}
