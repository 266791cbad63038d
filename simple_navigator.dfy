/** The simulation navigator node (`simple_navigator.py`): a ten-entry
    catalog of shelf poses, the cashier pose, and the trip executor of
    `Navigation` with this node's `find_coordinates` plugged in. */
module SimpleNavigator {
  import opened Wrappers
  import opened Strings
  import opened Resolver
  import opened Navigation

  /** A map pose: x and y in metres, heading in radians. */
  datatype Pose = Pose(x: real, y: real, yaw: real)

  /** `ITEM_LOCATIONS`, in declared order. */
  const ItemLocations: Catalog<Pose> := [
    ("curry roux", Pose(6.563, 7.9155, 1.57)),
    ("beef", Pose(12.267, 10.7331, 3.14)),
    ("pork", Pose(8.56, 11.03, 3.14)),
    ("onion", Pose(8.413, -1.271, 1.57)),
    ("carrot", Pose(10.81, -1.382, 1.57)),
    ("garlic", Pose(12.507, -1.453, 1.57)),
    ("milk", Pose(12.288, 8.156, 1.57)),
    ("soy sauce", Pose(8.794, 8.1634, 1.57)),
    ("egg", Pose(12.742, 8.3377, 1.57)),
    ("rice", Pose(3.876, 9.521, 1.57))
  ]

  /** `CASHIER_LOCATION` */
  const CashierLocation: Pose := Pose(4.303, -1.636, -1.57)

  /** The node as constructed: its trip resolves names with
      `find_coordinates` over `ITEM_LOCATIONS` and ends at the cashier. */
  method Create(backend: Backend<Pose>) returns (node: ShoppingNavigator<Pose>)
    ensures fresh(node)
    ensures node.backend == backend && node.cashier == CashierLocation
    ensures forall name :: node.resolve(name) == FindCoordinates(ItemLocations, name)
  {
    node := new ShoppingNavigator(name => FindCoordinates(ItemLocations, name), CashierLocation, backend);
  }

  /** An empty name is contained in every key, so it resolves to the first
      entry, "curry roux". */
  lemma EmptyNameResolvesToCurryRoux()
    ensures FindCoordinates(ItemLocations, "") == Some(Pose(6.563, 7.9155, 1.57))
  {
    EmptyNameFindsFirstEntry(ItemLocations);
  }

  /** Lookup ignores case: "BEEF" is the beef shelf, and no other key matches it. */
  lemma UpperCaseNameResolves()
    ensures FindCoordinates(ItemLocations, "BEEF") == Some(Pose(12.267, 10.7331, 3.14))
  {
    assert Lower("BEEF") == "beef";
    assert Matches("beef", "beef") by { assert OccursAt("beef", "beef", 0); }
    assert !Matches("curry roux", "beef") by {
      forall k | 0 <= k <= 6 ensures !OccursAt("curry roux", "beef", k) {
        MismatchAt("curry roux", "beef", k, 0);
      }
    }
    EarlierEntryWins(ItemLocations, "BEEF", 1);
  }

  /** A one-item list "BEEF": one goal to the beef shelf, then the cashier. */
  lemma BeefTrip(verdict: nat -> TaskResult, first: nat)
    ensures TripGoals(name => FindCoordinates(ItemLocations, name), CashierLocation, [JString("BEEF")]) ==
      [Pose(12.267, 10.7331, 3.14), CashierLocation]
    ensures TripReportOf(name => FindCoordinates(ItemLocations, name), [JString("BEEF")], verdict, first) ==
      Finished([if verdict(first) == Succeeded then Reached else Unreachable])
  {
    var resolve := name => FindCoordinates(ItemLocations, name);
    var items := [JString("BEEF")];
    var beef := Pose(12.267, 10.7331, 3.14);
    assert Resolved(resolve, items[0]) == Some(beef) by {
      UpperCaseNameResolves();
    }
    assert Stop(items) == 1;
    assert Goals(resolve, items, 1) == [beef];
    assert Outcomes(resolve, items, 1, verdict, first) == [OutcomeOf(Some(beef), verdict(first))];
  }

  /** A bilingual element `{"en": ..., "ja": ...}` after "BEEF": the beef goal
      is sent, then `.lower()` raises on the object and no cashier goal follows. */
  lemma BilingualElementAbortsTrip()
    ensures TripGoals(name => FindCoordinates(ItemLocations, name), CashierLocation,
                      [JString("BEEF"), JObject(["en", "ja"])]) == [Pose(12.267, 10.7331, 3.14)]
  {
    var resolve := name => FindCoordinates(ItemLocations, name);
    var items := [JString("BEEF"), JObject(["en", "ja"])];
    UpperCaseNameResolves();
    assert items[..1] == [JString("BEEF")];
    NonStringElementAbortsTrip(resolve, CashierLocation, items, 1, _ => Succeeded, 0);
  }

  /** "POR" followed by the KELVIN SIGN lower-cases to "pork", the pork shelf. */
  lemma KelvinSignNameResolves()
    ensures FindCoordinates(ItemLocations, "POR\U{212A}") == Some(Pose(8.56, 11.03, 3.14))
  {
    assert Lower("POR\U{212A}") == "pork";
    assert !Matches("curry roux", "pork") by {
      forall k | 0 <= k <= 6 ensures !OccursAt("curry roux", "pork", k) {
        MismatchAt("curry roux", "pork", k, 0);
      }
    }
    assert !Matches("beef", "pork") by {
      MismatchAt("beef", "pork", 0, 0);
      MismatchAt("pork", "beef", 0, 0);
    }
    assert Matches("pork", "pork") by { assert OccursAt("pork", "pork", 0); }
    EarlierEntryWins(ItemLocations, "POR\U{212A}", 2);
  }
}
