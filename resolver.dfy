/** The item location resolver shared by both navigator nodes
    (`find_coordinates`): the name is lower-cased, then the catalog is scanned
    in declared order and the first key that is a substring of the name, or has
    the name as a substring, wins. Coordinates are opaque: the resolver is
    generic in their type. */
module Resolver {
  import opened Wrappers
  import opened Strings

  /** `ITEM_LOCATIONS.items()`: keys in declared order, each with its coordinates. */
  type Catalog<C> = seq<(string, C)>

  /** `key in search_key or search_key in key` */
  predicate Matches(key: string, searchKey: string)
  {
    Contains(searchKey, key) || Contains(key, searchKey)
  }

  /** Entry `i` matches and no entry declared before it does. */
  predicate IsFirstMatch<C>(catalog: Catalog<C>, searchKey: string, i: int)
  {
    0 <= i < |catalog| && Matches(catalog[i].0, searchKey) &&
    forall j :: 0 <= j < i ==> !Matches(catalog[j].0, searchKey)
  }

  /** The index the `for key, coords in ITEM_LOCATIONS.items()` loop returns from. */
  function FirstMatch<C>(catalog: Catalog<C>, searchKey: string): (r: Option<nat>)
    ensures r.Some? ==> IsFirstMatch(catalog, searchKey, r.value)
    ensures r.None? <==> forall j :: 0 <= j < |catalog| ==> !Matches(catalog[j].0, searchKey)
    decreases |catalog|
  {
    if catalog == [] then None
    else if Matches(catalog[0].0, searchKey) then Some(0)
    else match FirstMatch(catalog[1..], searchKey)
      case None => None
      case Some(i) => Some(i + 1)
  }

  /** `find_coordinates(item_name)`: `None` when no key matches the lower-cased
      name, otherwise the coordinates of the first matching key. */
  function FindCoordinates<C>(catalog: Catalog<C>, itemName: string): (r: Option<C>)
    ensures r.None? <==> forall j :: 0 <= j < |catalog| ==> !Matches(catalog[j].0, Lower(itemName))
    ensures r.Some? ==> exists i :: IsFirstMatch(catalog, Lower(itemName), i) && r.value == catalog[i].1
  {
    match FirstMatch(catalog, Lower(itemName))
    case None => None
    case Some(i) => Some(catalog[i].1)
  }

  /** At most one entry is the first match. */
  lemma FirstMatchUnique<C>(catalog: Catalog<C>, searchKey: string, i: int, j: int)
    requires IsFirstMatch(catalog, searchKey, i) && IsFirstMatch(catalog, searchKey, j)
    ensures i == j
  {
  }

  /** The lookup ignores case: a name and its lower-case form resolve alike. */
  lemma FindCoordinatesIgnoresCase<C>(catalog: Catalog<C>, itemName: string)
    ensures FindCoordinates(catalog, itemName) == FindCoordinates(catalog, Lower(itemName))
  {
    LowerIdempotent(itemName);
  }

  /** A name matching exactly one key resolves to that key's coordinates. */
  lemma SoleMatchResolves<C>(catalog: Catalog<C>, itemName: string, i: nat)
    requires i < |catalog| && Matches(catalog[i].0, Lower(itemName))
    requires forall j :: 0 <= j < |catalog| && j != i ==> !Matches(catalog[j].0, Lower(itemName))
    ensures FindCoordinates(catalog, itemName) == Some(catalog[i].1)
  {
  }

  /** Declared order breaks ties: when entry `i` matches, the entry chosen is
      `i` or one declared before it. */
  lemma EarlierEntryWins<C>(catalog: Catalog<C>, itemName: string, i: nat)
    requires i < |catalog| && Matches(catalog[i].0, Lower(itemName))
    ensures FirstMatch(catalog, Lower(itemName)).Some?
    ensures FirstMatch(catalog, Lower(itemName)).value <= i
  {
  }

  /** An empty name is a substring of every key, so it resolves to the first entry. */
  lemma EmptyNameFindsFirstEntry<C>(catalog: Catalog<C>)
    requires |catalog| > 0
    ensures FindCoordinates(catalog, "") == Some(catalog[0].1)
  {
    EmptyIsContained(catalog[0].0);
    assert Lower("") == "";
  }
}
