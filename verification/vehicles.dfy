/** The vehicle page: a search over the fetched vehicles and the summary
    counts of two- and four-wheelers. */
module Vehicles {
  import opened Wrappers
  import opened JsText
  import Listing

  datatype Vehicle = Vehicle(
    vehicleNumber: string,
    model: Option<string>,         // `None` when the vehicle has none
    vehicleType: Option<string>)

  /** The term occurs, ignoring ASCII case, in the vehicle number or the
      model when there is one. */
  predicate SearchMatches(v: Vehicle, term: string) {
    ContainsIgnoringCase(v.vehicleNumber, term) || (v.model.Some? && ContainsIgnoringCase(v.model.value, term))
  }

  function SearchFor(term: string): Vehicle -> bool {
    v => SearchMatches(v, term)
  }

  /** `filterVehicles`: everything for an empty term, otherwise the matching
      vehicles in their original order. */
  function FilterVehicles(vehicles: seq<Vehicle>, term: string): (r: seq<Vehicle>)
    ensures term == "" ==> r == vehicles
    ensures term != "" ==> forall v :: v in r <==> v in vehicles && SearchMatches(v, term)
    ensures term != "" ==> forall v :: multiset(r)[v] == if SearchMatches(v, term) then multiset(vehicles)[v] else 0
    ensures Listing.IsSubsequence(r, vehicles)
  {
    if term != "" then
      Listing.KeepIsSubsequence(vehicles, SearchFor(term));
      Listing.KeepCounts(vehicles, SearchFor(term));
      Listing.Keep(vehicles, SearchFor(term))
    else
      assert Listing.Embedding(seq(|vehicles|, k => k), vehicles, vehicles);
      vehicles
  }

  function TypeIs(t: string): Vehicle -> bool {
    (v: Vehicle) => v.vehicleType == Some(t)
  }

  /** `vehicles.filter(v => v.vehicle_type === t).length`. */
  function CountOfType(vehicles: seq<Vehicle>, t: string): nat {
    Listing.Count(vehicles, TypeIs(t))
  }

  /** The two summary cards never add up to more than the total card. */
  lemma WheelerCountsBounded(vehicles: seq<Vehicle>)
    ensures CountOfType(vehicles, "2-wheeler") + CountOfType(vehicles, "4-wheeler") <= |vehicles|
  {
    Listing.DisjointCountsBounded(vehicles, TypeIs("2-wheeler"), TypeIs("4-wheeler"));
  }
}
