/** The itinerary table's MapCode column: each place's car-navigation code,
    looked up in a fixed table, with "-" where the table has none. */
module Itinerary {

  /** `mapcode_dict[place]`, or the "-" that `fillna` puts in when the place is missing. */
  function MapCodeOf(codes: map<string, string>, place: string): string
  {
    if place in codes then codes[place] else "-"
  }

  /** `df['장소'].map(mapcode_dict).fillna("-")`: one code per itinerary row, in row order. */
  function MapCodeColumn(codes: map<string, string>, places: seq<string>): (column: seq<string>)
    ensures |column| == |places|
    ensures forall k :: 0 <= k < |places| && places[k] in codes ==> column[k] == codes[places[k]]
    ensures forall k :: 0 <= k < |places| && places[k] !in codes ==> column[k] == "-"
  {
    if |places| == 0 then []
    else [MapCodeOf(codes, places[0])] + MapCodeColumn(codes, places[1..])
  }

  /** As long as no real code is "-", a "-" in the column marks exactly the
      places the table does not know. */
  lemma DashMarksMissingPlaces(codes: map<string, string>, places: seq<string>, k: nat)
    requires "-" !in codes.Values
    requires k < |places|
    ensures MapCodeColumn(codes, places)[k] == "-" <==> places[k] !in codes
  {
  }
}
