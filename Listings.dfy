/** The listing records the pages show as cards (the props of `ItemCard`). */
module Listings {

  /** A report is either of something lost or of something found. */
  datatype Kind = Lost | Found

  datatype Listing = Listing(
    id: string,
    title: string,
    description: string,
    category: string,
    location: string,
    date: string,
    image: string,
    kind: Kind)

  /** The ids of a list of listings, in order (what a test of the pages reads off). */
  function Ids(items: seq<Listing>): (r: seq<string>)
    ensures |r| == |items|
    ensures forall i :: 0 <= i < |items| ==> r[i] == items[i].id
  {
    if items == [] then [] else [items[0].id] + Ids(items[1..])
  }
}
