/** `LocationResponseWrapper`: the knowledge-store page of location objects. */
module LocationResponse {
  import opened Numbers
  import opened LocationModel

  /** One listed object; its `data` member is the location. */
  datatype Item = Item(location: Location)

  /** The immutable page: the items in reply order and the reported total, which nothing checks. */
  datatype LocationResponseWrapper = LocationResponseWrapper(items: seq<Item>, total: Int32)

  /** `getItems().stream().map(Item::getKnowledgeLocation).toList()`. */
  function Locations(items: seq<Item>): (r: seq<Location>)
    ensures |r| == |items|
    ensures forall i :: 0 <= i < |items| ==> r[i] == items[i].location
  {
    if items == [] then [] else [items[0].location] + Locations(items[1..])
  }

  /** Collecting the locations of two pages in turn is collecting those of the joined page. */
  lemma {:induction false} LocationsAppend(a: seq<Item>, b: seq<Item>)
    ensures Locations(a + b) == Locations(a) + Locations(b)
  {
    if a == [] {
      assert a + b == b;
    } else {
      assert (a + b)[1..] == a[1..] + b;
      LocationsAppend(a[1..], b);
    }
  }
}
