/**
 * The report store: the partial reports of the list, and a cache of full reports by
 * id, both JavaScript `Map`s; the list getter lists the partial reports in the order
 * they were first set.
 */
module ReportStore {
  import opened Js
  import opened ReportShape

  class Store {
    var partial: OrderedMap<PartialReport>
    var cache: OrderedMap<Report>

    ghost predicate Valid()
      reads this
    {
      ValidMap(partial) && ValidMap(cache)
    }

    /** The store's initial state: both maps empty. */
    constructor ()
      ensures Valid()
      ensures partial.keys == [] && partial.entries == map[]
      ensures cache.keys == [] && cache.entries == map[]
    {
      partial := EmptyMap();
      cache := EmptyMap();
    }

    /** The `set` action: the report is cached under its id. */
    method Set(report: Report)
      requires Valid()
      modifies this
      ensures Valid()
      ensures cache == MapSet(old(cache), report.id, report)
      ensures partial == old(partial)
      ensures cache.entries[report.id] == report
      ensures forall id :: id != report.id && id in old(cache.entries) ==> id in cache.entries && cache.entries[id] == old(cache.entries)[id]
      ensures MapSize(cache) == if report.id in old(cache.entries) then MapSize(old(cache)) else MapSize(old(cache)) + 1
    {
      MapSetValid(cache, report.id, report);
      cache := MapSet(cache, report.id, report);
    }

    /** The `list` getter: the partial reports in insertion order, one per entry. */
    function List(): (vs: seq<PartialReport>)
      requires Valid()
      reads this
      ensures |vs| == MapSize(partial) == |partial.keys|
      ensures forall i :: 0 <= i < |vs| ==> vs[i] == partial.entries[partial.keys[i]]
    {
      MapValuesSize(partial);
      MapValues(partial)
    }
  }
}
