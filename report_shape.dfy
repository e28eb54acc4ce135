/**
 * The post-processing both API wrappers apply to earthquake reports fetched from the
 * server: the report number read from the id, the overall maximum intensity, and the
 * reshaping of the area -> town observation object into arrays sorted by intensity.
 */
module ReportShape {
  import opened Js

  // The source's `int` fields (intensity, 0..9) are named `intensity` here: `int` is a Dafny keyword.

  /** Report fields the transforms carry through untouched. */
  datatype ReportInfo = ReportInfo(lon: real, lat: real, loc: string, depth: real, mag: real, time: int, trem: int)

  /** An entry of the report list; `no` is absent until the list is post-processed. */
  datatype PartialReport = PartialReport(id: string, info: ReportInfo, intensity: int, md5: string, no: Option<NumberValue>)

  /** One town's observation as the server sends it, keyed by the town name. */
  datatype TownReading = TownReading(intensity: int, lon: real, lat: real)

  /** One area's observation as the server sends it: its maximum and its towns. */
  datatype RawArea = RawArea(intensity: int, town: Object<TownReading>)

  /** A full report as the server sends it: `list` maps area names to observations. */
  datatype RawReport = RawReport(id: string, info: ReportInfo, list: Object<RawArea>)

  datatype StationIntensity = StationIntensity(station: string, intensity: int, lon: real, lat: real)

  datatype AreaIntensity = AreaIntensity(area: string, intensity: int, stations: seq<StationIntensity>)

  /** A full report after post-processing. */
  datatype Report = Report(id: string, info: ReportInfo, no: NumberValue, intensity: int, list: seq<AreaIntensity>)

  // ---------------------------------------------------------------------------
  // The report number: the id's text before its first `-`, read as a number
  // ---------------------------------------------------------------------------

  function ReportNo(id: string): NumberValue {
    ToNumber(SplitFirst(id, '-'))
  }

  /** An id made of a number, a dash and anything at all yields that number. */
  lemma ReportNoOfNumberedId(n: nat, rest: string)
    ensures ReportNo(NatToString(n) + "-" + rest) == Integer(n)
  {
    var d := NatToString(n);
    var id := d + "-" + rest;
    var k := IndexOf(id, '-');
    assert id[|d|] == '-';
    assert k == |d|;
    assert SplitFirst(id, '-') == d by { assert id[..|d|] == d; }
    DigitsValueOfNatToString(n);
  }

  /** The list entry with its `no` set from its id. */
  function Numbered(p: PartialReport): PartialReport {
    p.(no := Some(ReportNo(p.id)))
  }

  /** The report-list loop: each entry, in place, gets as `no` the number before the first `-` of its id. */
  method NumberReports(data: array<PartialReport>)
    modifies data
    ensures forall i :: 0 <= i < data.Length ==> data[i] == Numbered(old(data[i]))
  {
    for i := 0 to data.Length
      invariant forall j :: 0 <= j < i ==> data[j] == Numbered(old(data[j]))
      invariant forall j :: i <= j < data.Length ==> data[j] == old(data[j])
    {
      data[i] := Numbered(data[i]);
    }
  }

  // ---------------------------------------------------------------------------
  // The overall maximum: a fold over the areas in key order, seeded with 0
  // ---------------------------------------------------------------------------

  function ReduceMaxInt(areas: Object<RawArea>, acc: int): int {
    if areas == [] then acc
    else ReduceMaxInt(areas[1..], if areas[0].1.intensity > acc then areas[0].1.intensity else acc)
  }

  /** The fold is at least its seed and every area's int, and is the seed or one of them. */
  lemma {:induction false} ReduceMaxIntIsMax(areas: Object<RawArea>, acc: int)
    ensures ReduceMaxInt(areas, acc) >= acc
    ensures forall i :: 0 <= i < |areas| ==> ReduceMaxInt(areas, acc) >= areas[i].1.intensity
    ensures ReduceMaxInt(areas, acc) == acc
            || exists i :: 0 <= i < |areas| && areas[i].1.intensity == ReduceMaxInt(areas, acc)
  {
    if areas != [] {
      var next := if areas[0].1.intensity > acc then areas[0].1.intensity else acc;
      ReduceMaxIntIsMax(areas[1..], next);
      var r := ReduceMaxInt(areas, acc);
      forall i | 0 < i < |areas| ensures r >= areas[i].1.intensity {
        assert areas[1..][i - 1] == areas[i];
      }
      if r != next {
        var j :| 0 <= j < |areas| - 1 && areas[1..][j].1.intensity == r;
        assert areas[j + 1].1.intensity == r;
      }
    }
  }

  // ---------------------------------------------------------------------------
  // Stable sort by intensity, non-increasing (the comparator subtracts the first key from the second)
  // ---------------------------------------------------------------------------

  ghost predicate SortedDesc<T>(s: seq<T>, key: T -> int) {
    forall i, j :: 0 <= i < j < |s| ==> key(s[i]) >= key(s[j])
  }

  /** `s.map(f)`. */
  function Project<T, U>(s: seq<T>, f: T -> U): (r: seq<U>)
    ensures |r| == |s| && forall i :: 0 <= i < |s| ==> r[i] == f(s[i])
  {
    if s == [] then [] else [f(s[0])] + Project(s[1..], f)
  }

  /** Puts x in front of the first element whose key is not greater than x's. */
  function InsertDesc<T>(x: T, s: seq<T>, key: T -> int): (r: seq<T>)
    ensures |r| == |s| + 1
    ensures multiset(r) == multiset(s) + multiset{x}
  {
    if s == [] || key(x) >= key(s[0]) then [x] + s
    else
      assert s == [s[0]] + s[1..];
      [s[0]] + InsertDesc(x, s[1..], key)
  }

  /** A stable insertion sort, largest key first, equal keys in their original order. */
  function SortDesc<T>(s: seq<T>, key: T -> int): (r: seq<T>)
    ensures |r| == |s|
    ensures multiset(r) == multiset(s)
  {
    if s == [] then []
    else
      assert s == [s[0]] + s[1..];
      InsertDesc(s[0], SortDesc(s[1..], key), key)
  }

  lemma {:induction false} InsertDescSorted<T>(x: T, s: seq<T>, key: T -> int)
    requires SortedDesc(s, key)
    ensures SortedDesc(InsertDesc(x, s, key), key)
  {
    if s != [] && key(x) < key(s[0]) {
      var tail := InsertDesc(x, s[1..], key);
      InsertDescSorted(x, s[1..], key);
      forall j | 0 <= j < |tail| ensures key(s[0]) >= key(tail[j]) {
        assert tail[j] in multiset(tail);
        if tail[j] != x {
          assert tail[j] in multiset(s[1..]);
          var m :| 0 <= m < |s[1..]| && s[1..][m] == tail[j];
          assert s[m + 1] == tail[j];
        }
      }
      var r := [s[0]] + tail;
      forall i, j | 0 <= i < j < |r| ensures key(r[i]) >= key(r[j]) {
        if i > 0 { assert r[i] == tail[i - 1] && r[j] == tail[j - 1]; }
        else { assert r[j] == tail[j - 1]; }
      }
    }
  }

  /** The sort's result is ordered by key, non-increasing. */
  lemma {:induction false} SortDescSorted<T>(s: seq<T>, key: T -> int)
    ensures SortedDesc(SortDesc(s, key), key)
  {
    if s != [] {
      SortDescSorted(s[1..], key);
      InsertDescSorted(s[0], SortDesc(s[1..], key), key);
    }
  }

  lemma {:induction false} InsertDescProject<T, U>(x: T, s: seq<T>, key: T -> int, f: T -> U)
    ensures multiset(Project(InsertDesc(x, s, key), f)) == multiset(Project(s, f)) + multiset{f(x)}
  {
    if s == [] || key(x) >= key(s[0]) {
      assert Project([x] + s, f) == [f(x)] + Project(s, f);
    } else {
      InsertDescProject(x, s[1..], key, f);
      var tail := InsertDesc(x, s[1..], key);
      assert Project([s[0]] + tail, f) == [f(s[0])] + Project(tail, f);
      assert s == [s[0]] + s[1..];
      assert Project(s, f) == [f(s[0])] + Project(s[1..], f);
    }
  }

  /** The elements of s whose key is k, in their order in s. */
  function WithKey<T>(s: seq<T>, key: T -> int, k: int): seq<T> {
    if s == [] then []
    else (if key(s[0]) == k then [s[0]] else []) + WithKey(s[1..], key, k)
  }

  /** Insertion puts x in front of every element with its key, and reorders no other key. */
  lemma {:induction false} InsertDescWithKey<T>(x: T, s: seq<T>, key: T -> int, k: int)
    ensures WithKey(InsertDesc(x, s, key), key, k)
            == (if key(x) == k then [x] else []) + WithKey(s, key, k)
  {
    var r := InsertDesc(x, s, key);
    if s == [] || key(x) >= key(s[0]) {
      assert r[1..] == s;
    } else {
      var rest := InsertDesc(x, s[1..], key);
      assert r[1..] == rest;
      InsertDescWithKey(x, s[1..], key, k);
    }
  }

  /**
   * The sort is stable: for every key, the elements with that key keep their original
   * relative order, as `Array.prototype.sort` guarantees since ES2019.
   */
  lemma {:induction false} SortDescStable<T>(s: seq<T>, key: T -> int, k: int)
    ensures WithKey(SortDesc(s, key), key, k) == WithKey(s, key, k)
  {
    if s != [] {
      SortDescStable(s[1..], key, k);
      InsertDescWithKey(s[0], SortDesc(s[1..], key), key, k);
    }
  }

  /** Sorting moves elements around only: any projection of them is a permutation too. */
  lemma {:induction false} SortDescProject<T, U>(s: seq<T>, key: T -> int, f: T -> U)
    ensures multiset(Project(SortDesc(s, key), f)) == multiset(Project(s, f))
  {
    if s != [] {
      SortDescProject(s[1..], key, f);
      InsertDescProject(s[0], SortDesc(s[1..], key), key, f);
      assert Project(s, f) == [f(s[0])] + Project(s[1..], f);
    }
  }

  // ---------------------------------------------------------------------------
  // The reshaping of `list`
  // ---------------------------------------------------------------------------

  function StationInt(s: StationIntensity): int { s.intensity }
  function StationName(s: StationIntensity): string { s.station }
  function AreaInt(a: AreaIntensity): int { a.intensity }
  function AreaName(a: AreaIntensity): string { a.area }

  /** A town's reading spread into a station entry named after the town key. */
  function StationOf(k: string, t: TownReading): StationIntensity {
    StationIntensity(k, t.intensity, t.lon, t.lat)
  }

  /** One station entry per town key, in key order, before sorting. */
  function Stations(town: Object<TownReading>): (r: seq<StationIntensity>)
    ensures |r| == |town|
  {
    seq(|town|, i requires 0 <= i < |town| => StationOf(town[i].0, town[i].1))
  }

  /** One area of the reshaped list: its stations sorted by intensity, non-increasing. */
  function AreaOf(k: string, a: RawArea): AreaIntensity {
    AreaIntensity(k, a.intensity, SortDesc(Stations(a.town), StationInt))
  }

  /** One area entry per area key, in key order, before sorting. */
  function Areas(list: Object<RawArea>): (r: seq<AreaIntensity>)
    ensures |r| == |list|
  {
    seq(|list|, i requires 0 <= i < |list| => AreaOf(list[i].0, list[i].1))
  }

  /** What `getReport` makes of the server's report. */
  function ShapeReport(raw: RawReport): Report {
    Report(raw.id, raw.info, ReportNo(raw.id), ReduceMaxInt(raw.list, 0), SortDesc(Areas(raw.list), AreaInt))
  }

  /** `int` is at least 0 and every area's int, and when positive it is one of them. */
  lemma ShapeReportIntensity(raw: RawReport)
    ensures ShapeReport(raw).intensity >= 0
    ensures forall i :: 0 <= i < |raw.list| ==> ShapeReport(raw).intensity >= raw.list[i].1.intensity
    ensures ShapeReport(raw).intensity > 0 ==> exists i :: 0 <= i < |raw.list| && raw.list[i].1.intensity == ShapeReport(raw).intensity
  {
    ReduceMaxIntIsMax(raw.list, 0);
  }

  /** Sorting keeps exactly the elements it was given. */
  lemma SortDescMembers<T>(s: seq<T>, key: T -> int)
    ensures forall e :: e in SortDesc(s, key) <==> e in s
  {
    var r := SortDesc(s, key);
    forall e ensures e in r <==> e in s {
      assert e in r <==> e in multiset(r);
      assert e in s <==> e in multiset(s);
    }
  }

  /** Areas come largest intensity first, and so do the stations inside each area. */
  lemma ShapeReportSorted(raw: RawReport)
    ensures SortedDesc(ShapeReport(raw).list, AreaInt)
    ensures forall e :: e in ShapeReport(raw).list ==> SortedDesc(e.stations, StationInt)
  {
    SortDescSorted(Areas(raw.list), AreaInt);
    SortDescMembers(Areas(raw.list), AreaInt);
    forall e | e in ShapeReport(raw).list ensures SortedDesc(e.stations, StationInt) {
      var i :| 0 <= i < |raw.list| && Areas(raw.list)[i] == e;
      SortDescSorted(Stations(raw.list[i].1.town), StationInt);
    }
  }

  /**
   * The area list is a permutation of one entry per key of `list`, carrying the key as
   * `area` and the area's own int; so with distinct keys each key appears exactly once.
   */
  lemma ShapeReportAreas(raw: RawReport)
    ensures forall e :: e in ShapeReport(raw).list <==> e in Areas(raw.list)
    ensures multiset(Project(ShapeReport(raw).list, AreaName)) == multiset(Keys(raw.list))
  {
    SortDescMembers(Areas(raw.list), AreaInt);
    SortDescProject(Areas(raw.list), AreaInt, AreaName);
    assert Project(Areas(raw.list), AreaName) == Keys(raw.list);
  }

  /** With distinct area keys, each key names exactly one entry of the reshaped list. */
  lemma ShapeReportAreaOnce(raw: RawReport, k: string)
    requires UniqueKeys(raw.list)
    ensures multiset(Project(ShapeReport(raw).list, AreaName))[k] == if k in Keys(raw.list) then 1 else 0
  {
    ShapeReportAreas(raw);
    KeysOnce(raw.list, k);
  }

  /**
   * An area's stations are a permutation of one entry per town key, carrying the key as
   * `station` and the town's other fields unchanged.
   */
  lemma AreaStations(k: string, a: RawArea)
    ensures forall s :: s in AreaOf(k, a).stations <==> s in Stations(a.town)
    ensures multiset(Project(AreaOf(k, a).stations, StationName)) == multiset(Keys(a.town))
  {
    SortDescMembers(Stations(a.town), StationInt);
    SortDescProject(Stations(a.town), StationInt, StationName);
    assert Project(Stations(a.town), StationName) == Keys(a.town);
  }

  /** With distinct town keys, each key names exactly one station of its area. */
  lemma AreaStationOnce(k: string, a: RawArea, town: string)
    requires UniqueKeys(a.town)
    ensures multiset(Project(AreaOf(k, a).stations, StationName))[town] == if town in Keys(a.town) then 1 else 0
  {
    AreaStations(k, a);
    KeysOnce(a.town, town);
  }

  /**
   * Everything `getReport` promises of the report it returns: the id, the fields and the
   * number read from the id; an overall intensity that is the largest of 0 and the
   * areas'; areas and stations sorted by intensity, non-increasing; and exactly the
   * entries made from the keys of `list`, one per key.
   */
  ghost predicate ShapedFrom(raw: RawReport, rep: Report) {
    rep.id == raw.id && rep.info == raw.info && rep.no == ReportNo(raw.id)
    && rep.intensity >= 0
    && (forall i :: 0 <= i < |raw.list| ==> rep.intensity >= raw.list[i].1.intensity)
    && (rep.intensity > 0 ==> exists i :: 0 <= i < |raw.list| && raw.list[i].1.intensity == rep.intensity)
    && SortedDesc(rep.list, AreaInt)
    && (forall e :: e in rep.list ==> SortedDesc(e.stations, StationInt))
    && (forall e :: e in rep.list <==> e in Areas(raw.list))
    && multiset(Project(rep.list, AreaName)) == multiset(Keys(raw.list))
  }

  lemma ShapeReportShapedFrom(raw: RawReport)
    ensures ShapedFrom(raw, ShapeReport(raw))
  {
    ShapeReportIntensity(raw);
    ShapeReportSorted(raw);
    ShapeReportAreas(raw);
  }
}
