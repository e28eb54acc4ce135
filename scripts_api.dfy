/**
 * The HTTP side of the TREM client's `ExpTechApi`: the status rule of its GET wrapper,
 * the post-processing of the report list, of a single report and of the station list,
 * and the table of intensity levels. The response of each request is a parameter.
 */
module ScriptsApi {
  import opened Js
  import opened ReportShape

  // ---------------------------------------------------------------------------
  // The intensity levels
  // ---------------------------------------------------------------------------

  /** One level of the scale: its value, its short label and its display text (`label` is a Dafny keyword, so the label is `tag`). */
  datatype IntensityLevel = IntensityLevel(value: int, tag: string, text: string)

  /** The `Intensity` table: the values 0 to 9, the upper and lower halves of 5 and 6 labelled `-`/`+`. */
  const IntensityTable: seq<IntensityLevel> := [
    IntensityLevel(0, "0", "０級"),
    IntensityLevel(1, "1", "１級"),
    IntensityLevel(2, "2", "２級"),
    IntensityLevel(3, "3", "３級"),
    IntensityLevel(4, "4", "４級"),
    IntensityLevel(5, "5-", "５弱"),
    IntensityLevel(6, "5+", "５強"),
    IntensityLevel(7, "6-", "６弱"),
    IntensityLevel(8, "6+", "６強"),
    IntensityLevel(9, "7", "７級")
  ]

  /** A lookup in the `Intensity` table by value: the first entry of `t` with value v. */
  function FindValue(t: seq<IntensityLevel>, v: int): (r: Option<IntensityLevel>)
    ensures r.Some? ==> r.value in t && r.value.value == v
    ensures r.None? ==> forall i :: 0 <= i < |t| ==> t[i].value != v
  {
    if t == [] then None else if t[0].value == v then Some(t[0]) else FindValue(t[1..], v)
  }

  /** A lookup in the `Intensity` table by label: the first entry of `t` with the given tag. */
  function FindTag(t: seq<IntensityLevel>, tag: string): (r: Option<IntensityLevel>)
    ensures r.Some? ==> r.value in t && r.value.tag == tag
    ensures r.None? ==> forall i :: 0 <= i < |t| ==> t[i].tag != tag
  {
    if t == [] then None else if t[0].tag == tag then Some(t[0]) else FindTag(t[1..], tag)
  }

  /** The lookup by value returns the first entry with that value. */
  lemma {:induction false} FindValueFirst(t: seq<IntensityLevel>, v: int, i: int)
    requires 0 <= i < |t| && t[i].value == v
    requires forall j :: 0 <= j < i ==> t[j].value != v
    ensures FindValue(t, v) == Some(t[i])
    decreases i
  {
    if i > 0 {
      FindValueFirst(t[1..], v, i - 1);
    }
  }

  /** The lookup by tag returns the first entry with that tag. */
  lemma {:induction false} FindTagFirst(t: seq<IntensityLevel>, tag: string, i: int)
    requires 0 <= i < |t| && t[i].tag == tag
    requires forall j :: 0 <= j < i ==> t[j].tag != tag
    ensures FindTag(t, tag) == Some(t[i])
    decreases i
  {
    if i > 0 {
      FindTagFirst(t[1..], tag, i - 1);
    }
  }

  /** The level of an intensity value. */
  function LevelOf(v: int): Option<IntensityLevel> {
    FindValue(IntensityTable, v)
  }

  /** The value of an intensity tag. */
  function ValueOfTag(tag: string): Option<int> {
    match FindTag(IntensityTable, tag)
    case Some(l) => Some(l.value)
    case None => None
  }

  /** The table is indexed by value, and no two levels share a tag or a text. */
  lemma IntensityTableShape()
    ensures |IntensityTable| == 10
    ensures forall i :: 0 <= i < 10 ==> IntensityTable[i].value == i
    ensures forall i, j :: 0 <= i < j < 10 ==> IntensityTable[i].tag != IntensityTable[j].tag
    ensures forall i, j :: 0 <= i < j < 10 ==> IntensityTable[i].text != IntensityTable[j].text
  {
  }

  /** Exactly the values 0 to 9 have a level, and the level of v is the table's entry v. */
  lemma LevelOfRange(v: int)
    ensures LevelOf(v).Some? <==> 0 <= v <= 9
    ensures 0 <= v <= 9 ==> LevelOf(v) == Some(IntensityTable[v])
  {
    IntensityTableShape();
    var t := IntensityTable;
    if 0 <= v <= 9 {
      FindValueIndexed(t, v, 0);
    }
  }

  /** In a run of entries whose values count up from `base`, value v is found at index v - base. */
  lemma {:induction false} FindValueIndexed(t: seq<IntensityLevel>, v: int, base: int)
    requires forall i :: 0 <= i < |t| ==> t[i].value == base + i
    requires base <= v < base + |t|
    ensures FindValue(t, v) == Some(t[v - base])
    decreases |t|
  {
    if t[0].value != v {
      FindValueIndexed(t[1..], v, base + 1);
    }
  }

  /** Looking a tag up by value and reading it back gives the value again. */
  lemma TagRoundTrip(v: int)
    requires 0 <= v <= 9
    ensures ValueOfTag(LevelOf(v).value.tag) == Some(v)
  {
    LevelOfRange(v);
    IntensityTableShape();
    var tag := IntensityTable[v].tag;
    var found := FindTag(IntensityTable, tag);
    assert found.Some? by { assert IntensityTable[v].tag == tag; }
    var i :| 0 <= i < |IntensityTable| && IntensityTable[i] == found.value;
    assert i == v;
  }

  // ---------------------------------------------------------------------------
  // `#get`: the parsed body for a 2xx status, an error otherwise
  // ---------------------------------------------------------------------------

  /** `#get(url)`: the parsed body, or an Error whose message names the status. */
  function Get<T>(res: Response<T>): (r: Result<T>)
    ensures r.Ok? <==> IsOk(res.status)
    ensures r.Ok? ==> r.value == res.body
    ensures r.Err? ==> r.error == "Server returned " + IntToString(res.status)
  {
    if IsOk(res.status) then Ok(res.body) else Err("Server returned " + IntToString(res.status))
  }

  // ---------------------------------------------------------------------------
  // `getReports`
  // ---------------------------------------------------------------------------

  /**
   * `getReports(limit)` given the server's response: every report of the list gets its
   * `no` from its id, in place; a failed request is rethrown with a prefix.
   */
  method GetReports(res: Response<seq<PartialReport>>) returns (r: Result<seq<PartialReport>>)
    ensures r.Ok? <==> IsOk(res.status)
    ensures r.Err? ==> r.error == "Failed to get reports. Error: Server returned " + IntToString(res.status)
    ensures r.Ok? ==> |r.value| == |res.body|
    ensures r.Ok? ==> forall i :: 0 <= i < |res.body| ==>
                        r.value[i].no == Some(ToNumber(SplitFirst(res.body[i].id, '-')))
                        && r.value[i].(no := res.body[i].no) == res.body[i]
  {
    var got := Get(res);
    if got.Err? {
      return Err("Failed to get reports. " + ErrorText("Error", got.error));
    }
    var list := got.value;
    var data := new PartialReport[|list|](i requires 0 <= i < |list| => list[i]);
    NumberReports(data);
    return Ok(data[..]);
  }

  // ---------------------------------------------------------------------------
  // `getReport`
  // ---------------------------------------------------------------------------

  /**
   * `getReport(id)` given the server's response: the shaped report, whose overall
   * intensity bounds every area's and whose areas and stations are sorted by
   * intensity, non-increasing; a failed request is rethrown naming the id.
   */
  function GetReport(id: string, res: Response<RawReport>): (r: Result<Report>)
    ensures r.Ok? <==> IsOk(res.status)
    ensures r.Err? ==> r.error == "Failed to get report " + id + ". " + ErrorText("Error", "Server returned " + IntToString(res.status))
    ensures r.Ok? ==> ShapedFrom(res.body, r.value)
  {
    if !IsOk(res.status) then Err("Failed to get report " + id + ". " + ErrorText("Error", "Server returned " + IntToString(res.status)))
    else
      ShapeReportShapedFrom(res.body);
      Ok(ShapeReport(res.body))
  }

  // ---------------------------------------------------------------------------
  // `getStations`
  // ---------------------------------------------------------------------------

  /** One installation record of a station; `code` is the key of its district in `Code`. */
  datatype StationInfo = StationInfo(code: string, lon: real, lat: real, time: string)

  /** A station; `city` and `town` are absent until annotated, and stay so for an unknown code. */
  datatype Station = Station(net: string, info: seq<StationInfo>, city: Option<string>, town: Option<string>, work: bool)

  /** An entry of the district table `Code`. */
  datatype Location = Location(city: string, town: string)

  /** The city of a district key in `Code`, absent for an unknown key. */
  function CityOf(code: map<string, Location>, key: string): Option<string> {
    if key in code then Some(code[key].city) else None
  }

  /** The town of a district key in `Code`, absent for an unknown key. */
  function TownOf(code: map<string, Location>, key: string): Option<string> {
    if key in code then Some(code[key].town) else None
  }

  /** The message V8 gives reading `code` of the missing `info[0]`. */
  const MissingInfoError: string := "TypeError: Cannot read properties of undefined (reading 'code')"

  /**
   * The entry `after` is the station entry `before` annotated: same key, the city and town
   * of the district of its first record, and every other field as it was.
   */
  predicate AnnotatedEntry(code: map<string, Location>, before: (string, Station), after: (string, Station))
    requires before.1.info != []
  {
    var key := before.1.info[0].code;
    after.0 == before.0
    && after.1.city == CityOf(code, key)
    && after.1.town == TownOf(code, key)
    && after.1.(city := before.1.city, town := before.1.town) == before.1
  }

  /** The station entry annotated from the district of its first record. */
  function Annotate(code: map<string, Location>, entry: (string, Station)): (r: (string, Station))
    requires entry.1.info != []
    ensures AnnotatedEntry(code, entry, r)
  {
    var key := entry.1.info[0].code;
    (entry.0, entry.1.(city := CityOf(code, key), town := TownOf(code, key)))
  }

  /** Every station of the list has at least one record. */
  predicate AllHaveInfo(stations: Object<Station>) {
    forall i :: 0 <= i < |stations| ==> stations[i].1.info != []
  }

  /**
   * `getStations()` given the server's response and the district table: each station,
   * in key order, gets the city and town of the district of its first record; a station
   * with no record makes the whole call fail.
   */
  method GetStations(res: Response<Object<Station>>, code: map<string, Location>) returns (r: Result<Object<Station>>)
    ensures !IsOk(res.status) ==> r == Err("Failed to get station data. Error: Server returned " + IntToString(res.status))
    ensures IsOk(res.status) && !AllHaveInfo(res.body) ==> r == Err("Failed to get station data. " + MissingInfoError)
    ensures IsOk(res.status) && AllHaveInfo(res.body) ==>
              r.Ok? && |r.value| == |res.body|
              && forall i :: 0 <= i < |res.body| ==> AnnotatedEntry(code, res.body[i], r.value[i])
  {
    if !IsOk(res.status) {
      return Err("Failed to get station data. " + ErrorText("Error", Get(res).error));
    }
    var stations := res.body;
    for i := 0 to |stations|
      invariant |stations| == |res.body|
      invariant forall j :: 0 <= j < i ==> res.body[j].1.info != [] && AnnotatedEntry(code, res.body[j], stations[j])
      invariant stations[i..] == res.body[i..]
    {
      assert stations[i] == res.body[i];
      if stations[i].1.info == [] {
        return Err("Failed to get station data. " + MissingInfoError);
      }
      stations := stations[i := Annotate(code, stations[i])];
    }
    return Ok(stations);
  }
}
