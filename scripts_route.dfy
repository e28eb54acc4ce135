/**
 * The URL builder of the TREM client's `Route` class: every URL goes to one of the
 * load-balanced hosts `lb-N.exptech.com.tw`, N drawn at random; API URLs carry the
 * version path `/api/v<version>`. The draw of `Math.random()` is the parameter r.
 */
module ScriptsRoute {
  import opened Js

  /** `RouteOptions`: both members may be absent. */
  datatype RouteOptions = RouteOptions(version: Option<int>, key: Option<string>)

  datatype Route = Route(version: int, key: string)

  /**
   * `new Route(options)`: `??` falls back to the default only for an absent member, so an
   * explicit version or key, even 0 or "", is kept. `new Route()` passes no member at all.
   */
  function NewRoute(options: RouteOptions): (route: Route)
    ensures route.version == (if options.version.Some? then options.version.value else 2)
    ensures route.key == (if options.key.Some? then options.key.value else "")
  {
    Route(match options.version case Some(v) => v case None => 2,
          match options.key case Some(k) => k case None => "")
  }

  /** `randomHostUrl()`. */
  function RandomHostUrl(r: real): string
    requires 0.0 <= r < 1.0
  {
    "https://lb-" + IntToString(RandomIndex(r, 4)) + ".exptech.com.tw"
  }

  /** `randomBaseUrl()`. */
  function RandomBaseUrl(route: Route, r: real): string
    requires 0.0 <= r < 1.0
  {
    RandomHostUrl(r) + "/api/v" + IntToString(route.version)
  }

  /** `websocket()`. */
  function WebSocketUrl(r: real): string
    requires 0.0 <= r < 1.0
  {
    "wss://lb-" + IntToString(RandomIndex(r, 4)) + ".exptech.com.tw/websocket"
  }

  /** `earthquakeReportList(limit)`: an absent limit and a limit of 0 are both falsy. */
  function EarthquakeReportList(route: Route, r: real, limit: Option<int>): string
    requires 0.0 <= r < 1.0
  {
    if limit.Some? && limit.value != 0 then RandomBaseUrl(route, r) + "/eq/report?limit=" + IntToString(limit.value)
    else RandomBaseUrl(route, r) + "/eq/report?limit=50"
  }

  /** `earthquakeReport(id)`. */
  function EarthquakeReport(route: Route, r: real, id: string): string
    requires 0.0 <= r < 1.0
  {
    RandomBaseUrl(route, r) + "/eq/report/" + id
  }

  /** `rts(timestamp)`: an absent timestamp and "" are both falsy. */
  function Rts(route: Route, r: real, timestamp: Option<string>): string
    requires 0.0 <= r < 1.0
  {
    if timestamp.Some? && timestamp.value != "" then RandomBaseUrl(route, r) + "/trem/rts/" + timestamp.value
    else RandomBaseUrl(route, r) + "/trem/rts"
  }

  /** `eew(timestamp)`: an absent timestamp and "" are both falsy. */
  function Eew(route: Route, r: real, timestamp: Option<string>): string
    requires 0.0 <= r < 1.0
  {
    if timestamp.Some? && timestamp.value != "" then RandomBaseUrl(route, r) + "/eq/eew/" + timestamp.value
    else RandomBaseUrl(route, r) + "/eq/eew"
  }

  /** `station()`. */
  function Station(r: real): string
    requires 0.0 <= r < 1.0
  {
    RandomHostUrl(r) + "/file/resource/station.json"
  }

  // ---------------------------------------------------------------------------
  // Properties
  // ---------------------------------------------------------------------------

  /** The host is `lb-N` with N between 1 and 4, or 0 for a draw of exactly 0. */
  lemma HostNumber(r: real)
    requires 0.0 <= r < 1.0
    ensures var prefix := "https://lb-";
            var url := RandomHostUrl(r);
            prefix <= url
            && (exists n :: 0 <= n <= 4 && url == prefix + NatToString(n) + ".exptech.com.tw" && (n == 0 <==> r == 0.0))
  {
    var n := RandomIndex(r, 4);
    assert RandomHostUrl(r) == "https://lb-" + NatToString(n) + ".exptech.com.tw";
  }

  /** The base URL is the host followed by `/api/v`, and its last part reads back as the version. */
  lemma BaseUrlVersion(route: Route, r: real)
    requires 0.0 <= r < 1.0
    ensures var prefix := RandomHostUrl(r) + "/api/v";
            var url := RandomBaseUrl(route, r);
            prefix <= url && ToNumber(url[|prefix|..]) == Integer(route.version)
  {
    var prefix := RandomHostUrl(r) + "/api/v";
    assert RandomBaseUrl(route, r)[|prefix|..] == IntToString(route.version);
    ToNumberOfIntToString(route.version);
  }

  /** The `limit` query value the server reads: the given limit when truthy, else 50. */
  lemma ReportListLimit(route: Route, r: real, limit: Option<int>)
    requires 0.0 <= r < 1.0
    ensures var prefix := RandomBaseUrl(route, r) + "/eq/report?limit=";
            var url := EarthquakeReportList(route, r, limit);
            prefix <= url
            && ToNumber(url[|prefix|..]) == Integer(if limit.Some? && limit.value != 0 then limit.value else 50)
  {
    var prefix := RandomBaseUrl(route, r) + "/eq/report?limit=";
    var n := if limit.Some? && limit.value != 0 then limit.value else 50;
    assert IntToString(50) == "50";
    assert EarthquakeReportList(route, r, limit) == prefix + IntToString(n);
    assert EarthquakeReportList(route, r, limit)[|prefix|..] == IntToString(n);
    ToNumberOfIntToString(n);
  }

  /** `/<timestamp>` follows `/trem/rts` exactly when the timestamp is a non-empty string. */
  lemma RtsSuffix(route: Route, r: real, timestamp: Option<string>)
    requires 0.0 <= r < 1.0
    ensures var stem := RandomBaseUrl(route, r) + "/trem/rts";
            var url := Rts(route, r, timestamp);
            stem <= url
            && (url == stem <==> timestamp.None? || timestamp.value == "")
            && (url != stem ==> url[|stem|..] == "/" + timestamp.value)
  {
    var stem := RandomBaseUrl(route, r) + "/trem/rts";
    if timestamp.Some? && timestamp.value != "" {
      assert Rts(route, r, timestamp) == stem + ("/" + timestamp.value);
    }
  }

  /** `/<timestamp>` follows `/eq/eew` exactly when the timestamp is a non-empty string. */
  lemma EewSuffix(route: Route, r: real, timestamp: Option<string>)
    requires 0.0 <= r < 1.0
    ensures var stem := RandomBaseUrl(route, r) + "/eq/eew";
            var url := Eew(route, r, timestamp);
            stem <= url
            && (url == stem <==> timestamp.None? || timestamp.value == "")
            && (url != stem ==> url[|stem|..] == "/" + timestamp.value)
  {
    var stem := RandomBaseUrl(route, r) + "/eq/eew";
    if timestamp.Some? && timestamp.value != "" {
      assert Eew(route, r, timestamp) == stem + ("/" + timestamp.value);
    }
  }

  /** The report URL ends with the id as given, after `/eq/report/` on the API base. */
  lemma ReportId(route: Route, r: real, id: string)
    requires 0.0 <= r < 1.0
    ensures var prefix := RandomBaseUrl(route, r) + "/eq/report/";
            var url := EarthquakeReport(route, r, id);
            prefix <= url && url[|prefix|..] == id
  {
  }

  /** The station URL is on the same host but not under the versioned API base. */
  lemma StationOutsideApi(route: Route, r: real)
    requires 0.0 <= r < 1.0
    ensures RandomHostUrl(r) <= Station(r)
    ensures !(RandomBaseUrl(route, r) <= Station(r))
  {
    var h := RandomHostUrl(r);
    assert Station(r)[|h| + 1] == 'f';
    assert RandomBaseUrl(route, r)[|h| + 1] == 'a';
  }

  /** The socket goes to the same `lb-N` host as the HTTP URLs of the same draw, over `wss`, at `/websocket`. */
  lemma WebSocketHost(r: real)
    requires 0.0 <= r < 1.0
    ensures WebSocketUrl(r) == "wss://" + RandomHostUrl(r)[|"https://"|..] + "/websocket"
  {
    var host := RandomHostUrl(r)[|"https://"|..];
    assert host == "lb-" + IntToString(RandomIndex(r, 4)) + ".exptech.com.tw";
  }
}
