/**
 * The static `Route` of the newer client: report URLs go to `api-N.exptech.com.tw`
 * (N of 2) under `/api/v2`, real-time URLs to `lb-N.exptech.com.tw` (N of 4) under
 * `/api/v1`, and the station list to a fixed file. Each getter draws `Math.random()`
 * anew; its draw is the parameter r.
 */
module ClassRoute {
  import opened Js

  /** `Route.lbUrl`. */
  function LbUrl(r: real): string
    requires 0.0 <= r < 1.0
  {
    "https://lb-" + IntToString(RandomIndex(r, 4)) + ".exptech.com.tw"
  }

  /** `Route.apiUrl`. */
  function ApiUrl(r: real): string
    requires 0.0 <= r < 1.0
  {
    "https://api-" + IntToString(RandomIndex(r, 2)) + ".exptech.com.tw"
  }

  /** `Route.station`: no random draw at all. */
  const StationUrl: string := "https://raw.githubusercontent.com/ExpTechTW/API/master/resource/station.json"

  /** `Route.reportList(limit = 50)`: the default replaces only an absent argument, not 0. */
  function ReportList(limit: Option<int>, r: real): string
    requires 0.0 <= r < 1.0
  {
    ApiUrl(r) + "/api/v2/eq/report?limit=" + IntToString(if limit.Some? then limit.value else 50)
  }

  /** `Route.report(id)`. */
  function Report(id: string, r: real): string
    requires 0.0 <= r < 1.0
  {
    ApiUrl(r) + "/api/v2/eq/report/" + id
  }

  /** `Route.rts(time)`: an absent time and 0 are both falsy. */
  function Rts(time: Option<int>, r: real): string
    requires 0.0 <= r < 1.0
  {
    if time.Some? && time.value != 0 then LbUrl(r) + "/api/v1/trem/rts/" + IntToString(time.value)
    else LbUrl(r) + "/api/v1/trem/rts"
  }

  /** `Route.eew(time)`: an absent time and 0 are both falsy. */
  function Eew(time: Option<int>, r: real): string
    requires 0.0 <= r < 1.0
  {
    if time.Some? && time.value != 0 then LbUrl(r) + "/api/v1/eq/eew/" + IntToString(time.value)
    else LbUrl(r) + "/api/v1/eq/eew"
  }

  // ---------------------------------------------------------------------------
  // Properties
  // ---------------------------------------------------------------------------

  /** The report host is `api-N` with N of 1 or 2, or 0 for a draw of exactly 0. */
  lemma ApiHostNumber(r: real)
    requires 0.0 <= r < 1.0
    ensures exists n :: 0 <= n <= 2 && ApiUrl(r) == "https://api-" + NatToString(n) + ".exptech.com.tw"
                        && (n == 0 <==> r == 0.0)
  {
    var n := RandomIndex(r, 2);
    assert ApiUrl(r) == "https://api-" + NatToString(n) + ".exptech.com.tw";
  }

  /**
   * The `limit` query value the server reads: 50 when no limit is passed, otherwise the
   * limit itself, 0 included.
   */
  lemma ReportListLimit(limit: Option<int>, r: real)
    requires 0.0 <= r < 1.0
    ensures var prefix := ApiUrl(r) + "/api/v2/eq/report?limit=";
            var url := ReportList(limit, r);
            prefix <= url && ToNumber(url[|prefix|..]) == Integer(if limit.None? then 50 else limit.value)
  {
    var prefix := ApiUrl(r) + "/api/v2/eq/report?limit=";
    var n := if limit.None? then 50 else limit.value;
    assert ReportList(limit, r)[|prefix|..] == IntToString(n);
    ToNumberOfIntToString(n);
  }

  /** Reports are under `/api/v2` on the `api-N` host, and the id closes the URL. */
  lemma ReportUrl(id: string, r: real)
    requires 0.0 <= r < 1.0
    ensures var prefix := ApiUrl(r) + "/api/v2/eq/report/";
            var url := Report(id, r);
            prefix <= url && url[|prefix|..] == id
  {
  }

  /** A stem followed by `/` and a suffix: the stem is a proper prefix, and the suffix reads back. */
  lemma SlashSuffix(stem: string, suffix: string)
    ensures var url := stem + "/" + suffix;
            stem <= url && url != stem && url[|stem|] == '/' && url[|stem| + 1..] == suffix
  {
    var url := stem + "/" + suffix;
    assert url[..|stem|] == stem;
    assert url[|stem| + 1..] == suffix;
  }

  /**
   * `/<time>` follows `/api/v1/trem/rts` exactly when the time is present and non-zero,
   * and then it reads back as that time.
   */
  lemma RtsTime(time: Option<int>, r: real)
    requires 0.0 <= r < 1.0
    ensures var stem := LbUrl(r) + "/api/v1/trem/rts";
            var url := Rts(time, r);
            stem <= url
            && (url == stem <==> time.None? || time.value == 0)
            && (url != stem ==> url[|stem|] == '/' && ToNumber(url[|stem| + 1..]) == Integer(time.value))
  {
    var stem := LbUrl(r) + "/api/v1/trem/rts";
    if time.Some? && time.value != 0 {
      var digits := IntToString(time.value);
      assert Rts(time, r) == stem + "/" + digits;
      SlashSuffix(stem, digits);
      ToNumberOfIntToString(time.value);
    }
  }

  /**
   * `/<time>` follows `/api/v1/eq/eew` exactly when the time is present and non-zero,
   * and then it reads back as that time.
   */
  lemma EewTime(time: Option<int>, r: real)
    requires 0.0 <= r < 1.0
    ensures var stem := LbUrl(r) + "/api/v1/eq/eew";
            var url := Eew(time, r);
            stem <= url
            && (url == stem <==> time.None? || time.value == 0)
            && (url != stem ==> url[|stem|] == '/' && ToNumber(url[|stem| + 1..]) == Integer(time.value))
  {
    var stem := LbUrl(r) + "/api/v1/eq/eew";
    if time.Some? && time.value != 0 {
      var digits := IntToString(time.value);
      assert Eew(time, r) == stem + "/" + digits;
      SlashSuffix(stem, digits);
      ToNumberOfIntToString(time.value);
    }
  }
}
