/**
 * The newer client's `ExpTechApi`: a token it keeps, GET and POST wrappers that turn a
 * non-2xx status into an error, the post-processing of the report list and of a single
 * report, and the body of the login request. The response of each request is a parameter.
 */
module ClassApi {
  import opened Js
  import opened ReportShape

  /** What a login request carries: `AuthenticationDetail`. */
  datatype AuthenticationDetail = AuthenticationDetail(email: string, password: string, name: string)

  class ExpTechApi {
    var token: string

    /** `new ExpTechApi(token?)`: an absent or empty token is stored as "". */
    constructor (t: Option<string>)
      ensures token == if t.Some? then t.value else ""
      ensures token == "" <==> t.None? || t.value == ""
    {
      token := if t.Some? && t.value != "" then t.value else "";
    }

    /** `setToken(t)`. */
    method SetToken(t: string)
      modifies this
      ensures token == t
    {
      token := t;
    }

    /** `#get(url)`: the parsed body, or an Error whose message names the status. */
    static function Get<T>(res: Response<T>): (r: Result<T>)
      ensures r.Ok? <==> IsOk(res.status)
      ensures r.Ok? ==> r.value == res.body
      ensures r.Err? ==> r.error == "Server returned a status of " + IntToString(res.status)
    {
      if IsOk(res.status) then Ok(res.body) else Err("Server returned a status of " + IntToString(res.status))
    }

    /** `#post(url, body)`: the response itself, or an Error whose message names the status. */
    static function Post<T>(res: Response<T>): (r: Result<Response<T>>)
      ensures r.Ok? <==> IsOk(res.status)
      ensures r.Ok? ==> r.value == res
      ensures r.Err? ==> r.error == "Server returned " + IntToString(res.status)
    {
      if IsOk(res.status) then Ok(res) else Err("Server returned " + IntToString(res.status))
    }

    /**
     * `getReportList(limit)` given the server's response: every report of the list gets
     * its `no` from its id, in place, and nothing else changes.
     */
    static method GetReportList(res: Response<seq<PartialReport>>) returns (r: Result<seq<PartialReport>>)
      ensures r.Ok? <==> IsOk(res.status)
      ensures r.Err? ==> r.error == "Server returned a status of " + IntToString(res.status)
      ensures r.Ok? ==> |r.value| == |res.body|
      ensures r.Ok? ==> forall i :: 0 <= i < |res.body| ==>
                          r.value[i].no == Some(ToNumber(SplitFirst(res.body[i].id, '-')))
                          && r.value[i].(no := res.body[i].no) == res.body[i]
    {
      var got := Get(res);
      if got.Err? {
        return Err(got.error);
      }
      var list := got.value;
      var data := new PartialReport[|list|](i requires 0 <= i < |list| => list[i]);
      NumberReports(data);
      return Ok(data[..]);
    }

    /**
     * `getReport(id)` given the server's response: the shaped report, whose overall
     * intensity is the largest of 0 and the areas', whose areas and stations are sorted
     * by intensity, non-increasing, and which keeps every area key as an `area`.
     */
    static function GetReport(res: Response<RawReport>): (r: Result<Report>)
      ensures r.Ok? <==> IsOk(res.status)
      ensures r.Err? ==> r.error == "Server returned a status of " + IntToString(res.status)
      ensures r.Ok? ==> ShapedFrom(res.body, r.value)
    {
      if !IsOk(res.status) then Err(Get(res).error)
      else
        ShapeReportShapedFrom(res.body);
        Ok(ShapeReport(res.body))
    }

    /** The object `getAuthToken` sends as JSON: the password goes under `pass`. */
    static function AuthBody(options: AuthenticationDetail): (body: Object<string>)
      ensures Keys(body) == ["email", "pass", "name"] && UniqueKeys(body)
      ensures body[0].1 == options.email && body[1].1 == options.password && body[2].1 == options.name
    {
      [("email", options.email), ("pass", options.password), ("name", options.name)]
    }
  }
}
