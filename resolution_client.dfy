/** The resolution API client (miner/agents/resolution_api_client.py): base URL
    normalisation, the lookup of one statement's resolution, and the mapping of the API's
    answer onto the miner response fields. The HTTP exchange is a parameter. */
module ResolutionClient {
  import opened Wrappers
  import opened Json
  import opened Text

  const DefaultApiUrl := "https://api.subnet90.com"

  /** `api_url.rstrip('/')`: every trailing slash is removed and nothing else changes. */
  function NormalizeUrl(url: string): (r: string)
    ensures |r| <= |url| && r == url[..|r|]
    ensures |r| > 0 ==> r[|r| - 1] != '/'
    ensures forall i :: |r| <= i < |url| ==> url[i] == '/'
  {
    StripRightChar(url, '/')
  }

  /** Normalising twice is normalising once, and trailing slashes make no difference. */
  lemma {:induction false} NormalizeUrlStable(url: string)
    ensures NormalizeUrl(NormalizeUrl(url)) == NormalizeUrl(url)
    ensures NormalizeUrl(url + "/") == NormalizeUrl(url)
  {
    var r := NormalizeUrl(url);
    assert NormalizeUrl(r) == r by {
      if |r| > 0 { assert r[|r| - 1] != '/'; }
    }
    assert (url + "/")[..|url|] == url;
  }

  /** The resource holding one statement's resolution. */
  function ResolutionUrl(apiUrl: string, statementId: string): (r: string)
    ensures |r| == |apiUrl| + 17 + |statementId|
    ensures StartsWith(r, apiUrl) && EndsWith(r, statementId)
    ensures r[|apiUrl|..|r| - |statementId|] == "/api/resolutions/"
  {
    var r := apiUrl + "/api/resolutions/" + statementId;
    assert r[..|apiUrl|] == apiUrl;
    assert r[|r| - |statementId|..] == statementId;
    r
  }

  /** What the request produced: a status with the body (None when it is not JSON), an
      `aiohttp.ClientError`, or any other exception. */
  datatype Exchange = Status(code: int, body: Option<Value>) | ClientError(message: string) | OtherError(message: string)

  /** A statement id `get_resolution` will look up: present and non-empty. */
  predicate HasId(statementId: Option<string>) {
    statementId.Some? && |statementId.value| > 0
  }

  /** The result of `get_resolution`: only a 200 whose body is a JSON object yields data (the
      logging call reads the body with `.get`, so any other body raises and is caught); a 404,
      another status and both kinds of exception give None. */
  function ResolutionResult(statementId: Option<string>, reply: Exchange): (r: Option<Value>)
    ensures !HasId(statementId) ==> r.None?
    ensures r.Some? <==> HasId(statementId) && reply.Status? && reply.code == 200
                         && reply.body.Some? && reply.body.value.Obj?
    ensures r.Some? ==> r == reply.body
  {
    if !HasId(statementId) then None
    else match reply
      case Status(code, body) =>
        if code == 200 && body.Some? && body.value.Obj? then body else None
      case ClientError(_) => None
      case OtherError(_) => None
  }

  /** The client: its normalised base URL and whether it has opened its HTTP session. */
  class Client {
    var apiUrl: string
    var sessionOpen: bool

    /** `ResolutionAPIClient.__init__` */
    constructor(apiUrl: string)
      ensures this.apiUrl == NormalizeUrl(apiUrl) && !sessionOpen
    {
      this.apiUrl := NormalizeUrl(apiUrl);
      sessionOpen := false;
    }

    /** `get_resolution`. Without an id nothing is requested and no session is opened;
        otherwise the session is opened if needed and the statement's resource is requested.
        It never raises. `requested` is the URL fetched, if any. */
    method GetResolution(statementId: Option<string>, reply: Exchange) returns (r: Option<Value>, requested: Option<string>)
      modifies this
      ensures apiUrl == old(apiUrl)
      ensures sessionOpen == (old(sessionOpen) || HasId(statementId))
      ensures requested.Some? <==> HasId(statementId)
      ensures requested.Some? ==> requested.value == ResolutionUrl(apiUrl, statementId.value)
      ensures r == ResolutionResult(statementId, reply)
    {
      if !HasId(statementId) {
        return None, None;
      }
      if !sessionOpen {
        sessionOpen := true;
      }
      requested := Some(ResolutionUrl(apiUrl, statementId.value));
      match reply {
        case Status(code, body) =>
          if code == 200 && body.Some? && body.value.Obj? {
            r := body;
          } else {
            r := None;
          }
        case ClientError(_) =>
          r := None;
        case OtherError(_) =>
          r := None;
      }
    }
  }

  const ConvertedKeys: set<string> :=
    {"statement", "resolution", "confidence", "summary", "sources", "reasoning",
     "target_value", "current_value", "timestamp"}

  const SummaryPrefix := "Official resolution from subnet API: "

  /** `convert_to_miner_response`: the statement is echoed, the resolution passed through
      unchecked (default "PENDING"), the confidence converted with `float` (default 0.0),
      the summary built from the reasoning, and sources, target and current value read from
      the `evidence` dict. It raises when `evidence` is not a dict or the confidence does not
      convert. `nowIso` is the default timestamp and `show` renders a reasoning that is not a
      string. */
  function ConvertToMinerResponse(api: Object, statement: string, nowIso: string, show: Value -> string): (r: Result<Object>)
    ensures r.Ok? <==> Get(api, "evidence", Obj(map[])).Obj? && ToFloat(Get(api, "confidence", Num(0.0))).Some?
    ensures r.Ok? ==> r.value.Keys == ConvertedKeys
    ensures r.Ok? ==>
      && r.value["statement"] == Str(statement)
      && r.value["resolution"] == Get(api, "resolution", Str("PENDING"))
      && r.value["confidence"] == Num(ToFloat(Get(api, "confidence", Num(0.0))).value)
      && r.value["reasoning"] == Get(api, "reasoning", Str(""))
      && r.value["timestamp"] == Get(api, "resolved_at", Str(nowIso))
    ensures r.Ok? ==>
      var evidence := Get(api, "evidence", Obj(map[])).fields;
      && r.value["sources"] == Get(evidence, "sources", Strs(["subnet_api"]))
      && r.value["target_value"] == Get(evidence, "target_price", Null)
      && r.value["current_value"] == Get(evidence, "final_price", Null)
    ensures r.Ok? ==> r.value["summary"].Str? && StartsWith(r.value["summary"].s, SummaryPrefix)
    ensures r.Ok? && "reasoning" !in api ==> r.value["summary"] == Str(SummaryPrefix + "No reasoning provided")
    ensures r.Ok? && "reasoning" in api && api["reasoning"].Str? ==> r.value["summary"] == Str(SummaryPrefix + api["reasoning"].s)
  {
    var evidence := Get(api, "evidence", Obj(map[]));
    var confidence := ToFloat(Get(api, "confidence", Num(0.0)));
    if confidence.None? then Err(Exception("ValueError: could not convert to float"))
    else if !evidence.Obj? then Err(Exception("AttributeError: object has no attribute 'get'"))
    else
      var summary := SummaryPrefix + Render(Get(api, "reasoning", Str("No reasoning provided")), show);
      assert summary[..|SummaryPrefix|] == SummaryPrefix;
      Ok(map[
        "statement" := Str(statement),
        "resolution" := Get(api, "resolution", Str("PENDING")),
        "confidence" := Num(confidence.value),
        "summary" := Str(summary),
        "sources" := Get(evidence.fields, "sources", Strs(["subnet_api"])),
        "reasoning" := Get(api, "reasoning", Str("")),
        "target_value" := Get(evidence.fields, "target_price", Null),
        "current_value" := Get(evidence.fields, "final_price", Null),
        "timestamp" := Get(api, "resolved_at", Str(nowIso))])
  }
}
