/** The client of the DegenBrain API (shared/api.py): the 15-minute gate on fetching
    statement chunks, the conversion of a chunk into statements, the formatting of miner
    responses for submission, and the module-level task fetch. HTTP exchanges, the clock and
    the loaded configuration are parameters. */
module Api {
  import opened Wrappers
  import opened Json
  import opened Text
  import opened Types

  /** Fifteen minutes, in seconds. */
  const MinFetchInterval: real := 900.0

  /** The outcome of one HTTP request: a status with the body (None when it is not JSON), or
      a transport failure. */
  datatype Reply = Answered(status: int, body: Option<Value>) | RequestFailed(message: string)

  /** `raise_for_status` lets exactly the 2xx statuses through. */
  predicate Success(status: int) {
    200 <= status < 300
  }

  /** A required string field of a chunk entry. */
  function RequiredStr(d: Object, key: string): Option<string> {
    if key in d && d[key].Str? then Some(d[key].s) else None
  }

  /** One entry of a chunk as a `Statement`: `id`, `statement`, `end_date` and `createdAt`
      are read by subscript (a missing one raises `KeyError`), the others with `.get`.
      Entries that are not dicts raise. A value whose type is not the field's is also read
      as raising here, although the dataclass constructor checks no types and would keep
      it. */
  function StatementOf(v: Value): (r: Option<Statement>)
    ensures r.Some? <==> (v.Obj? && "id" in v.fields && OptStr(v.fields, "id").Some?
      && RequiredStr(v.fields, "statement").Some? && RequiredStr(v.fields, "end_date").Some?
      && RequiredStr(v.fields, "createdAt").Some? && OptNum(v.fields, "initialValue").Some?
      && OptStr(v.fields, "direction").Some? && OptStr(v.fields, "category").Some?)
    ensures r.Some? ==>
      && r.value.statement == v.fields["statement"].s && r.value.endDate == v.fields["end_date"].s
      && r.value.createdAt == v.fields["createdAt"].s && r.value.id == OptStr(v.fields, "id").value
      && r.value.initialValue == OptNum(v.fields, "initialValue").value
      && r.value.direction == OptStr(v.fields, "direction").value
      && r.value.category == OptStr(v.fields, "category").value
  {
    if !v.Obj? || "id" !in v.fields then None
    else
      var d := v.fields;
      match (OptStr(d, "id"), RequiredStr(d, "statement"), RequiredStr(d, "end_date"), RequiredStr(d, "createdAt"),
             OptNum(d, "initialValue"), OptStr(d, "direction"), OptStr(d, "category"))
      case (Some(id), Some(text), Some(endDate), Some(createdAt), Some(iv), Some(dir), Some(cat)) =>
        Some(Statement(text, endDate, createdAt, iv, dir, id, cat))
      case _ => None
  }

  /** A statement's own dict reads back as that statement. */
  lemma ChunkEntryRoundTrip(s: Statement)
    ensures StatementOf(Obj(s.ToDict())) == Some(s)
  {
    var d := s.ToDict();
    assert OptStr(d, "id") == Some(s.id);
    assert OptNum(d, "initialValue") == Some(s.initialValue);
    assert OptStr(d, "direction") == Some(s.direction);
    assert OptStr(d, "category") == Some(s.category);
  }

  /** The entries of a chunk, all converted, or None when one of them raises. */
  function Converted(items: seq<Value>): (r: Option<seq<Statement>>)
    ensures r.Some? <==> forall i :: 0 <= i < |items| ==> StatementOf(items[i]).Some?
    ensures r.Some? ==> |r.value| == |items| && forall i :: 0 <= i < |items| ==> Some(r.value[i]) == StatementOf(items[i])
    decreases |items|
  {
    if |items| == 0 then Some([])
    else
      var init := items[..|items| - 1];
      assert forall i :: 0 <= i < |init| ==> init[i] == items[i];
      match (Converted(init), StatementOf(items[|items| - 1]))
      case (Some(ss), Some(s)) => Some(ss + [s])
      case _ => None
  }

  /** The statements of a successful response: the body must be a JSON dict, and its
      `statements` (default []) a list whose every entry converts. An empty dict or string
      iterates to nothing; any other value raises. */
  function Chunk(body: Option<Value>): (r: Result<seq<Statement>>)
    ensures r.Ok? ==> body.Some? && body.value.Obj?
    ensures body.Some? && body.value.Obj? && Get(body.value.fields, "statements", Arr([])).Arr? ==>
      var items := Get(body.value.fields, "statements", Arr([])).items;
      (r.Ok? <==> Converted(items).Some?) && (r.Ok? ==> r.value == Converted(items).value)
  {
    if body.None? then Err(Exception("JSONDecodeError"))
    else if !body.value.Obj? then Err(Exception("AttributeError: object has no attribute 'get'"))
    else
      match Get(body.value.fields, "statements", Arr([]))
      case Arr(items) =>
        (match Converted(items)
         case Some(ss) => Ok(ss)
         case None => Err(Exception("KeyError")))
      case Obj(m) => if |m| == 0 then Ok([]) else Err(Exception("TypeError: string indices must be integers"))
      case Str(s) => if |s| == 0 then Ok([]) else Err(Exception("TypeError: string indices must be integers"))
      case _ => Err(Exception("TypeError: object has no len()"))
  }

  /** One call of `fetch_statements`, from the time of the last successful fetch: the new
      time of last fetch and the result. Within 15 minutes nothing is requested. A request
      that fails, or a configuration that cannot be read, raises. A 2xx response moves the
      time of last fetch to `now`, even if its body then fails to convert; a 429 gives no
      statements and leaves it; any other status raises. */
  function FetchStep(last: real, now: real, config: Result<SubnetConfig>, reply: Reply): (r: (real, Result<seq<Statement>>))
    ensures now - last < MinFetchInterval ==> r == (last, Ok([]))
    ensures now - last >= MinFetchInterval && config.Ok? && reply.Answered? && Success(reply.status) ==>
      r == (now, Chunk(reply.body))
    ensures config.Ok? && reply.Answered? && reply.status == 429 ==> r == (last, Ok([]))
  {
    if now - last < MinFetchInterval then (last, Ok([]))
    else if config.Err? then (last, Err(config.error))
    else
      match reply
      case RequestFailed(message) => (last, Err(Exception(message)))
      case Answered(status, body) =>
        if Success(status) then (now, Chunk(body))
        else if status == 429 then (last, Ok([]))
        else (last, Err(Exception("HTTPStatusError")))
  }

  /** The gate: the time of last fetch only ever moves to the time of a call made at least
      15 minutes after it, so successive fetches are at least 15 minutes apart; and a
      statement is only ever returned by a call that moved it. */
  lemma FetchSpacing(last: real, now: real, config: Result<SubnetConfig>, reply: Reply)
    ensures var r := FetchStep(last, now, config, reply);
      r.0 == last || (r.0 == now && now - last >= MinFetchInterval)
    ensures var r := FetchStep(last, now, config, reply);
      r.1.Ok? && |r.1.value| > 0 ==> r.0 == now && now - last >= MinFetchInterval
    ensures var r := FetchStep(last, now, config, reply);
      r.0 != last ==> reply.Answered? && Success(reply.status)
  {
  }

  /** A request that fails or is refused, a 429 included, does not move the gate: the next
      call may try again at once. */
  lemma FailureKeepsGate(last: real, now: real, config: Result<SubnetConfig>, reply: Reply)
    requires !(reply.Answered? && Success(reply.status))
    ensures FetchStep(last, now, config, reply).0 == last
  {
  }

  // ---- submission ----

  /** `str(response.miner_uid)`. */
  function MinerIdText(uid: Option<int>): string {
    match uid
    case None => "None"
    case Some(n) => IntToString(n)
  }

  /** The dict submitted for one miner response. */
  function Formatted(m: MinerResponse): (d: Object)
    ensures d.Keys == {"miner_id", "resolution", "confidence", "summary", "sources"}
    ensures d["miner_id"] == Str(MinerIdText(m.minerUid)) && d["resolution"] == Str(m.resolution.Value())
    ensures d["confidence"] == Num(m.confidence) && d["summary"] == Str(m.summary)
    ensures d["sources"] == Strs(m.sources)
  {
    map["miner_id" := Str(MinerIdText(m.minerUid)), "resolution" := Str(m.resolution.Value()),
        "confidence" := Num(m.confidence), "summary" := Str(m.summary), "sources" := Strs(m.sources)]
  }

  /** A submitted entry reads back: `int` of its miner id is the miner's uid (and fails
      exactly when there is none), its resolution parses to the response's, and its sources
      are the response's. */
  lemma FormattedReadsBack(m: MinerResponse)
    ensures ParseInt(Formatted(m)["miner_id"].s) == m.minerUid
    ensures ParseResolution(Formatted(m)["resolution"].s) == Some(m.resolution)
    ensures AsStrings(Formatted(m)["sources"]) == Some(m.sources)
  {
    match m.minerUid {
      case Some(n) => IntRoundTrip(n);
      case None =>
        assert SkipSpace("None", 0) == 0 && BackSpace("None", 0, 4) == 4;
        assert !IsDigit("None"[0]);
    }
    ResolutionRoundTrip(m.resolution, m.resolution);
    StringsRoundTrip(m.sources);
  }

  /** The `formatted_responses` loop: one entry per response, in order. */
  method FormatResponses(responses: seq<MinerResponse>) returns (r: seq<Value>)
    ensures |r| == |responses| && forall i :: 0 <= i < |responses| ==> r[i] == Obj(Formatted(responses[i]))
  {
    r := [];
    var i := 0;
    while i < |responses|
      invariant 0 <= i <= |responses| && |r| == i
      invariant forall j :: 0 <= j < i ==> r[j] == Obj(Formatted(responses[j]))
    {
      r := r + [Obj(Formatted(responses[i]))];
      i := i + 1;
    }
  }

  /** The `submit_miner_responses` payload. */
  function Submission(validatorId: string, formatted: seq<Value>): Object {
    map["validator_id" := Str(validatorId), "miner_responses" := Arr(formatted)]
  }

  /** `post_consensus`: only reading `consensus.get` can fail, so it reports success exactly
      for a dict. */
  function PostConsensus(statementId: string, consensus: Value): (ok: bool)
    ensures ok <==> consensus.Obj?
  {
    consensus.Obj?
  }

  /** The API client: its base URL and the time of its last successful fetch. */
  class ApiClient {
    const apiUrl: string
    var lastFetch: real

    /** `DegenBrainAPIClient.__init__`: the given URL, or the configured one when none (or an
        empty one) is given; no fetch yet. */
    constructor(apiUrl: Option<string>, configuredUrl: string)
      ensures apiUrl.Some? && apiUrl.value != "" ==> this.apiUrl == apiUrl.value
      ensures !(apiUrl.Some? && apiUrl.value != "") ==> this.apiUrl == configuredUrl
      ensures lastFetch == 0.0
    {
      this.apiUrl := if apiUrl.Some? && apiUrl.value != "" then apiUrl.value else configuredUrl;
      lastFetch := 0.0;
    }

    /** The conversion loop of `fetch_statements`: entries are converted in order and the
        first one that raises ends the call. */
    method ConvertStatements(items: seq<Value>) returns (r: Option<seq<Statement>>)
      ensures r == Converted(items)
    {
      var statements: seq<Statement> := [];
      var i := 0;
      while i < |items|
        invariant 0 <= i <= |items| && |statements| == i
        invariant forall j :: 0 <= j < i ==> StatementOf(items[j]) == Some(statements[j])
      {
        var s := StatementOf(items[i]);
        if s.None? {
          return None;
        }
        statements := statements + [s.value];
        i := i + 1;
      }
      assert Converted(items).Some?;
      assert Converted(items).value == statements;
      return Some(statements);
    }

    /** `fetch_statements`, with `now` the time read at the start of the call, `config` the
        configuration `get_config` yields and `reply` the outcome of the request, if one is
        made. `requested` is the URL and validator id of that request. */
    method FetchStatements(now: real, config: Result<SubnetConfig>, reply: Reply)
      returns (r: Result<seq<Statement>>, requested: Option<(string, string)>)
      modifies this
      ensures (lastFetch, r) == FetchStep(old(lastFetch), now, config, reply)
      ensures requested.Some? <==> now - old(lastFetch) >= MinFetchInterval && config.Ok?
      ensures requested.Some? ==> requested.value == (apiUrl + "/api/test/next-chunk", config.value.validatorId)
    {
      if now - lastFetch < MinFetchInterval {
        return Ok([]), None;
      }
      if config.Err? {
        return Err(config.error), None;
      }
      requested := Some((apiUrl + "/api/test/next-chunk", config.value.validatorId));
      match reply {
        case RequestFailed(message) =>
          r := Err(Exception(message));
        case Answered(status, body) =>
          if !Success(status) {
            r := if status == 429 then Ok([]) else Err(Exception("HTTPStatusError"));
            return;
          }
          lastFetch := now;
          if body.None? {
            r := Err(Exception("JSONDecodeError"));
          } else if !body.value.Obj? {
            r := Err(Exception("AttributeError: object has no attribute 'get'"));
          } else {
            var statements := Get(body.value.fields, "statements", Arr([]));
            match statements {
              case Arr(items) =>
                var converted := ConvertStatements(items);
                r := if converted.Some? then Ok(converted.value) else Err(Exception("KeyError"));
              case Obj(m) =>
                r := if |m| == 0 then Ok([]) else Err(Exception("TypeError: string indices must be integers"));
              case Str(s) =>
                r := if |s| == 0 then Ok([]) else Err(Exception("TypeError: string indices must be integers"));
              case _ =>
                r := Err(Exception("TypeError: object has no len()"));
            }
          }
      }
    }

    /** `submit_miner_responses`: the formatted responses are posted to the statement's
        resource; success means a 2xx answer whose body is a JSON dict (its `.get` is read),
        and nothing raises. */
    method SubmitMinerResponses(statementId: string, validatorId: string, responses: seq<MinerResponse>, reply: Reply)
      returns (ok: bool, url: string, payload: Object)
      ensures ok <==> reply.Answered? && Success(reply.status) && reply.body.Some? && reply.body.value.Obj?
      ensures url == apiUrl + "/api/markets/" + statementId + "/responses"
      ensures "validator_id" in payload && payload["validator_id"] == Str(validatorId)
      ensures "miner_responses" in payload && payload["miner_responses"].Arr?
      ensures var sent := payload["miner_responses"].items;
        |sent| == |responses| && forall i :: 0 <= i < |responses| ==> sent[i] == Obj(Formatted(responses[i]))
    {
      var formatted := FormatResponses(responses);
      payload := Submission(validatorId, formatted);
      url := apiUrl + "/api/markets/" + statementId + "/responses";
      ok := reply.Answered? && Success(reply.status) && reply.body.Some? && reply.body.value.Obj?;
    }
  }

  /** What `get_task` returns: a fresh client (so the gate is open once the clock is past
      15 minutes) fetches once; the first statement, or None when there is none or anything
      raised, the configuration included. */
  function Task(config: Result<SubnetConfig>, now: real, reply: Reply): (r: Option<Statement>)
    ensures config.Err? ==> r.None?
    ensures config.Ok? ==>
      var fetched := FetchStep(0.0, now, config, reply).1;
      (r.Some? <==> fetched.Ok? && |fetched.value| > 0) && (r.Some? ==> r.value == fetched.value[0])
  {
    if config.Err? then None
    else
      match FetchStep(0.0, now, config, reply).1
      case Ok(ss) => if |ss| > 0 then Some(ss[0]) else None
      case Err(_) => None
  }

  /** `get_task` never raises; a task it returns is the first entry of a 2xx chunk. */
  lemma TaskComesFromChunk(config: Result<SubnetConfig>, now: real, reply: Reply)
    requires Task(config, now, reply).Some?
    ensures reply.Answered? && Success(reply.status) && reply.body.Some? && reply.body.value.Obj?
    ensures now >= MinFetchInterval
  {
  }

  /** `get_task`, step by step. */
  method GetTask(config: Result<SubnetConfig>, now: real, reply: Reply) returns (r: Option<Statement>)
    ensures r == Task(config, now, reply)
  {
    if config.Err? {
      return None;
    }
    var client := new ApiClient(None, config.value.apiUrl);
    var fetched, _ := client.FetchStatements(now, config, reply);
    if fetched.Err? || |fetched.value| == 0 {
      return None;
    }
    return Some(fetched.value[0]);
  }
}
