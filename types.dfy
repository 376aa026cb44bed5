/** The response model of the subnet (shared/types.py): resolutions, prediction
    statements, miner responses with their validators, the proof hash input and
    the subnet configuration read from the environment. */
module Types {
  import opened Wrappers
  import opened Json
  import opened Text

  // ---- Resolution ----

  /** The three outcomes a statement can have; a `str` enum whose values are its names. */
  datatype Resolution = FALSE | TRUE | PENDING {
    function Value(): (r: string)
      ensures r in {"TRUE", "FALSE", "PENDING"}
    {
      match this
      case FALSE => "FALSE"
      case TRUE => "TRUE"
      case PENDING => "PENDING"
    }
  }

  /** `Resolution(s)`: a value lookup that fails for any other string. */
  function ParseResolution(s: string): (r: Option<Resolution>)
    ensures r.Some? <==> s in {"TRUE", "FALSE", "PENDING"}
    ensures r.Some? ==> r.value.Value() == s
  {
    if s == "TRUE" then Some(TRUE)
    else if s == "FALSE" then Some(FALSE)
    else if s == "PENDING" then Some(PENDING)
    else None
  }

  /** Every resolution reads back from its value, and distinct resolutions have distinct values. */
  lemma ResolutionRoundTrip(a: Resolution, b: Resolution)
    ensures ParseResolution(a.Value()) == Some(a)
    ensures a.Value() == b.Value() ==> a == b
  {
    assert ParseResolution(a.Value()).value.Value() == a.Value();
  }

  // ---- time ----

  /** A parsed ISO timestamp: with an offset it denotes a UTC instant (seconds), without one a
      local wall-clock reading (seconds). Python refuses to compare the two kinds. */
  datatype Instant = Aware(utc: int) | Naive(wall: int)

  /** The current time as both readings `datetime.now(tz)` can give. */
  datatype Clock = Clock(utc: int, localWall: int)

  /** `datetime.now(t.tzinfo) > t`: the clock of the same kind as `t` is strictly later. */
  predicate Passed(now: Clock, t: Instant) {
    match t
    case Aware(u) => now.utc > u
    case Naive(w) => now.localWall > w
  }

  /** One clock reading is no earlier than another on both scales. */
  predicate NotBefore(later: Clock, earlier: Clock) {
    later.utc >= earlier.utc && later.localWall >= earlier.localWall
  }

  /** The text handed to `datetime.fromisoformat`: a `Z` suffix spelled as `+00:00`. */
  function IsoText(s: string): (r: string)
    ensures 'Z' !in r
    ensures 'Z' !in s ==> r == s
  {
    ReplaceChar(s, 'Z', "+00:00")
  }

  // ---- Statement ----

  /** A prediction statement as the DegenBrain API delivers it. */
  datatype Statement = Statement(
    statement: string,
    endDate: string,
    createdAt: string,
    initialValue: Option<real> := None,
    direction: Option<string> := None,
    id: Option<string> := None,
    category: Option<string> := None)
  {
    /** `to_dict`: all seven keys, `None` as JSON null. */
    function ToDict(): (d: Object)
      ensures d.Keys == StatementKeys
      ensures d["statement"] == Str(statement) && d["end_date"] == Str(endDate)
      ensures d["createdAt"] == Str(createdAt)
    {
      map["statement" := Str(statement), "end_date" := Str(endDate), "createdAt" := Str(createdAt),
          "initialValue" := NumOrNull(initialValue), "direction" := StrOrNull(direction),
          "id" := StrOrNull(id), "category" := StrOrNull(category)]
    }

    /** `is_expired`: false when the deadline does not parse (or the comparison raises),
        otherwise whether the clock is strictly past it. */
    predicate IsExpired(parseIso: string -> Option<Instant>, now: Clock)
      ensures parseIso(IsoText(endDate)).None? ==> !IsExpired(parseIso, now)
      ensures forall u :: parseIso(IsoText(endDate)) == Some(Aware(u)) ==> (IsExpired(parseIso, now) <==> now.utc > u)
      ensures forall w :: parseIso(IsoText(endDate)) == Some(Naive(w)) ==> (IsExpired(parseIso, now) <==> now.localWall > w)
    {
      match parseIso(IsoText(endDate))
      case None => false
      case Some(t) => Passed(now, t)
    }
  }

  const StatementKeys: set<string> :=
    {"statement", "end_date", "createdAt", "initialValue", "direction", "id", "category"}
  const RequiredStatementKeys: set<string> := {"statement", "end_date", "createdAt"}

  function NumOrNull(x: Option<real>): Value {
    match x case Some(n) => Num(n) case None => Null
  }

  function StrOrNull(x: Option<string>): Value {
    match x case Some(s) => Str(s) case None => Null
  }

  /** An optional float field read from a dict: absent or null is None. */
  function OptNum(d: Object, key: string): Option<Option<real>> {
    if key !in d || d[key].Null? then Some(None)
    else if d[key].Num? then Some(Some(d[key].n))
    else None
  }

  /** An optional string field read from a dict: absent or null is None. */
  function OptStr(d: Object, key: string): Option<Option<string>> {
    if key !in d || d[key].Null? then Some(None)
    else if d[key].Str? then Some(Some(d[key].s))
    else None
  }

  /** `Statement.from_dict(d)`, i.e. `Statement(**d)`: an unknown key or a missing required key
      raises `TypeError`. A value whose type is not the field's is also read as raising here,
      although the dataclass constructor checks no types and would keep it. */
  function FromDict(d: Object): (r: Result<Statement>)
    ensures r.Ok? ==> d.Keys <= StatementKeys && RequiredStatementKeys <= d.Keys
    ensures !(d.Keys <= StatementKeys) ==> r.Err?
    ensures !(RequiredStatementKeys <= d.Keys) ==> r.Err?
  {
    if !(d.Keys <= StatementKeys) || !(RequiredStatementKeys <= d.Keys) then
      Err(Exception("TypeError"))
    else if !(d["statement"].Str? && d["end_date"].Str? && d["createdAt"].Str?) then
      Err(Exception("TypeError"))
    else
      match (OptNum(d, "initialValue"), OptStr(d, "direction"), OptStr(d, "id"), OptStr(d, "category"))
      case (Some(iv), Some(dir), Some(id), Some(cat)) =>
        Ok(Statement(d["statement"].s, d["end_date"].s, d["createdAt"].s, iv, dir, id, cat))
      case _ => Err(Exception("TypeError"))
  }

  /** `Statement.from_dict(s.to_dict()) == s`. */
  lemma StatementRoundTrip(s: Statement)
    ensures FromDict(s.ToDict()) == Ok(s)
  {
    var d := s.ToDict();
    assert OptNum(d, "initialValue") == Some(s.initialValue);
    assert OptStr(d, "direction") == Some(s.direction);
    assert OptStr(d, "id") == Some(s.id);
    assert OptStr(d, "category") == Some(s.category);
  }

  /** Conversely, whatever `from_dict` accepts is what `to_dict` gives back, apart from the
      optional keys the input left out, which come back as null. */
  lemma DictRoundTrip(d: Object)
    requires FromDict(d).Ok?
    ensures var e := FromDict(d).value.ToDict();
            forall k :: k in d ==> k in e && e[k] == d[k]
    ensures var e := FromDict(d).value.ToDict();
            forall k :: k in e && k !in d ==> e[k] == Null
  {
  }

  /** Expiry is monotone: once a statement has expired it stays expired as time goes on. */
  lemma ExpiryMonotone(s: Statement, parseIso: string -> Option<Instant>, earlier: Clock, later: Clock)
    requires NotBefore(later, earlier)
    requires s.IsExpired(parseIso, earlier)
    ensures s.IsExpired(parseIso, later)
  {
  }

  // ---- MinerResponse ----

  /** A validated miner response. */
  datatype MinerResponse = MinerResponse(
    statement: string,
    resolution: Resolution,
    confidence: real,
    summary: string,
    sources: seq<string>,
    reasoning: string,
    targetDate: Option<string>,
    targetValue: Option<real>,
    currentValue: Option<real>,
    directionInferred: Option<string>,
    proofHash: Option<string>,
    timestamp: string,
    minerUid: Option<int>)

  /** The keyword arguments handed to `MinerResponse(...)`, before validation. The resolution
      is the string the caller passed; an omitted timestamp is stamped at construction. */
  datatype Draft = Draft(
    statement: string,
    resolution: string,
    confidence: real,
    summary: string,
    sources: seq<string> := [],
    reasoning: string := "",
    targetDate: Option<string> := None,
    targetValue: Option<real> := None,
    currentValue: Option<real> := None,
    directionInferred: Option<string> := None,
    proofHash: Option<string> := None,
    timestamp: Option<string> := None,
    minerUid: Option<int> := None)

  const MaxSources := 10
  const MaxSummary := 1000
  const Ellipsis := "..."

  /** The `sources` validator. */
  function TruncateSources(v: seq<string>): (r: seq<string>)
    ensures |v| > MaxSources ==> r == v[..MaxSources]
    ensures |v| <= MaxSources ==> r == v
  {
    if |v| > MaxSources then v[..MaxSources] else v
  }

  /** The `summary` validator. */
  function TruncateSummary(v: string): (r: string)
    ensures |v| > MaxSummary ==> r == v[..MaxSummary] + Ellipsis
    ensures |v| <= MaxSummary ==> r == v
  {
    if |v| > MaxSummary then v[..MaxSummary] + Ellipsis else v
  }

  /** What the validators leave behind: at most 10 sources, a summary of at most 1003
      characters, and only summaries ending in "..." exceed 1000. */
  predicate WellFormed(r: MinerResponse) {
    |r.sources| <= MaxSources
    && |r.summary| <= MaxSummary + |Ellipsis|
    && (|r.summary| > MaxSummary ==> EndsWith(r.summary, Ellipsis))
  }

  /** The validators bound their outputs, keep a prefix of the input, and leave short input alone. */
  lemma TruncationBounds(v: seq<string>, s: string)
    ensures |TruncateSources(v)| <= MaxSources && TruncateSources(v) <= v
    ensures |TruncateSummary(s)| <= MaxSummary + |Ellipsis|
    ensures |TruncateSummary(s)| > MaxSummary ==> |s| > MaxSummary && EndsWith(TruncateSummary(s), Ellipsis)
    ensures TruncateSummary(s)[..if |s| < MaxSummary then |s| else MaxSummary] ==
            s[..if |s| < MaxSummary then |s| else MaxSummary]
  {
    if |s| > MaxSummary {
      var t := TruncateSummary(s);
      assert t[|t| - 3..] == Ellipsis;
      assert t[..MaxSummary] == s[..MaxSummary];
    }
  }

  /** Running the validators again changes nothing. */
  lemma TruncationIdempotent(v: seq<string>, s: string)
    ensures TruncateSources(TruncateSources(v)) == TruncateSources(v)
    ensures TruncateSummary(TruncateSummary(s)) == TruncateSummary(s)
  {
    if |s| > MaxSummary {
      var t := TruncateSummary(s);
      assert t[..MaxSummary] == s[..MaxSummary];
    }
  }

  /** `MinerResponse(**d)` with the clock's ISO reading `nowIso` as the default timestamp:
      a resolution outside the enum or a confidence outside [0, 100] raises a validation error;
      otherwise sources and summary pass through their validators and every other field is
      kept as given. */
  function Construct(d: Draft, nowIso: string): (r: Result<MinerResponse>)
    ensures r.Ok? <==> ParseResolution(d.resolution).Some? && 0.0 <= d.confidence <= 100.0
    ensures r.Ok? ==> WellFormed(r.value)
    ensures r.Ok? ==> r.value.resolution.Value() == d.resolution && r.value.confidence == d.confidence
    ensures r.Ok? ==> r.value.statement == d.statement && r.value.reasoning == d.reasoning
    ensures r.Ok? ==> r.value.targetDate == d.targetDate && r.value.targetValue == d.targetValue
    ensures r.Ok? ==> r.value.currentValue == d.currentValue && r.value.directionInferred == d.directionInferred
    ensures r.Ok? ==> r.value.proofHash == d.proofHash && r.value.minerUid == d.minerUid
    ensures r.Ok? ==> r.value.timestamp == d.timestamp.GetOr(nowIso)
    ensures r.Ok? ==> (|r.value.sources| > 0 <==> |d.sources| > 0)
    ensures r.Ok? ==> (|r.value.summary| > 0 <==> |d.summary| > 0)
    ensures r.Ok? && |d.sources| <= MaxSources ==> r.value.sources == d.sources
    ensures r.Ok? && |d.summary| <= MaxSummary ==> r.value.summary == d.summary
  {
    match ParseResolution(d.resolution)
    case None => Err(Exception("ValidationError: resolution"))
    case Some(res) =>
      if !(0.0 <= d.confidence <= 100.0) then Err(Exception("ValidationError: confidence"))
      else
        TruncationBounds(d.sources, d.summary);
        Ok(MinerResponse(d.statement, res, d.confidence, TruncateSummary(d.summary),
                         TruncateSources(d.sources), d.reasoning, d.targetDate, d.targetValue,
                         d.currentValue, d.directionInferred, d.proofHash,
                         d.timestamp.GetOr(nowIso), d.minerUid))
  }

  /** `is_valid`: a known resolution, a confidence in [0, 100], a non-empty summary and at
      least one source. Every `Resolution` is a known one, so only the other three tests can
      fail. */
  predicate IsValid(r: MinerResponse)
    ensures IsValid(r) <==> 0.0 <= r.confidence <= 100.0 && |r.summary| > 0 && |r.sources| > 0
  {
    assert r.resolution.FALSE? || r.resolution.TRUE? || r.resolution.PENDING?;
    r.resolution in {FALSE, TRUE, PENDING}
    && 0.0 <= r.confidence <= 100.0
    && |r.summary| > 0
    && |r.sources| > 0
  }

  /** A successfully constructed response is valid exactly when the caller gave a summary
      and at least one source. */
  lemma ConstructedValidity(d: Draft, nowIso: string)
    requires Construct(d, nowIso).Ok?
    ensures IsValid(Construct(d, nowIso).value) <==> |d.summary| > 0 && |d.sources| > 0
  {
  }

  // ---- construction from JSON values ----

  /** What an `Optional[float]` field accepts: null is None, otherwise as a `float` field. */
  function OptFloatField(v: Value): (r: Option<Option<real>>)
    ensures v.Null? ==> r == Some(None)
    ensures !v.Null? ==> (r.Some? <==> ToFloat(v).Some?)
    ensures !v.Null? && r.Some? ==> r.value == ToFloat(v)
  {
    if v.Null? then Some(None)
    else match ToFloat(v)
      case Some(x) => Some(Some(x))
      case None => None
  }

  /** `MinerResponse(...)` given field values as they come out of a JSON dict: a `float` field
      takes a number, a boolean or a numeral, a `str` field only a string and the source
      list only a list of strings; any other value is a validation error. */
  function FromFields(statement: string, resolution: Resolution, confidence: Value, summary: Value,
                      sources: Value, reasoning: Value, targetValue: Value, currentValue: Value,
                      nowIso: string): (r: Result<MinerResponse>)
    ensures r.Ok? <==>
      ToFloat(confidence).Some? && 0.0 <= ToFloat(confidence).value <= 100.0
      && summary.Str? && AsStrings(sources).Some? && reasoning.Str?
      && OptFloatField(targetValue).Some? && OptFloatField(currentValue).Some?
    ensures r.Ok? ==> r == Construct(Draft(statement, resolution.Value(), ToFloat(confidence).value,
      summary.s, AsStrings(sources).value, reasoning.s, targetValue := OptFloatField(targetValue).value,
      currentValue := OptFloatField(currentValue).value), nowIso)
  {
    var conf := ToFloat(confidence);
    var srcs := AsStrings(sources);
    var tv := OptFloatField(targetValue);
    var cv := OptFloatField(currentValue);
    if conf.None? then Err(Exception("ValidationError: confidence"))
    else if !summary.Str? then Err(Exception("ValidationError: summary"))
    else if srcs.None? then Err(Exception("ValidationError: sources"))
    else if !reasoning.Str? then Err(Exception("ValidationError: reasoning"))
    else if tv.None? then Err(Exception("ValidationError: target_value"))
    else if cv.None? then Err(Exception("ValidationError: current_value"))
    else
      Construct(Draft(statement, resolution.Value(), conf.value, summary.s, srcs.value, reasoning.s,
                      targetValue := tv.value, currentValue := cv.value), nowIso)
  }

  // ---- proof hash ----

  /** The record `generate_proof_hash` serialises (with sorted keys, so a map). */
  function ProofPayload(r: MinerResponse): (p: Object)
    ensures p.Keys == {"statement", "resolution", "confidence", "sources", "timestamp"}
  {
    map["statement" := Str(r.statement), "resolution" := Str(r.resolution.Value()),
        "confidence" := Num(r.confidence), "sources" := Strs(r.sources),
        "timestamp" := Str(r.timestamp)]
  }

  /** The five fields the proof hash covers agree. */
  predicate SameProofFields(a: MinerResponse, b: MinerResponse) {
    a.statement == b.statement && a.resolution == b.resolution && a.confidence == b.confidence
    && a.sources == b.sources && a.timestamp == b.timestamp
  }

  /** `generate_proof_hash`, with SHA-256 of the sorted-key JSON text as the function `digest`. */
  function ProofHash(r: MinerResponse, digest: Object -> string): (h: string)
    ensures h == digest(ProofPayload(r))
    ensures forall b :: SameProofFields(r, b) ==> h == digest(ProofPayload(b))
  {
    digest(ProofPayload(r))
  }

  /** The payload records exactly the five covered fields: two responses have the same payload
      iff they agree on those fields. */
  lemma ProofPayloadExact(a: MinerResponse, b: MinerResponse)
    ensures ProofPayload(a) == ProofPayload(b) <==> SameProofFields(a, b)
  {
    if ProofPayload(a) == ProofPayload(b) {
      assert ProofPayload(a)["resolution"] == ProofPayload(b)["resolution"];
      ResolutionRoundTrip(a.resolution, b.resolution);
      assert Strs(a.sources) == Strs(b.sources);
      StringsRoundTrip(a.sources);
      StringsRoundTrip(b.sources);
    }
  }

  /** The hash is a function of the five covered fields alone: reasoning, target and current
      values, the miner uid and an existing proof hash do not affect it. */
  lemma ProofHashCovers(a: MinerResponse, b: MinerResponse, digest: Object -> string)
    requires SameProofFields(a, b)
    ensures ProofHash(a, digest) == ProofHash(b, digest)
  {
  }

  // ---- SubnetConfig ----

  /** Configuration for subnet operations. */
  datatype SubnetConfig = SubnetConfig(
    walletName: string,
    hotkeyName: string,
    network: string,
    subnetUid: int,
    apiUrl: string,
    validatorId: string,
    validatorPort: int,
    queryTimeout: int,
    minMinersRequired: int,
    consensusThreshold: real,
    minerAgent: string,
    minerPort: int,
    verificationTimeout: int,
    cacheDuration: int,
    maxConcurrentRequests: int,
    requestRateLimit: int,
    responseCacheSize: int)

  /** `env.get(key, default)` over the string environment. */
  function EnvGet(env: map<string, string>, key: string, default: string): string {
    if key in env then env[key] else default
  }

  /** The integer-valued keys and their defaults, in the order `from_env` reads them. */
  const IntKeys: seq<(string, string)> := [
    ("SUBNET_UID", "90"), ("VALIDATOR_PORT", "8090"), ("QUERY_TIMEOUT", "60"),
    ("MIN_MINERS_REQUIRED", "3"), ("MINER_PORT", "8091"), ("VERIFICATION_TIMEOUT", "30"),
    ("CACHE_DURATION", "300"), ("MAX_CONCURRENT_REQUESTS", "10"),
    ("REQUEST_RATE_LIMIT", "100"), ("RESPONSE_CACHE_SIZE", "1000")]

  /** `f` applied to each key in turn; None as soon as one application fails. */
  function Collect<K>(f: K -> Option<int>, keys: seq<K>): (r: Option<seq<int>>)
    ensures r.Some? <==> forall i :: 0 <= i < |keys| ==> f(keys[i]).Some?
    ensures r.Some? ==> |r.value| == |keys| && forall i :: 0 <= i < |keys| ==> f(keys[i]) == Some(r.value[i])
  {
    if |keys| == 0 then Some([])
    else
      var rest := Collect(f, keys[1..]);
      assert forall i :: 1 <= i < |keys| ==> keys[i] == keys[1..][i - 1];
      match (f(keys[0]), rest)
      case (Some(n), Some(ns)) => Some([n] + ns)
      case _ => None
  }

  /** `int(env.get(key, default))` */
  function EnvInt(env: map<string, string>, key: (string, string)): Option<int> {
    ParseInt(EnvGet(env, key.0, key.1))
  }

  /** The integer-valued fields, read in order. */
  function ReadInts(env: map<string, string>): Option<seq<int>> {
    Collect(k => EnvInt(env, k), IntKeys)
  }

  /** `SubnetConfig.from_env`: string fields default as listed; `int(...)` and `float(...)`
      of a value that is not a numeral raise `ValueError`. */
  function FromEnv(env: map<string, string>): (r: Result<SubnetConfig>)
    ensures r.Ok? <==> ReadInts(env).Some? && ParseFloat(EnvGet(env, "CONSENSUS_THRESHOLD", "0.7")).Some?
    ensures r.Ok? ==> r.value.walletName == EnvGet(env, "WALLET_NAME", "brain")
    ensures r.Ok? ==> r.value.hotkeyName == EnvGet(env, "HOTKEY_NAME", "default")
    ensures r.Ok? ==> r.value.network == EnvGet(env, "NETWORK", "finney")
    ensures r.Ok? ==> r.value.apiUrl == EnvGet(env, "API_URL", "https://api.subnet90.com")
    ensures r.Ok? ==> r.value.validatorId == EnvGet(env, "VALIDATOR_ID", "default_validator")
    ensures r.Ok? ==> r.value.minerAgent == EnvGet(env, "MINER_AGENT", "dummy")
    ensures r.Ok? ==> Some(r.value.consensusThreshold) == ParseFloat(EnvGet(env, "CONSENSUS_THRESHOLD", "0.7"))
    ensures r.Ok? ==> var ns := ReadInts(env).value;
      && r.value.subnetUid == ns[0] && r.value.validatorPort == ns[1] && r.value.queryTimeout == ns[2]
      && r.value.minMinersRequired == ns[3] && r.value.minerPort == ns[4]
      && r.value.verificationTimeout == ns[5] && r.value.cacheDuration == ns[6]
      && r.value.maxConcurrentRequests == ns[7] && r.value.requestRateLimit == ns[8]
      && r.value.responseCacheSize == ns[9]
  {
    var threshold := ParseFloat(EnvGet(env, "CONSENSUS_THRESHOLD", "0.7"));
    match ReadInts(env)
    case Some(ns) =>
      if threshold.Some? then
        Ok(SubnetConfig(
          EnvGet(env, "WALLET_NAME", "brain"), EnvGet(env, "HOTKEY_NAME", "default"),
          EnvGet(env, "NETWORK", "finney"), ns[0],
          EnvGet(env, "API_URL", "https://api.subnet90.com"),
          EnvGet(env, "VALIDATOR_ID", "default_validator"), ns[1], ns[2], ns[3], threshold.value,
          EnvGet(env, "MINER_AGENT", "dummy"), ns[4], ns[5], ns[6], ns[7], ns[8], ns[9]))
      else Err(Exception("ValueError"))
    case None => Err(Exception("ValueError"))
  }

  /** Any integer-valued key holding a non-numeral makes `from_env` raise. */
  lemma NonNumeralRejected(env: map<string, string>, i: nat)
    requires i < |IntKeys| && EnvInt(env, IntKeys[i]).None?
    ensures FromEnv(env).Err?
  {
    var f := k => EnvInt(env, k);
    assert f(IntKeys[i]).None?;
  }
}
