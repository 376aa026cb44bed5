/** The AI agent (miner/agents/ai_agent.py): construction from the configuration, the input
    rebuild, the fixed fallback responses, the converters from model and brainstorm answers,
    the pattern-based analysis, the data-collection branch rule and the verification pipeline.
    The provider's HTTP exchanges, the market-data fetches, the clock and the ISO parser are
    parameters. */
module AIAgent {
  import opened Wrappers
  import opened Json
  import opened Text
  import opened Types
  import opened Patterns
  import BaseAgent
  import LlmProviders
  import ResolutionClient
  import Protocol
  import opened CoinLookup

  // ---- construction ----

  const DefaultProviderName := "openai"
  const DefaultTimeout := Num(30.0)

  /** What `__init__` keeps that the rest of the agent uses. */
  datatype Settings = Settings(base: BaseAgent.Agent, providerName: string,
                               provider: Option<LlmProviders.Provider>, timeout: Value,
                               apiUrl: string)

  /** The body of `__init__` reading the configuration `cfg`: the provider name (default
      "openai"), the provider the factory builds from it with the timeout (default 30), and
      the resolution client's base URL (default the subnet API). A name that is not a string
      cannot be lower-cased and a URL that is not a string cannot be stripped: both raise. */
  function InitFrom(base: BaseAgent.Agent, cfg: Object): (r: Result<Settings>)
    ensures var name := Get(cfg, "llm_provider", Str(DefaultProviderName));
            var timeout := Get(cfg, "timeout", DefaultTimeout);
            var url := Get(cfg, "api_url", Str(ResolutionClient.DefaultApiUrl));
            && (r.Ok? <==> name.Str? && LlmProviders.CreateProvider(name.s, cfg, timeout).Ok? && url.Str?)
            && (r.Ok? ==> r.value == Settings(base, name.s, LlmProviders.CreateProvider(name.s, cfg, timeout).value,
                                              timeout, ResolutionClient.NormalizeUrl(url.s)))
  {
    var name := Get(cfg, "llm_provider", Str(DefaultProviderName));
    var timeout := Get(cfg, "timeout", DefaultTimeout);
    if !name.Str? then Err(Exception("AttributeError: object has no attribute 'lower'"))
    else
      match LlmProviders.CreateProvider(name.s, cfg, timeout)
      case Err(e) => Err(e)
      case Ok(provider) =>
        var url := Get(cfg, "api_url", Str(ResolutionClient.DefaultApiUrl));
        if !url.Str? then Err(Exception("AttributeError: object has no attribute 'rstrip'"))
        else Ok(Settings(base, name.s, provider, timeout, ResolutionClient.NormalizeUrl(url.s)))
  }

  /** `AIAgent.__init__` as written: after the base class stores `config or {}`, the body
      reads the `config` parameter itself, so a missing configuration raises. */
  function InitAsWritten(config: Option<Object>): (r: Result<Settings>)
    ensures config.None? ==> r.Err?
    ensures config.Some? ==> r == InitFrom(BaseAgent.Init(BaseAgent.AI, config), config.value)
  {
    match config
    case None => Err(Exception("AttributeError: 'NoneType' object has no attribute 'get'"))
    case Some(c) => InitFrom(BaseAgent.Init(BaseAgent.AI, config), c)
  }

  /** `AIAgent.__init__` reading the configuration the base class stored. */
  function Init(config: Option<Object>): (r: Result<Settings>)
    ensures r == InitFrom(BaseAgent.Init(BaseAgent.AI, config), BaseAgent.Init(BaseAgent.AI, config).config)
    ensures r.Ok? ==> r.value.base.name == "AIAgent"
  {
    var base := BaseAgent.Init(BaseAgent.AI, config);
    InitFrom(base, base.config)
  }

  /** The agent built without a configuration: as written it raises; reading the stored
      configuration it starts with the default provider name, no provider and the default
      API URL. */
  lemma MissingConfig()
    ensures InitAsWritten(None).Err?
    ensures Init(None).Ok?
    ensures Init(None).value.providerName == DefaultProviderName && Init(None).value.provider.None?
    ensures Init(None).value.apiUrl == ResolutionClient.DefaultApiUrl
  {
    var cfg: Object := map[];
    assert LlmProviders.VendorNamed(DefaultProviderName) == Some(LlmProviders.OpenAI);
    assert Get(cfg, LlmProviders.Vendor.OpenAI.KeyField(), Null) == Null;
    var u := ResolutionClient.DefaultApiUrl;
    assert u[|u| - 1] != '/';
  }

  /** Given a configuration, both readings build the same agent. */
  lemma GivenConfigAgrees(c: Object)
    ensures InitAsWritten(Some(c)) == Init(Some(c))
  {
    var base := BaseAgent.Init(BaseAgent.AI, Some(c));
    if |c| == 0 {
      assert c.Keys == {};
      assert c == map[];
    }
    assert base.config == c;
  }

  // ---- input ----

  /** What `verify_statement` receives: a `Statement` or a synapse. */
  datatype Input = StatementInput(s: Statement) | SynapseInput(syn: Protocol.Synapse)

  /** Both inputs have a `statement` attribute, so both are rebuilt: text and deadline are
      kept, the creation time and id come from `created_at` and `statement_id` when the input
      has them (a `Statement` has neither), and the remaining fields are dropped. */
  function Rebuild(input: Input): (r: Statement)
    ensures input.StatementInput? ==>
      r == Statement(input.s.statement, input.s.endDate, "", id := None)
    ensures input.SynapseInput? ==>
      r == Statement(input.syn.statement, input.syn.endDate, input.syn.createdAt, id := input.syn.statementId)
    ensures r.initialValue.None? && r.direction.None? && r.category.None?
  {
    match input
    case StatementInput(s) => Statement(s.statement, s.endDate, "", id := None)
    case SynapseInput(syn) => Statement(syn.statement, syn.endDate, syn.createdAt, id := syn.statementId)
  }

  /** A rebuilt `Statement` depends on its text and deadline alone. */
  lemma RebuildKeepsTextAndDeadline(a: Statement, b: Statement)
    requires a.statement == b.statement && a.endDate == b.endDate
    ensures Rebuild(StatementInput(a)) == Rebuild(StatementInput(b))
    ensures Rebuild(StatementInput(a)).ToDict()["createdAt"] == Str("")
  {
  }

  // ---- fixed responses ----

  const NoProviderReasoning := "This miner requires a configured LLM provider (set LLM_PROVIDER and corresponding API key) to provide accurate verification"

  /** `_create_basic_pending_response` */
  function NoProviderResponse(stmt: Statement, providerName: string, nowIso: string): (r: MinerResponse)
    ensures IsValid(r) && WellFormed(r)
    ensures r.statement == stmt.statement && r.resolution == PENDING && r.confidence == 50.0
    ensures r.sources == ["basic_analysis"] && r.reasoning == NoProviderReasoning
    ensures r.summary == TruncateSummary("No " + providerName + " configuration available, unable to verify independently")
    ensures r.targetValue.None? && r.currentValue.None? && r.proofHash.None?
  {
    var d := Draft(stmt.statement, "PENDING", 50.0,
                   "No " + providerName + " configuration available, unable to verify independently",
                   sources := ["basic_analysis"], reasoning := NoProviderReasoning);
    assert Construct(d, nowIso).Ok?;
    Construct(d, nowIso).value
  }

  /** `_create_error_response` */
  function VerificationFailed(stmt: Statement, error: string, nowIso: string): (r: MinerResponse)
    ensures IsValid(r) && WellFormed(r)
    ensures r.statement == stmt.statement && r.resolution == PENDING && r.confidence == 0.0
    ensures r.sources == ["error"] && r.reasoning == "Error during AI verification: " + error
    ensures r.summary == TruncateSummary("Verification failed: " + error)
    ensures r.targetValue.None? && r.currentValue.None? && r.proofHash.None?
  {
    var d := Draft(stmt.statement, "PENDING", 0.0, "Verification failed: " + error,
                   sources := ["error"], reasoning := "Error during AI verification: " + error);
    assert Construct(d, nowIso).Ok?;
    Construct(d, nowIso).value
  }

  /** Both fallbacks pass the dispatcher's validation exactly when the statement text is
      non-empty, so it returns them with only a proof hash added. */
  lemma FallbacksPassDispatch(stmt: Statement, providerName: string, error: string, nowIso: string)
    ensures BaseAgent.ValidateResponse(NoProviderResponse(stmt, providerName, nowIso)) <==> |stmt.statement| > 0
    ensures BaseAgent.ValidateResponse(VerificationFailed(stmt, error, nowIso)) <==> |stmt.statement| > 0
  {
  }

  // ---- converters ----

  /** The converters' resolution rule: exactly "TRUE", "FALSE" or "PENDING" (a string) names
      its outcome; a missing resolution or anything else is PENDING. */
  function CoerceResolution(v: Value): (r: Resolution)
    ensures v.Str? && ParseResolution(v.s).Some? ==> r == ParseResolution(v.s).value
    ensures !(v.Str? && ParseResolution(v.s).Some?) ==> r == PENDING
  {
    if v.Str? && v.s in {"TRUE", "FALSE", "PENDING"} then ParseResolution(v.s).value else PENDING
  }

  /** Every outcome survives the rule unchanged. */
  lemma CoerceRoundTrip(x: Resolution)
    ensures CoerceResolution(Str(x.Value())) == x
  {
    ResolutionRoundTrip(x, x);
  }

  /** The field values a converter hands to `MinerResponse` validate: a confidence `float`
      accepts within [0, 100], a string summary, a list of strings as sources and a string
      reasoning. */
  predicate Accepts(confidence: Value, summary: Value, sources: Value, reasoning: Value) {
    ToFloat(confidence).Some? && 0.0 <= ToFloat(confidence).value <= 100.0
    && summary.Str? && AsStrings(sources).Some? && reasoning.Str?
  }

  /** `_convert_ai_response`. The answer must be a dict (`.get` on anything else raises);
      confidence, summary and sources default to 50, "AI analysis" and ["ai_reasoning"], the
      reasoning is `key_evidence` or "AI-powered analysis", and the fields are validated as
      `MinerResponse` validates them. */
  function ConvertAI(stmt: Statement, answer: Value, nowIso: string): (r: Result<MinerResponse>)
    ensures !answer.Obj? ==> r.Err?
    ensures answer.Obj? ==>
      var f := answer.fields;
      var conf := Get(f, "confidence", Num(50.0));
      var summary := Get(f, "summary", Str("AI analysis"));
      var sources := Get(f, "sources", Strs(["ai_reasoning"]));
      var reasoning := Get(f, "key_evidence", Str("AI-powered analysis"));
      && (r.Ok? <==> Accepts(conf, summary, sources, reasoning))
      && (r.Ok? ==>
            && r.value.statement == stmt.statement
            && r.value.resolution == CoerceResolution(Get(f, "resolution", Str("PENDING")))
            && r.value.confidence == ToFloat(conf).value
            && r.value.summary == TruncateSummary(summary.s)
            && r.value.sources == TruncateSources(AsStrings(sources).value)
            && r.value.reasoning == reasoning.s
            && r.value.targetValue.None? && r.value.currentValue.None? && r.value.proofHash.None?
            && r.value.timestamp == nowIso && WellFormed(r.value))
  {
    if !answer.Obj? then Err(Exception("AttributeError: object has no attribute 'get'"))
    else
      var f := answer.fields;
      FromFields(stmt.statement, CoerceResolution(Get(f, "resolution", Str("PENDING"))),
                 Get(f, "confidence", Num(50.0)), Get(f, "summary", Str("AI analysis")),
                 Get(f, "sources", Strs(["ai_reasoning"])), Get(f, "key_evidence", Str("AI-powered analysis")),
                 Null, Null, nowIso)
  }

  /** The `{"error": ...}` marker a failed provider call returns converts to the defaults: a
      valid PENDING response with confidence 50. */
  lemma ErrorMarkerConverts(stmt: Statement, message: string, nowIso: string)
    ensures ConvertAI(stmt, LlmProviders.ErrorMarker(message), nowIso).Ok?
    ensures var r := ConvertAI(stmt, LlmProviders.ErrorMarker(message), nowIso).value;
      && r.resolution == PENDING && r.confidence == 50.0 && r.summary == "AI analysis"
      && r.sources == ["ai_reasoning"] && r.reasoning == "AI-powered analysis" && IsValid(r)
  {
    var f := LlmProviders.ErrorMarker(message).fields;
    assert Get(f, "resolution", Str("PENDING")) == Str("PENDING");
    assert Get(f, "confidence", Num(50.0)) == Num(50.0);
    assert Get(f, "summary", Str("AI analysis")) == Str("AI analysis");
    assert Get(f, "sources", Strs(["ai_reasoning"])) == Strs(["ai_reasoning"]);
    assert Get(f, "key_evidence", Str("AI-powered analysis")) == Str("AI-powered analysis");
    StringsRoundTrip(["ai_reasoning"]);
  }

  const BrainstormPrefix := "Brainstorm analysis: "

  /** `_convert_brainstorm_response`: the same resolution rule; confidence, summary and
      sources default to 50, "Brainstorm API response" and ["brainstorm"]; target and current
      value are passed on; the reasoning quotes the summary (or nothing). `show` renders a
      summary that is not a string. */
  function ConvertBrainstorm(stmt: Statement, result: Value, show: Value -> string, nowIso: string): (r: Result<MinerResponse>)
    ensures !result.Obj? ==> r.Err?
    ensures result.Obj? ==>
      var f := result.fields;
      var conf := Get(f, "confidence", Num(50.0));
      var summary := Get(f, "summary", Str("Brainstorm API response"));
      var sources := Get(f, "sources", Strs(["brainstorm"]));
      var tv := OptFloatField(Get(f, "target_value", Null));
      var cv := OptFloatField(Get(f, "current_value", Null));
      && (r.Ok? <==> ToFloat(conf).Some? && 0.0 <= ToFloat(conf).value <= 100.0
                     && summary.Str? && AsStrings(sources).Some? && tv.Some? && cv.Some?)
      && (r.Ok? ==>
            && r.value.resolution == CoerceResolution(Get(f, "resolution", Str("PENDING")))
            && r.value.confidence == ToFloat(conf).value
            && r.value.summary == TruncateSummary(summary.s)
            && r.value.sources == TruncateSources(AsStrings(sources).value)
            && r.value.targetValue == tv.value && r.value.currentValue == cv.value
            && StartsWith(r.value.reasoning, BrainstormPrefix)
            && ("summary" in f ==> r.value.reasoning == BrainstormPrefix + summary.s)
            && ("summary" !in f ==> r.value.reasoning == BrainstormPrefix))
  {
    if !result.Obj? then Err(Exception("AttributeError: object has no attribute 'get'"))
    else
      var f := result.fields;
      var reasoning := BrainstormPrefix + Render(Get(f, "summary", Str("")), show);
      assert reasoning[..|BrainstormPrefix|] == BrainstormPrefix;
      assert "summary" !in f ==> reasoning == BrainstormPrefix;
      FromFields(stmt.statement, CoerceResolution(Get(f, "resolution", Str("PENDING"))),
                 Get(f, "confidence", Num(50.0)), Get(f, "summary", Str("Brainstorm API response")),
                 Get(f, "sources", Strs(["brainstorm"])), Str(reasoning),
                 Get(f, "target_value", Null), Get(f, "current_value", Null), nowIso)
  }

  // ---- fallback analysis and reasoning ----

  /** The statement names bitcoin: "bitcoin" or "btc" occurs in its lower-cased text. */
  predicate MentionsBitcoin(text: string) {
    var lower := ToLower(text);
    Contains(lower, "bitcoin") || Contains(lower, "btc")
  }

  /** The target of the pattern analysis: `float` of the first `$[0-9,]+` amount with commas
      removed (None when that raises), or null when there is no amount. */
  function PatternTarget(text: string): (r: Option<Value>)
    ensures DollarGroup(text, false).None? ==> r == Some(Null)
    ensures DollarGroup(text, false).Some? ==>
      var x := ParseFloat(RemoveChar(DollarGroup(text, false).value, ','));
      (r.None? <==> x.None?) && (r.Some? ==> r.value == Num(x.value) && x.value >= 0.0)
  {
    match DollarGroup(text, false)
    case None => Some(Null)
    case Some(g) =>
      UnsignedGroup(g);
      match ParseFloat(RemoveChar(g, ','))
      case Some(x) => Some(Num(x))
      case None => None
  }

  /** The crypto-price analysis of bitcoin. */
  function PriceAnalysis(target: Value, deadline: string): (m: Object)
    ensures "prediction_type" in m && m["prediction_type"] == Str("crypto_price")
    ensures "asset_symbol" in m && m["asset_symbol"] == Str("bitcoin")
    ensures "target_value" in m && m["target_value"] == target
    ensures "deadline" in m && m["deadline"] == Str(deadline)
  {
    map["prediction_type" := Str("crypto_price"), "asset_symbol" := Str("bitcoin"),
        "target_value" := target, "deadline" := Str(deadline),
        "data_sources_needed" := Strs(["coingecko", "binance"]),
        "verification_strategy" := Str("price_comparison")]
  }

  const GenericAnalysis: Object := map["prediction_type" := Str("unknown"), "verification_strategy" := Str("date_based")]

  /** `_pattern_based_analysis`: a statement naming bitcoin is a price analysis of bitcoin
      with the pattern target and the statement's deadline, unless computing the target
      raises; anything else is the generic date-based analysis. */
  function PatternAnalysis(stmt: Statement): (r: Result<Object>)
    ensures !MentionsBitcoin(stmt.statement) ==> r == Ok(GenericAnalysis)
    ensures MentionsBitcoin(stmt.statement) ==>
      (r.Err? <==> PatternTarget(stmt.statement).None?)
      && (r.Ok? ==> r.value == PriceAnalysis(PatternTarget(stmt.statement).value, stmt.endDate))
  {
    if !MentionsBitcoin(stmt.statement) then Ok(GenericAnalysis)
    else
      match PatternTarget(stmt.statement)
      case None => Err(Exception("ValueError: could not convert string to float: ''"))
      case Some(target) => Ok(PriceAnalysis(target, stmt.endDate))
  }

  /** An amount of commas alone, such as "$,", is found by the pattern and leaves nothing for
      `float` to read: the analysis of a statement naming bitcoin raises. */
  lemma CommaOnlyAmountRaises(stmt: Statement, i: nat)
    requires MentionsBitcoin(stmt.statement)
    requires DollarAt(stmt.statement, i) && forall j :: 0 <= j < i ==> !DollarAt(stmt.statement, j)
    requires stmt.statement[i + 1] == ','
    requires i + 2 < |stmt.statement| ==> !DigitOrComma(stmt.statement[i + 2])
    ensures PatternAnalysis(stmt).Err?
  {
    var s := stmt.statement;
    var f := FindDollar(s, 0);
    assert f == Some(i);
    DigitCommaRunUpTo(s, i + 1, i + 2);
    assert DigitCommaRun(s, i + 1) == i + 2;
    assert s[i + 1..i + 2] == [s[i + 1]] == ",";
    assert DollarGroup(s, false) == Some(",");
    assert RemoveChar(",", ',') == "";
    assert Strip("") == "";
  }

  /** The answer dict of `_basic_reasoning`. */
  function ReasoningAnswer(resolution: string, confidence: real, summary: string,
                           sources: seq<string>, evidence: string): (m: Object)
    ensures "resolution" in m && m["resolution"] == Str(resolution)
    ensures "confidence" in m && m["confidence"] == Num(confidence)
    ensures "summary" in m && m["summary"] == Str(summary)
    ensures "sources" in m && m["sources"] == Strs(sources)
    ensures "key_evidence" in m && m["key_evidence"] == Str(evidence)
  {
    map["resolution" := Str(resolution), "confidence" := Num(confidence), "summary" := Str(summary),
        "sources" := Strs(sources), "key_evidence" := Str(evidence)]
  }

  /** The deadline has passed on the UTC clock: it parses with an offset and is not after now. */
  predicate DeadlineReached(endDate: string, parseIso: string -> Option<Instant>, now: Clock) {
    match parseIso(IsoText(endDate))
    case Some(Aware(u)) => u <= now.utc
    case _ => false
  }

  /** The deadline parses with an offset, so it can be compared with the UTC clock. */
  predicate AwareDeadline(endDate: string, parseIso: string -> Option<Instant>) {
    match parseIso(IsoText(endDate))
    case Some(Aware(_)) => true
    case _ => false
  }

  /** `_basic_reasoning`: PENDING (95) before an aware deadline, FALSE (30) at or after it, and
      the PENDING (0) error answer when the deadline does not parse or has no offset (the
      comparison raises). `evidence` is the formatted clock and deadline. */
  function BasicReasoning(stmt: Statement, parseIso: string -> Option<Instant>, now: Clock, evidence: string): (r: Object)
    ensures DeadlineReached(stmt.endDate, parseIso, now) ==>
      r == ReasoningAnswer("FALSE", 30.0, "Deadline passed, but insufficient data for verification",
                           ["basic_analysis"], "Limited verification capability without AI")
    ensures AwareDeadline(stmt.endDate, parseIso) && !DeadlineReached(stmt.endDate, parseIso, now) ==>
      r == ReasoningAnswer("PENDING", 95.0, "Deadline has not yet passed", ["system_clock"], evidence)
    ensures !AwareDeadline(stmt.endDate, parseIso) ==>
      r == ReasoningAnswer("PENDING", 0.0, "Error parsing deadline", ["error"], "Could not parse end_date")
    ensures !DeadlineReached(stmt.endDate, parseIso, now) ==> "resolution" in r && r["resolution"] == Str("PENDING")
  {
    match parseIso(IsoText(stmt.endDate))
    case Some(Aware(u)) =>
      if u > now.utc then
        ReasoningAnswer("PENDING", 95.0, "Deadline has not yet passed", ["system_clock"], evidence)
      else
        ReasoningAnswer("FALSE", 30.0, "Deadline passed, but insufficient data for verification",
                        ["basic_analysis"], "Limited verification capability without AI")
    case _ =>
      ReasoningAnswer("PENDING", 0.0, "Error parsing deadline", ["error"], "Could not parse end_date")
  }

  /** A reasoning answer that is not TRUE, with a confidence between 0 and 100 and a
      summary, converts to a valid response with its resolution. */
  lemma ReasoningAnswerConverts(stmt: Statement, m: Object, x: Resolution, confidence: real, summary: string,
                                source: string, evidence: string, nowIso: string)
    requires m == ReasoningAnswer(x.Value(), confidence, summary, [source], evidence)
    requires x != TRUE && 0.0 <= confidence <= 100.0 && |summary| > 0
    ensures var r := ConvertAI(stmt, Obj(m), nowIso);
      r.Ok? && IsValid(r.value) && r.value.resolution == x
  {
    CoerceRoundTrip(x);
    StringsRoundTrip([source]);
    TruncationBounds([source], summary);
  }

  /** The basic reasoning never says TRUE: converted, it is a valid response, FALSE exactly
      when the deadline has been reached and PENDING otherwise. */
  lemma BasicReasoningNeverTrue(stmt: Statement, parseIso: string -> Option<Instant>, now: Clock,
                                evidence: string, nowIso: string)
    ensures var r := ConvertAI(stmt, Obj(BasicReasoning(stmt, parseIso, now, evidence)), nowIso);
      && r.Ok? && IsValid(r.value) && r.value.resolution != TRUE
      && (r.value.resolution == FALSE <==> DeadlineReached(stmt.endDate, parseIso, now))
  {
    var m := BasicReasoning(stmt, parseIso, now, evidence);
    match parseIso(IsoText(stmt.endDate))
    case Some(Aware(u)) =>
      if u > now.utc {
        ReasoningAnswerConverts(stmt, m, PENDING, 95.0, "Deadline has not yet passed", "system_clock", evidence, nowIso);
      } else {
        ReasoningAnswerConverts(stmt, m, FALSE, 30.0, "Deadline passed, but insufficient data for verification",
                                "basic_analysis", "Limited verification capability without AI", nowIso);
      }
    case _ =>
      ReasoningAnswerConverts(stmt, m, PENDING, 0.0, "Error parsing deadline", "error", "Could not parse end_date", nowIso);
  }

  // ---- data collection ----

  /** The deadline selects historical prices: a string that parses with an offset to an
      instant strictly before now. A missing, non-string, unparseable or naive deadline (the
      comparison raises) selects the current price. */
  predicate HistoricalDeadline(deadline: Value, parseIso: string -> Option<Instant>, now: Clock) {
    deadline.Str? && match parseIso(IsoText(deadline.s)) {
      case Some(Aware(t)) => t < now.utc
      case _ => false
    }
  }

  /** An analysis asks for price data: its `prediction_type` is "price" and it names a
      (truthy) asset. */
  predicate WantsPrice(analysis: Object) {
    Get(analysis, "prediction_type", Null) == Str("price") && Truthy(Get(analysis, "asset_symbol", Null))
  }

  /** The coin id for a symbol: the table's entry for the lower-cased symbol, else the symbol. */
  function CoinIdFor(ids: map<string, string>, symbol: string): (r: string)
    ensures ToLower(symbol) !in ids ==> r == symbol
    ensures ToLower(symbol) in ids ==> r == ids[ToLower(symbol)]
  {
    if ToLower(symbol) in ids then ids[ToLower(symbol)] else symbol
  }

  /** What `_collect_data` gathers once the table is loaded, with `price(id, date)` standing
      for `_get_crypto_price`, which never raises. An analysis that is not a dict raises, and
      so does a symbol that is not a string; an analysis not asking for prices gives {}. */
  function DataFor(analysis: Value, ids: map<string, string>, parseIso: string -> Option<Instant>,
                   now: Clock, price: (string, Option<string>) -> Value): (r: Result<Object>)
    ensures r.Err? <==> !analysis.Obj? || (WantsPrice(analysis.fields) && !Get(analysis.fields, "asset_symbol", Null).Str?)
    ensures r.Ok? && !WantsPrice(analysis.fields) ==> r.value == map[]
    ensures r.Ok? && WantsPrice(analysis.fields) ==>
      var deadline := Get(analysis.fields, "deadline", Null);
      var hist := HistoricalDeadline(deadline, parseIso, now);
      var id := CoinIdFor(ids, Get(analysis.fields, "asset_symbol", Null).s);
      && r.value.Keys == {"price_data", "verification_type"}
      && r.value["verification_type"] == Str(if hist then "historical" else "current")
      && (hist ==> r.value["price_data"] == price(id, Some(deadline.s)))
      && (!hist ==> r.value["price_data"] == price(id, None))
  {
    if !analysis.Obj? then Err(Exception("AttributeError: object has no attribute 'get'"))
    else if !WantsPrice(analysis.fields) then Ok(map[])
    else
      var symbol := Get(analysis.fields, "asset_symbol", Null);
      var deadline := Get(analysis.fields, "deadline", Null);
      if !symbol.Str? then Err(Exception("AttributeError: object has no attribute 'lower'"))
      else
        var id := CoinIdFor(ids, symbol.s);
        if HistoricalDeadline(deadline, parseIso, now) then
          Ok(map["price_data" := price(id, Some(deadline.s)), "verification_type" := Str("historical")])
        else
          Ok(map["price_data" := price(id, None), "verification_type" := Str("current")])
  }

  /** The pattern analysis never asks for prices ("crypto_price" is not "price"), so it
      gathers nothing. */
  lemma PatternAnalysisGathersNothing(stmt: Statement, ids: map<string, string>,
                                      parseIso: string -> Option<Instant>, now: Clock,
                                      price: (string, Option<string>) -> Value)
    requires PatternAnalysis(stmt).Ok?
    ensures DataFor(Obj(PatternAnalysis(stmt).value), ids, parseIso, now, price) == Ok(map[])
  {
    var a := PatternAnalysis(stmt).value;
    assert Get(a, "prediction_type", Null) != Str("price");
  }

  /** `_collect_data`: the coin table is loaded first, then `data` is filled from the
      analysis. */
  method CollectData(table: CoinTable, analysis: Value, listing: Listing,
                     parseIso: string -> Option<Instant>, now: Clock,
                     price: (string, Option<string>) -> Value) returns (r: Result<Object>)
    modifies table
    requires table.Valid()
    ensures table.Valid()
    ensures old(table.loaded) ==> table.Contents() == old(table.Contents()) && table.loaded
    ensures !old(table.loaded) ==> table.Contents() == AddCoins(old(table.Contents()), ListedCoins(listing))
    ensures !old(table.loaded) ==> table.loaded == LoadCompletes(listing)
    ensures r == DataFor(analysis, table.ids, parseIso, now, price)
  {
    var data: Object := map[];
    table.Load(listing);
    if !analysis.Obj? {
      return Err(Exception("AttributeError: object has no attribute 'get'"));
    }
    if Get(analysis.fields, "prediction_type", Null) == Str("price") {
      var symbol := Get(analysis.fields, "asset_symbol", Null);
      var deadline := Get(analysis.fields, "deadline", Null);
      if Truthy(symbol) {
        if !symbol.Str? {
          return Err(Exception("AttributeError: object has no attribute 'lower'"));
        }
        var lower := ToLower(symbol.s);
        var id := if lower in table.ids then table.ids[lower] else symbol.s;
        if HistoricalDeadline(deadline, parseIso, now) {
          data := data["price_data" := price(id, Some(deadline.s))];
          data := data["verification_type" := Str("historical")];
        } else {
          data := data["price_data" := price(id, None)];
          data := data["verification_type" := Str("current")];
        }
      }
    }
    return Ok(data);
  }

  // ---- the pipeline ----

  /** What `call` handed back, as the value the agent goes on with. */
  function AnswerValue(reply: LlmProviders.Reply): Value {
    match reply
    case Data(v) => v
    case Text(c) => Str(c)
  }

  /** `_verify_with_ai_reasoning` once the table is loaded: the analysis call, the data it
      asks for, the reasoning call and the conversion of its answer. The two calls' exchanges
      are `analysisCall` and `answerCall`, `decode` is `json.loads`. The gathered data only
      shapes the prompt, whose text is not modelled. */
  function Reasoned(stmt: Statement, p: LlmProviders.Provider, analysisCall: LlmProviders.Transport,
                    answerCall: LlmProviders.Transport, decode: string -> Result<Value>,
                    ids: map<string, string>, parseIso: string -> Option<Instant>, now: Clock,
                    price: (string, Option<string>) -> Value, nowIso: string): (r: Result<MinerResponse>)
    ensures var data := DataFor(AnswerValue(LlmProviders.Call(p, analysisCall, "json", decode)), ids, parseIso, now, price);
      && (data.Err? ==> r == Err(data.error))
      && (data.Ok? ==> r == ConvertAI(stmt, AnswerValue(LlmProviders.Call(p, answerCall, "json", decode)), nowIso))
    ensures r.Ok? ==> r == ConvertAI(stmt, AnswerValue(LlmProviders.Call(p, answerCall, "json", decode)), nowIso)
  {
    var analysis := AnswerValue(LlmProviders.Call(p, analysisCall, "json", decode));
    match DataFor(analysis, ids, parseIso, now, price)
    case Err(e) => Err(e)
    case Ok(_) => ConvertAI(stmt, AnswerValue(LlmProviders.Call(p, answerCall, "json", decode)), nowIso)
  }

  /** An unreachable provider does not make the agent fail: both calls come back as error
      markers, nothing is gathered, and the answer converts to a valid PENDING response with
      confidence 50. */
  lemma UnreachableProviderIsPending(stmt: Statement, p: LlmProviders.Provider,
                                     m1: string, m2: string, decode: string -> Result<Value>,
                                     ids: map<string, string>, parseIso: string -> Option<Instant>,
                                     now: Clock, price: (string, Option<string>) -> Value, nowIso: string)
    ensures var r := Reasoned(stmt, p, LlmProviders.Failed(m1), LlmProviders.Failed(m2), decode, ids,
                              parseIso, now, price, nowIso);
      r.Ok? && r.value.resolution == PENDING && r.value.confidence == 50.0 && IsValid(r.value)
  {
    var marker := LlmProviders.ErrorMarker(p.vendor.Label() + " API call failed: " + m1);
    assert Get(marker.fields, "prediction_type", Null) == Null;
    assert DataFor(marker, ids, parseIso, now, price) == Ok(map[]);
    ErrorMarkerConverts(stmt, p.vendor.Label() + " API call failed: " + m2, nowIso);
  }

  /** The response for an outcome of the pipeline: an exception becomes the error response. */
  function Settle(stmt: Statement, outcome: Result<MinerResponse>, nowIso: string): (r: MinerResponse)
    ensures outcome.Ok? ==> r == outcome.value
    ensures outcome.Err? ==> r == VerificationFailed(stmt, outcome.error.message, nowIso)
  {
    match outcome
    case Ok(m) => m
    case Err(e) => VerificationFailed(stmt, e.message, nowIso)
  }

  /** `verify_statement`: the input is rebuilt; without a provider the no-provider response is
      returned and nothing else happens; otherwise the pipeline runs, loading the coin table on
      the way, and any exception in it yields the error response. */
  method Verify(settings: Settings, table: CoinTable, input: Input, listing: Listing,
                analysisCall: LlmProviders.Transport, answerCall: LlmProviders.Transport,
                decode: string -> Result<Value>, parseIso: string -> Option<Instant>, now: Clock,
                price: (string, Option<string>) -> Value, nowIso: string) returns (r: MinerResponse)
    modifies table
    requires table.Valid()
    ensures table.Valid()
    ensures settings.provider.None? ==>
      r == NoProviderResponse(Rebuild(input), settings.providerName, nowIso) && unchanged(table)
    ensures settings.provider.Some? && old(table.loaded) ==> table.Contents() == old(table.Contents()) && table.loaded
    ensures settings.provider.Some? && !old(table.loaded) ==>
      table.Contents() == AddCoins(old(table.Contents()), ListedCoins(listing)) && table.loaded == LoadCompletes(listing)
    ensures settings.provider.Some? ==>
      r == Settle(Rebuild(input), Reasoned(Rebuild(input), settings.provider.value, analysisCall, answerCall,
                                           decode, table.ids, parseIso, now, price, nowIso), nowIso)
  {
    var stmt := Rebuild(input);
    if settings.provider.None? {
      return NoProviderResponse(stmt, settings.providerName, nowIso);
    }
    var p := settings.provider.value;
    var analysis := AnswerValue(LlmProviders.Call(p, analysisCall, "json", decode));
    var data := CollectData(table, analysis, listing, parseIso, now, price);
    ghost var outcome := Reasoned(stmt, p, analysisCall, answerCall, decode, table.ids, parseIso, now, price, nowIso);
    if data.Err? {
      assert outcome == Err(data.error);
      return VerificationFailed(stmt, data.error.message, nowIso);
    }
    var answer := AnswerValue(LlmProviders.Call(p, answerCall, "json", decode));
    var converted := ConvertAI(stmt, answer, nowIso);
    assert outcome == converted;
    if converted.Err? {
      return VerificationFailed(stmt, converted.error.message, nowIso);
    }
    return converted.value;
  }
}
