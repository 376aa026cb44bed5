/** The validator-miner protocol (shared/protocol.py): the synapse record, its validity check,
    the request and response builders, and the parser for responses in older formats. */
module Protocol {
  import opened Wrappers
  import opened Json
  import opened Text
  import opened Types

  /** `DegenBrainSynapse`: request fields, response fields and version metadata. */
  datatype Synapse = Synapse(
    statement: string,
    endDate: string,
    createdAt: string,
    statementId: Option<string>,
    initialValue: Option<real>,
    context: Option<Object>,
    resolution: string,
    confidence: real,
    summary: string,
    sources: seq<string>,
    analysisTime: real,
    reasoning: string,
    targetValue: Option<real>,
    protocolVersion: string,
    minerVersion: string)

  const ProtocolVersion := "1.0"

  /** `is_valid_synapse`: a non-empty resolution naming one of the three outcomes and a
      confidence in [0, 100]. The enum lookup failing is caught, so it never raises. */
  predicate IsValidSynapse(s: Synapse)
    ensures IsValidSynapse(s) <==> ParseResolution(s.resolution).Some? && 0.0 <= s.confidence <= 100.0
  {
    if |s.resolution| == 0 then false
    else if ParseResolution(s.resolution).None? then false
    else 0.0 <= s.confidence <= 100.0
  }

  /** The request fields two synapses share. */
  predicate SameRequest(a: Synapse, b: Synapse) {
    a.statement == b.statement && a.endDate == b.endDate && a.createdAt == b.createdAt
    && a.initialValue == b.initialValue && a.context == b.context
    && a.protocolVersion == b.protocolVersion
  }

  /** `create_request_synapse`. `nowStamp` is the UTC clock formatted as
      `%Y-%m-%dT%H:%M:%SZ`, used only when no creation time is given. The response fields keep
      their declared defaults. */
  function CreateRequestSynapse(statement: string, endDate: string, createdAt: Option<string>,
                                initialValue: Option<real>, context: Option<Object>,
                                statementId: Option<string>, nowStamp: string): (r: Synapse)
    ensures r.statement == statement && r.endDate == endDate && r.statementId == statementId
    ensures r.initialValue == initialValue
    ensures createdAt.Some? ==> r.createdAt == createdAt.value
    ensures createdAt.None? ==> r.createdAt == nowStamp
    ensures context.Some? ==> r.context == context
    ensures context.None? ==> r.context == Some(map[])
    ensures r.protocolVersion == ProtocolVersion && r.minerVersion == ""
    ensures r.resolution == "PENDING" && r.confidence == 0.0 && r.summary == "" && r.sources == []
    ensures r.analysisTime == 0.0 && r.reasoning == "" && r.targetValue.None?
  {
    var ctx := if context.Some? && |context.value| > 0 then context.value else map[];
    Synapse(statement, endDate, createdAt.GetOr(nowStamp), statementId, initialValue, Some(ctx),
            "PENDING", 0.0, "", [], 0.0, "", None, ProtocolVersion, "")
  }

  /** `create_response_synapse`: the request fields are copied (the statement id is not), the
      response fields are those given, with no sources as the empty list and analysis time 0. */
  function CreateResponseSynapse(request: Synapse, resolution: string, confidence: real,
                                 summary: string, sources: Option<seq<string>>, reasoning: string,
                                 targetValue: Option<real>, minerVersion: string): (r: Synapse)
    ensures SameRequest(r, request) && r.statementId.None?
    ensures r.resolution == resolution && r.confidence == confidence && r.summary == summary
    ensures sources.Some? ==> r.sources == sources.value
    ensures sources.None? ==> r.sources == []
    ensures r.reasoning == reasoning && r.targetValue == targetValue
    ensures r.minerVersion == minerVersion && r.analysisTime == 0.0
  {
    var kept := if sources.Some? && |sources.value| > 0 then sources.value else [];
    Synapse(request.statement, request.endDate, request.createdAt, None, request.initialValue,
            request.context, resolution, confidence, summary, kept, 0.0, reasoning, targetValue,
            request.protocolVersion, minerVersion)
  }

  /** A response built from a valid miner response passes the synapse check, whatever the
      request, and it answers that request. */
  lemma ResponseFromValid(request: Synapse, m: MinerResponse, minerVersion: string)
    requires IsValid(m)
    ensures var r := CreateResponseSynapse(request, m.resolution.Value(), m.confidence, m.summary,
                                           Some(m.sources), m.reasoning, m.targetValue, minerVersion);
            IsValidSynapse(r) && SameRequest(r, request) && r.sources == m.sources
  {
    ResolutionRoundTrip(m.resolution, m.resolution);
  }

  /** A response's validity depends only on the resolution and confidence given, never on the
      request it answers or the text it carries. */
  lemma ResponseValidityIsLocal(a: Synapse, b: Synapse, resolution: string, confidence: real,
                                 s1: string, s2: string, src1: Option<seq<string>>, src2: Option<seq<string>>)
    ensures IsValidSynapse(CreateResponseSynapse(a, resolution, confidence, s1, src1, "", None, ""))
       <==> IsValidSynapse(CreateResponseSynapse(b, resolution, confidence, s2, src2, "", None, ""))
  {
  }

  // ---- responses in older formats ----

  /** What `try_parse_legacy_response` returns. */
  datatype LegacyParsed = LegacyParsed(resolution: string, confidence: real, summary: string,
                                       sources: seq<string>, reasoning: string, targetValue: Option<real>)

  /** `hasattr(response, name) and response.<name>` for an object whose attributes are
      `attrs`. */
  predicate TruthyAttr(attrs: Object, name: string) {
    name in attrs && Truthy(attrs[name])
  }

  /** `hasattr(response, name) and response.<name> is not None`. */
  predicate PresentAttr(attrs: Object, name: string) {
    name in attrs && !attrs[name].Null?
  }

  const AffirmativePredictions: set<string> := {"TRUE", "1", "YES", "POSITIVE"}
  const NegativePredictions: set<string> := {"FALSE", "0", "NO", "NEGATIVE"}

  /** The resolution rule: a truthy `resolution` is upper-cased and kept without checking it
      against the enum; otherwise a truthy `prediction` is read through the two vocabularies,
      and anything else leaves PENDING. */
  function LegacyResolution(attrs: Object, show: Value -> string): (r: string)
    ensures TruthyAttr(attrs, "resolution") ==> r == ToUpper(Render(attrs["resolution"], show))
    ensures !TruthyAttr(attrs, "resolution") ==> r in {"TRUE", "FALSE", "PENDING"}
    ensures !TruthyAttr(attrs, "resolution") ==>
      (r == "TRUE" <==> TruthyAttr(attrs, "prediction") && ToUpper(Render(attrs["prediction"], show)) in AffirmativePredictions)
    ensures !TruthyAttr(attrs, "resolution") ==>
      (r == "FALSE" <==> TruthyAttr(attrs, "prediction") && ToUpper(Render(attrs["prediction"], show)) in NegativePredictions)
  {
    if TruthyAttr(attrs, "resolution") then ToUpper(Render(attrs["resolution"], show))
    else if TruthyAttr(attrs, "prediction") then
      var pred := ToUpper(Render(attrs["prediction"], show));
      if pred in AffirmativePredictions then "TRUE"
      else if pred in NegativePredictions then "FALSE"
      else "PENDING"
    else "PENDING"
  }

  /** The confidence rule: `confidence` when present, else `score` scaled from [0, 1] to
      [0, 100], else 0.0. None when the chosen value does not convert with `float`. */
  function LegacyConfidence(attrs: Object): (r: Option<real>)
    ensures PresentAttr(attrs, "confidence") ==> r == ToFloat(attrs["confidence"])
    ensures !PresentAttr(attrs, "confidence") && PresentAttr(attrs, "score") ==>
      (r.Some? <==> ToFloat(attrs["score"]).Some?) && (r.Some? ==> r.value == ToFloat(attrs["score"]).value * 100.0)
    ensures !PresentAttr(attrs, "confidence") && !PresentAttr(attrs, "score") ==> r == Some(0.0)
  {
    if PresentAttr(attrs, "confidence") then ToFloat(attrs["confidence"])
    else if PresentAttr(attrs, "score") then
      match ToFloat(attrs["score"])
      case Some(x) => Some(x * 100.0)
      case None => None
    else Some(0.0)
  }

  /** The summary rule: a truthy `summary`, else a truthy `explanation`, else the default. */
  function LegacySummary(attrs: Object, show: Value -> string): (r: string)
    ensures TruthyAttr(attrs, "summary") ==> r == Render(attrs["summary"], show)
    ensures !TruthyAttr(attrs, "summary") && TruthyAttr(attrs, "explanation") ==> r == Render(attrs["explanation"], show)
    ensures !TruthyAttr(attrs, "summary") && !TruthyAttr(attrs, "explanation") ==> r == "Legacy response"
  {
    if TruthyAttr(attrs, "summary") then Render(attrs["summary"], show)
    else if TruthyAttr(attrs, "explanation") then Render(attrs["explanation"], show)
    else "Legacy response"
  }

  /** The legacy parse as a whole: None for no response or a confidence that does not
      convert; otherwise the three rules over the defaults, with no sources, no reasoning and
      no target. */
  function LegacyParse(response: Option<Object>, show: Value -> string): (r: Option<LegacyParsed>)
    ensures r.Some? <==> response.Some? && LegacyConfidence(response.value).Some?
    ensures r.Some? ==> r.value.sources == [] && r.value.reasoning == "" && r.value.targetValue.None?
  {
    match response
    case None => None
    case Some(attrs) =>
      match LegacyConfidence(attrs)
      case None => None
      case Some(c) => Some(LegacyParsed(LegacyResolution(attrs, show), c, LegacySummary(attrs, show), [], "", None))
  }

  /** `try_parse_legacy_response`: `parsed` starts from the defaults and each rule overwrites
      its key in turn; the exception a failing `float` raises is caught and yields None. */
  method ParseLegacy(response: Option<Object>, show: Value -> string) returns (r: Option<LegacyParsed>)
    ensures r == LegacyParse(response, show)
  {
    if response.None? {
      return None;
    }
    var attrs := response.value;
    var parsed := LegacyParsed("PENDING", 0.0, "Legacy response", [], "", None);
    if TruthyAttr(attrs, "resolution") {
      parsed := parsed.(resolution := ToUpper(Render(attrs["resolution"], show)));
    } else if TruthyAttr(attrs, "prediction") {
      var pred := ToUpper(Render(attrs["prediction"], show));
      if pred in AffirmativePredictions {
        parsed := parsed.(resolution := "TRUE");
      } else if pred in NegativePredictions {
        parsed := parsed.(resolution := "FALSE");
      }
    }
    if PresentAttr(attrs, "confidence") {
      var c := ToFloat(attrs["confidence"]);
      if c.None? {
        return None;
      }
      parsed := parsed.(confidence := c.value);
    } else if PresentAttr(attrs, "score") {
      var c := ToFloat(attrs["score"]);
      if c.None? {
        return None;
      }
      parsed := parsed.(confidence := c.value * 100.0);
    }
    if TruthyAttr(attrs, "summary") {
      parsed := parsed.(summary := Render(attrs["summary"], show));
    } else if TruthyAttr(attrs, "explanation") {
      parsed := parsed.(summary := Render(attrs["explanation"], show));
    }
    r := Some(parsed);
  }

  /** A truthy `resolution` decides alone: whatever `prediction` says is ignored. */
  lemma ResolutionWins(attrs: Object, prediction: Value, show: Value -> string)
    requires TruthyAttr(attrs, "resolution")
    ensures LegacyResolution(attrs["prediction" := prediction], show) == LegacyResolution(attrs, show)
  {
    var other := attrs["prediction" := prediction];
    assert other["resolution"] == attrs["resolution"];
  }

  /** Upper-casing leaves a string without lower-case letters unchanged. */
  lemma UpperFixed(s: string)
    requires forall i :: 0 <= i < |s| ==> !('a' <= s[i] <= 'z')
    ensures ToUpper(s) == s
  {
  }

  /** The attributes a synapse exposes to the legacy parser. */
  function SynapseAttrs(s: Synapse): (attrs: Object)
    ensures "resolution" in attrs && attrs["resolution"] == Str(s.resolution)
    ensures "confidence" in attrs && attrs["confidence"] == Num(s.confidence)
    ensures "summary" in attrs && attrs["summary"] == Str(s.summary)
    ensures "prediction" !in attrs && "score" !in attrs && "explanation" !in attrs
  {
    map[
      "statement" := Str(s.statement),
      "end_date" := Str(s.endDate),
      "created_at" := Str(s.createdAt),
      "statement_id" := StrOrNull(s.statementId),
      "initial_value" := NumOrNull(s.initialValue),
      "context" := (if s.context.Some? then Obj(s.context.value) else Null),
      "resolution" := Str(s.resolution),
      "confidence" := Num(s.confidence),
      "summary" := Str(s.summary),
      "sources" := Strs(s.sources),
      "analysis_time" := Num(s.analysisTime),
      "reasoning" := Str(s.reasoning),
      "target_value" := NumOrNull(s.targetValue),
      "protocol_version" := Str(s.protocolVersion),
      "miner_version" := Str(s.minerVersion)]
  }

  /** Read back through the legacy parser, a valid synapse keeps its resolution, its confidence
      and (when it has one) its summary. */
  lemma LegacyReadsValidSynapse(s: Synapse, show: Value -> string)
    requires IsValidSynapse(s)
    ensures LegacyParse(Some(SynapseAttrs(s)), show) ==
      Some(LegacyParsed(s.resolution, s.confidence,
                        if |s.summary| > 0 then s.summary else "Legacy response", [], "", None))
  {
    var attrs := SynapseAttrs(s);
    assert s.resolution in {"TRUE", "FALSE", "PENDING"};
    UpperFixed(s.resolution);
    assert LegacyResolution(attrs, show) == s.resolution;
    assert LegacyConfidence(attrs) == Some(s.confidence);
  }
}
