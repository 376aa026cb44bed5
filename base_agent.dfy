/** The agent base class (miner/agents/base_agent.py): configuration defaults, response
    validation, and the dispatch wrapper that turns an agent's failure into a canonical
    PENDING response and stamps the proof hash. */
module BaseAgent {
  import opened Wrappers
  import opened Json
  import opened Types

  /** The concrete agents; an agent's name is its class name. */
  datatype AgentKind = Dummy | AI {
    function ClassName(): (r: string)
      ensures r == "DummyAgent" || r == "AIAgent"
      ensures this.Dummy? <==> r == "DummyAgent"
    {
      match this
      case Dummy => "DummyAgent"
      case AI => "AIAgent"
    }
  }

  /** What `BaseAgent.__init__` records. */
  datatype Agent = Agent(kind: AgentKind, name: string, config: Object)

  /** `BaseAgent.__init__`: the name is the class name and the configuration is
      `config or {}`, so a missing or empty configuration becomes the empty dict. */
  function Init(kind: AgentKind, config: Option<Object>): (a: Agent)
    ensures a.kind == kind && a.name == kind.ClassName()
    ensures config.Some? && |config.value| > 0 ==> a.config == config.value
    ensures config.None? || |config.value| == 0 ==> a.config == map[]
  {
    Agent(kind, kind.ClassName(), if config.Some? && |config.value| > 0 then config.value else map[])
  }

  /** `validate_response`: the statement, resolution, confidence, summary and sources checks
      in turn, then `is_valid()`. None of the checks can raise on a `MinerResponse`. */
  function ValidateResponse(r: MinerResponse): (ok: bool)
    ensures ok <==> |r.statement| > 0 && IsValid(r)
  {
    if |r.statement| == 0 then false
    else if r.resolution !in {FALSE, TRUE, PENDING} then false
    else if !(0.0 <= r.confidence <= 100.0) then false
    else if |r.summary| == 0 then false
    else if |r.sources| == 0 then false
    else IsValid(r)
  }

  /** What `verify_statement` did: returned a response, returned something that is not a
      `MinerResponse` (on which validation raises and so answers False), or raised. */
  datatype Outcome = Returned(response: MinerResponse) | ReturnedOther | Raised(error: Exception)

  /** `MinerResponse(statement=text, resolution=PENDING, confidence=0.0, summary=summary,
      sources=["error"])`: the response both error paths build. */
  function ErrorResponse(text: string, summary: string, nowIso: string): (r: MinerResponse)
    ensures WellFormed(r) && (IsValid(r) <==> |summary| > 0)
    ensures r.statement == text && r.resolution == PENDING && r.confidence == 0.0
    ensures r.summary == TruncateSummary(summary) && r.sources == ["error"]
    ensures r.reasoning == "" && r.proofHash.None? && r.timestamp == nowIso
    ensures r.targetValue.None? && r.currentValue.None? && r.minerUid.None?
  {
    var d := Draft(text, "PENDING", 0.0, summary, sources := ["error"]);
    assert Construct(d, nowIso).Ok?;
    Construct(d, nowIso).value
  }

  /** A proof hash is present when `proof_hash` is truthy (not None and not ""). */
  predicate HasHash(h: Option<string>) {
    h.Some? && |h.value| > 0
  }

  /** `process_statement`. The response kept is the agent's own when it validates, else the
      "generated invalid response" fallback; a hash is stamped only when none is present.
      When the agent raises, the fallback names the exception and carries no hash. */
  method ProcessStatement(agent: Agent, stmt: Statement, outcome: Outcome,
                          digest: Object -> string, nowIso: string)
    returns (r: MinerResponse)
    ensures IsValid(r)
    ensures outcome.Raised? ==>
      r == ErrorResponse(stmt.statement, "Error processing statement: " + outcome.error.message, nowIso)
    ensures outcome.Raised? ==> r.proofHash.None?
    ensures outcome.Returned? && ValidateResponse(outcome.response) ==>
      r.(proofHash := outcome.response.proofHash) == outcome.response
    ensures !outcome.Raised? && !(outcome.Returned? && ValidateResponse(outcome.response)) ==>
      r.(proofHash := None) == ErrorResponse(stmt.statement, "Error: " + agent.name + " generated invalid response", nowIso)
    ensures outcome.Returned? && ValidateResponse(outcome.response) && HasHash(outcome.response.proofHash) ==>
      r == outcome.response
    ensures !outcome.Raised? && !(outcome.Returned? && ValidateResponse(outcome.response) && HasHash(outcome.response.proofHash)) ==>
      r.proofHash == Some(ProofHash(r, digest))
  {
    if outcome.Raised? {
      r := ErrorResponse(stmt.statement, "Error processing statement: " + outcome.error.message, nowIso);
      return;
    }
    var response: MinerResponse;
    if outcome.Returned? && ValidateResponse(outcome.response) {
      response := outcome.response;
    } else {
      response := ErrorResponse(stmt.statement, "Error: " + agent.name + " generated invalid response", nowIso);
    }
    if !HasHash(response.proofHash) {
      var stamped := response.(proofHash := Some(ProofHash(response, digest)));
      ProofHashCovers(response, stamped, digest);
      response := stamped;
    }
    r := response;
  }
}
