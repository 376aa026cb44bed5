/** Request gating and request handling of the miner (miner/bittensor_integration.py): the
    blacklist and priority rules of the production and mock miners, the request counter and
    the response synapse each miner sends back, and the choice between the two miners. The
    agent's `process_statement` and the clock are parameters. */
module Miner {
  import opened Wrappers
  import opened Text
  import opened Types
  import opened Protocol

  const MinLength := 10
  const MaxLength := 1000
  const MissingFields := "Missing required fields"
  const LengthPrefix := "Invalid statement length: "
  const Accepted := "Request accepted"

  /** A request field that is present, not None and not empty. */
  predicate Filled(field: Option<string>) {
    field.Some? && |field.value| > 0
  }

  /** The module-level `blacklist`: a field is None when the synapse lacks the attribute or
      holds None there. A request is refused unless both fields are filled and the statement
      has between 10 and 1000 characters; the reason says which rule refused it. */
  function Blacklist(statement: Option<string>, endDate: Option<string>): (r: (bool, string))
    ensures !r.0 <==> Filled(statement) && Filled(endDate) && MinLength <= |statement.value| <= MaxLength
    ensures !(Filled(statement) && Filled(endDate)) ==> r.1 == MissingFields
    ensures Filled(statement) && Filled(endDate) && r.0 ==> r.1 == LengthPrefix + IntToString(|statement.value|)
    ensures !r.0 ==> r.1 == Accepted
  {
    if !Filled(statement) || !Filled(endDate) then (true, MissingFields)
    else if |statement.value| < MinLength || |statement.value| > MaxLength then
      (true, LengthPrefix + IntToString(|statement.value|))
    else (false, Accepted)
  }

  /** A length refusal reports the statement's length: reading the number back after the
      prefix gives the length, and it lies outside 10..1000. */
  lemma LengthReasonNamesLength(statement: string, endDate: string)
    requires Filled(Some(statement)) && Filled(Some(endDate))
    requires Blacklist(Some(statement), Some(endDate)).0
    ensures var reason := Blacklist(Some(statement), Some(endDate)).1;
      && StartsWith(reason, LengthPrefix)
      && ParseInt(reason[|LengthPrefix|..]) == Some(|statement|)
      && (|statement| < MinLength || |statement| > MaxLength)
  {
    var reason := Blacklist(Some(statement), Some(endDate)).1;
    assert reason[|LengthPrefix|..] == IntToString(|statement|);
    IntRoundTrip(|statement|);
  }

  /** `BittensorMiner.blacklist`: the same rules applied to a synapse, whose fields always exist. */
  function MinerBlacklist(s: Synapse): (r: (bool, string))
    ensures r == Blacklist(Some(s.statement), Some(s.endDate))
  {
    if |s.statement| == 0 || |s.endDate| == 0 then (true, MissingFields)
    else if |s.statement| < MinLength || |s.statement| > MaxLength then
      (true, LengthPrefix + IntToString(|s.statement|))
    else (false, Accepted)
  }

  /** `MockBittensorMiner.blacklist`: only statements shorter than 10 characters are refused. */
  function MockBlacklist(s: Synapse): (r: (bool, string))
    ensures r.0 <==> |s.statement| < MinLength
    ensures r.0 ==> r.1 == "Statement too short"
    ensures !r.0 ==> r.1 == Accepted
  {
    if |s.statement| < MinLength then (true, "Statement too short") else (false, Accepted)
  }

  /** The mock miner accepts everything the production miner accepts, and also accepts long
      statements and requests without a deadline. */
  lemma MockIsLenient(s: Synapse)
    ensures !MinerBlacklist(s).0 ==> !MockBlacklist(s).0
    ensures |s.statement| >= MinLength && (|s.statement| > MaxLength || |s.endDate| == 0) ==>
      MinerBlacklist(s).0 && !MockBlacklist(s).0
  {
  }

  /** `priority`, `BittensorMiner.priority` and `MockBittensorMiner.priority`: every request
      ranks the same. */
  function Priority(s: Synapse): (p: real)
    ensures p == 1.0
  {
    1.0
  }

  /** The `Statement` handed to the agent: text, deadline, creation time and initial value
      of the request, no id. */
  function AgentStatement(s: Synapse): (r: Statement)
    ensures r.statement == s.statement && r.endDate == s.endDate && r.createdAt == s.createdAt
    ensures r.initialValue == s.initialValue && r.id.None? && r.direction.None? && r.category.None?
  {
    Statement(s.statement, s.endDate, s.createdAt, initialValue := s.initialValue, id := None)
  }

  /** The version string a miner reports: `prefix` followed by the agent's name. */
  function Version(prefix: string, agentName: string): string {
    prefix + agentName
  }

  const ProductionPrefix := "subnet90-miner-v1.0-"
  const MockPrefix := "mock-subnet90-miner-v1.0-"

  /** The response synapse for the agent's response. */
  function Answer(request: Synapse, m: MinerResponse, version: string): (r: Synapse)
    ensures SameRequest(r, request) && r.minerVersion == version
    ensures r.resolution == m.resolution.Value() && r.confidence == m.confidence
    ensures r.summary == m.summary && r.reasoning == m.reasoning && r.targetValue == m.targetValue
  {
    CreateResponseSynapse(request, m.resolution.Value(), m.confidence, m.summary, Some(m.sources),
                          m.reasoning, m.targetValue, version)
  }

  /** The response synapse when processing raised `e`: PENDING, confidence 0, no sources. */
  function ErrorAnswer(request: Synapse, e: Exception, version: string): (r: Synapse)
    ensures SameRequest(r, request) && r.minerVersion == version
    ensures r.resolution == "PENDING" && r.confidence == 0.0 && r.sources == []
    ensures r.summary == "Processing error: " + e.message && r.targetValue.None?
  {
    CreateResponseSynapse(request, "PENDING", 0.0, "Processing error: " + e.message, Some([]),
                          "Error occurred during processing", None, version)
  }

  /** Whatever the agent's valid response or the exception, the synapse a miner sends back
      passes the protocol check and answers the request. */
  lemma ServedAnswersAreValid(request: Synapse, m: MinerResponse, e: Exception, version: string, elapsed: real)
    requires IsValid(m)
    ensures IsValidSynapse(Answer(request, m, version).(analysisTime := elapsed))
    ensures IsValidSynapse(ErrorAnswer(request, e, version).(analysisTime := elapsed))
    ensures Answer(request, m, version).sources == m.sources
  {
    ResponseFromValid(request, m, version);
    assert ParseResolution("PENDING") == Some(PENDING);
  }

  /** `BittensorMiner`: the name of its agent and the number of requests it has answered. */
  class BittensorMiner {
    const agentName: string
    var requestsProcessed: nat

    /** `BittensorMiner.__init__`, once Bittensor is importable: no request answered yet. */
    constructor(agentName: string)
      ensures this.agentName == agentName && requestsProcessed == 0
    {
      this.agentName := agentName;
      requestsProcessed := 0;
    }

    /** `BittensorMiner.verify_statement`. `process` is the agent's `process_statement` (Err
        when it raises) and `elapsed` the seconds since the request arrived. A response counts
        the request; an exception yields the error synapse and does not count it. Either way
        the elapsed time is recorded. */
    method VerifyStatement(request: Synapse, process: Statement -> Result<MinerResponse>, elapsed: real)
      returns (r: Synapse)
      modifies this
      ensures process(AgentStatement(request)).Ok? ==>
        r == Answer(request, process(AgentStatement(request)).value, Version(ProductionPrefix, agentName)).(analysisTime := elapsed)
        && requestsProcessed == old(requestsProcessed) + 1
      ensures process(AgentStatement(request)).Err? ==>
        r == ErrorAnswer(request, process(AgentStatement(request)).error, Version(ProductionPrefix, agentName)).(analysisTime := elapsed)
        && requestsProcessed == old(requestsProcessed)
    {
      var version := Version(ProductionPrefix, agentName);
      var outcome := process(AgentStatement(request));
      if outcome.Err? {
        r := ErrorAnswer(request, outcome.error, version);
        r := r.(analysisTime := elapsed);
        return;
      }
      var m := outcome.value;
      r := CreateResponseSynapse(request, m.resolution.Value(), m.confidence, m.summary, Some(m.sources),
                                 m.reasoning, m.targetValue, version);
      r := r.(analysisTime := elapsed);
      requestsProcessed := requestsProcessed + 1;
    }
  }

  /** `MockBittensorMiner`: the same counter, no network. */
  class MockMiner {
    const agentName: string
    var requestsProcessed: nat

    constructor(agentName: string)
      ensures this.agentName == agentName && requestsProcessed == 0
    {
      this.agentName := agentName;
      requestsProcessed := 0;
    }

    /** `MockBittensorMiner.verify_statement`: the analysis time is a fixed 0.5 and every
        answered request is counted. It has no handler, so an exception from the agent
        propagates (Err) and nothing is counted. */
    method VerifyStatement(request: Synapse, process: Statement -> Result<MinerResponse>)
      returns (r: Result<Synapse>)
      modifies this
      ensures process(AgentStatement(request)).Ok? ==>
        r == Ok(Answer(request, process(AgentStatement(request)).value, Version(MockPrefix, agentName)).(analysisTime := 0.5))
        && requestsProcessed == old(requestsProcessed) + 1
      ensures process(AgentStatement(request)).Err? ==>
        r == Err(process(AgentStatement(request)).error) && requestsProcessed == old(requestsProcessed)
    {
      var outcome := process(AgentStatement(request));
      if outcome.Err? {
        return Err(outcome.error);
      }
      var response := Answer(request, outcome.value, Version(MockPrefix, agentName));
      response := response.(analysisTime := 0.5);
      requestsProcessed := requestsProcessed + 1;
      return Ok(response);
    }
  }

  datatype MinerKind = Production | Mock

  /** `create_miner`: the mock when asked for or when Bittensor cannot be imported. */
  function CreateMiner(useMock: bool, bittensorAvailable: bool): (k: MinerKind)
    ensures k == Mock <==> useMock || !bittensorAvailable
  {
    if useMock || !bittensorAvailable then Mock else Production
  }

  /** The factory never builds the production miner without Bittensor (its constructor would
      raise `ImportError`), and asking for the mock always gets it. */
  lemma FactoryNeverRaises(useMock: bool, bittensorAvailable: bool)
    ensures CreateMiner(useMock, bittensorAvailable) == Production ==> bittensorAvailable && !useMock
    ensures useMock ==> CreateMiner(useMock, bittensorAvailable) == Mock
  {
  }
}
