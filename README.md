# DegenBrain miner: the response-normalisation layer, in Dafny

This project models the part of the DegenBrain Bittensor miner (subnet 90) that every answer
passes through on its way to a validator. Each modelled part is listed below with its module.

- **Response model** (`Types`): the three-valued `Resolution`, prediction statements and
  their dict round trip, and `MinerResponse` with its truncating validators and `is_valid`.
  Also the input of the proof hash and the subnet configuration read from the environment.
- **Dispatch wrapper** (`BaseAgent`): the wrapper turns an invalid or failing agent answer
  into the canonical PENDING response, and stamps a proof hash only when none is present.
- **Agents as decision rules**:
  - `DummyAgent`: date-gated resolution, fixed summaries, sampled sources and the dollar
    amount extractor. The extractor's regular expressions are written out as scanners in
    `Patterns`.
  - `AIAgent`: resolution coercion, default filling, the no-provider and error fallbacks,
    the pattern analysis, the basic reasoning and the data-collection branch rule.
  - `CoinLookup`: the coin table, filled once and searched in insertion order.
- **LLM providers** (`LlmProviders`): the provider factory, model names, endpoints, JSON-mode
  request shaping, Chutes' fence cleanup, and the error markers `call` returns.
- **Resolution client** (`ResolutionClient`): URL normalisation, the status rule of
  `get_resolution`, and `convert_to_miner_response`.
- **Protocol** (`Protocol`): synapse validity, the request and response builders, and the
  legacy-response parser.
- **Request handling** (`Miner`): blacklist and priority rules, the request counter, the
  response and error synapses, and the miner factory.
- **Configuration** (`Config`): the environment filter, required fields and value ranges, the
  cached load, the masked example file and the module's single manager.
- **API client** (`Api`): the 15-minute fetch gate, chunk conversion, response formatting,
  `post_consensus` and `get_task`.

Helper modules:
- `Wrappers`: Option, Result and exceptions.
- `Json`: Python/JSON values and truthiness.
- `Text`: Python `str` operations, including decimal round trips.
- `Lex`: Python's string order and `sorted`.

Anything the source gets from outside the process becomes a parameter of the member that
needs it:
- HTTP exchanges, as `Transport`, `Reply`, `Exchange` and `Listing` values;
- the clock and `datetime.fromisoformat`, as `Clock` and `parseIso`;
- random draws;
- SHA-256 with `json.dumps`;
- rendering of non-string values;
- the agent's `process_statement`.

Where the project's design description and its code disagree, the model follows the code:
- A long summary is cut to 1000 characters and then gets `"..."`, so it is 1003 characters
  long, not at most 1000 (`Types.TruncateSummary`).
- `post_consensus` is described as always returning True. It returns False when `consensus`
  is not a dict, because the `consensus.get` inside its `try` raises (`Api.PostConsensus`).

## Model

| member | source | states |
|---|---|---|
| Types.Resolution.Value | shared/types.py:13-17 | each outcome's value is its own name, one of "TRUE", "FALSE", "PENDING" |
| Types.ParseResolution | shared/types.py:13-17 | `Resolution(s)` succeeds exactly for the three names |
| Types.ResolutionRoundTrip | shared/types.py:13-17 | parsing an outcome's value gives that outcome back, and equal values mean equal outcomes |
| Types.IsoText | shared/types.py:60 | the text given to `fromisoformat` has no `Z`, and text without a `Z` is passed unchanged |
| Types.Statement.ToDict | shared/types.py:40-50 | the dict has exactly the seven statement keys, holding the statement's text, deadline and creation time |
| Types.FromDict | shared/types.py:52-55 | a dict with a key that is not a statement field, or without statement, end_date and createdAt, does not convert; a mistyped field value is read as raising (see Left out) |
| Types.Statement.IsExpired | shared/types.py:57-63 | a deadline that does not parse is never expired; an aware deadline is expired exactly when the UTC clock is strictly past it, a naive one when the local wall clock is |
| Types.StatementRoundTrip | shared/types.py:40-55 | `from_dict(s.to_dict())` is `s` |
| Types.DictRoundTrip | shared/types.py:40-55 | a dict that converts is rebuilt by `to_dict`: every key keeps its value, and the added keys hold null |
| Types.ExpiryMonotone | shared/types.py:57-63 | a statement that has expired stays expired on any later clock |
| Types.TruncateSources | shared/types.py:85-90 | more than 10 sources become their first 10 in order; fewer are unchanged |
| Types.TruncateSummary | shared/types.py:92-97 | a summary over 1000 characters becomes its first 1000 plus "..."; a shorter one is unchanged |
| Types.TruncationBounds | shared/types.py:85-97 | after truncation there are at most 10 sources, a prefix of the input; the summary has at most 1003 characters, starts with the input's first 1000 and ends in "..." when it was cut |
| Types.TruncationIdempotent | shared/types.py:85-97 | truncating sources or the summary twice is truncating once |
| Types.Construct | shared/types.py:66-97 | construction succeeds exactly for a resolution name and a confidence in [0, 100]; the fields are kept, the timestamp defaults to now, and sources and summary are only truncated |
| Types.IsValid | shared/types.py:111-118 | a response is valid exactly when its confidence is in [0, 100] and its summary and sources are non-empty; the resolution test always holds |
| Types.ConstructedValidity | shared/types.py:111-118 | a constructed response is valid exactly when its summary and sources are non-empty |
| Types.OptFloatField | shared/types.py:78-79 | an optional float field accepts null and whatever `float` accepts, and nothing else |
| Types.FromFields | shared/types.py:66-97 | building from JSON field values succeeds exactly when every field has an accepted type and the confidence is in range, and then equals the typed construction |
| Types.ProofPayload | shared/types.py:99-107 | the hashed record has exactly the five keys statement, resolution value, confidence, sources and timestamp |
| Types.ProofHash | shared/types.py:99-109 | the hash is the digest of the five-field record, so every response agreeing on those five fields has the same hash |
| Types.ProofPayloadExact | shared/types.py:99-109 | two responses have the same hashed record exactly when those five fields agree |
| Types.ProofHashCovers | shared/types.py:99-109 | changing reasoning, target or current value, miner uid or proof hash leaves the proof hash unchanged |
| Types.FromEnv | shared/types.py:214-234 | reading succeeds exactly when every numeric setting parses; each setting is then the environment value or its default |
| Types.NonNumeralRejected | shared/types.py:221-234 | an integer setting holding a non-numeral makes `from_env` raise |
| BaseAgent.AgentKind.ClassName | miner/agents/base_agent.py:30 | an agent's name is its class name, DummyAgent or AIAgent |
| BaseAgent.Init | miner/agents/base_agent.py:22-31 | the name is the class name; a missing or empty configuration becomes {} |
| BaseAgent.ValidateResponse | miner/agents/base_agent.py:50-87 | false for an empty statement, out-of-range confidence, empty summary or empty sources; otherwise `is_valid` |
| BaseAgent.ErrorResponse | miner/agents/base_agent.py:109-115 | the fallback is PENDING, confidence 0, sources ["error"], the given summary and the echoed statement; it is valid exactly when the summary is non-empty |
| BaseAgent.ProcessStatement | miner/agents/base_agent.py:89-140 | an invalid answer becomes the "generated invalid response" fallback and a raised one the "Error processing statement" fallback without a hash; a valid answer is returned unchanged except that a missing proof hash is filled in |
| DummyAgent.DetermineResolution | miner/agents/dummy_agent.py:84-107 | PENDING for an empty, future, unparseable or incomparable deadline; otherwise TRUE or FALSE by the coin |
| DummyAgent.AccuracyIrrelevant | miner/agents/dummy_agent.py:97-104 | the accuracy roll never changes the resolution |
| DummyAgent.PassedDeadlineDecides | miner/agents/dummy_agent.py:89-104 | a passed deadline gives TRUE or FALSE, never PENDING |
| DummyAgent.Summary | miner/agents/dummy_agent.py:109-116 | the summary is one of three fixed strings |
| DummyAgent.SummaryDetermines | miner/agents/dummy_agent.py:109-116 | distinct resolutions have distinct summaries, so the summary names the resolution |
| DummyAgent.Sources | miner/agents/dummy_agent.py:118-135 | 2 to 4 distinct entries of the fixed 10-entry pool |
| DummyAgent.ExtractTarget | miner/agents/dummy_agent.py:137-159 | the leftmost `$` group wins when `float` accepts it with commas removed; otherwise the keyword group's value with commas removed, or None when there is no keyword match; the target is never negative |
| DummyAgent.DollarGroupOfNumeral | miner/agents/dummy_agent.py:142-144 | a `$` before a run of digits and commas is matched with exactly that run |
| DummyAgent.DollarRoundTrip | miner/agents/dummy_agent.py:141-148 | "$" followed by a number's digits extracts that number |
| DummyAgent.NumberGroupOfNumeral | miner/agents/dummy_agent.py:151-153 | a numeral followed by a keyword is matched with exactly that numeral |
| DummyAgent.CommaGroupedDollar | miner/agents/dummy_agent.py:141-148 | a comma-grouped `$` amount such as "$50,000" extracts the digits with the comma removed (50000) |
| DummyAgent.NumberGroupAfter | miner/agents/dummy_agent.py:151-153 | after text holding no digit, digits followed by " usd" are matched with exactly those digits |
| DummyAgent.KeywordRoundTrip | miner/agents/dummy_agent.py:150-157 | a number's digits followed by " usd" extract that number |
| DummyAgent.CommaOnlyFallsBack | miner/agents/dummy_agent.py:141-157 | a `$` followed only by a comma, as in "$, or 7 usd", leaves nothing for `float`, so the keyword amount (7) is extracted |
| DummyAgent.CurrentValue | miner/agents/dummy_agent.py:161-169 | no current value for a missing or zero target, otherwise the draw |
| DummyAgent.ConfidenceRange | miner/agents/dummy_agent.py:35 | the confidence range defaults to (60, 95) |
| DummyAgent.VerifyStatement | miner/agents/dummy_agent.py:37-82 | fails exactly for a non-numeric delay, an unusable confidence range or a confidence outside [0, 100]; otherwise carries the statement, resolution, its summary, the drawn sources and the target, and never a current value |
| DummyAgent.DummyResponsesValidate | miner/agents/dummy_agent.py:74-82 | a response the dummy agent returns for a non-empty statement passes the dispatcher's validation |
| Patterns.FindDollar | miner/agents/dummy_agent.py:142 | the leftmost `$` followed by a digit or comma, and no earlier one |
| Patterns.DollarGroup | miner/agents/dummy_agent.py:142-144 | the group of the leftmost `$` match: digits and commas with an optional fraction |
| Patterns.FindNumberKeyword | miner/agents/dummy_agent.py:151 | the leftmost position where a number followed by a keyword starts, and no earlier one |
| Patterns.NumberGroup | miner/agents/dummy_agent.py:151-153 | the group of the leftmost keyword match: comma-grouped digits with an optional fraction |
| Patterns.UnsignedGroup | miner/agents/dummy_agent.py:144-146 | a group without commas reads as a non-negative number |
| AIAgent.InitFrom | miner/agents/ai_agent.py:35-56 | provider name default "openai", the factory's provider with timeout default 30, API URL default the subnet API; non-string name or URL raises |
| AIAgent.InitAsWritten | miner/agents/ai_agent.py:31-35 | as written, the body reads the `config` parameter, so a missing configuration raises |
| AIAgent.Init | miner/agents/ai_agent.py:31-56 | the body reads the configuration the base class stored; the agent is named AIAgent |
| AIAgent.MissingConfig | miner/agents/ai_agent.py:35 | without a configuration the written agent raises; the corrected one starts with defaults and no provider |
| AIAgent.GivenConfigAgrees | miner/agents/ai_agent.py:31-35 | given a configuration, both readings build the same agent |
| AIAgent.Rebuild | miner/agents/ai_agent.py:72-87 | text and deadline are kept; createdAt and id come from the synapse or default to "" and None; the other fields are dropped |
| AIAgent.RebuildKeepsTextAndDeadline | miner/agents/ai_agent.py:73-82 | two statements with the same text and deadline rebuild to the same statement |
| AIAgent.NoProviderResponse | miner/agents/ai_agent.py:546-555 | PENDING, confidence 50, sources ["basic_analysis"], a summary naming the provider |
| AIAgent.VerificationFailed | miner/agents/ai_agent.py:557-565 | PENDING, confidence 0, sources ["error"], summary "Verification failed: " + error |
| AIAgent.FallbacksPassDispatch | miner/agents/ai_agent.py:94-102 | both fallbacks pass validation exactly when the statement is non-empty |
| AIAgent.CoerceResolution | miner/agents/ai_agent.py:531-535 | exactly the strings TRUE, FALSE and PENDING name their outcome; anything else is PENDING |
| AIAgent.CoerceRoundTrip | miner/agents/ai_agent.py:511-515 | coercing an outcome's value gives the outcome back |
| AIAgent.ConvertAI | miner/agents/ai_agent.py:528-544 | defaults 50, "AI analysis", ["ai_reasoning"] and key_evidence or "AI-powered analysis"; a non-dict answer or a field the response rejects raises |
| AIAgent.ErrorMarkerConverts | miner/agents/ai_agent.py:537-544 | a provider's `{"error": ...}` marker converts to a valid PENDING response with confidence 50 |
| AIAgent.ConvertBrainstorm | miner/agents/ai_agent.py:508-526 | same resolution rule; defaults 50, "Brainstorm API response", ["brainstorm"]; target and current value passed on |
| AIAgent.PatternTarget | miner/agents/ai_agent.py:456-457 | the first `$[0-9,]+` amount without commas read as a float, null without one, failure when it has only commas |
| AIAgent.PriceAnalysis | miner/agents/ai_agent.py:459-466 | the crypto-price analysis of bitcoin with the target and the deadline |
| AIAgent.PatternAnalysis | miner/agents/ai_agent.py:450-472 | bitcoin or btc, in any case, gives the price analysis; anything else the date-based one |
| AIAgent.CommaOnlyAmountRaises | miner/agents/ai_agent.py:456-457 | an amount made only of commas, such as "$,", makes the analysis raise |
| AIAgent.BasicReasoning | miner/agents/ai_agent.py:474-506 | PENDING 95 before an aware deadline, FALSE 30 at or after it, PENDING 0 when it does not parse or has no offset |
| AIAgent.ReasoningAnswerConverts | miner/agents/ai_agent.py:528-544 | a reasoning answer with an in-range confidence and a summary converts to a valid response with its resolution |
| AIAgent.BasicReasoningNeverTrue | miner/agents/ai_agent.py:474-506 | the converted basic reasoning is valid, FALSE exactly when the deadline was reached, and never TRUE |
| AIAgent.CoinIdFor | miner/agents/ai_agent.py:236 | the table's entry for the lower-cased symbol, else the symbol |
| AIAgent.DataFor | miner/agents/ai_agent.py:220-264 | fails for a non-dict analysis or a non-string symbol; price data only for prediction_type "price" with a truthy symbol, historical for a past aware deadline and current otherwise |
| AIAgent.PatternAnalysisGathersNothing | miner/agents/ai_agent.py:230 | the pattern analysis ("crypto_price") gathers no data |
| AIAgent.CollectData | miner/agents/ai_agent.py:220-264 | the table is loaded first, then the data is what `DataFor` gives on the loaded table |
| AIAgent.Reasoned | miner/agents/ai_agent.py:131-148 | the pipeline fails with the data-collection error when the analysis cannot be read; otherwise its outcome, failure or response, is the conversion of the reasoning call's reply |
| AIAgent.UnreachableProviderIsPending | miner/agents/ai_agent.py:131-148 | when both provider calls fail, the agent answers a valid PENDING with confidence 50 |
| AIAgent.Settle | miner/agents/ai_agent.py:94-102 | an exception becomes the "Verification failed" response; a response is kept |
| AIAgent.Verify | miner/agents/ai_agent.py:68-102 | the no-provider response when there is no provider, otherwise the settled pipeline outcome |
| CoinLookup.CoinOf | miner/agents/ai_agent.py:416-418 | an entry is readable when id, symbol and name are strings, with symbol and name lower-cased; a non-string id is read as raising (see Left out) |
| CoinLookup.Put | miner/agents/ai_agent.py:421 | dict assignment: a new key goes last, an existing key keeps its place, and the value is replaced |
| CoinLookup.AddCoin | miner/agents/ai_agent.py:415-427 | one loop pass maps symbol, then name, then id to the id |
| CoinLookup.AddCoins | miner/agents/ai_agent.py:415-429 | the loop stores the coins in order and only adds keys at the end |
| CoinLookup.StoredEntries | miner/agents/ai_agent.py:415-427 | after loading, a key maps to the id of the last coin mentioning it, and other keys are untouched |
| CoinLookup.LoadedValuesAreIds | miner/agents/ai_agent.py:415-427 | every value in a freshly loaded table is the id of a listed coin |
| CoinLookup.FirstMatch | miner/agents/ai_agent.py:441-448 | the value of the first key, in insertion order, contained in the text; none when no key is |
| CoinLookup.CoinTable.constructor | miner/agents/ai_agent.py:59-60 | an agent starts with an empty, unloaded table |
| CoinLookup.CoinTable.Assign | miner/agents/ai_agent.py:421 | the table changes as dict assignment says |
| CoinLookup.CoinTable.Load | miner/agents/ai_agent.py:396-434 | a no-op once loaded; otherwise the readable coins are stored, and the flag is set only when the listing was a 200 list that read fully |
| CoinLookup.CoinTable.StoreCoin | miner/agents/ai_agent.py:416-427 | one pass of the loop body |
| CoinLookup.CoinTable.StoreCoins | miner/agents/ai_agent.py:415-429 | the readable prefix of the listing is stored, and the loop completes exactly when every entry is readable |
| CoinLookup.CoinTable.Find | miner/agents/ai_agent.py:436-448 | nothing before loading; afterwards the first match on the lower-cased text |
| LlmProviders.Vendor.Prefix | miner/agents/llm_providers.py:106-107 | a model-name prefix is a name and one slash |
| LlmProviders.PrefixInjective | miner/agents/llm_providers.py:432-433 | the six prefixes (also lines 106-107, 166-167, 229-230, 289-290, 354-355) are pairwise distinct |
| LlmProviders.VendorNamed | miner/agents/llm_providers.py:447-501 | the lower-cased name selects a provider exactly when it is one of the six names |
| LlmProviders.AtLeastMinute | miner/agents/llm_providers.py:494 | `max(timeout, 60)`: at least 60, the timeout itself when already 60 or more, and raises for a non-number |
| LlmProviders.CreateProvider | miner/agents/llm_providers.py:440-501 | unknown names give none; each provider needs a truthy key (Chutes also a slug), with the configured or default model; Chutes' timeout is clamped first and may raise |
| LlmProviders.ModelName | miner/agents/llm_providers.py:106-107 | the provider's prefix followed by the model |
| LlmProviders.ModelNameDetermines | miner/agents/llm_providers.py:106-107 | equal model names mean the same provider and the same model |
| LlmProviders.ApiUrl | miner/agents/llm_providers.py:239 | Gemini's endpoint embeds the model, and Chutes' the slug (line 366) |
| LlmProviders.UrlNamesModelOrSlug | miner/agents/llm_providers.py:239 | equal Gemini endpoints mean equal models, and equal Chutes endpoints equal slugs |
| LlmProviders.ShapeRequest | miner/agents/llm_providers.py:65-66 | in JSON mode OpenAI sets the json_object format and keeps the prompt; the others append the JSON instruction (lines 128-129 on) |
| LlmProviders.Unfence | miner/agents/llm_providers.py:405-413 | strip, drop a leading ```json, then a leading ```, then a trailing ```, strip again |
| LlmProviders.CleanContent | miner/agents/llm_providers.py:405-413 | the step-by-step cleanup computes `Unfence` |
| LlmProviders.FencedRoundTrip | miner/agents/llm_providers.py:405-415 | a stripped body in a ```json fence comes back as the body |
| LlmProviders.PlainUnchanged | miner/agents/llm_providers.py:405-413 | content without backticks at its ends is only stripped |
| LlmProviders.ErrorMarker | miner/agents/llm_providers.py:100 | the error marker is a dict with the single key "error" |
| LlmProviders.Call | miner/agents/llm_providers.py:77-104 | a failure or non-200 status gives an error marker naming the provider; text mode returns the content; JSON mode decodes it, after cleanup for Chutes |
| ResolutionClient.NormalizeUrl | miner/agents/resolution_api_client.py:25 | every trailing slash is removed and nothing else |
| ResolutionClient.NormalizeUrlStable | miner/agents/resolution_api_client.py:25 | normalising is idempotent and ignores an added trailing slash |
| ResolutionClient.ResolutionUrl | miner/agents/resolution_api_client.py:57 | the URL is the base, "/api/resolutions/" and the id |
| ResolutionClient.ResolutionResult | miner/agents/resolution_api_client.py:49-87 | data only for a present id and a 200 JSON body; every other case is None |
| ResolutionClient.Client.constructor | miner/agents/resolution_api_client.py:17-27 | the base URL is normalised and no session is open |
| ResolutionClient.Client.GetResolution | miner/agents/resolution_api_client.py:39-87 | without an id nothing is requested; otherwise a session is opened and the resolution URL requested; the result is `ResolutionResult` |
| ResolutionClient.ConvertToMinerResponse | miner/agents/resolution_api_client.py:89-112 | the statement is echoed, the resolution passed through (default PENDING), confidence converted (default 0.0), the summary quotes the reasoning, and sources and values come from the evidence |
| Protocol.IsValidSynapse | shared/protocol.py:74-91 | valid exactly when the resolution is one of the three names and confidence is in [0, 100] |
| Protocol.CreateRequestSynapse | shared/protocol.py:94-115 | the request fields are set, context None becomes {}, protocol version "1.0", created_at filled only when None |
| Protocol.CreateResponseSynapse | shared/protocol.py:118-150 | request fields copied, statement id not copied, sources None becomes [], analysis time 0 |
| Protocol.ResponseFromValid | shared/protocol.py:118-150 | a response synapse built from a valid miner response is valid |
| Protocol.ResponseValidityIsLocal | shared/protocol.py:74-91 | a response synapse's validity depends only on its resolution and confidence |
| Protocol.LegacyResolution | shared/protocol.py:177-185 | a truthy resolution is upper-cased and wins; else prediction maps to TRUE or FALSE by its two lists; else PENDING |
| Protocol.LegacyConfidence | shared/protocol.py:188-191 | confidence when present, else score × 100, else 0 |
| Protocol.LegacySummary | shared/protocol.py:194-197 | summary, else explanation, else "Legacy response" |
| Protocol.LegacyParse | shared/protocol.py:157-202 | None for a None input or when a float conversion raises; otherwise the three fields with empty sources and reasoning |
| Protocol.ParseLegacy | shared/protocol.py:157-202 | the step-by-step parser computes `LegacyParse` |
| Protocol.ResolutionWins | shared/protocol.py:177-185 | with a truthy resolution the prediction is ignored |
| Protocol.LegacyReadsValidSynapse | shared/protocol.py:157-199 | a valid synapse parses back to its own resolution, confidence and summary |
| Miner.Blacklist | miner/bittensor_integration.py:27-43 | refused exactly when a field is missing or empty or the length is outside 10..1000, with the matching reason |
| Miner.LengthReasonNamesLength | miner/bittensor_integration.py:37-38 | the length reason reads back as the statement's length |
| Miner.MinerBlacklist | miner/bittensor_integration.py:211-241 | the production miner applies the same rules |
| Miner.MockBlacklist | miner/bittensor_integration.py:382-386 | the mock refuses only statements shorter than 10 |
| Miner.MockIsLenient | miner/bittensor_integration.py:382-386 | the mock accepts whatever the production miner accepts, and also long statements and empty deadlines |
| Miner.Priority | miner/bittensor_integration.py:46-48 | every request has priority 1.0 |
| Miner.AgentStatement | miner/bittensor_integration.py:152-160 | the statement handed to the agent carries the request's text, deadline, creation time and initial value, and no id |
| Miner.Answer | miner/bittensor_integration.py:168-181 | the response synapse copies the request and carries the agent's answer and the version |
| Miner.ErrorAnswer | miner/bittensor_integration.py:197-207 | PENDING, confidence 0, no sources, summary "Processing error: " + error |
| Miner.ServedAnswersAreValid | miner/bittensor_integration.py:135-209 | both the answer to a valid response and the error answer are valid synapses |
| Miner.BittensorMiner.constructor | miner/bittensor_integration.py:57-80 | the counter starts at 0 |
| Miner.BittensorMiner.VerifyStatement | miner/bittensor_integration.py:135-209 | a success answers and adds 1 to the counter; an exception gives the error answer and leaves the counter |
| Miner.MockMiner.constructor | miner/bittensor_integration.py:325-341 | the counter starts at 0 |
| Miner.MockMiner.VerifyStatement | miner/bittensor_integration.py:349-380 | the answer has analysis time 0.5 and the counter grows by 1; an exception propagates |
| Miner.CreateMiner | miner/bittensor_integration.py:418-434 | the mock exactly when asked for or when Bittensor is unavailable |
| Miner.FactoryNeverRaises | miner/bittensor_integration.py:430-434 | the production miner is built only when Bittensor is available |
| Config.IsRelevant | shared/config.py:96-108 | every secret-named key is relevant, and no key shorter than three characters is |
| Config.SettingsRelevant | shared/config.py:66-70 | every variable `from_env` reads is relevant, so the filter keeps each one that is set and non-empty |
| Config.EnvFilter | shared/config.py:66-70 | exactly the relevant keys with non-empty values, with their values |
| Config.EnvFilterIdempotent | shared/config.py:66-70 | filtering twice is filtering once and only removes keys |
| Config.RequiredFields | shared/config.py:87-94 | the first missing of WALLET_NAME, HOTKEY_NAME, API_URL raises, in that order |
| Config.ValidateConfig | shared/config.py:110-128 | no error exactly for a valid network, threshold in [0, 1], at least one miner and timeout at least 1, checked in that order |
| Config.LoadedAsWritten | shared/config.py:48-85 | as written: a cached config is returned; otherwise the env is filtered and the config is cached before it is validated |
| Config.Loaded | shared/config.py:48-85 | corrected: a config is cached exactly when it validates |
| Config.LoadedKeepsCacheValid | shared/config.py:76-78 | the corrected load keeps only valid configs in the cache and returns only valid ones |
| Config.InvalidConfigCachedAsWritten | shared/config.py:76-78 | as written, a config failing validation raises once and is then returned by the next load |
| Config.ExampleLine | shared/config.py:189-193 | a key containing KEY, SECRET or PASSWORD is masked as "# K=your_k_here"; others are "K=value" |
| Config.ExampleLines | shared/config.py:188-193 | one line per key, in the given order |
| Config.MaskHidesSecrets | shared/config.py:188-193 | the example file does not depend on secret values |
| Config.ExampleOrder | shared/config.py:188 | the file lists every variable once, in ascending key order |
| Config.ConfigManager.constructor | shared/config.py:20-29 | nothing read, nothing cached |
| Config.ConfigManager.LoadAsWritten | shared/config.py:48-85 | the step-by-step load as written computes `LoadedAsWritten` |
| Config.ConfigManager.Load | shared/config.py:48-85 | the step-by-step corrected load computes `Loaded` |
| Config.ConfigManager.IsProduction | shared/config.py:170-172 | true exactly when a config is loaded and its network is "finney" |
| Config.ConfigManager.SaveExample | shared/config.py:178-196 | the text written is the example file of the stored variables |
| Config.ExampleText | shared/config.py:185-196 | the loop that writes the least remaining key each time builds the example file |
| Config.Registry.constructor | shared/config.py:202 | there is no manager at first |
| Config.Registry.GetConfigManager | shared/config.py:218-228 | the existing manager, or a new empty one that is kept |
| Config.Registry.GetConfigAsWritten | shared/config.py:205-215 | the manager's load as written (`LoadedAsWritten`), on a manager created if need be |
| Config.Registry.GetConfig | shared/config.py:205-215 | corrected: the manager's corrected load (`Loaded`), on a manager created if need be |
| Config.Registry.ResetConfig | shared/config.py:231-233 | the manager is dropped |
| Api.StatementOf | shared/api.py:117-126 | an entry converts exactly when id, statement, end_date and createdAt are present strings and the optional fields have the right type; a mistyped value is read as raising (see Left out) |
| Api.ChunkEntryRoundTrip | shared/api.py:117-126 | a statement's own dict converts back to it |
| Api.Converted | shared/api.py:115-127 | one statement per entry, in order, or failure when any entry fails |
| Api.Chunk | shared/api.py:107-127 | only a JSON-dict body gives statements; a list of entries gives their conversion, and fails when any entry fails |
| Api.FetchStep | shared/api.py:80-144 | [] without a request inside 15 minutes; a 2xx sets the gate to the call's start time; 429 gives [] and keeps the gate; other failures raise |
| Api.FetchSpacing | shared/api.py:82-105 | the gate only moves to the time of a call at least 900 s after the previous fetch |
| Api.FailureKeepsGate | shared/api.py:137-141 | a refused or failed request, a 429 included, leaves the gate unchanged |
| Api.Formatted | shared/api.py:218-224 | miner_id is str(uid), then the resolution value, float confidence, summary and sources |
| Api.FormattedReadsBack | shared/api.py:218-224 | the uid, the resolution and the sources read back from a formatted entry |
| Api.FormatResponses | shared/api.py:215-224 | one entry per response, in order |
| Api.PostConsensus | shared/api.py:278-288 | True exactly when consensus is a dict |
| Api.ApiClient.constructor | shared/api.py:32-50 | the given URL, or the configured one when none is given; the last fetch time starts at 0 |
| Api.ApiClient.ConvertStatements | shared/api.py:115-127 | the conversion loop computes `Converted` |
| Api.ApiClient.FetchStatements | shared/api.py:70-144 | the gate and the result are `FetchStep`'s; a request goes to next-chunk with the validator id exactly when the gate is open and the config loads |
| Api.ApiClient.SubmitMinerResponses | shared/api.py:199-262 | posts the formatted responses to the statement's URL; True exactly for a 2xx JSON-dict reply |
| Api.Task | shared/api.py:345-350 | the first statement of a fresh client's fetch, or None when there is none or anything raises |
| Api.TaskComesFromChunk | shared/api.py:345-350 | a task comes from a 2xx JSON-dict reply, and only once the clock is 900 s past time 0 |
| Api.GetTask | shared/api.py:335-350 | the step-by-step fetch computes `Task` |

## Left out

- HTTP transport, sessions, headers, request payloads other than the ones named above, and the tenacity retry decorators in shared/api.py: each exchange's outcome is a parameter.
- `DegenBrainAPIClient.resolve_statement`, `close` and the module-level `fetch_statements`, `send_to_miners`, `score_and_set_weights`, `run_agent` and `submit_response`: HTTP wrappers or placeholders with no logic of their own.
- `ConfigManager._find_env_file`, `get_api_keys`, `get_logging_config`, `get_wandb_config` and `is_test_mode`, and `load_dotenv`: filesystem and process-environment reads. The environment is a parameter, taken after `.env` was merged into it.
- Config.ConfigManager.SaveExample: the file write is left out; the method returns the text it would write.
- SHA-256 and the byte layout of `json.dumps`: the digest is a function parameter of the five-field record.
- `datetime.fromisoformat`, `datetime.now`, `time.time` and `isoformat()` of the current time: parameters (`parseIso`, `Clock`, `nowIso`, elapsed time).
- `random.*` draws and `asyncio.sleep`: the draws are parameters, constrained to the ranges the source draws from.
- `round(..., 2)` and float formatting in f-strings: numbers are reals; a formatted confidence is a rendering parameter.
- LLM prompt texts and the prompts of `_analyze_statement` and `_ai_reasoning`: free prose. The gathered data affects only the prompt, so its effect on the model's answer is not modelled.
- `_get_crypto_price` and the fetch half of `_load_coin_lookup`: HTTP. The price is a parameter; the listing is a `Listing` value.
- `_verify_with_brainstorm` and `_verify_with_resolution_api`: `verify_statement` calls neither. The conversions they rely on are modelled (`AIAgent.ConvertBrainstorm`, `ResolutionClient.ConvertToMinerResponse`).
- The unguarded concurrent first load of the coin table: only the sequential load-once flag is modelled.
- Bittensor wallet, subtensor, axon and metagraph setup, serving, `get_network_info` and `close` in miner/bittensor_integration.py: network runtime.
- Applying the `config` dict to the miner's config with `setattr`: it affects only logging and serving.
- miner/main.py, run_miner.py, scripts/*.py and the package `__init__` files: process plumbing and re-exports.
- Pydantic coercions beyond these: a float field takes a number, a boolean or a decimal numeral (no exponent, `inf` or `nan`), and a string field only a string.
- Non-string attribute values of a legacy response are rendered through a parameter; `str()` of arbitrary objects is not modelled.
- Unicode case mapping and whitespace beyond the ASCII range: `lower`, `upper`, `strip` and `\s` are modelled on ASCII.
- LlmProviders.Call: for content that does not decode in JSON mode, the contract states only that the reply is a one-key error dict. The exact message is fixed by the body.
- Types.FromDict: a field value of another type than its annotation (a number as `id`, a string as `initialValue`) is read as raising, while the dataclass constructor checks no types and keeps it. Statements hold typed fields; carrying arbitrary JSON values through every agent is not modelled.
- Api.StatementOf: a chunk entry with a mistyped field value makes the whole chunk fail in the model, while the source builds the statement from it, for the reason given for Types.FromDict.
- CoinLookup.CoinOf: a listing entry whose `id` is not a string is read as raising before anything is stored. The source stores it under the symbol and the name, then raises for an unhashable id or, for a number, stores it under itself and goes on. The table maps strings to strings.

## Findings

| source | as written | input that shows it | evidently intended | confidence | as-written member | corrected member |
|---|---|---|---|---|---|---|
| shared/config.py:76-78 | `load` stores the new configuration in the cache before `_validate_config` checks it | an environment with the required fields and NETWORK=mainnet: the first `load` (or `get_config`) raises, the second returns the invalid configuration without error | a configuration is cached only after it validates, so every `load` of it raises | not executed | Config.LoadedAsWritten, Config.InvalidConfigCachedAsWritten, Config.Registry.GetConfigAsWritten | Config.Loaded, Config.LoadedKeepsCacheValid, Config.Registry.GetConfig |
| miner/agents/ai_agent.py:35 | `__init__` reads `config.get` on its parameter, not on `self.config`, which the base class set to `config or {}` | `AIAgent()` with no configuration raises AttributeError on None | the defaults apply when no configuration is given | not executed | AIAgent.InitAsWritten, AIAgent.MissingConfig | AIAgent.Init, AIAgent.MissingConfig |
