/** The dummy agent (miner/agents/dummy_agent.py): a date-gated random resolution, fixed
    summaries, a few sources drawn from a fixed pool and a dollar-amount extractor. The random
    draws and the clock are parameters. */
module DummyAgent {
  import opened Wrappers
  import opened Json
  import opened Text
  import opened Types
  import opened Patterns
  import BaseAgent

  // ---- resolution ----

  /** `_determine_resolution`. An empty deadline, one that does not parse, one without an
      offset (comparing it with the aware `now` raises) and one still in the future all give
      PENDING; a deadline at or before now gives the coin's TRUE or FALSE, unless comparing
      the roll with a non-numeric accuracy raises, which also gives PENDING. */
  function DetermineResolution(endDate: string, parseIso: string -> Option<Instant>, now: Clock,
                               accuracy: Value, roll: real, coin: bool): (r: Resolution)
    ensures endDate == "" ==> r == PENDING
    ensures r != PENDING <==>
      endDate != "" && Numeric(accuracy)
      && match parseIso(IsoText(endDate)) { case Some(Aware(u)) => u <= now.utc case _ => false }
    ensures r != PENDING ==> (r == TRUE <==> coin)
  {
    if endDate == "" then PENDING
    else
      match parseIso(IsoText(endDate))
      case None => PENDING
      case Some(Naive(_)) => PENDING
      case Some(Aware(u)) =>
        if u > now.utc then PENDING
        else if !Numeric(accuracy) then PENDING
        else if roll < ToFloat(accuracy).value then (if coin then TRUE else FALSE)
        else (if coin then TRUE else FALSE)
  }

  /** Both accuracy branches make the same choice: for a fixed coin, the configured accuracy
      and the roll make no difference to the resolution. */
  lemma AccuracyIrrelevant(endDate: string, parseIso: string -> Option<Instant>, now: Clock,
                           a1: Value, r1: real, a2: Value, r2: real, coin: bool)
    requires Numeric(a1) && Numeric(a2)
    ensures DetermineResolution(endDate, parseIso, now, a1, r1, coin)
         == DetermineResolution(endDate, parseIso, now, a2, r2, coin)
  {
  }

  /** A passed deadline never gives PENDING with a numeric accuracy: the result is decided
      by the statement's deadline alone, not by whether it has expired on the local clock. */
  lemma PassedDeadlineDecides(s: Statement, parseIso: string -> Option<Instant>, now: Clock,
                              accuracy: Value, roll: real, coin: bool, u: int)
    requires Numeric(accuracy) && s.endDate != ""
    requires parseIso(IsoText(s.endDate)) == Some(Aware(u))
    ensures DetermineResolution(s.endDate, parseIso, now, accuracy, roll, coin) != PENDING
            <==> s.IsExpired(parseIso, now) || u == now.utc
  {
  }

  // ---- summary and sources ----

  const PendingSummary := "The prediction deadline has not yet passed. Current analysis shows the statement is still pending verification."
  const TrueSummary := "The prediction has been verified as TRUE. The conditions specified in the statement have been met."
  const FalseSummary := "The prediction has been verified as FALSE. The conditions specified in the statement were not met by the deadline."

  /** `_generate_summary`: one fixed text per resolution. */
  function Summary(res: Resolution): (r: string)
    ensures r in {PendingSummary, TrueSummary, FalseSummary}
    ensures 0 < |r| <= MaxSummary
  {
    match res
    case PENDING => PendingSummary
    case TRUE => TrueSummary
    case FALSE => FalseSummary
  }

  /** The summary names the resolution: different resolutions give different summaries. */
  lemma SummaryDetermines(a: Resolution, b: Resolution)
    ensures Summary(a) == Summary(b) <==> a == b
  {
    assert |PendingSummary| == 111 && |TrueSummary| == 98 && |FalseSummary| == 114;
  }

  const SourcePool: seq<string> := [
    "CoinGecko API", "CoinMarketCap", "Yahoo Finance", "Bloomberg Terminal", "Reuters Market Data",
    "Binance Exchange", "Kraken Exchange", "Historical Price Data", "Market Analysis", "Trading View"]

  /** The draws of `random.randint(2, 4)` and `random.sample(pool, n)`: 2 to 4 distinct pool indices. */
  predicate ValidPicks(picks: seq<nat>) {
    2 <= |picks| <= 4
    && (forall k :: 0 <= k < |picks| ==> picks[k] < |SourcePool|)
    && (forall j, k :: 0 <= j < k < |picks| ==> picks[j] != picks[k])
  }

  /** `_generate_sources`: the picked pool entries, in the order drawn. */
  function Sources(picks: seq<nat>): (r: seq<string>)
    requires ValidPicks(picks)
    ensures 2 <= |r| <= 4
    ensures forall k :: 0 <= k < |r| ==> r[k] in SourcePool
    ensures forall j, k :: 0 <= j < k < |r| ==> r[j] != r[k]
  {
    seq(|picks|, k requires 0 <= k < |picks| => SourcePool[picks[k]])
  }

  // ---- target and current value ----

  /** `_extract_target_value`: the leftmost `$amount` with commas removed when `float` accepts
      it, otherwise the leftmost number followed by dollar(s), usd or point(s), otherwise None. */
  function ExtractTarget(s: string): (r: Option<real>)
    ensures r.Some? ==> r.value >= 0.0
    ensures DollarGroup(s, true).Some? && ParseFloat(RemoveChar(DollarGroup(s, true).value, ',')).Some? ==>
      r == ParseFloat(RemoveChar(DollarGroup(s, true).value, ','))
    ensures (DollarGroup(s, true).None? || ParseFloat(RemoveChar(DollarGroup(s, true).value, ',')).None?) ==>
      r == (if NumberGroup(s).Some? then ParseFloat(RemoveChar(NumberGroup(s).value, ',')) else None)
    ensures DollarGroup(s, true).None? && NumberGroup(s).None? ==> r.None?
  {
    var dollar := DollarGroup(s, true);
    if dollar.Some? && ParseFloat(RemoveChar(dollar.value, ',')).Some? then
      UnsignedGroup(dollar.value);
      ParseFloat(RemoveChar(dollar.value, ','))
    else
      match NumberGroup(s)
      case Some(g) => UnsignedGroup(g); ParseFloat(RemoveChar(g, ','))
      case None => None
  }

  /** The dollar group of `$` followed by a run of digits and commas is that run. */
  lemma DollarGroupOfNumeral(d: string)
    requires |d| > 0 && forall k :: 0 <= k < |d| ==> DigitOrComma(d[k])
    ensures DollarGroup("$" + d, true) == Some(d)
  {
    var s := "$" + d;
    assert s[1] == d[0];
    assert DollarAt(s, 0);
    assert FindDollar(s, 0) == Some(0);
    assert forall k :: 1 <= k < |s| ==> s[k] == d[k - 1];
    DigitCommaRunUpTo(s, 1, |s|);
    assert FractionEnd(s, |s|) == |s|;
    assert s[1..|s|] == d;
  }

  /** A numeral holds no comma, so removing commas leaves it as it is. */
  lemma NoCommaInDigits(d: string)
    requires AllDigits(d)
    ensures RemoveChar(d, ',') == d
  {
    assert ',' !in d by { forall k | 0 <= k < |d| ensures d[k] != ',' { assert IsDigit(d[k]); } }
  }

  /** A dollar amount written out in decimal is read back exactly. */
  lemma DollarRoundTrip(n: nat)
    ensures ExtractTarget("$" + NatToString(n)) == Some(n as real)
  {
    var d := NatToString(n);
    assert forall k :: 0 <= k < |d| ==> DigitOrComma(d[k]);
    DollarGroupOfNumeral(d);
    NoCommaInDigits(d);
    NatToStringValue(n);
  }

  /** `str.replace(',', '')` works piece by piece. */
  lemma {:induction false} RemoveCharConcat(a: string, b: string, c: char)
    ensures RemoveChar(a + b, c) == RemoveChar(a, c) + RemoveChar(b, c)
    decreases |a|
  {
    if |a| > 0 {
      assert (a + b)[1..] == a[1..] + b;
      RemoveCharConcat(a[1..], b, c);
    } else {
      assert a + b == b;
    }
  }

  /** A comma-grouped dollar amount is read with its comma removed: "$50,000" (`a` = "50",
      `b` = "000") gives 50000. */
  lemma CommaGroupedDollar(a: string, b: string)
    requires |a| > 0 && AllDigits(a) && |b| > 0 && AllDigits(b)
    ensures ExtractTarget("$" + a + "," + b) == Some(DigitsValue(a + b) as real)
  {
    var g := a + "," + b;
    assert "$" + a + "," + b == "$" + g;
    assert forall k :: 0 <= k < |g| ==> DigitOrComma(g[k]);
    DollarGroupOfNumeral(g);
    CommaGroupedDigits(a, b);
    var v := ParseFloat(a + b);
    assert v == Some(DigitsValue(a + b) as real);
  }

  /** Removing the comma of two digit groups joins them. */
  lemma CommaGroupedDigits(a: string, b: string)
    requires AllDigits(a) && AllDigits(b)
    ensures RemoveChar(a + "," + b, ',') == a + b && AllDigits(a + b)
  {
    var x := a + ",";
    RemoveCharConcat(x, b, ',');
    RemoveCharConcat(a, ",", ',');
    NoCommaInDigits(a);
    NoCommaInDigits(b);
    assert RemoveChar(",", ',') == [] by {
      assert ","[1..] == [];
    }
    assert RemoveChar(x, ',') == a;
  }

  /** The number group of a run of digits followed by " usd", after text holding no digit,
      is that run. */
  lemma NumberGroupAfter(p: string, d: string)
    requires forall k :: 0 <= k < |p| ==> !IsDigit(p[k])
    requires |d| > 0 && AllDigits(d)
    ensures NumberGroup(p + d + " usd") == Some(d)
  {
    var s := p + d + " usd";
    var i := |p|;
    KeywordAfterDigits(p, d);
    forall j | 0 <= j < i ensures !NumberKeywordAt(s, j) {
      assert s[j] == p[j];
    }
    assert FindNumberKeyword(s, 0) == Some(i);
    assert s[i..i + |d|] == d;
  }

  /** In `p + d + " usd"` the number starting after `p` ends after `d`, and the keyword
      follows it. */
  lemma KeywordAfterDigits(p: string, d: string)
    requires |d| > 0 && AllDigits(d)
    ensures NumberKeywordAt(p + d + " usd", |p|)
    ensures NumberEnd(p + d + " usd", |p|) == |p| + |d|
  {
    var s := p + d + " usd";
    var i := |p|;
    var e := i + |d|;
    assert forall k :: 0 <= k < |d| ==> s[i + k] == d[k];
    assert s[e] == ' ' && s[e + 1] == 'u';
    DigitRunUpTo(s, i, e);
    assert CommaGroupsEnd(s, e) == e;
    assert FractionEnd(s, e) == e;
    assert SkipSpace(s, e + 1) == e + 1;
    assert SkipSpace(s, e) == e + 1;
    assert s[e + 1..] == "usd";
    assert LowerAt(s, e + 1, "usd");
  }

  /** The number group of a run of digits followed by " usd" is that run, and there is no
      dollar group. */
  lemma NumberGroupOfNumeral(d: string)
    requires |d| > 0 && AllDigits(d)
    ensures DollarGroup(d + " usd", true).None?
    ensures NumberGroup(d + " usd") == Some(d)
  {
    NumberGroupAfterNothing(d);
    DigitsThenUsdHasNoDollar(d);
  }

  lemma NumberGroupAfterNothing(d: string)
    requires |d| > 0 && AllDigits(d)
    ensures NumberGroup(d + " usd") == Some(d)
  {
    var p: string := [];
    NumberGroupAfter(p, d);
    assert p + d + " usd" == d + " usd";
  }

  lemma DigitsThenUsdHasNoDollar(d: string)
    requires AllDigits(d)
    ensures DollarGroup(d + " usd", true).None?
  {
    var s := d + " usd";
    assert '$' !in s by {
      forall j | 0 <= j < |s| ensures s[j] != '$' {
        if j < |d| { assert s[j] == d[j]; }
      }
    }
    NoDollarGroup(s);
  }

  /** Text without `$` has no dollar group. */
  lemma NoDollarGroup(s: string)
    requires '$' !in s
    ensures DollarGroup(s, true).None?
  {
    forall j | 0 <= j < |s| ensures !DollarAt(s, j) {
      assert s[j] in s;
    }
  }

  /** With no `$` in the text, a number followed by "usd" is read back exactly. */
  lemma KeywordRoundTrip(n: nat)
    ensures ExtractTarget(NatToString(n) + " usd") == Some(n as real)
  {
    var d := NatToString(n);
    NumberGroupOfNumeral(d);
    NoCommaInDigits(d);
    NatToStringValue(n);
  }

  /** A `$` followed only by a comma leaves nothing for `float`, so the keyword form decides:
      "$, or 7 usd" (`d` = "7") gives 7. */
  lemma CommaOnlyFallsBack(d: string)
    requires |d| > 0 && AllDigits(d)
    ensures ExtractTarget("$, or " + d + " usd") == Some(DigitsValue(d) as real)
  {
    var p := "$, or ";
    assert forall k :: 0 <= k < |p| ==> !IsDigit(p[k]);
    FallsBackAfter(p, d);
  }

  /** After a leading "$, " and text holding no digit, digits followed by " usd" are the
      target. */
  lemma FallsBackAfter(p: string, d: string)
    requires |p| > 2 && p[0] == '$' && p[1] == ',' && p[2] == ' '
    requires forall k :: 0 <= k < |p| ==> !IsDigit(p[k])
    requires |d| > 0 && AllDigits(d)
    ensures ExtractTarget(p + d + " usd") == Some(DigitsValue(d) as real)
  {
    var s := p + d + " usd";
    assert s[0] == '$' && s[1] == ',' && s[2] == ' ';
    CommaOnlyDollarGroup(s);
    NumberGroupAfter(p, d);
    NoCommaInDigits(d);
    KeywordFallback(s, d);
  }

  /** When the dollar group does not parse, the keyword group decides. */
  lemma KeywordFallback(s: string, g: string)
    requires DollarGroup(s, true).Some? && ParseFloat(RemoveChar(DollarGroup(s, true).value, ',')).None?
    requires NumberGroup(s) == Some(g)
    ensures ExtractTarget(s) == ParseFloat(RemoveChar(g, ','))
  {
  }

  /** A `$` followed by a lone comma at the start of the text is a dollar group that `float`
      cannot read. */
  lemma CommaOnlyDollarGroup(s: string)
    requires |s| > 2 && s[0] == '$' && s[1] == ',' && s[2] == ' '
    ensures DollarGroup(s, true) == Some(",")
    ensures ParseFloat(RemoveChar(",", ',')).None?
  {
    assert DollarAt(s, 0);
    assert FindDollar(s, 0) == Some(0);
    DigitCommaRunUpTo(s, 1, 2);
    assert FractionEnd(s, 2) == 2;
    assert s[1..2] == ",";
    assert RemoveChar(",", ',') == "" by { assert ","[1..] == []; }
    assert Strip("") == "";
  }

  /** `_generate_current_value`: nothing for a missing or zero target, otherwise the drawn
      value within 50% of it (`random.uniform` and `round(..., 2)`, given as `draw`). */
  function CurrentValue(target: Option<real>, draw: real): (r: Option<real>)
    requires target.Some? && target.value != 0.0 ==>
      Between(draw, target.value * 0.5, target.value * 1.5)
    ensures r.None? <==> target.None? || target.value == 0.0
  {
    if target.None? || target.value == 0.0 then None else Some(draw)
  }

  /** `x` lies between `a` and `b`, in either order (what `random.uniform(a, b)` returns). */
  predicate Between(x: real, a: real, b: real) {
    (a <= x <= b) || (b <= x <= a)
  }

  // ---- the agent ----

  /** The draws one call consumes. */
  datatype Draws = Draws(roll: real, coin: bool, confidence: real, picks: seq<nat>, currentDraw: real)

  /** `random.uniform(*confidence_range)` needs a pair of numbers; default (60, 95). */
  function ConfidenceRange(config: Object): (r: Option<(real, real)>)
    ensures "confidence_range" !in config ==> r == Some((60.0, 95.0))
  {
    if "confidence_range" !in config then Some((60.0, 95.0))
    else
      var v := config["confidence_range"];
      if v.Arr? && |v.items| == 2 && Numeric(v.items[0]) && Numeric(v.items[1]) then
        Some((ToFloat(v.items[0]).value, ToFloat(v.items[1]).value))
      else None
  }

  /** The draws fit their ranges: the confidence lies in the configured range, the picks are
      valid, and the current-value draw lies within 50% of the extracted target. */
  predicate DrawsFit(config: Object, stmt: Statement, d: Draws) {
    (ConfidenceRange(config).Some? ==>
      Between(d.confidence, ConfidenceRange(config).value.0, ConfidenceRange(config).value.1))
    && ValidPicks(d.picks)
    && var t := ExtractTarget(stmt.statement);
       (t.Some? && t.value != 0.0 ==> Between(d.currentDraw, t.value * 0.5, t.value * 1.5))
  }

  /** `verify_statement`. Comparing a non-numeric `delay` with 0 raises, so does unpacking an
      unusable confidence range, and so does building a response whose drawn confidence lies
      outside [0, 100]; otherwise the response carries the resolution, its fixed summary, the
      drawn sources and the extracted target, and never a current value. `fmt` renders the
      confidence with one decimal. */
  function VerifyStatement(agent: BaseAgent.Agent, stmt: Statement, parseIso: string -> Option<Instant>,
                           now: Clock, nowIso: string, d: Draws, fmt: real -> string): (r: Result<MinerResponse>)
    requires DrawsFit(agent.config, stmt, d)
    ensures r.Ok? <==>
      Numeric(Get(agent.config, "delay", Num(0.5))) && ConfidenceRange(agent.config).Some?
      && 0.0 <= d.confidence <= 100.0
    ensures r.Ok? ==>
      var res := DetermineResolution(stmt.endDate, parseIso, now, Get(agent.config, "accuracy", Num(0.7)), d.roll, d.coin);
      && r.value.statement == stmt.statement && r.value.resolution == res
      && r.value.confidence == d.confidence && r.value.summary == Summary(res)
      && r.value.sources == Sources(d.picks) && r.value.targetValue == ExtractTarget(stmt.statement)
      && r.value.currentValue.None? && r.value.proofHash.None? && r.value.timestamp == nowIso
      && r.value.reasoning == "Dummy agent analysis: Resolution=" + res.Value() + ", Confidence=" + fmt(d.confidence) + "%"
  {
    var config := agent.config;
    var delay := Get(config, "delay", Num(0.5));
    if !Numeric(delay) then Err(Exception("TypeError: '>' not supported"))
    else
      var res := DetermineResolution(stmt.endDate, parseIso, now, Get(config, "accuracy", Num(0.7)), d.roll, d.coin);
      match ConfidenceRange(config)
      case None => Err(Exception("TypeError: uniform() needs two numbers"))
      case Some(_) =>
        var summary := Summary(res);
        var sources := Sources(d.picks);
        var target := ExtractTarget(stmt.statement);
        var _ := CurrentValue(target, d.currentDraw);
        Construct(Draft(stmt.statement, res.Value(), d.confidence, summary, sources := sources,
                        targetValue := target,
                        reasoning := "Dummy agent analysis: Resolution=" + res.Value() + ", Confidence=" + fmt(d.confidence) + "%"),
                  nowIso)
  }

  /** Whatever the dummy agent returns passes the dispatcher's validation whenever the
      statement text is non-empty. */
  lemma DummyResponsesValidate(agent: BaseAgent.Agent, stmt: Statement, parseIso: string -> Option<Instant>,
                               now: Clock, nowIso: string, d: Draws, fmt: real -> string)
    requires DrawsFit(agent.config, stmt, d)
    requires VerifyStatement(agent, stmt, parseIso, now, nowIso, d, fmt).Ok?
    requires |stmt.statement| > 0
    ensures BaseAgent.ValidateResponse(VerifyStatement(agent, stmt, parseIso, now, nowIso, d, fmt).value)
  {
  }
}
