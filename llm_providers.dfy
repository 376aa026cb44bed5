/** The LLM providers (miner/agents/llm_providers.py): the factory that gates each provider
    on its credentials, the model names and endpoints, how a JSON-mode request is shaped, and
    how a call's outcome becomes a reply. The HTTP exchange itself is a parameter: what the
    endpoint answered, or the exception it raised. */
module LlmProviders {
  import opened Wrappers
  import opened Json
  import opened Text

  /** The six provider classes. */
  datatype Vendor = OpenAI | Anthropic | Groq | Gemini | OpenRouter | Chutes {
    /** What `get_model_name` puts before the model. */
    function Prefix(): (r: string)
      ensures |r| > 1 && r[|r| - 1] == '/' && '/' !in r[..|r| - 1]
    {
      match this
      case OpenAI => "openai/"
      case Anthropic => "anthropic/"
      case Groq => "groq/"
      case Gemini => "google/"
      case OpenRouter => "openrouter/"
      case Chutes => "chutes/"
    }

    /** The name used in the error markers. */
    function Label(): string {
      match this
      case OpenAI => "OpenAI"
      case Anthropic => "Anthropic"
      case Groq => "Groq"
      case Gemini => "Gemini"
      case OpenRouter => "OpenRouter"
      case Chutes => "Chutes"
    }

    /** The configuration key holding the credential. */
    function KeyField(): string {
      match this
      case OpenAI => "openai_api_key"
      case Anthropic => "anthropic_api_key"
      case Groq => "groq_api_key"
      case Gemini => "gemini_api_key"
      case OpenRouter => "openrouter_api_key"
      case Chutes => "chutes_cpk_api_key"
    }

    /** The configuration key naming the model. */
    function ModelField(): string {
      match this
      case OpenAI => "openai_model"
      case Anthropic => "anthropic_model"
      case Groq => "groq_model"
      case Gemini => "gemini_model"
      case OpenRouter => "openrouter_model"
      case Chutes => "chutes_model"
    }

    /** The model used when the configuration names none. */
    function DefaultModel(): string {
      match this
      case OpenAI => "gpt-4o"
      case Anthropic => "claude-3-sonnet-20240229"
      case Groq => "llama3-70b-8192"
      case Gemini => "gemini-1.5-pro"
      case OpenRouter => "mistralai/mistral-7b-instruct"
      case Chutes => "unsloth/Llama-3.2-3B-Instruct"
    }
  }

  /** Different providers have different model-name prefixes. */
  lemma PrefixInjective(a: Vendor, b: Vendor)
    ensures a.Prefix() == b.Prefix() <==> a == b
  {
    if a != b {
      var p, q := a.Prefix(), b.Prefix();
      if |p| == |q| {
        assert p[0] != q[0];
      }
    }
  }

  /** The provider a (case-insensitive) name selects, if any. */
  function VendorNamed(name: string): (r: Option<Vendor>)
    ensures r.Some? <==> ToLower(name) in {"openai", "anthropic", "groq", "gemini", "openrouter", "chutes"}
  {
    var n := ToLower(name);
    if n == "openai" then Some(OpenAI)
    else if n == "anthropic" then Some(Anthropic)
    else if n == "groq" then Some(Groq)
    else if n == "gemini" then Some(Gemini)
    else if n == "openrouter" then Some(OpenRouter)
    else if n == "chutes" then Some(Chutes)
    else None
  }

  /** A constructed provider. `slug` is only used by Chutes and is null for the others. */
  datatype Provider = Provider(vendor: Vendor, apiKey: Value, model: Value, timeout: Value, slug: Value)

  /** `max(timeout, 60)`: comparing a value that is not a number with 60 raises. */
  function AtLeastMinute(timeout: Value): (r: Option<Value>)
    ensures r.Some? <==> Numeric(timeout)
    ensures r.Some? ==> Numeric(r.value) && ToFloat(r.value).value >= 60.0
    ensures r.Some? && ToFloat(timeout).value >= 60.0 ==> r.value == timeout
  {
    if !Numeric(timeout) then None
    else if 60.0 > ToFloat(timeout).value then Some(Num(60.0))
    else Some(timeout)
  }

  /** `LLMProviderFactory.create_provider`: an unknown name gives no provider; each provider
      needs a truthy credential (Chutes also a truthy slug) and takes its model from the
      configuration or its default. Chutes computes its timeout before checking credentials,
      so a non-numeric timeout raises there. */
  function CreateProvider(name: string, config: Object, timeout: Value): (r: Result<Option<Provider>>)
    ensures VendorNamed(name).None? ==> r == Ok(None)
    ensures r.Err? <==> VendorNamed(name) == Some(Chutes) && !Numeric(timeout)
    ensures r.Ok? && r.value.Some? ==>
      var v := r.value.value.vendor;
      && VendorNamed(name) == Some(v)
      && r.value.value.apiKey == Get(config, v.KeyField(), Null) && Truthy(r.value.value.apiKey)
      && r.value.value.model == Get(config, v.ModelField(), Str(v.DefaultModel()))
    ensures r.Ok? && VendorNamed(name).Some? ==>
      var v := VendorNamed(name).value;
      (r.value.None? <==> !Truthy(Get(config, v.KeyField(), Null))
                          || (v == Chutes && !Truthy(Get(config, "chutes_slug", Null))))
    ensures r.Ok? && r.value.Some? && r.value.value.vendor != Chutes ==> r.value.value.timeout == timeout
    ensures r.Ok? && r.value.Some? && r.value.value.vendor == Chutes ==>
      Truthy(r.value.value.slug) && Some(r.value.value.timeout) == AtLeastMinute(timeout)
  {
    match VendorNamed(name)
    case None => Ok(None)
    case Some(v) =>
      var key := Get(config, v.KeyField(), Null);
      var model := Get(config, v.ModelField(), Str(v.DefaultModel()));
      if v == Chutes then
        var slug := Get(config, "chutes_slug", Null);
        match AtLeastMinute(timeout)
        case None => Err(Exception("TypeError: '>' not supported between instances"))
        case Some(t) =>
          if !Truthy(key) || !Truthy(slug) then Ok(None) else Ok(Some(Provider(v, key, model, t, slug)))
      else if !Truthy(key) then Ok(None)
      else Ok(Some(Provider(v, key, model, timeout, Null)))
  }

  /** `get_model_name`; `show` renders a configured model that is not a string. */
  function ModelName(p: Provider, show: Value -> string): (r: string)
    ensures StartsWith(r, p.vendor.Prefix())
    ensures p.model.Str? ==> r[|p.vendor.Prefix()|..] == p.model.s
  {
    p.vendor.Prefix() + Render(p.model, show)
  }

  /** The model name says which provider it came from, and which model. */
  lemma ModelNameDetermines(p: Provider, q: Provider, show: Value -> string)
    requires ModelName(p, show) == ModelName(q, show)
    ensures p.vendor == q.vendor && Render(p.model, show) == Render(q.model, show)
  {
    var a, b := p.vendor.Prefix(), q.vendor.Prefix();
    var n := ModelName(p, show);
    assert IndexOf(n, '/') == |a| - 1 by { FirstSlash(a, Render(p.model, show)); }
    assert IndexOf(n, '/') == |b| - 1 by { FirstSlash(b, Render(q.model, show)); }
    assert a == n[..|a|] == b;
    PrefixInjective(p.vendor, q.vendor);
    assert Render(p.model, show) == n[|a|..] == Render(q.model, show);
  }

  lemma FirstSlash(a: string, m: string)
    requires |a| > 1 && a[|a| - 1] == '/' && '/' !in a[..|a| - 1]
    ensures IndexOf(a + m, '/') == |a| - 1
  {
    var s := a + m;
    assert forall i :: 0 <= i < |a| - 1 ==> s[i] == a[..|a| - 1][i];
    IndexOfFirst(s, '/', |a| - 1);
  }

  lemma {:induction false} IndexOfFirst(s: string, c: char, k: nat)
    requires k < |s| && s[k] == c && forall i :: 0 <= i < k ==> s[i] != c
    ensures IndexOf(s, c) == k
  {
    if k > 0 {
      IndexOfFirst(s[1..], c, k - 1);
    }
  }

  /** The endpoint a provider posts to: Gemini's names the model, Chutes' the slug. */
  function ApiUrl(p: Provider, show: Value -> string): (r: string)
    ensures p.vendor == Gemini ==>
      r == "https://generativelanguage.googleapis.com/v1beta/models/" + Render(p.model, show) + ":generateContent"
    ensures p.vendor == Chutes ==> r == "https://" + Render(p.slug, show) + ".chutes.ai/v1/chat/completions"
  {
    match p.vendor
    case OpenAI => "https://api.openai.com/v1/chat/completions"
    case Anthropic => "https://api.anthropic.com/v1/messages"
    case Groq => "https://api.groq.com/openai/v1/chat/completions"
    case Gemini => "https://generativelanguage.googleapis.com/v1beta/models/" + Render(p.model, show) + ":generateContent"
    case OpenRouter => "https://openrouter.ai/api/v1/chat/completions"
    case Chutes => "https://" + Render(p.slug, show) + ".chutes.ai/v1/chat/completions"
  }

  /** Two Gemini providers post to the same endpoint only when they name the same model;
      two Chutes providers only when they have the same slug. */
  lemma UrlNamesModelOrSlug(p: Provider, q: Provider, show: Value -> string)
    requires p.vendor == q.vendor && ApiUrl(p, show) == ApiUrl(q, show)
    ensures p.vendor == Gemini ==> Render(p.model, show) == Render(q.model, show)
    ensures p.vendor == Chutes ==> Render(p.slug, show) == Render(q.slug, show)
  {
    var u := ApiUrl(p, show);
    if p.vendor == Gemini {
      var pre := "https://generativelanguage.googleapis.com/v1beta/models/";
      var suf := ":generateContent";
      assert Render(p.model, show) == u[|pre|..|u| - |suf|] == Render(q.model, show);
    } else if p.vendor == Chutes {
      var suf := ".chutes.ai/v1/chat/completions";
      assert Render(p.slug, show) == u[8..|u| - |suf|] == Render(q.slug, show);
    }
  }

  const JsonSuffix := "\n\nPlease respond with valid JSON format only."

  /** How `call` shapes a request: in JSON mode OpenAI sets `response_format` to a JSON object
      and leaves the prompt alone, while the other providers append an instruction. */
  method ShapeRequest(vendor: Vendor, prompt: string, format: string) returns (sent: string, jsonObject: bool)
    ensures jsonObject <==> vendor == OpenAI && format == "json"
    ensures format == "json" ==> jsonObject || EndsWith(sent, JsonSuffix)
    ensures StartsWith(sent, prompt)
    ensures format != "json" || vendor == OpenAI ==> sent == prompt
    ensures |sent| == |prompt| + (if format == "json" && vendor != OpenAI then |JsonSuffix| else 0)
  {
    sent := prompt;
    jsonObject := false;
    if format == "json" {
      if vendor == OpenAI {
        jsonObject := true;
      } else {
        sent := sent + JsonSuffix;
      }
    }
    assert sent[..|prompt|] == prompt;
  }

  // ---- Chutes' fence cleanup ----

  /** `s[n:]`: Python slicing, empty when `s` is shorter than `n`. */
  function Tail(s: string, n: nat): string {
    if n <= |s| then s[n..] else ""
  }

  /** `s[:-n]` for a positive `n`: empty when `s` is shorter than `n`. */
  function Chop(s: string, n: nat): string {
    if n <= |s| then s[..|s| - n] else ""
  }

  /** The cleanup Chutes applies before decoding: strip, drop a leading "```json", then a
      leading "```", then a trailing "```", and strip again. */
  function Unfence(content: string): (r: string)
    ensures |r| > 0 ==> !IsSpace(r[0]) && !IsSpace(r[|r| - 1])
  {
    var a := Strip(content);
    var b := if StartsWith(a, "```json") then Tail(a, 7) else a;
    var c := if StartsWith(b, "```") then Tail(b, 3) else b;
    var d := if EndsWith(c, "```") then Chop(c, 3) else c;
    Strip(d)
  }

  /** The cleanup as the provider performs it, one reassignment per step. */
  method CleanContent(content: string) returns (cleaned: string)
    ensures cleaned == Unfence(content)
  {
    cleaned := Strip(content);
    if StartsWith(cleaned, "```json") {
      cleaned := Tail(cleaned, 7);
    }
    if StartsWith(cleaned, "```") {
      cleaned := Tail(cleaned, 3);
    }
    if EndsWith(cleaned, "```") {
      cleaned := Chop(cleaned, 3);
    }
    cleaned := Strip(cleaned);
  }

  /** Stripping a string without whitespace at its ends changes nothing. */
  lemma StripStripped(s: string)
    requires |s| > 0 ==> !IsSpace(s[0]) && !IsSpace(s[|s| - 1])
    ensures Strip(s) == s
  {
    assert SkipSpace(s, 0) == 0;
    assert BackSpace(s, 0, |s|) == |s|;
  }

  /** A body wrapped in a "```json" fence comes back as the stripped body. */
  lemma FencedRoundTrip(body: string)
    requires |body| > 0 && body[0] != '`'
    ensures Unfence("```json" + body + "```") == Strip(body)
  {
    var s := "```json" + body + "```";
    StripStripped(s);
    assert s[..7] == "```json";
    var b := s[7..];
    assert b == body + "```";
    assert b[0] == body[0];
    assert b[|b| - 3..] == "```";
    assert b[..|b| - 3] == body;
  }

  /** Content without a backtick at either end is only stripped. */
  lemma PlainUnchanged(content: string)
    requires var a := Strip(content); |a| > 0 ==> a[0] != '`' && a[|a| - 1] != '`'
    ensures Unfence(content) == Strip(content)
  {
    var a := Strip(content);
    if |a| > 0 {
      assert !StartsWith(a, "```json") && !StartsWith(a, "```");
      assert !EndsWith(a, "```");
    }
    StripStripped(a);
  }

  // ---- a call's outcome ----

  /** What the HTTP exchange produced: a status with the model's message content (read from
      the provider-specific place in the body), or an exception, whose text is given. */
  datatype Transport = Answered(status: int, content: string) | Failed(message: string)

  /** What `call` returns: the raw content in text mode, otherwise a decoded JSON value. */
  datatype Reply = Text(content: string) | Data(value: Value)

  /** The `{"error": ...}` dict `call` returns instead of raising. */
  function ErrorMarker(message: string): (v: Value)
    ensures v.Obj? && v.fields.Keys == {"error"} && v.fields["error"] == Str(message)
  {
    Obj(map["error" := Str(message)])
  }

  /** `call` after the request: a failure or a status other than 200 becomes an error marker
      naming the provider, and so does content that does not decode in JSON mode; `decode`
      is `json.loads`, giving the decoder's message when it fails. Chutes decodes its content
      after the fence cleanup and reports the decoder's message. */
  function Call(p: Provider, transport: Transport, format: string, decode: string -> Result<Value>): (r: Reply)
    ensures transport.Failed? ==> r == Data(ErrorMarker(p.vendor.Label() + " API call failed: " + transport.message))
    ensures transport.Answered? && transport.status != 200 ==>
      r == Data(ErrorMarker(p.vendor.Label() + " API error: " + IntToString(transport.status)))
    ensures transport.Answered? && transport.status == 200 && format != "json" ==> r == Text(transport.content)
    ensures transport.Answered? && transport.status == 200 && format == "json" ==>
      var text := if p.vendor == Chutes then Unfence(transport.content) else transport.content;
      r.Data? && (decode(text).Ok? ==> r.value == decode(text).value)
              && (decode(text).Err? ==> r.value.Obj? && r.value.fields.Keys == {"error"})
  {
    match transport
    case Failed(message) => Data(ErrorMarker(p.vendor.Label() + " API call failed: " + message))
    case Answered(status, content) =>
      if status != 200 then Data(ErrorMarker(p.vendor.Label() + " API error: " + IntToString(status)))
      else if format != "json" then Text(content)
      else if p.vendor == Chutes then
        match decode(Unfence(content))
        case Ok(v) => Data(v)
        case Err(e) => Data(ErrorMarker("Invalid JSON response from Chutes: " + e.message))
      else
        match decode(content)
        case Ok(v) => Data(v)
        case Err(_) => Data(ErrorMarker("Invalid JSON response from " + p.vendor.Label()))
  }
}
