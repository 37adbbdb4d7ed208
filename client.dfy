/**
 * The LLM client of src/interpreter/client.rs: how a client is built from the configuration,
 * when it sends an `Authorization` header, the model-list URL and the ids it collects from the
 * model list, which provider API a request goes to, how the JSON plan is cut out of the reply,
 * and the order of the checks in `generate_plan`. The HTTP exchanges themselves are a parameter.
 */
module Client {
  import opened Wrappers
  import opened JsonValue
  import opened Text
  import Config
  import opened PlanSchema
  import Prompt

  datatype LlmClient = LlmClient(apiKey: string, model: string, provider: string, baseUrl: string)

  /**
   * `LlmClient::new`: fails with the configuration's API-key error when no key is set. The base
   * URL comes from a configuration accessor that is not part of this model, so it is a parameter.
   */
  function NewClient(c: Config.Config, baseUrl: string): (r: Result<LlmClient, string>)
    ensures r.Ok? <==> c.llm.apiKey.Some?
    ensures r.Err? ==> r.error == Config.ApiKey(c).error
    ensures r.Ok? ==> r.value.apiKey == c.llm.apiKey.value && r.value.provider == c.llm.provider
    ensures r.Ok? ==> r.value.model == Config.Model(c.llm) && r.value.baseUrl == baseUrl
  {
    match Config.ApiKey(c)
    case Err(e) => Err(e)
    case Ok(key) => Ok(LlmClient(key, Config.Model(c.llm), c.llm.provider, baseUrl))
  }

  /** `LlmClient::new_without_auth`: an absent key becomes the empty string. */
  function NewWithoutAuth(c: Config.Config, baseUrl: string): (r: LlmClient)
    ensures c.llm.apiKey.None? ==> r.apiKey == ""
    ensures c.llm.apiKey.Some? ==> r.apiKey == c.llm.apiKey.value
    ensures r.model == Config.Model(c.llm) && r.provider == c.llm.provider && r.baseUrl == baseUrl
  {
    LlmClient(c.llm.apiKey.GetOr(""), Config.Model(c.llm), c.llm.provider, baseUrl)
  }

  /** With a key configured, both constructors build the same client. */
  lemma ConstructorsAgreeWithKey(c: Config.Config, baseUrl: string)
    requires c.llm.apiKey.Some?
    ensures NewClient(c, baseUrl) == Ok(NewWithoutAuth(c, baseUrl))
  {
  }

  /** The `Authorization: Bearer` header is sent exactly when the key is non-empty and not `dummy`. */
  predicate SendsAuthorization(client: LlmClient) {
    client.apiKey != "" && client.apiKey != "dummy"
  }

  /** A client for model listing built without a key never authenticates. */
  lemma NoKeyNoAuthorization(c: Config.Config, baseUrl: string)
    requires c.llm.apiKey.None?
    ensures !SendsAuthorization(NewWithoutAuth(c, baseUrl))
  {
  }

  /**
   * The OpenAI-compatible route: which provider API a request goes to; `None` for an unknown
   * provider.
   */
  datatype Route = Anthropic | OpenAiCompatible | OpenRouter

  /** The provider dispatch of `generate_plan`. */
  function RouteFor(provider: string): (r: Option<Route>)
    ensures r == Some(Anthropic) <==> provider == "anthropic"
    ensures r == Some(OpenAiCompatible) <==> provider == "openai" || provider == "lmstudio" || provider == "custom"
    ensures r == Some(OpenRouter) <==> provider == "openrouter"
  {
    match provider
    case "anthropic" => Some(Anthropic)
    case "openai" => Some(OpenAiCompatible)
    case "lmstudio" => Some(OpenAiCompatible)
    case "custom" => Some(OpenAiCompatible)
    case "openrouter" => Some(OpenRouter)
    case _ => None
  }

  /** Every provider with an API-key environment variable has a route. */
  lemma KeyedProvidersAreRouted(provider: string)
    requires Config.KeyVariable(provider).Some?
    ensures RouteFor(provider).Some?
  {
  }

  /**
   * Local servers (`lmstudio`, `custom`) are routed but have no key variable: a client is built
   * only from a key in the config file, and the placeholder key `dummy` builds one that sends no
   * `Authorization` header.
   */
  lemma LocalServerNeedsConfiguredKey(c: Config.Config, env: Config.Env, baseUrl: string)
    requires c.llm.provider == "lmstudio" || c.llm.provider == "custom"
    ensures RouteFor(c.llm.provider) == Some(OpenAiCompatible)
    ensures NewClient(Config.WithEnvFallbacks(c, env), baseUrl).Ok? <==> c.llm.apiKey.Some?
    ensures c.llm.apiKey == Some("dummy") ==>
              NewClient(Config.WithEnvFallbacks(c, env), baseUrl).Ok?
              && !SendsAuthorization(NewClient(Config.WithEnvFallbacks(c, env), baseUrl).value)
  {
  }

  /** The model-list URL: the base URL without trailing slashes, then `/models`. */
  function ModelsUrl(baseUrl: string): (r: string)
    ensures |r| >= 7 && r[|r| - 7..] == "/models"
    ensures |r| - 7 <= |baseUrl| && r[..|r| - 7] == baseUrl[..|r| - 7]
    ensures |r| > 7 ==> r[|r| - 8] != '/'
    ensures forall i :: |r| - 7 <= i < |baseUrl| ==> baseUrl[i] == '/'
  {
    var base := TrimEndChar(baseUrl, '/');
    var r := base + "/models";
    assert r[..|r| - 7] == base;
    r
  }

  /** Trailing slashes on the base URL do not change the model-list URL. */
  lemma ModelsUrlIgnoresTrailingSlashes(baseUrl: string, n: nat)
    ensures ModelsUrl(baseUrl + seq(n, _ => '/')) == ModelsUrl(baseUrl)
  {
    TrimEndCharOfPadded(baseUrl, '/', n);
  }

  /** The string `id` of one entry of the model list, if it has one. */
  function EntryId(entry: Json): (r: Option<string>)
    ensures r.Some? <==> Get(entry, "id").Some? && Get(entry, "id").value.JStr?
    ensures r.Some? ==> Get(entry, "id").value == JStr(r.value)
  {
    match Get(entry, "id")
    case Some(JStr(id)) => Some(id)
    case _ => None
  }

  /** The ids of the entries that have one, in the order of the entries. */
  function IdsOf(entries: seq<Json>): seq<string> {
    if entries == [] then []
    else
      var last := entries[|entries| - 1];
      IdsOf(entries[..|entries| - 1]) + (if EntryId(last).Some? then [EntryId(last).value] else [])
  }

  /** What `fetch_available_models` returns for a parsed reply: the ids of `data[]`, or none. */
  function ModelIds(parsed: Json): seq<string> {
    match Get(parsed, "data")
    case Some(JArr(entries)) => IdsOf(entries)
    case _ => []
  }

  /** The collection loop of `fetch_available_models`. */
  method CollectModelIds(parsed: Json) returns (models: seq<string>)
    ensures models == ModelIds(parsed)
  {
    models := [];
    var data := Get(parsed, "data");
    if data.Some? && data.value.JArr? {
      var entries := data.value.items;
      var i := 0;
      while i < |entries|
        invariant 0 <= i <= |entries|
        invariant models == IdsOf(entries[..i])
      {
        var id := EntryId(entries[i]);
        if id.Some? {
          models := models + [id.value];
        }
        assert entries[..i + 1][..i] == entries[..i];
        i := i + 1;
      }
      assert entries[..i] == entries;
    }
  }

  /** The ids of two lists of entries, one after the other, are the ids of their concatenation. */
  lemma {:induction false} IdsOfConcat(a: seq<Json>, b: seq<Json>)
    ensures IdsOf(a + b) == IdsOf(a) + IdsOf(b)
    decreases |b|
  {
    if b == [] {
      assert a + b == a;
    } else {
      var n := |b| - 1;
      assert (a + b)[..|a + b| - 1] == a + b[..n];
      assert (a + b)[|a + b| - 1] == b[n];
      IdsOfConcat(a, b[..n]);
    }
  }

  /** A name is collected exactly when some entry carries it as its string `id`. */
  lemma {:induction false} IdsOfMembers(entries: seq<Json>, name: string)
    ensures name in IdsOf(entries) <==> exists i :: 0 <= i < |entries| && EntryId(entries[i]) == Some(name)
    decreases |entries|
  {
    if entries != [] {
      var n := |entries| - 1;
      IdsOfMembers(entries[..n], name);
      if EntryId(entries[n]) == Some(name) {
        assert name in IdsOf(entries);
      }
      if exists i :: 0 <= i < |entries| && EntryId(entries[i]) == Some(name) {
        var i :| 0 <= i < |entries| && EntryId(entries[i]) == Some(name);
        if i < n {
          assert entries[..n][i] == entries[i];
        }
      }
      if name in IdsOf(entries[..n]) {
        var i :| 0 <= i < n && EntryId(entries[..n][i]) == Some(name);
        assert entries[i] == entries[..n][i];
      }
    }
  }

  /** When every entry has a string id, one name is collected per entry, in order. */
  lemma {:induction false} IdsOfAllNamed(entries: seq<Json>)
    requires forall i :: 0 <= i < |entries| ==> EntryId(entries[i]).Some?
    ensures |IdsOf(entries)| == |entries|
    ensures forall i :: 0 <= i < |entries| ==> IdsOf(entries)[i] == EntryId(entries[i]).value
    decreases |entries|
  {
    if entries != [] {
      var n := |entries| - 1;
      assert forall i :: 0 <= i < n ==> entries[..n][i] == entries[i];
      IdsOfAllNamed(entries[..n]);
    }
  }

  /** A reply without a `data` array yields no models. */
  lemma NoDataNoModels(parsed: Json)
    requires Get(parsed, "data").None? || !Get(parsed, "data").value.JArr?
    ensures ModelIds(parsed) == []
  {
  }

  const Fence := "```"
  const JsonFence := "```json"

  /**
   * The text after the opening fence of `extract_json`: a ```` ```json ```` fence is tried first,
   * then a plain ```` ``` ```` fence.
   */
  function AfterOpening(t: string): (r: Option<string>)
    ensures r.Some? <==> StartsWith(t, Fence)
    ensures r.Some? ==> |r.value| + 3 <= |t| && r.value == t[|t| - |r.value|..]
  {
    if StartsWith(t, JsonFence) then
      assert t[..3] == t[..7][..3];
      Some(t[7..])
    else if StartsWith(t, Fence) then Some(t[3..])
    else None
  }

  /**
   * `extract_json`: the reply trimmed, and when it opens with a fence and a fence occurs after
   * that opening, the trimmed text between the opening and the last fence.
   */
  function ExtractJson(text: string): (r: string)
    ensures |r| <= |text|
    ensures r != [] ==> !IsWhitespace(r[0]) && !IsWhitespace(r[|r| - 1])
    ensures !StartsWith(Trim(text), Fence) ==> r == Trim(text)
  {
    var trimmed := Trim(text);
    match AfterOpening(trimmed)
    case None => trimmed
    case Some(rest) =>
      match RFind(rest, Fence)
      case None => trimmed
      case Some(end) => Trim(rest[..end])
  }

  /** The last fence of `body + "```"` is the one appended, whatever fences `body` holds. */
  lemma LastFenceIsClosing(body: string)
    ensures RFind(body + Fence, Fence) == Some(|body|)
  {
    var s := body + Fence;
    assert OccursAt(s, Fence, |body|) by {
      assert s[|body|..|body| + 3] == Fence;
    }
  }

  /** What follows a ```` ```json ```` opening. */
  lemma AfterJsonOpening(rest: string)
    ensures AfterOpening(JsonFence + rest) == Some(rest)
  {
    StripPrefixOfConcat(JsonFence, rest);
  }

  /** An occurrence past a prefix is an occurrence in the suffix, shifted back. */
  lemma OccursPastPrefix(s: string, pattern: string, p: nat, k: nat)
    requires p <= |s| && OccursAt(s, pattern, p + k)
    ensures OccursAt(s[p..], pattern, k)
  {
    assert s[p..][k..k + |pattern|] == s[p + k..p + k + |pattern|];
  }

  /**
   * The text between an opening and the closing fence of a block, trimmed, where the closing
   * fence is the last one: whatever follows it (`tail`) starts no further fence.
   */
  lemma ExtractBlock(text: string, rest: string, body: string, tail: string)
    requires AfterOpening(Trim(text)) == Some(rest) && rest == body + Fence + tail
    requires forall j :: 0 < j ==> !OccursAt(Fence + tail, Fence, j)
    ensures ExtractJson(text) == Trim(body)
  {
    ClosingFenceIsLast(body, tail);
    assert rest[..|body|] == body;
  }

  /** The fence after `body` is the last one when none starts inside what follows it. */
  lemma ClosingFenceIsLast(body: string, tail: string)
    requires forall j :: 0 < j ==> !OccursAt(Fence + tail, Fence, j)
    ensures RFind(body + Fence + tail, Fence) == Some(|body|)
  {
    var rest := body + Fence + tail;
    var closing := Fence + tail;
    assert rest == body + closing;
    assert rest[|body|..] == closing;
    assert OccursAt(rest, Fence, |body|) by {
      assert rest[|body|..|body| + 3] == closing[..3];
    }
    var end := RFind(rest, Fence).value;
    if end > |body| {
      OccursPastPrefix(rest, Fence, |body|, end - |body|);
      assert false;
    }
  }

  /**
   * A reply that is a ```` ```json ```` block, possibly surrounded by whitespace, yields its
   * trimmed body; fences inside the body are kept.
   */
  lemma ExtractJsonFenced(lead: string, body: string, trail: string)
    requires AllWhitespace(lead) && AllWhitespace(trail)
    ensures ExtractJson(lead + JsonFence + body + Fence + trail) == Trim(body)
  {
    var text := lead + JsonFence + body + Fence + trail;
    var block := JsonFence + (body + Fence);
    assert text == lead + block + trail;
    TrimPadded(lead, block, trail);
    AfterJsonOpening(body + Fence);
    assert body + Fence == body + Fence + [];
    ExtractBlock(text, body + Fence, body, []);
  }

  /** A plain fence is read as a `json` fence only when the text after it starts with `json`. */
  lemma JsonOpeningNeedsJsonBody(body: string)
    ensures StartsWith(Fence + body + Fence, JsonFence) ==> StartsWith(body, "json")
  {
    var block := Fence + body + Fence;
    assert block == (Fence + body) + Fence;
    assert forall k :: 0 <= k < 3 ==> Fence[k] == '`';
    assert 1 <= |body| <= 3 ==> block[6] == Fence[6 - |Fence + body|];
    if StartsWith(block, JsonFence) {
      assert block[6] == JsonFence[6];
      assert body[..4] == block[3..7];
    }
  }

  /** What follows a plain opening that is not a ```` ```json ```` opening. */
  lemma AfterPlainOpening(body: string)
    requires !StartsWith(body, "json")
    ensures AfterOpening(Fence + body + Fence) == Some(body + Fence)
  {
    JsonOpeningNeedsJsonBody(body);
    assert Fence + body + Fence == Fence + (body + Fence);
    StripPrefixOfConcat(Fence, body + Fence);
  }

  /**
   * A block opened by a plain fence yields its trimmed body, unless the body starts with `json`,
   * in which case the opening is read as a ```` ```json ```` fence.
   */
  lemma ExtractPlainFenced(lead: string, body: string, trail: string)
    requires AllWhitespace(lead) && AllWhitespace(trail)
    requires !StartsWith(body, "json")
    ensures ExtractJson(lead + Fence + body + Fence + trail) == Trim(body)
  {
    var text := lead + Fence + body + Fence + trail;
    var block := Fence + body + Fence;
    assert text == lead + block + trail;
    TrimPadded(lead, block, trail);
    AfterPlainOpening(body);
    assert body + Fence == body + Fence + [];
    ExtractBlock(text, body + Fence, body, []);
  }

  /** An opening fence with no fence after it leaves the trimmed reply unchanged. */
  lemma ExtractUnclosed(text: string)
    requires AfterOpening(Trim(text)).Some?
    requires forall k :: !OccursAt(AfterOpening(Trim(text)).value, Fence, k)
    ensures ExtractJson(text) == Trim(text)
  {
  }

  /**
   * The plan service as the client sees it: `call` stands for the HTTP exchange with the routed
   * provider API (the reply text or the error), `parsePlan` for parsing a plan from JSON text, and
   * `validate` for `Plan::validate` (`None` when the plan is valid, otherwise its error).
   */
  datatype PlanService = PlanService(
    call: (Route, LlmClient, string) -> Result<string, string>,
    parsePlan: string -> Option<Plan>,
    validate: Plan -> Option<string>)

  /** `generate_plan`, given the formatted context. */
  function GeneratePlan(client: LlmClient, systemPrompt: string, contextText: string, request: string, service: PlanService): (r: Result<Plan, string>)
    ensures RouteFor(client.provider).None? ==> r == Err("Unknown provider: " + client.provider)
    ensures r.Ok? ==>
      && RouteFor(client.provider).Some?
      && var reply := service.call(RouteFor(client.provider).value, client, Prompt.BuildPrompt(systemPrompt, contextText, request));
      && reply.Ok?
      && service.parsePlan(ExtractJson(reply.value)) == Some(r.value)
      && service.validate(r.value).None?
    ensures RouteFor(client.provider).Some? ==>
      var reply := service.call(RouteFor(client.provider).value, client, Prompt.BuildPrompt(systemPrompt, contextText, request));
      && (reply.Err? ==> r == Err(reply.error))
      && (reply.Ok? && service.parsePlan(ExtractJson(reply.value)).None? ==>
            r == Err("Failed to parse LLM response as plan: " + reply.value))
      && (reply.Ok? && service.parsePlan(ExtractJson(reply.value)).Some? ==>
            var plan := service.parsePlan(ExtractJson(reply.value)).value;
            r == if service.validate(plan).Some? then Err("Invalid plan: " + service.validate(plan).value) else Ok(plan))
  {
    match RouteFor(client.provider)
    case None => Err("Unknown provider: " + client.provider)
    case Some(route) =>
      match service.call(route, client, Prompt.BuildPrompt(systemPrompt, contextText, request))
      case Err(e) => Err(e)
      case Ok(replyText) =>
        match service.parsePlan(ExtractJson(replyText))
        case None => Err("Failed to parse LLM response as plan: " + replyText)
        case Some(plan) =>
          match service.validate(plan)
          case Some(e) => Err("Invalid plan: " + e)
          case None => Ok(plan)
  }
}
