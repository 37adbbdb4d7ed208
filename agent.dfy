/**
 * The library entry point of src/lib.rs: a `MagicAgent` owns the configuration, the bridge and the
 * LLM client, which it creates on first use. A natural-language request reads the editing context
 * from the bridge, asks the LLM for a plan, and runs the plan's operations one after another,
 * reporting each outcome and how many succeeded.
 */
module Agent {
  import opened Wrappers
  import opened JsonValue
  import opened PlanSchema
  import Config
  import Bridge
  import Client
  import Prompt

  /** The `get_context` command, which carries no params. */
  const ContextCommand := Bridge.CommandJson("get_context", None)

  /** The commands a plan sends, one per operation, in order. */
  function PlanCommands(ops: seq<PlanOperation>): (r: seq<Json>)
    ensures |r| == |ops|
    ensures forall i :: 0 <= i < |ops| ==> r[i] == Bridge.CommandJson(ops[i].op, Some(ops[i].params))
  {
    seq(|ops|, i requires 0 <= i < |ops| => Bridge.CommandJson(ops[i].op, Some(ops[i].params)))
  }

  /** The record of one operation of a plan: its name, its status, and its result or error. */
  function OperationRecord(op: string, outcome: Result<Json, string>): (r: Json)
    ensures r.JObj? && r.fields.Keys == {"op", "status", if outcome.Ok? then "result" else "error"}
    ensures r.fields["op"] == JStr(op)
    ensures r.fields["status"] == JStr(if outcome.Ok? then "success" else "error")
    ensures outcome.Ok? ==> r.fields["result"] == outcome.value
    ensures outcome.Err? ==> r.fields["error"] == JStr(outcome.error)
  {
    match outcome
    case Ok(v) => JObj(map["op" := JStr(op), "status" := JStr("success"), "result" := v])
    case Err(e) => JObj(map["op" := JStr(op), "status" := JStr("error"), "error" := JStr(e)])
  }

  /** The records of a plan run against a backend that has already received `history`. */
  function PlanResults(bridge: Bridge.ResolveBridge, respond: (Bridge.ResolveBridge, seq<Json>, Json) -> Bridge.ProcessOutput,
                       history: seq<Json>, ops: seq<PlanOperation>): (r: seq<Json>)
    ensures |r| == |ops|
    ensures forall i :: 0 <= i < |ops| ==>
              r[i] == OperationRecord(ops[i].op, Bridge.Outcomes(bridge, respond, history, PlanCommands(ops))[i])
  {
    var outcomes := Bridge.Outcomes(bridge, respond, history, PlanCommands(ops));
    seq(|ops|, i requires 0 <= i < |ops| => OperationRecord(ops[i].op, outcomes[i]))
  }

  /** Whether a record reports success: `r["status"] == "success"`. */
  predicate Succeeded(record: Json) {
    Get(record, "status") == Some(JStr("success"))
  }

  /** How many records report success. */
  function CountSuccesses(results: seq<Json>): (n: nat)
    ensures n <= |results|
    ensures n == |results| <==> forall i :: 0 <= i < |results| ==> Succeeded(results[i])
  {
    if results == [] then 0
    else CountSuccesses(results[..|results| - 1]) + (if Succeeded(results[|results| - 1]) then 1 else 0)
  }

  /** How many outcomes are successes. */
  function CountOk(outcomes: seq<Result<Json, string>>): (n: nat)
    ensures n <= |outcomes|
    ensures n == |outcomes| <==> forall i :: 0 <= i < |outcomes| ==> outcomes[i].Ok?
    ensures n == 0 <==> forall i :: 0 <= i < |outcomes| ==> outcomes[i].Err?
  {
    if outcomes == [] then 0
    else CountOk(outcomes[..|outcomes| - 1]) + (if outcomes[|outcomes| - 1].Ok? then 1 else 0)
  }

  /** The output of a request: every record, their number and the number of successes. */
  function Report(results: seq<Json>): Json {
    JObj(map["executed" := JBool(true), "total_operations" := JInt(|results|),
             "successful_operations" := JInt(CountSuccesses(results)), "results" := JArr(results)])
  }

  /** The error reported for a plan the LLM marked as an error. */
  function PlanErrorMessage(plan: Plan): (r: string)
    ensures plan.error.None? && plan.suggestion.None? ==> r == "Unknown error Suggestion: "
    ensures plan.error.Some? && plan.suggestion.Some? ==> r == plan.error.value + " Suggestion: " + plan.suggestion.value
    ensures plan.error.Some? && plan.suggestion.None? ==> r == plan.error.value + " Suggestion: "
    ensures plan.error.None? && plan.suggestion.Some? ==> r == "Unknown error Suggestion: " + plan.suggestion.value
  {
    plan.error.GetOr("Unknown error") + " Suggestion: " + plan.suggestion.GetOr("")
  }

  /** The client a request uses: the cached one, or one built from the configuration. */
  function ClientFor(cached: Option<Client.LlmClient>, config: Config.Config, baseUrl: string): (r: Result<Client.LlmClient, string>)
    ensures cached.Some? ==> r == Ok(cached.value)
    ensures cached.None? ==> r == Client.NewClient(config, baseUrl)
  {
    if cached.Some? then Ok(cached.value) else Client.NewClient(config, baseUrl)
  }

  /**
   * The plan a request runs, from the context the bridge answered: an error from the bridge or from
   * decoding the context, from building the client, from generating the plan, or the plan's own
   * error; otherwise the plan.
   */
  function PlanForRequest<C>(contextOutcome: Result<Json, string>, decodeContext: Json -> Result<C, string>,
                             serialise: C -> Option<string>, client: Result<Client.LlmClient, string>,
                             systemPrompt: string, request: string, service: Client.PlanService, isError: Plan -> bool)
    : (r: Result<Plan, string>)
    ensures contextOutcome.Err? ==> r == Err(contextOutcome.error)
    ensures contextOutcome.Ok? && decodeContext(contextOutcome.value).Err? ==> r == Err(decodeContext(contextOutcome.value).error)
    ensures r.Ok? ==> !isError(r.value) && client.Ok? && contextOutcome.Ok? && decodeContext(contextOutcome.value).Ok?
    ensures r.Ok? ==> Client.GeneratePlan(client.value, systemPrompt, Prompt.FormatContext(serialise(decodeContext(contextOutcome.value).value)),
                                          request, service) == Ok(r.value)
    ensures contextOutcome.Ok? && decodeContext(contextOutcome.value).Ok? && client.Err? ==> r == Err(client.error)
    ensures contextOutcome.Ok? && decodeContext(contextOutcome.value).Ok? && client.Ok? ==>
              var generated := Client.GeneratePlan(client.value, systemPrompt,
                                                   Prompt.FormatContext(serialise(decodeContext(contextOutcome.value).value)),
                                                   request, service);
              && (generated.Err? ==> r == Err(generated.error))
              && (generated.Ok? && isError(generated.value) ==> r == Err(PlanErrorMessage(generated.value)))
              && (generated.Ok? && !isError(generated.value) ==> r == Ok(generated.value))
  {
    match contextOutcome
    case Err(e) => Err(e)
    case Ok(raw) =>
      match decodeContext(raw)
      case Err(e) => Err(e)
      case Ok(context) =>
        match client
        case Err(e) => Err(e)
        case Ok(c) =>
          match Client.GeneratePlan(c, systemPrompt, Prompt.FormatContext(serialise(context)), request, service)
          case Err(e) => Err(e)
          case Ok(plan) => if isError(plan) then Err(PlanErrorMessage(plan)) else Ok(plan)
  }

  class MagicAgent {
    var config: Config.Config
    var bridge: Bridge.ResolveBridge
    var llmClient: Option<Client.LlmClient>

    /** `with_config`: the bridge is built from the configuration; no client yet. */
    constructor WithConfig(config: Config.Config, runs: string -> bool, exeDir: Option<string>, manifestDir: Option<string>,
                           isFile: string -> bool)
      ensures this.config == config && llmClient.None?
      ensures config.resolve.pythonPath.Some? ==> bridge.pythonPath == config.resolve.pythonPath.value
      ensures config.resolve.pythonPath.None? ==> Config.FirstRunning(runs, bridge.pythonPath)
      ensures Bridge.FirstExisting(Bridge.ScriptCandidates(exeDir, manifestDir), isFile, bridge.scriptPath)
    {
      var b := Bridge.NewBridge(config, runs, exeDir, manifestDir, isFile);
      this.config := config;
      bridge := b;
      llmClient := None;
    }

    /** `llm_client`: the cached client, created from the configuration on first use. */
    method LlmClient(baseUrl: string) returns (r: Result<Client.LlmClient, string>)
      modifies this
      ensures r == ClientFor(old(llmClient), config, baseUrl)
      ensures config == old(config) && bridge == old(bridge)
      ensures llmClient == if r.Ok? then Some(r.value) else old(llmClient)
    {
      if llmClient.None? {
        var created := Client.NewClient(config, baseUrl);
        if created.Err? {
          return Err(created.error);
        }
        llmClient := Some(created.value);
      }
      r := Ok(llmClient.value);
    }

    /**
     * `execute_request`. The context's decoding and serialisation, the base URL, the system prompt,
     * the LLM service and the plan's `is_error` check are parameters.
     */
    method ExecuteRequest<C>(backend: Bridge.Backend, request: string, decodeContext: Json -> Result<C, string>,
                             serialise: C -> Option<string>, baseUrl: string, systemPrompt: string,
                             service: Client.PlanService, isError: Plan -> bool) returns (r: Result<Json, string>)
      modifies this, backend
      ensures config == old(config) && bridge == old(bridge)
      ensures var contextOutcome := Bridge.Interpret(bridge, backend.respond(bridge, old(backend.sent), ContextCommand));
        var contextOk := contextOutcome.Ok? && decodeContext(contextOutcome.value).Ok?;
        var client := ClientFor(old(llmClient), config, baseUrl);
        var plan := PlanForRequest(contextOutcome, decodeContext, serialise, client, systemPrompt, request, service, isError);
        && llmClient == (if contextOk && client.Ok? then Some(client.value) else old(llmClient))
        && (plan.Err? ==> r == Err(plan.error) && backend.sent == old(backend.sent) + [ContextCommand])
        && (plan.Ok? ==>
              && backend.sent == old(backend.sent) + [ContextCommand] + PlanCommands(plan.value.operations)
              && r == Ok(Report(PlanResults(bridge, backend.respond, old(backend.sent) + [ContextCommand], plan.value.operations))))
    {
      var context := Bridge.GetContext(bridge, backend, decodeContext);
      if context.Err? {
        return Err(context.error);
      }
      var client := LlmClient(baseUrl);
      if client.Err? {
        return Err(client.error);
      }
      var generated := Client.GeneratePlan(client.value, systemPrompt, Prompt.FormatContext(serialise(context.value)), request, service);
      if generated.Err? {
        return Err(generated.error);
      }
      var plan := generated.value;
      if isError(plan) {
        return Err(PlanErrorMessage(plan));
      }
      var results := RunPlan(bridge, backend, plan.operations);
      r := Ok(Report(results));
    }

    /** `get_context` and `check_connection` only talk to the bridge. */
    method GetContext<C>(backend: Bridge.Backend, decodeContext: Json -> Result<C, string>) returns (r: Result<C, string>)
      modifies backend
      ensures backend.sent == old(backend.sent) + [ContextCommand]
      ensures var out := Bridge.Interpret(bridge, backend.respond(bridge, old(backend.sent), ContextCommand));
              r == if out.Err? then Err(out.error) else decodeContext(out.value)
    {
      r := Bridge.GetContext(bridge, backend, decodeContext);
    }

    method CheckConnection<T>(backend: Bridge.Backend, decode: Json -> Result<T, string>) returns (r: Result<T, string>)
      modifies backend
      ensures backend.sent == old(backend.sent) + [Bridge.CommandJson("check_connection", None)]
      ensures var out := Bridge.Interpret(bridge, backend.respond(bridge, old(backend.sent), Bridge.CommandJson("check_connection", None)));
              r == if out.Err? then Err(out.error) else decode(out.value)
    {
      r := Bridge.CheckConnection(bridge, backend, decode);
    }

    /**
     * `update_config`: only the configuration changes; the bridge and a client created before
     * keep the settings they were built with.
     */
    method UpdateConfig(c: Config.Config)
      modifies this
      ensures config == c && bridge == old(bridge) && llmClient == old(llmClient)
    {
      config := c;
    }
  }

  /** The record of operation `i` extends the records of the operations before it. */
  lemma PlanResultsStep(bridge: Bridge.ResolveBridge, respond: (Bridge.ResolveBridge, seq<Json>, Json) -> Bridge.ProcessOutput,
                        history: seq<Json>, ops: seq<PlanOperation>, i: nat, outcome: Result<Json, string>)
    requires i < |ops|
    requires outcome == Bridge.Interpret(bridge, respond(bridge, history + PlanCommands(ops)[..i],
                                                         Bridge.CommandJson(ops[i].op, Some(ops[i].params))))
    ensures PlanResults(bridge, respond, history, ops)[..i + 1]
            == PlanResults(bridge, respond, history, ops)[..i] + [OperationRecord(ops[i].op, outcome)]
  {
    var expected := PlanResults(bridge, respond, history, ops);
    assert expected[..i + 1] == expected[..i] + [expected[i]];
  }

  /** The loop of `execute_request`: every operation in order, continuing after a failure. */
  method RunPlan(bridge: Bridge.ResolveBridge, backend: Bridge.Backend, ops: seq<PlanOperation>) returns (results: seq<Json>)
    modifies backend
    ensures backend.sent == old(backend.sent) + PlanCommands(ops)
    ensures results == PlanResults(bridge, backend.respond, old(backend.sent), ops)
  {
    ghost var history := backend.sent;
    ghost var cmds := PlanCommands(ops);
    ghost var expected := PlanResults(bridge, backend.respond, history, ops);
    results := [];
    var i := 0;
    while i < |ops|
      invariant 0 <= i <= |ops|
      invariant backend.sent == history + cmds[..i]
      invariant results == expected[..i]
    {
      var outcome := Bridge.ExecuteOperation(bridge, backend, ops[i].op, ops[i].params);
      PlanResultsStep(bridge, backend.respond, history, ops, i, outcome);
      results := results + [OperationRecord(ops[i].op, outcome)];
      Bridge.LogGrows(history, cmds, i);
      i := i + 1;
    }
    assert cmds[..i] == cmds;
    assert expected[..i] == expected;
  }

  /** Counting successful records is counting successful outcomes when they correspond one to one. */
  lemma {:induction false} CountsAgree(results: seq<Json>, outcomes: seq<Result<Json, string>>)
    requires |results| == |outcomes|
    requires forall i :: 0 <= i < |results| ==> (Succeeded(results[i]) <==> outcomes[i].Ok?)
    ensures CountSuccesses(results) == CountOk(outcomes)
    decreases |results|
  {
    if results != [] {
      var n := |results| - 1;
      CountsAgree(results[..n], outcomes[..n]);
    }
  }

  /** The success count is the number of operations whose command the bridge answered with success. */
  lemma SuccessesAreOkOutcomes(bridge: Bridge.ResolveBridge,
                               respond: (Bridge.ResolveBridge, seq<Json>, Json) -> Bridge.ProcessOutput,
                               history: seq<Json>, ops: seq<PlanOperation>)
    ensures CountSuccesses(PlanResults(bridge, respond, history, ops))
            == CountOk(Bridge.Outcomes(bridge, respond, history, PlanCommands(ops)))
  {
    var results := PlanResults(bridge, respond, history, ops);
    var outcomes := Bridge.Outcomes(bridge, respond, history, PlanCommands(ops));
    forall i | 0 <= i < |results|
      ensures Succeeded(results[i]) <==> outcomes[i].Ok?
    {
      assert results[i] == OperationRecord(ops[i].op, outcomes[i]);
    }
    CountsAgree(results, outcomes);
  }

  /** The report counts every operation, and no more successes than operations. */
  lemma ReportCounts(results: seq<Json>)
    ensures var report := Report(results);
      && report.fields["total_operations"] == JInt(|results|)
      && report.fields["successful_operations"].i <= report.fields["total_operations"].i
      && ((report.fields["successful_operations"] == report.fields["total_operations"])
          <==> (forall i :: 0 <= i < |results| ==> Succeeded(results[i])))
  {
  }
}
