/**
 * The dispatching side of python/resolve_bridge.py: the response envelope every handler returns,
 * the `OPERATIONS` table, and `main`, which reads one command, looks its `op` up in the table and
 * prints one response. The handlers themselves, and the editing application they talk to, are the
 * `handle` parameter of `RunScript`.
 */
module PyBridge {
  import opened Wrappers
  import opened JsonValue
  import opened Text
  import Operations

  /** The code `error()` uses when none is given. */
  const DefaultCode := "PYTHON_ERROR"

  /** The message `op_check_connection` reports when there is no application to talk to. */
  const ResolveNotRunningMessage := "DaVinci Resolve is not running"

  /** `success(result)`: a falsy result (absent, `None`, empty, zero, false) becomes `{}`. */
  function Success(result: Json): (r: Json)
    ensures r.JObj? && r.fields.Keys == {"success", "result"}
    ensures r.fields["success"] == JBool(true)
    ensures Truthy(result) ==> r.fields["result"] == result
    ensures !Truthy(result) ==> r.fields["result"] == EmptyObject
  {
    JObj(map["success" := JBool(true), "result" := if Truthy(result) then result else EmptyObject])
  }

  /** `error(message, code)`. */
  function Error(message: string, code: string): (r: Json)
    ensures r.JObj? && r.fields.Keys == {"success", "error", "code"}
    ensures r.fields["success"] == JBool(false)
    ensures r.fields["error"] == JStr(message) && r.fields["code"] == JStr(code)
  {
    JObj(map["success" := JBool(false), "error" := JStr(message), "code" := JStr(code)])
  }

  // The `OPERATIONS` table lists the same groups as the Rust registry, in the same order; only
  // inside Tracks and Text+ are the entries ordered differently.

  const Tracks: seq<string> := [
    "add_track",
    "delete_track",
    "set_track_name",
    "enable_track",
    "lock_track"
  ]

  const TextPlus: seq<string> := [
    "add_text_to_timeline",
    "set_text_content",
    "set_text_style",
    "get_text_properties"
  ]

  /** The keys of `OPERATIONS`, in the order of the table. */
  const OperationNames: seq<string> :=
    ((Operations.Core + Operations.Media + Operations.ClipProperties + Operations.Markers + Tracks + Operations.Render)
     + (Operations.Timeline + Operations.FusionAndCompositions + Operations.GeneratorsAndTitles + TextPlus + Operations.AiProcessing))
    + ((Operations.ClipManagement + Operations.Navigation + Operations.Audio + Operations.StillsAndGallery + Operations.ColorGrading
        + Operations.ColorGroups)
       + (Operations.MediaPool + Operations.Flags + Operations.Takes + Operations.ProjectSettings + Operations.KeyframeMode
          + Operations.Cache))

  /** The two reordered groups hold the same names as their Rust counterparts. */
  lemma ReorderedGroupsAgree()
    ensures multiset(Tracks) == multiset(Operations.Tracks)
    ensures multiset(TextPlus) == multiset(Operations.TextPlus)
  {
    assert Tracks == [Operations.Tracks[0], Operations.Tracks[4]] + Operations.Tracks[1..4];
    assert Operations.Tracks == Operations.Tracks[..1] + Operations.Tracks[1..4] + [Operations.Tracks[4]];
    assert TextPlus == [Operations.TextPlus[3]] + Operations.TextPlus[..3];
    assert Operations.TextPlus == Operations.TextPlus[..3] + [Operations.TextPlus[3]];
  }

  /** What a handler does: return a response dictionary, or raise. */
  datatype HandlerOutcome = Returned(response: Json) | Raised

  /** One run of the script: a response printed with an exit status, or an uncaught exception. */
  datatype MainOutcome = Printed(output: Json, exitCode: nat) | Crashed

  /** Python's `str` of a decoded JSON scalar, as an f-string shows it. */
  function PyStr(v: Json): (r: string)
    requires !v.JArr? && !v.JObj?
    ensures v.JStr? ==> r == v.s
    ensures v.JNull? ==> r == "None"
  {
    match v
    case JNull => "None"
    case JBool(b) => if b then "True" else "False"
    case JInt(i) => IntToString(i)
    case JStr(s) => s
  }

  /**
   * `main`: `input` is the outcome of reading stdin and `json.loads` (the decoder's message on
   * failure); `handle` runs a registered handler, given the name and the params. A command that is
   * not an object, or whose `op` is a list or an object, raises before any lookup.
   */
  function RunScript(input: Result<Json, string>, handle: (string, Json) -> HandlerOutcome): (r: MainOutcome)
    ensures input.Err? ==> r == Printed(Error("Invalid JSON input: " + input.error, DefaultCode), 1)
    ensures input.Ok? && !input.value.JObj? ==> r.Crashed?
    ensures r.Printed? && r.exitCode == 0 ==>
              && input.Ok? && input.value.JObj? && Get(input.value, "op").Some? && Get(input.value, "op").value.JStr?
              && Get(input.value, "op").value.s in OperationNames
              && handle(Get(input.value, "op").value.s, GetOrDefault(input.value, "params", EmptyObject)) == Returned(r.output)
    ensures input.Ok? && input.value.JObj? && Get(input.value, "op").Some? && Get(input.value, "op").value.JStr?
            && Get(input.value, "op").value.s !in OperationNames ==>
              r == Printed(Error("Unknown operation: " + Get(input.value, "op").value.s, DefaultCode), 1)
    ensures input.Ok? && input.value.JObj? ==>
              var op := GetOrDefault(input.value, "op", JNull);
              && (op.JArr? || op.JObj? ==> r == Crashed)
              && (!op.JArr? && !op.JObj? && !(op.JStr? && op.s in OperationNames) ==>
                    r == Printed(Error("Unknown operation: " + PyStr(op), DefaultCode), 1))
              && (op.JStr? && op.s in OperationNames ==>
                    r == match handle(op.s, GetOrDefault(input.value, "params", EmptyObject))
                         case Returned(response) => Printed(response, 0)
                         case Raised => Crashed)
  {
    match input
    case Err(message) => Printed(Error("Invalid JSON input: " + message, DefaultCode), 1)
    case Ok(command) =>
      if !command.JObj? then Crashed
      else
        var op := GetOrDefault(command, "op", JNull);
        var params := GetOrDefault(command, "params", EmptyObject);
        if op.JArr? || op.JObj? then Crashed
        else if !op.JStr? || op.s !in OperationNames then Printed(Error("Unknown operation: " + PyStr(op), DefaultCode), 1)
        else
          match handle(op.s, params)
          case Returned(response) => Printed(response, 0)
          case Raised => Crashed
  }

  /** A command whose `op` names no handler is answered "Unknown operation" with exit status 1. */
  lemma UnknownOpAnswered(command: Json, handle: (string, Json) -> HandlerOutcome)
    requires Get(command, "op").Some? && Get(command, "op").value.JStr?
    requires Get(command, "op").value.s !in OperationNames
    ensures RunScript(Ok(command), handle)
            == Printed(Error("Unknown operation: " + Get(command, "op").value.s, DefaultCode), 1)
  {
  }

  /** A command without an `op` is an unknown operation named `None`. */
  lemma MissingOpIsUnknown(command: Json, handle: (string, Json) -> HandlerOutcome)
    requires command.JObj? && Get(command, "op").None?
    ensures RunScript(Ok(command), handle) == Printed(Error("Unknown operation: None", DefaultCode), 1)
  {
    assert "Unknown operation: " + "None" == "Unknown operation: None";
  }

  /** An unknown op is answered without running any handler. */
  lemma UnknownOpIgnoresHandlers(command: Json, handle1: (string, Json) -> HandlerOutcome, handle2: (string, Json) -> HandlerOutcome)
    requires command.JObj? && Get(command, "op").Some? && Get(command, "op").value.JStr?
    requires Get(command, "op").value.s !in OperationNames
    ensures RunScript(Ok(command), handle1) == RunScript(Ok(command), handle2)
  {
  }

  /** A command without `params` gives the handler `{}`; an explicit `null` reaches it as `null`. */
  lemma ParamsDefaultOnlyWhenAbsent(op: string, handle: (string, Json) -> HandlerOutcome)
    requires op in OperationNames
    ensures RunScript(Ok(JObj(map["op" := JStr(op)])), handle)
            == (match handle(op, EmptyObject) case Returned(v) => Printed(v, 0) case Raised => Crashed)
    ensures RunScript(Ok(JObj(map["op" := JStr(op), "params" := JNull])), handle)
            == (match handle(op, JNull) case Returned(v) => Printed(v, 0) case Raised => Crashed)
  {
  }
}
