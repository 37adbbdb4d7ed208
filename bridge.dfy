/**
 * The Rust side of the Python bridge (src/resolve/bridge.rs). Every operation starts the bridge
 * script once, writes one JSON command to it and reads one JSON response back. The script, the
 * editing application behind it and the JSON parser are the `Backend`: it answers each command as a
 * function of the bridge, the commands sent before and the command itself, and records what it was
 * sent.
 */
module Bridge {
  import opened Wrappers
  import opened JsonValue
  import opened Text
  import Config

  /** `ResolveBridge`: the interpreter and the script it runs. */
  datatype ResolveBridge = ResolveBridge(pythonPath: string, scriptPath: string)

  /**
   * One run of the bridge script: Python could not be started, or it exited having written
   * `stdout`, which parses as the JSON value `parsed` (`None` when it is not JSON).
   */
  datatype ProcessOutput = SpawnFailed | Exited(stdout: string, parsed: Option<Json>)

  class Backend {
    /** The commands written to the script so far, oldest first. */
    var sent: seq<Json>
    const respond: (ResolveBridge, seq<Json>, Json) -> ProcessOutput

    constructor(respond: (ResolveBridge, seq<Json>, Json) -> ProcessOutput)
      ensures sent == [] && this.respond == respond
    {
      sent := [];
      this.respond := respond;
    }

    /** Starts the script from `bridge`, writes `command` to it and waits for it to exit. */
    method Run(bridge: ResolveBridge, command: Json) returns (out: ProcessOutput)
      modifies this
      ensures sent == old(sent) + [command]
      ensures out == respond(bridge, old(sent), command)
    {
      out := respond(bridge, sent, command);
      sent := sent + [command];
    }
  }

  /** `BridgeCommand` as serialised: `op`, and `params` only when there are params. */
  function CommandJson(op: string, params: Option<Json>): (r: Json)
    ensures r.JObj? && "op" in r.fields && r.fields["op"] == JStr(op)
    ensures "params" in r.fields <==> params.Some?
    ensures params.Some? ==> r.fields["params"] == params.value
    ensures forall k :: k in r.fields ==> k == "op" || k == "params"
  {
    var base := map["op" := JStr(op)];
    match params
    case None => JObj(base)
    case Some(p) => JObj(base["params" := p])
  }

  /** `BridgeResponse` after deserialisation, with its defaults applied. */
  datatype BridgeResponse = BridgeResponse(success: bool, result: Json, error: Option<string>, code: Option<string>)

  /**
   * One `Option<String>` value: `null` is `None`, a string is `Some`, and any other value makes
   * deserialisation fail (the outer `None`).
   */
  function OptionalStringValue(j: Json): (r: Option<Option<string>>)
    ensures r.Some? <==> j.JNull? || j.JStr?
    ensures j.JStr? ==> r == Some(Some(j.s))
    ensures j.JNull? ==> r == Some(None)
  {
    match j
    case JNull => Some(None)
    case JStr(s) => Some(Some(s))
    case _ => None
  }

  /**
   * A field of type `Option<String>` with `#[serde(default)]`: absent or `null` is `None`, a string
   * is `Some`, and any other value makes deserialisation fail (the outer `None`).
   */
  function OptionalString(v: Json, key: string): (r: Option<Option<string>>)
    requires v.JObj?
    ensures key !in v.fields ==> r == Some(None)
    ensures key in v.fields ==> (r.Some? <==> v.fields[key].JNull? || v.fields[key].JStr?)
    ensures key in v.fields && v.fields[key].JStr? ==> r == Some(Some(v.fields[key].s))
  {
    if key !in v.fields then Some(None) else OptionalStringValue(v.fields[key])
  }

  /**
   * The same field read from the sequence form of the struct: a missing trailing element takes
   * its `#[serde(default)]`, `None`.
   */
  function OptionalElement(items: seq<Json>, k: nat): (r: Option<Option<string>>)
    ensures k >= |items| ==> r == Some(None)
    ensures k < |items| ==> (r.Some? <==> items[k].JNull? || items[k].JStr?)
    ensures k < |items| && items[k].JStr? ==> r == Some(Some(items[k].s))
  {
    if k >= |items| then Some(None) else OptionalStringValue(items[k])
  }

  /**
   * Deserialising a response with the derived `Deserialize` of `BridgeResponse`. In map form: an
   * object whose `success` is a boolean; a missing `result` is `null`; `error` and `code` are
   * optional strings; other fields are ignored. In sequence form: the fields in declaration order,
   * `[success, result?, error?, code?]`, where missing trailing fields take their defaults and a
   * fifth element is rejected.
   */
  function DecodeResponse(v: Json): (r: Option<BridgeResponse>)
    ensures r.Some? ==> v.JObj? || v.JArr?
    ensures r.Some? && v.JObj? ==> Get(v, "success") == Some(JBool(r.value.success))
    ensures r.Some? && v.JObj? ==> r.value.result == GetOrDefault(v, "result", JNull)
    ensures r.Some? && Get(v, "error").Some? && Get(v, "error").value.JStr? ==> r.value.error == Some(Get(v, "error").value.s)
    ensures r.Some? && Get(v, "code").Some? && Get(v, "code").value.JStr? ==> r.value.code == Some(Get(v, "code").value.s)
    ensures (v.JObj? && Get(v, "success").Some? && Get(v, "success").value.JBool?
             && OptionalString(v, "error").Some? && OptionalString(v, "code").Some?) ==> r.Some?
  {
    match v
    case JObj(fields) =>
      if "success" !in fields || !fields["success"].JBool? then None
      else
        (match (OptionalString(v, "error"), OptionalString(v, "code"))
         case (Some(error), Some(code)) =>
           Some(BridgeResponse(fields["success"].b, GetOrDefault(v, "result", JNull), error, code))
         case _ => None)
    case JArr(items) =>
      if |items| == 0 || 4 < |items| || !items[0].JBool? then None
      else
        (match (OptionalElement(items, 2), OptionalElement(items, 3))
         case (Some(error), Some(code)) =>
           Some(BridgeResponse(items[0].b, if |items| > 1 then items[1] else JNull, error, code))
         case _ => None)
    case _ => None
  }

  /**
   * The sequence form of a response, `[success, result?, error?, code?]`: it decodes exactly when
   * it has one to four elements, the first a boolean and the third and fourth (when present)
   * optional strings; a missing `result` is `null`.
   */
  lemma SequenceFormDecodes(items: seq<Json>)
    ensures var r := DecodeResponse(JArr(items));
      && (r.Some? <==> 1 <= |items| <= 4 && items[0].JBool?
                       && OptionalElement(items, 2).Some? && OptionalElement(items, 3).Some?)
      && (r.Some? ==>
            && r.value.success == items[0].b
            && r.value.result == (if |items| > 1 then items[1] else JNull)
            && Some(r.value.error) == OptionalElement(items, 2)
            && Some(r.value.code) == OptionalElement(items, 3))
  {
  }

  /** The code used when a failed response carries none; also `MagicError::PythonError`'s code. */
  const DefaultErrorCode := "PYTHON_ERROR"

  /** The message used when a failed response carries none. */
  const DefaultErrorMessage := "Unknown error"

  /** The outcome a decoded response stands for. */
  function ResponseToResult(resp: BridgeResponse): (r: Result<Json, string>)
    ensures resp.success ==> r == Ok(resp.result)
    ensures !resp.success ==>
      r == Err("[" + resp.code.GetOr(DefaultErrorCode) + "] " + resp.error.GetOr(DefaultErrorMessage))
  {
    if resp.success then Ok(resp.result)
    else Err("[" + resp.code.GetOr(DefaultErrorCode) + "] " + resp.error.GetOr(DefaultErrorMessage))
  }

  /** What `execute` makes of one run of the script. */
  function Interpret(bridge: ResolveBridge, out: ProcessOutput): (r: Result<Json, string>)
    ensures out.SpawnFailed? ==> r == Err("Failed to spawn Python at " + bridge.pythonPath)
    ensures out.Exited? && (out.parsed.None? || DecodeResponse(out.parsed.value).None?) ==>
              r == Err("Failed to parse bridge response: " + out.stdout)
    ensures r.Ok? ==> out.Exited? && out.parsed.Some? && DecodeResponse(out.parsed.value).Some?
                      && DecodeResponse(out.parsed.value).value.success
                      && r.value == DecodeResponse(out.parsed.value).value.result
  {
    match out
    case SpawnFailed => Err("Failed to spawn Python at " + bridge.pythonPath)
    case Exited(stdout, parsed) =>
      match parsed
      case None => Err("Failed to parse bridge response: " + stdout)
      case Some(v) =>
        match DecodeResponse(v)
        case None => Err("Failed to parse bridge response: " + stdout)
        case Some(resp) => ResponseToResult(resp)
  }

  /**
   * A decoded response carries the `error` and `code` fields as given: a string is `Some`, an
   * absent field or element or `null` is `None`.
   */
  lemma DecodedOptionalFields(v: Json)
    requires DecodeResponse(v).Some?
    ensures v.JObj? || v.JArr?
    ensures v.JObj? ==> OptionalString(v, "error") == Some(DecodeResponse(v).value.error)
                        && OptionalString(v, "code") == Some(DecodeResponse(v).value.code)
    ensures v.JArr? ==> OptionalElement(v.items, 2) == Some(DecodeResponse(v).value.error)
                        && OptionalElement(v.items, 3) == Some(DecodeResponse(v).value.code)
  {
  }

  /** Every response that decodes is read by `ResponseToResult`, failures included. */
  lemma InterpretDecoded(bridge: ResolveBridge, stdout: string, v: Json)
    requires DecodeResponse(v).Some?
    ensures Interpret(bridge, Exited(stdout, Some(v))) == ResponseToResult(DecodeResponse(v).value)
  {
  }

  /** `success: true` with no `result` field is `Ok(null)`. */
  lemma MissingResultIsNull(stdout: string, bridge: ResolveBridge)
    ensures Interpret(bridge, Exited(stdout, Some(JObj(map["success" := JBool(true)])))) == Ok(JNull)
  {
  }

  /**
   * The sequence form: `[false, null, "boom"]` is a failure with the default code, and `[true]`
   * succeeds with a null result.
   */
  lemma SequenceFormResponse(stdout: string, bridge: ResolveBridge)
    ensures Interpret(bridge, Exited(stdout, Some(JArr([JBool(false), JNull, JStr("boom")]))))
            == Err("[" + DefaultErrorCode + "] " + "boom")
    ensures Interpret(bridge, Exited(stdout, Some(JArr([JBool(true)])))) == Ok(JNull)
    ensures Interpret(bridge, Exited(stdout, Some(JArr([JBool(true), JNull, JNull, JNull, JNull]))))
            == Err("Failed to parse bridge response: " + stdout)
  {
  }

  /** `success: false` with neither `error` nor `code` is reported with both defaults. */
  lemma FailureDefaults(stdout: string, bridge: ResolveBridge)
    ensures Interpret(bridge, Exited(stdout, Some(JObj(map["success" := JBool(false)]))))
            == Err("[" + DefaultErrorCode + "] " + DefaultErrorMessage)
  {
  }

  /** A response whose `success` is not a boolean is an error, whatever else it holds. */
  lemma NonBooleanSuccessRejected(stdout: string, bridge: ResolveBridge, v: Json)
    requires v.JObj? && "success" in v.fields && !v.fields["success"].JBool?
    ensures Interpret(bridge, Exited(stdout, Some(v))) == Err("Failed to parse bridge response: " + stdout)
  {
  }

  /** `execute`: one command, sent once, and the backend's answer interpreted. */
  method Execute(bridge: ResolveBridge, backend: Backend, op: string, params: Option<Json>) returns (r: Result<Json, string>)
    modifies backend
    ensures backend.sent == old(backend.sent) + [CommandJson(op, params)]
    ensures r == Interpret(bridge, backend.respond(bridge, old(backend.sent), CommandJson(op, params)))
  {
    var out := backend.Run(bridge, CommandJson(op, params));
    r := Interpret(bridge, out);
  }

  /**
   * The outcome of each command of `cmds` sent in order to a backend that has already received
   * `history`: command `i` is answered after `history` and the commands before it.
   */
  function Outcomes(bridge: ResolveBridge, respond: (ResolveBridge, seq<Json>, Json) -> ProcessOutput,
                    history: seq<Json>, cmds: seq<Json>): (r: seq<Result<Json, string>>)
    ensures |r| == |cmds|
    ensures forall i :: 0 <= i < |cmds| ==> r[i] == Interpret(bridge, respond(bridge, history + cmds[..i], cmds[i]))
  {
    seq(|cmds|, i requires 0 <= i < |cmds| => Interpret(bridge, respond(bridge, history + cmds[..i], cmds[i])))
  }

  /** The log after one more command of `cmds` has been sent. */
  lemma LogGrows<T>(history: seq<T>, cmds: seq<T>, i: nat)
    requires i < |cmds|
    ensures history + cmds[..i + 1] == (history + cmds[..i]) + [cmds[i]]
  {
    assert cmds[..i + 1] == cmds[..i] + [cmds[i]];
  }

  /** `execute_operation`: the params are always sent. */
  method ExecuteOperation(bridge: ResolveBridge, backend: Backend, op: string, params: Json) returns (r: Result<Json, string>)
    modifies backend
    ensures backend.sent == old(backend.sent) + [CommandJson(op, Some(params))]
    ensures r == Interpret(bridge, backend.respond(bridge, old(backend.sent), CommandJson(op, Some(params))))
  {
    r := Execute(bridge, backend, op, Some(params));
  }

  /**
   * `check_connection` and `get_context`: the command carries no params; the result is
   * deserialised by `decode` (the connection-info or context struct).
   */
  method Query<T>(bridge: ResolveBridge, backend: Backend, op: string, decode: Json -> Result<T, string>) returns (r: Result<T, string>)
    modifies backend
    ensures backend.sent == old(backend.sent) + [CommandJson(op, None)]
    ensures var out := Interpret(bridge, backend.respond(bridge, old(backend.sent), CommandJson(op, None)));
            r == if out.Err? then Err(out.error) else decode(out.value)
  {
    var out := Execute(bridge, backend, op, None);
    if out.Err? {
      return Err(out.error);
    }
    r := decode(out.value);
  }

  method CheckConnection<T>(bridge: ResolveBridge, backend: Backend, decode: Json -> Result<T, string>) returns (r: Result<T, string>)
    modifies backend
    ensures backend.sent == old(backend.sent) + [CommandJson("check_connection", None)]
    ensures var out := Interpret(bridge, backend.respond(bridge, old(backend.sent), CommandJson("check_connection", None)));
            r == if out.Err? then Err(out.error) else decode(out.value)
  {
    r := Query(bridge, backend, "check_connection", decode);
  }

  method GetContext<T>(bridge: ResolveBridge, backend: Backend, decode: Json -> Result<T, string>) returns (r: Result<T, string>)
    modifies backend
    ensures backend.sent == old(backend.sent) + [CommandJson("get_context", None)]
    ensures var out := Interpret(bridge, backend.respond(bridge, old(backend.sent), CommandJson("get_context", None)));
            r == if out.Err? then Err(out.error) else decode(out.value)
  {
    r := Query(bridge, backend, "get_context", decode);
  }

  /**
   * `check_python`: `outcome` is what `<python> --version` produced (its stdout and stderr), or
   * `None` when it could not be run. The version is stdout trimmed, or stderr trimmed when stdout
   * is blank.
   */
  function CheckPython(bridge: ResolveBridge, outcome: Option<(string, string)>): (r: Result<string, string>)
    ensures r.Err? <==> outcome.None?
    ensures r.Err? ==> r.error == "Python not found at " + bridge.pythonPath
    ensures r.Ok? ==> r.value != [] ==> !IsWhitespace(r.value[0]) && !IsWhitespace(r.value[|r.value| - 1])
    ensures r.Ok? && Trim(outcome.value.0) != "" ==> r.value == Trim(outcome.value.0)
    ensures r.Ok? && Trim(outcome.value.0) == "" ==> r.value == Trim(outcome.value.1)
  {
    match outcome
    case None => Err("Python not found at " + bridge.pythonPath)
    case Some((stdout, stderr)) =>
      var version := Trim(stdout);
      if version == [] then Ok(Trim(stderr)) else Ok(version)
  }

  /** A version printed on stdout, padded by whitespace, is reported as is, whatever stderr says. */
  lemma VersionOnStdout(bridge: ResolveBridge, lead: string, version: string, trail: string, stderr: string)
    requires AllWhitespace(lead) && AllWhitespace(trail)
    requires version != [] && !IsWhitespace(version[0]) && !IsWhitespace(version[|version| - 1])
    ensures CheckPython(bridge, Some((lead + version + trail, stderr))) == Ok(version)
  {
    TrimPadded(lead, version, trail);
  }

  /** A version printed only on stderr (as older interpreters do) is reported from there. */
  lemma VersionOnStderr(bridge: ResolveBridge, blank: string, lead: string, version: string, trail: string)
    requires AllWhitespace(blank) && AllWhitespace(lead) && AllWhitespace(trail)
    requires version != [] && !IsWhitespace(version[0]) && !IsWhitespace(version[|version| - 1])
    ensures CheckPython(bridge, Some((blank, lead + version + trail))) == Ok(version)
  {
    TrimPadded(lead, version, trail);
    TrimBlank(blank);
  }

  /** The bridge script's path relative to each directory searched. */
  const ScriptName := "python/resolve_bridge.py"

  /** `Path::join` of a relative path onto a directory. */
  function Join(dir: string, name: string): (r: string)
    ensures dir == "" ==> r == name
    ensures dir != "" && dir[|dir| - 1] == '/' ==> r == dir + name
    ensures dir != "" && dir[|dir| - 1] != '/' ==> r == dir + "/" + name
  {
    if dir == "" then name
    else if dir[|dir| - 1] == '/' then dir + name
    else dir + "/" + name
  }

  /**
   * The places `find_script_path` looks, in order: next to the executable (when its directory is
   * known), under `CARGO_MANIFEST_DIR` (when set), then relative to the working directory.
   */
  function ScriptCandidates(exeDir: Option<string>, manifestDir: Option<string>): (r: seq<string>)
    ensures |r| >= 1 && r[|r| - 1] == ScriptName
    ensures |r| == 1 + (if exeDir.Some? then 1 else 0) + (if manifestDir.Some? then 1 else 0)
    ensures exeDir.Some? ==> r[0] == Join(exeDir.value, ScriptName)
    ensures manifestDir.Some? ==> r[|r| - 2] == Join(manifestDir.value, ScriptName)
  {
    (if exeDir.Some? then [Join(exeDir.value, ScriptName)] else [])
    + (if manifestDir.Some? then [Join(manifestDir.value, ScriptName)] else [])
    + [ScriptName]
  }

  /** The first of `cands` that exists, or the last one when no earlier one does. */
  predicate FirstExisting(cands: seq<string>, isFile: string -> bool, path: string) {
    exists k :: 0 <= k < |cands| && path == cands[k]
                && (forall j :: 0 <= j < k ==> !isFile(cands[j]))
                && (isFile(path) || k == |cands| - 1)
  }

  /**
   * `find_script_path`: the first candidate that exists, or the bare relative name when none does
   * (`isFile` stands for the file-system check).
   */
  method FindScriptPath(exeDir: Option<string>, manifestDir: Option<string>, isFile: string -> bool) returns (path: string)
    ensures FirstExisting(ScriptCandidates(exeDir, manifestDir), isFile, path)
    ensures (forall c :: c in ScriptCandidates(exeDir, manifestDir) ==> !isFile(c)) ==> path == ScriptName
  {
    var cands := ScriptCandidates(exeDir, manifestDir);
    if exeDir.Some? {
      var p := Join(exeDir.value, ScriptName);
      if isFile(p) {
        assert cands[0] == p;
        return p;
      }
    }
    if manifestDir.Some? {
      var p := Join(manifestDir.value, ScriptName);
      if isFile(p) {
        assert cands[|cands| - 2] == p;
        return p;
      }
    }
    return ScriptName;
  }

  /**
   * `ResolveBridge::new`: the configured interpreter (or the first one that runs) and the script
   * found by `find_script_path`.
   */
  method NewBridge(config: Config.Config, runs: string -> bool, exeDir: Option<string>, manifestDir: Option<string>, isFile: string -> bool)
    returns (bridge: ResolveBridge)
    ensures config.resolve.pythonPath.Some? ==> bridge.pythonPath == config.resolve.pythonPath.value
    ensures config.resolve.pythonPath.None? ==> Config.FirstRunning(runs, bridge.pythonPath)
    ensures FirstExisting(ScriptCandidates(exeDir, manifestDir), isFile, bridge.scriptPath)
  {
    var python := Config.PythonPath(config, runs);
    var script := FindScriptPath(exeDir, manifestDir, isFile);
    bridge := ResolveBridge(python, script);
  }
}
