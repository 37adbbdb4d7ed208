/**
 * How the Rust side and the Python bridge fit together: the envelope Python prints is the one
 * src/resolve/bridge.rs decodes, the two operation tables hold the same names, the default error
 * code is shared, and what a command built on the Rust side becomes once a Python handler reads it.
 * The Python process's stdout is taken to parse back to the value it printed.
 */
module Interop {
  import opened Wrappers
  import opened JsonValue
  import Operations
  import OperationsOrder
  import MagicErrors
  import Bridge
  import Commands
  import PyBridge
  import PyHandlers

  /** A `success(result)` envelope reaches the Rust caller as `Ok`, with `{}` for a falsy result. */
  lemma SuccessEnvelopeIsOk(bridge: Bridge.ResolveBridge, stdout: string, result: Json)
    ensures Bridge.Interpret(bridge, Bridge.Exited(stdout, Some(PyBridge.Success(result))))
            == Ok(if Truthy(result) then result else EmptyObject)
  {
    var v := PyBridge.Success(result);
    assert Bridge.OptionalString(v, "error") == Some(None);
    assert Bridge.OptionalString(v, "code") == Some(None);
    assert Bridge.DecodeResponse(v).Some?;
  }

  /** An `error(message, code)` envelope reaches the Rust caller as `Err("[code] message")`. */
  lemma ErrorEnvelopeIsErr(bridge: Bridge.ResolveBridge, stdout: string, message: string, code: string)
    ensures Bridge.Interpret(bridge, Bridge.Exited(stdout, Some(PyBridge.Error(message, code))))
            == Err("[" + code + "] " + message)
  {
    var v := PyBridge.Error(message, code);
    assert Bridge.OptionalString(v, "error") == Some(Some(message));
    assert Bridge.OptionalString(v, "code") == Some(Some(code));
    assert Bridge.DecodeResponse(v) == Some(Bridge.BridgeResponse(false, JNull, Some(message), Some(code)));
  }

  /**
   * Python's default code, the Rust bridge's default code and the code of `MagicError::PythonError`
   * are one string, and `ResolveNotRunning` shows the message Python's connection check reports.
   */
  lemma SharedErrorTexts(detail: string)
    ensures PyBridge.DefaultCode == Bridge.DefaultErrorCode == MagicErrors.Code(MagicErrors.PythonError(detail))
    ensures MagicErrors.Message(MagicErrors.ResolveNotRunning) == PyBridge.ResolveNotRunningMessage
  {
  }

  /** The first six groups, Tracks among them, hold the same names on both sides. */
  lemma FirstGroupsAgree()
    ensures multiset(Operations.Core + Operations.Media + Operations.ClipProperties + Operations.Markers + Operations.Tracks
                     + Operations.Render)
            == multiset(Operations.Core + Operations.Media + Operations.ClipProperties + Operations.Markers + PyBridge.Tracks
                        + Operations.Render)
  {
    PyBridge.ReorderedGroupsAgree();
  }

  /** The next five groups, Text+ among them, hold the same names on both sides. */
  lemma SecondGroupsAgree()
    ensures multiset(Operations.Timeline + Operations.FusionAndCompositions + Operations.GeneratorsAndTitles + Operations.TextPlus
                     + Operations.AiProcessing)
            == multiset(Operations.Timeline + Operations.FusionAndCompositions + Operations.GeneratorsAndTitles + PyBridge.TextPlus
                        + Operations.AiProcessing)
  {
    PyBridge.ReorderedGroupsAgree();
  }

  /** The Rust registry and the keys of Python's `OPERATIONS` hold the same names, as often. */
  lemma RegistriesAgree()
    ensures multiset(Operations.All) == multiset(PyBridge.OperationNames)
  {
    FirstGroupsAgree();
    SecondGroupsAgree();
  }

  /** A name is registered on the Rust side exactly when Python's table has it. */
  lemma RegisteredOnBothSides(op: string)
    ensures op in Operations.All <==> op in PyBridge.OperationNames
  {
    RegistriesAgree();
    SameMembers(Operations.All, PyBridge.OperationNames, op);
  }

  /** Two sequences holding the same elements as often hold the same elements. */
  lemma SameMembers<T>(a: seq<T>, b: seq<T>, x: T)
    requires multiset(a) == multiset(b)
    ensures x in a <==> x in b
  {
    assert x in a <==> x in multiset(a);
    assert x in b <==> x in multiset(b);
  }

  /**
   * A command for a name the registry lacks is answered by Python with "Unknown operation", exit
   * status 1 and no handler run, and reaches the Rust caller as that error with Python's default code.
   */
  lemma UnregisteredOperationFails(bridge: Bridge.ResolveBridge, stdout: string, op: string, params: Option<Json>,
                                   handle: (string, Json) -> PyBridge.HandlerOutcome)
    requires op !in Operations.All
    ensures PyBridge.RunScript(Ok(Bridge.CommandJson(op, params)), handle)
            == PyBridge.Printed(PyBridge.Error("Unknown operation: " + op, PyBridge.DefaultCode), 1)
    ensures Bridge.Interpret(bridge, Bridge.Exited(stdout, Some(PyBridge.RunScript(Ok(Bridge.CommandJson(op, params)), handle).output)))
            == Err("[PYTHON_ERROR] Unknown operation: " + op)
  {
    RegisteredOnBothSides(op);
    UnknownToPython(bridge, stdout, op, params, handle);
  }

  /** The Python half of `UnregisteredOperationFails`, for a name missing from Python's table. */
  lemma UnknownToPython(bridge: Bridge.ResolveBridge, stdout: string, op: string, params: Option<Json>,
                        handle: (string, Json) -> PyBridge.HandlerOutcome)
    requires op !in PyBridge.OperationNames
    ensures PyBridge.RunScript(Ok(Bridge.CommandJson(op, params)), handle)
            == PyBridge.Printed(PyBridge.Error("Unknown operation: " + op, PyBridge.DefaultCode), 1)
    ensures Bridge.Interpret(bridge, Bridge.Exited(stdout, Some(PyBridge.RunScript(Ok(Bridge.CommandJson(op, params)), handle).output)))
            == Err("[PYTHON_ERROR] Unknown operation: " + op)
  {
    var command := Bridge.CommandJson(op, params);
    assert Get(command, "op") == Some(JStr(op));
    PyBridge.UnknownOpAnswered(command, handle);
    ErrorEnvelopeIsErr(bridge, stdout, "Unknown operation: " + op, PyBridge.DefaultCode);
    UnknownOperationText(op);
  }

  /** The text the Rust caller sees for an unknown operation. */
  lemma UnknownOperationText(op: string)
    ensures "[" + PyBridge.DefaultCode + "] " + ("Unknown operation: " + op) == "[PYTHON_ERROR] Unknown operation: " + op
  {
    var head := "[" + PyBridge.DefaultCode + "] ";
    assert head + "Unknown operation: " == "[PYTHON_ERROR] Unknown operation: ";
    assert head + ("Unknown operation: " + op) == (head + "Unknown operation: ") + op;
  }

  /**
   * Three of the operations the command line sends without either table registering them (the
   * clip thumbnail, grabbing all stills, creating a project): `UnregisteredOperationFails` applies
   * to each of them.
   */
  lemma CliOnlyOperationsUnknown()
    ensures "get_current_clip_thumbnail" !in Operations.All && "get_current_clip_thumbnail" !in PyBridge.OperationNames
    ensures "grab_all_stills" !in Operations.All && "grab_all_stills" !in PyBridge.OperationNames
    ensures "create_project" !in Operations.All && "create_project" !in PyBridge.OperationNames
  {
    OperationsOrder.ThumbnailUnregistered();
    OperationsOrder.GrabAllStillsUnregistered();
    OperationsOrder.CreateProjectUnregistered();
    RegisteredOnBothSides("get_current_clip_thumbnail");
    RegisteredOnBothSides("grab_all_stills");
    RegisteredOnBothSides("create_project");
  }

  /**
   * A batch step with no `params` is sent with `"params": null`, which Python hands to the handler
   * as `None` rather than `{}`; `add_marker` then raises at its first `params.get`, so the script
   * crashes instead of answering.
   */
  lemma BatchStepWithoutParamsCrashes(editor: PyHandlers.Editor, parseInt: string -> Option<int>,
                                      addMarker: (int, Json, Json, Json, Json) -> bool)
    ensures Commands.DecodeBatchOperation(JObj(map["op" := JStr("add_marker")])) == Some(Commands.BatchOperation("add_marker", JNull))
    ensures Commands.BatchCommands([Commands.BatchOperation("add_marker", JNull)]) == [Bridge.CommandJson("add_marker", Some(JNull))]
    ensures PyBridge.RunScript(Ok(Bridge.CommandJson("add_marker", Some(JNull))),
                               (op: string, p: Json) => PyHandlers.AddMarker(p, editor, parseInt, addMarker))
            == PyBridge.Crashed
  {
    assert Operations.Markers[0] == "add_marker";
    assert "add_marker" in Operations.All;
    RegisteredOnBothSides("add_marker");
    var command := Bridge.CommandJson("add_marker", Some(JNull));
    assert Get(command, "op") == Some(JStr("add_marker"));
    assert GetOrDefault(command, "params", EmptyObject) == JNull;
  }

  /**
   * `marker add` on the command line never sends `relative` unless asked to, so Python reads a
   * frame before the timeline's start as an offset from it; with `--relative` every frame is one.
   */
  lemma CliMarkerFrame(frame: int, color: string, relative: bool, name: Option<string>, note: Option<string>,
                       duration: Option<int>, startFrame: Option<int>, parseInt: string -> Option<int>,
                       addMarker: (int, Json, Json, Json, Json) -> bool)
    ensures var r := PyHandlers.AddMarker(JObj(Commands.MarkerAddParams(frame, color, relative, name, note, duration)),
                                          PyHandlers.TimelineOpen(startFrame), parseInt, addMarker);
            var start := startFrame.GetOr(0);
            PyHandlers.Succeeded(r) ==>
              r.response == PyBridge.Success(JObj(map["frame" := JInt(if relative || frame < start then start + frame else frame)]))
  {
    var params := JObj(Commands.MarkerAddParams(frame, color, relative, name, note, duration));
    assert GetOrDefault(params, "frame", JInt(0)) == JInt(frame);
    assert GetOrDefault(params, "relative", JNull) == if relative then JBool(true) else JNull;
  }
}
