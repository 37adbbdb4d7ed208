/**
 * The error type of src/error.rs: one variant per failure the CLI reports, a human-readable
 * message (`Display`) and a stable machine-readable code for JSON output.
 */
module MagicErrors {
  import Text

  datatype MagicError =
    | ResolveNotRunning
    | NoProject
    | NoTimeline
    | TimelineNotFound(timeline: string)
    | ClipNotFound(track: int, index: int)
    | TrackNotFound(trackType: string, trackIndex: int)
    | MediaNotFound(media: string)
    | ImportFailed(importDetail: string)
    | RenderFailed(renderDetail: string)
    | InvalidProperty(propertyName: string)
    | InvalidValue(property: string, message: string)
    | PythonError(pythonDetail: string)
    | ApiError(apiDetail: string)
    | SchemaError(schemaDetail: string)
    | ConfigError(configDetail: string)
    | PythonNotFound(pythonPath: string)
    | UnsupportedOperation(operation: string)

  /** The position of the variant in the declaration, ignoring its payload. */
  function Ordinal(e: MagicError): (n: nat)
    ensures n < 17
  {
    match e
    case ResolveNotRunning => 0
    case NoProject => 1
    case NoTimeline => 2
    case TimelineNotFound(_) => 3
    case ClipNotFound(_, _) => 4
    case TrackNotFound(_, _) => 5
    case MediaNotFound(_) => 6
    case ImportFailed(_) => 7
    case RenderFailed(_) => 8
    case InvalidProperty(_) => 9
    case InvalidValue(_, _) => 10
    case PythonError(_) => 11
    case ApiError(_) => 12
    case SchemaError(_) => 13
    case ConfigError(_) => 14
    case PythonNotFound(_) => 15
    case UnsupportedOperation(_) => 16
  }

  /** `MagicError::code`: the error code reported in JSON output. */
  function Code(e: MagicError): (c: string)
    ensures c != ""
  {
    match e
    case ResolveNotRunning => "RESOLVE_NOT_RUNNING"
    case NoProject => "NO_PROJECT"
    case NoTimeline => "NO_TIMELINE"
    case TimelineNotFound(_) => "TIMELINE_NOT_FOUND"
    case ClipNotFound(_, _) => "CLIP_NOT_FOUND"
    case TrackNotFound(_, _) => "TRACK_NOT_FOUND"
    case MediaNotFound(_) => "MEDIA_NOT_FOUND"
    case ImportFailed(_) => "IMPORT_FAILED"
    case RenderFailed(_) => "RENDER_FAILED"
    case InvalidProperty(_) => "INVALID_PROPERTY"
    case InvalidValue(_, _) => "INVALID_VALUE"
    case PythonError(_) => "PYTHON_ERROR"
    case ApiError(_) => "API_ERROR"
    case SchemaError(_) => "SCHEMA_ERROR"
    case ConfigError(_) => "CONFIG_ERROR"
    case PythonNotFound(_) => "PYTHON_NOT_FOUND"
    case UnsupportedOperation(_) => "UNSUPPORTED_OPERATION"
  }

  /** The `Display` text of an error, with its payload substituted. */
  function Message(e: MagicError): (m: string)
    ensures m != ""
  {
    match e
    case ResolveNotRunning => "DaVinci Resolve is not running"
    case NoProject => "No project is currently open"
    case NoTimeline => "No timeline is active"
    case TimelineNotFound(name) => "Timeline not found: " + name
    case ClipNotFound(track, index) =>
      "Clip not found at track " + Text.IntToString(track) + ", index " + Text.IntToString(index)
    case TrackNotFound(trackType, index) =>
      "Track not found: " + trackType + " " + Text.IntToString(index)
    case MediaNotFound(name) => "Media not found in pool: " + name
    case ImportFailed(detail) => "Failed to import media: " + detail
    case RenderFailed(detail) => "Render failed: " + detail
    case InvalidProperty(name) => "Invalid property: " + name
    case InvalidValue(property, message) => "Invalid value for " + property + ": " + message
    case PythonError(detail) => "Python bridge error: " + detail
    case ApiError(detail) => "LLM API error: " + detail
    case SchemaError(detail) => "Plan validation failed: " + detail
    case ConfigError(detail) => "Config error: " + detail
    case PythonNotFound(path) => "Python not found at: " + path
    case UnsupportedOperation(op) => "Operation not supported: " + op
  }

  /**
   * Two errors have the same code exactly when they are the same variant: the code ignores the
   * payload, and no two variants share a code.
   */
  lemma CodeIdentifiesVariant(a: MagicError, b: MagicError)
    ensures Code(a) == Code(b) <==> Ordinal(a) == Ordinal(b)
  {
  }
}
