/**
 * The local logic of the handlers in python/resolve_bridge.py: how they read their params, which
 * checks answer with an error, how a frame is normalised, which clips a selector picks, and how
 * the per-clip loops tally what they did. Every call into the editing application is a parameter:
 * `Editor` is what the handler learns before it edits (an open project, an active timeline and its
 * start frame), a `Clip` is a timeline item with the answers of its getters, a track lookup is
 * `GetItemListInTrack`, and each editing call is a function reporting whether it succeeded.
 */
module PyHandlers {
  import opened Wrappers
  import opened JsonValue
  import opened Text
  import PyBridge

  type HandlerOutcome = PyBridge.HandlerOutcome

  /**
   * What the handler finds: no application object at all (`get_resolve()` gave `None`, so the first
   * API call raises), or what `GetCurrentProject()` and `GetCurrentTimeline()` gave, and
   * `GetStartFrame()` when both did.
   */
  datatype Editor = NotRunning | NoProjectOpen | NoActiveTimeline | TimelineOpen(startFrame: Option<int>)

  /** A handler that returned a `success(...)` envelope. */
  predicate Succeeded(r: HandlerOutcome) {
    r.Returned? && Get(r.response, "success") == Some(JBool(true))
  }

  const NoProjectResponse := PyBridge.Error("No project is open", "NO_PROJECT")
  const NoTimelineResponse := PyBridge.Error("No timeline is active", "NO_TIMELINE")
  const FrameNotIntegerResponse := PyBridge.Error("frame must be an integer", "INVALID_PARAM")

  /** What the project and timeline checks every timeline handler starts with do, when they fail. */
  function TimelineCheck(editor: Editor): (r: Option<HandlerOutcome>)
    ensures r.None? <==> editor.TimelineOpen?
    ensures editor == NotRunning ==> r == Some(PyBridge.Raised)
    ensures editor == NoProjectOpen ==> r == Some(PyBridge.Returned(NoProjectResponse))
    ensures editor == NoActiveTimeline ==> r == Some(PyBridge.Returned(NoTimelineResponse))
  {
    match editor
    case NotRunning => Some(PyBridge.Raised)
    case NoProjectOpen => Some(PyBridge.Returned(NoProjectResponse))
    case NoActiveTimeline => Some(PyBridge.Returned(NoTimelineResponse))
    case TimelineOpen(_) => None
  }

  /**
   * Python's `int(v)` on a decoded JSON value, `None` when it raises `TypeError` or `ValueError`:
   * a bool counts as 0 or 1, and `parseInt` stands for Python's rules for reading a string.
   */
  function PyInt(v: Json, parseInt: string -> Option<int>): (r: Option<int>)
    ensures v.JInt? ==> r == Some(v.i)
    ensures v.JBool? ==> r == Some(if v.b then 1 else 0)
    ensures v.JStr? ==> r == parseInt(v.s)
    ensures v.JNull? || v.JArr? || v.JObj? ==> r.None?
  {
    match v
    case JInt(i) => Some(i)
    case JBool(b) => Some(if b then 1 else 0)
    case JStr(s) => parseInt(s)
    case _ => None
  }

  /**
   * The timeline frame a marker handler uses, with `start = GetStartFrame() or 0`: a frame flagged
   * `relative` (the value `True` itself) is an offset from the start; with no flag at all, a frame
   * before the start is read as an offset too; any other flag leaves the frame as given.
   */
  function NormalizeFrame(frame: int, startFrame: Option<int>, relative: Json): (r: int)
    ensures relative == JBool(true) ==> r == startFrame.GetOr(0) + frame
    ensures relative != JBool(true) && relative != JNull ==> r == frame
    ensures relative == JNull && frame >= startFrame.GetOr(0) ==> r == frame
    ensures relative == JNull && frame < startFrame.GetOr(0) ==> r == startFrame.GetOr(0) + frame
    ensures relative == JNull && frame >= 0 ==> r >= startFrame.GetOr(0)
  {
    var start := startFrame.GetOr(0);
    if relative == JBool(true) then start + frame
    else if relative == JNull && frame < start then start + frame
    else frame
  }

  /**
   * Without a flag, normalising twice is normalising once, for every frame that is not negative:
   * the first pass already lands at or after the start.
   */
  lemma NormalizeUnflaggedIdempotent(frame: int, startFrame: Option<int>)
    requires frame >= 0
    ensures NormalizeFrame(NormalizeFrame(frame, startFrame, JNull), startFrame, JNull)
            == NormalizeFrame(frame, startFrame, JNull)
  {
    var once := NormalizeFrame(frame, startFrame, JNull);
    assert once >= startFrame.GetOr(0);
  }

  /** `add_marker` and `add_clip_marker` name an unnamed marker `" "`. */
  function MarkerName(name: Json): (r: Json)
    ensures Truthy(r)
    ensures Truthy(name) ==> r == name
  {
    if Truthy(name) then name else JStr(" ")
  }

  /**
   * `op_add_marker`: `addMarker(frame, color, name, note, duration)` is `timeline.AddMarker`. Params
   * that are not an object raise at the first `params.get`.
   */
  function AddMarker(params: Json, editor: Editor, parseInt: string -> Option<int>,
                     addMarker: (int, Json, Json, Json, Json) -> bool): (r: HandlerOutcome)
    ensures !params.JObj? ==> r == PyBridge.Raised
    ensures params.JObj? && !editor.TimelineOpen? ==> r == TimelineCheck(editor).value
    ensures params.JObj? && editor.TimelineOpen? && PyInt(GetOrDefault(params, "frame", JInt(0)), parseInt).None? ==>
              r == PyBridge.Returned(FrameNotIntegerResponse)
    ensures Succeeded(r) ==>
              && params.JObj? && editor.TimelineOpen?
              && var frame := NormalizeFrame(PyInt(GetOrDefault(params, "frame", JInt(0)), parseInt).value,
                                             editor.startFrame, GetOrDefault(params, "relative", JNull));
              && r.response == PyBridge.Success(JObj(map["frame" := JInt(frame)]))
              && addMarker(frame, GetOrDefault(params, "color", JStr("Blue")),
                           MarkerName(GetOrDefault(params, "name", JStr(""))),
                           GetOrDefault(params, "note", JStr("")), GetOrDefault(params, "duration", JInt(1)))
    ensures params.JObj? && editor.TimelineOpen? && PyInt(GetOrDefault(params, "frame", JInt(0)), parseInt).Some? ==>
              var frame := NormalizeFrame(PyInt(GetOrDefault(params, "frame", JInt(0)), parseInt).value,
                                          editor.startFrame, GetOrDefault(params, "relative", JNull));
              r == PyBridge.Returned(
                     if addMarker(frame, GetOrDefault(params, "color", JStr("Blue")),
                                  MarkerName(GetOrDefault(params, "name", JStr(""))),
                                  GetOrDefault(params, "note", JStr("")), GetOrDefault(params, "duration", JInt(1)))
                     then PyBridge.Success(JObj(map["frame" := JInt(frame)]))
                     else PyBridge.Error("Failed to add marker", PyBridge.DefaultCode))
  {
    if !params.JObj? then PyBridge.Raised
    else if !editor.TimelineOpen? then TimelineCheck(editor).value
    else
      var frame := PyInt(GetOrDefault(params, "frame", JInt(0)), parseInt);
      if frame.None? then PyBridge.Returned(FrameNotIntegerResponse)
      else
        var f := NormalizeFrame(frame.value, editor.startFrame, GetOrDefault(params, "relative", JNull));
        if addMarker(f, GetOrDefault(params, "color", JStr("Blue")), MarkerName(GetOrDefault(params, "name", JStr(""))),
                     GetOrDefault(params, "note", JStr("")), GetOrDefault(params, "duration", JInt(1)))
        then PyBridge.Returned(PyBridge.Success(JObj(map["frame" := JInt(f)])))
        else PyBridge.Returned(PyBridge.Error("Failed to add marker", PyBridge.DefaultCode))
  }

  /**
   * `op_delete_marker`: a frame (any value but `None`) is normalised like `add_marker` does and
   * deleted with `deleteAt`; only without one is a truthy colour deleted with `deleteByColor`.
   */
  function DeleteMarker(params: Json, editor: Editor, parseInt: string -> Option<int>,
                        deleteAt: int -> bool, deleteByColor: Json -> bool): (r: HandlerOutcome)
    ensures !params.JObj? ==> r == PyBridge.Raised
    ensures params.JObj? && !editor.TimelineOpen? ==> r == TimelineCheck(editor).value
    ensures params.JObj? && editor.TimelineOpen? && GetOrDefault(params, "frame", JNull) != JNull ==>
              r == (match PyInt(GetOrDefault(params, "frame", JNull), parseInt)
                    case None => PyBridge.Returned(FrameNotIntegerResponse)
                    case Some(frame) =>
                      var f := NormalizeFrame(frame, editor.startFrame, GetOrDefault(params, "relative", JNull));
                      PyBridge.Returned(PyBridge.Success(JObj(map["deleted" := JInt(if deleteAt(f) then 1 else 0)]))))
    ensures params.JObj? && editor.TimelineOpen? && GetOrDefault(params, "frame", JNull) == JNull ==>
              r == PyBridge.Returned(PyBridge.Success(JObj(map["deleted" := JInt(
                     if Truthy(GetOrDefault(params, "color", JNull)) && deleteByColor(GetOrDefault(params, "color", JNull))
                     then 1 else 0)])))
  {
    if !params.JObj? then PyBridge.Raised
    else if !editor.TimelineOpen? then TimelineCheck(editor).value
    else
      var frame := GetOrDefault(params, "frame", JNull);
      var color := GetOrDefault(params, "color", JNull);
      if frame != JNull then
        match PyInt(frame, parseInt)
        case None => PyBridge.Returned(FrameNotIntegerResponse)
        case Some(i) =>
          var f := NormalizeFrame(i, editor.startFrame, GetOrDefault(params, "relative", JNull));
          PyBridge.Returned(PyBridge.Success(JObj(map["deleted" := JInt(if deleteAt(f) then 1 else 0)])))
      else
        var deleted := if Truthy(color) && deleteByColor(color) then 1 else 0;
        PyBridge.Returned(PyBridge.Success(JObj(map["deleted" := JInt(deleted)])))
  }

  /**
   * The two marker handlers agree on the frame: the params that added a marker at frame `f`
   * delete at `f`, whatever colour they also name.
   */
  lemma DeleteFindsAddedFrame(params: Json, editor: Editor, parseInt: string -> Option<int>,
                              addMarker: (int, Json, Json, Json, Json) -> bool,
                              deleteAt: int -> bool, deleteByColor: Json -> bool, f: int)
    requires params.JObj? && "frame" in params.fields && params.fields["frame"] != JNull
    requires AddMarker(params, editor, parseInt, addMarker) == PyBridge.Returned(PyBridge.Success(JObj(map["frame" := JInt(f)])))
    ensures DeleteMarker(params, editor, parseInt, deleteAt, deleteByColor)
            == PyBridge.Returned(PyBridge.Success(JObj(map["deleted" := JInt(if deleteAt(f) then 1 else 0)])))
  {
    var success := PyBridge.Success(JObj(map["frame" := JInt(f)]));
    assert success.fields["success"] == JBool(true);
    assert editor.TimelineOpen?;
    var frame := PyInt(params.fields["frame"], parseInt);
    assert frame.Some?;
    var g := NormalizeFrame(frame.value, editor.startFrame, GetOrDefault(params, "relative", JNull));
    assert success == PyBridge.Success(JObj(map["frame" := JInt(g)]));
    assert success.fields["result"] == JObj(map["frame" := JInt(f)]);
    assert JObj(map["frame" := JInt(g)]).fields["frame"] == JInt(g);
    assert f == g;
  }

  // ---------------------------------------------------------------------------------------------
  // Clip selection

  /** A timeline item, with what `GetName()`, `GetStart()` and `GetDuration()` return for it. */
  datatype Clip = Clip(id: nat, name: string, start: Option<int>, duration: Option<int>)

  /** `GetItemListInTrack(track_type, track)`; `None` and an empty list are both the empty sequence. */
  type TrackLookup = (Json, Json) -> seq<Clip>

  /**
   * An index from a decoded selector as Python compares and subscripts it: an int, or a bool as 0
   * or 1; any other value makes `0 <= idx` raise (`None`).
   */
  function IndexValue(v: Json): (r: Option<int>)
    ensures r.Some? <==> v.JInt? || v.JBool?
    ensures v.JInt? ==> r == Some(v.i)
  {
    match v
    case JInt(i) => Some(i)
    case JBool(b) => Some(if b then 1 else 0)
    case _ => None
  }

  /**
   * `items and 0 <= idx < len(items)` followed by `[items[idx]]`: at most one clip, and only for an
   * index in range. With no items the comparison is never evaluated, so nothing raises; otherwise
   * an index that is not a number raises (`None`).
   */
  function ClipAt(items: seq<Clip>, idx: Json): (r: Option<seq<Clip>>)
    ensures items == [] ==> r == Some([])
    ensures items != [] ==> (r.None? <==> IndexValue(idx).None?)
    ensures r.Some? ==> |r.value| <= 1
    ensures r.Some? && r.value != [] ==>
              IndexValue(idx).Some? && 0 <= IndexValue(idx).value < |items| && r.value == [items[IndexValue(idx).value]]
    ensures items != [] && IndexValue(idx).Some? && 0 <= IndexValue(idx).value < |items| ==> r == Some([items[IndexValue(idx).value]])
  {
    if items == [] then Some([])
    else
      match IndexValue(idx)
      case None => None
      case Some(i) => if 0 <= i < |items| then Some([items[i]]) else Some([])
  }

  /** `[item for item in items if item.GetName() == name]`. */
  function ClipsNamed(items: seq<Clip>, name: Json): (r: seq<Clip>)
    ensures forall c :: c in r ==> c in items && name == JStr(c.name)
    ensures forall c :: c in items && name == JStr(c.name) ==> c in r
    ensures |r| <= |items|
  {
    if items == [] then []
    else
      var rest := ClipsNamed(items[..|items| - 1], name);
      var last := items[|items| - 1];
      assert items == items[..|items| - 1] + [last];
      if name == JStr(last.name) then rest + [last] else rest
  }

  /** `[item for item in items if item != source]`. */
  function ClipsOtherThan(items: seq<Clip>, source: Clip): (r: seq<Clip>)
    ensures forall c :: c in r <==> c in items && c != source
    ensures |r| <= |items|
  {
    if items == [] then []
    else
      var rest := ClipsOtherThan(items[..|items| - 1], source);
      var last := items[|items| - 1];
      assert items == items[..|items| - 1] + [last];
      if last != source then rest + [last] else rest
  }

  /**
   * What `for idx in value` walks over: a list's entries, a string's characters. A dict yields its
   * keys, which are strings, so a non-empty dict raises on its first step whatever their order;
   * any other value is not iterable (`None`).
   */
  function Iteration(value: Json): (r: Option<seq<Json>>)
    ensures value.JArr? ==> r == Some(value.items)
    ensures r.Some? && !value.JArr? ==> forall k :: 0 <= k < |r.value| ==> IndexValue(r.value[k]).None?
  {
    match value
    case JArr(items) => Some(items)
    case JStr(s) => Some(seq(|s|, k requires 0 <= k < |s| => JStr([s[k]])))
    case JObj(fields) => if fields == map[] then Some([]) else None
    case _ => None
  }

  /** Whether the loop over `indices` appends `items[idx]`: in range, and not the excluded clip. */
  predicate Keeps(items: seq<Clip>, idx: int, excluded: Option<Clip>) {
    0 <= idx < |items| && Some(items[idx]) != excluded
  }

  /**
   * The clips the `indices` loop appends, in the order of `indices`; `None` when an entry that is
   * not a number makes the comparison raise.
   */
  function IndexedClips(items: seq<Clip>, indices: seq<Json>, excluded: Option<Clip>): (r: Option<seq<Clip>>)
    ensures r.Some? ==> forall c :: c in r.value ==> c in items && Some(c) != excluded
    ensures r.Some? ==> |r.value| <= |indices|
    decreases |indices|
  {
    if indices == [] then Some([])
    else
      match IndexedClips(items, indices[..|indices| - 1], excluded)
      case None => None
      case Some(prefix) =>
        match IndexValue(indices[|indices| - 1])
        case None => None
        case Some(i) => if Keeps(items, i, excluded) then Some(prefix + [items[i]]) else Some(prefix)
  }

  /** With every index a number in range and nothing excluded, the loop keeps them all, in order. */
  lemma {:induction false} IndexedClipsInOrder(items: seq<Clip>, indices: seq<Json>)
    requires forall k :: 0 <= k < |indices| ==> indices[k].JInt? && 0 <= indices[k].i < |items|
    ensures IndexedClips(items, indices, None).Some?
    ensures |IndexedClips(items, indices, None).value| == |indices|
    ensures forall k :: 0 <= k < |indices| ==> IndexedClips(items, indices, None).value[k] == items[indices[k].i]
    decreases |indices|
  {
    if indices != [] {
      var front := indices[..|indices| - 1];
      IndexedClipsInOrder(items, front);
      var prefix := IndexedClips(items, front, None).value;
      var last := indices[|indices| - 1];
      assert Keeps(items, last.i, None);
      assert IndexedClips(items, indices, None).value == prefix + [items[last.i]];
    }
  }

  /** The positions of `indices` whose entry the loop appends, in increasing order. */
  function KeptPositions(items: seq<Clip>, indices: seq<Json>, excluded: Option<Clip>): (ks: seq<nat>)
    requires forall k :: 0 <= k < |indices| ==> IndexValue(indices[k]).Some?
    ensures forall j :: 0 <= j < |ks| ==> ks[j] < |indices| && Keeps(items, IndexValue(indices[ks[j]]).value, excluded)
    ensures forall j, j' :: 0 <= j < j' < |ks| ==> ks[j] < ks[j']
    ensures forall k :: 0 <= k < |indices| && Keeps(items, IndexValue(indices[k]).value, excluded) ==> k in ks
    decreases |indices|
  {
    if indices == [] then []
    else
      var n := |indices| - 1;
      var front := indices[..n];
      assert forall k :: 0 <= k < n ==> front[k] == indices[k];
      var ks := KeptPositions(items, front, excluded);
      if Keeps(items, IndexValue(indices[n]).value, excluded) then ks + [n] else ks
  }

  /**
   * When every entry is a number, the loop appends exactly the entries in range that are not the
   * excluded clip, in the order of `indices`; the others are passed over.
   */
  lemma {:induction false} IndexedClipsKeepsInOrder(items: seq<Clip>, indices: seq<Json>, excluded: Option<Clip>)
    requires forall k :: 0 <= k < |indices| ==> IndexValue(indices[k]).Some?
    ensures IndexedClips(items, indices, excluded).Some?
    ensures var clips := IndexedClips(items, indices, excluded).value;
            var ks := KeptPositions(items, indices, excluded);
            |clips| == |ks| && forall j :: 0 <= j < |ks| ==> clips[j] == items[IndexValue(indices[ks[j]]).value]
    decreases |indices|
  {
    if indices != [] {
      var n := |indices| - 1;
      var front := indices[..n];
      assert forall k :: 0 <= k < n ==> front[k] == indices[k];
      IndexedClipsKeepsInOrder(items, front, excluded);
    }
  }

  /** The `indices` loop itself: it stops at the first entry that raises. */
  method CollectIndexed(items: seq<Clip>, indices: seq<Json>, excluded: Option<Clip>) returns (r: Option<seq<Clip>>)
    ensures r == IndexedClips(items, indices, excluded)
  {
    var clips: seq<Clip> := [];
    var k := 0;
    while k < |indices|
      invariant 0 <= k <= |indices|
      invariant IndexedClips(items, indices[..k], excluded) == Some(clips)
    {
      assert indices[..k + 1][..k] == indices[..k];
      var idx := IndexValue(indices[k]);
      if idx.None? {
        assert IndexedClips(items, indices[..k + 1], excluded).None?;
        IndexedClipsRaises(items, indices, excluded, k + 1);
        return None;
      }
      if 0 <= idx.value < |items| && Some(items[idx.value]) != excluded {
        clips := clips + [items[idx.value]];
      }
      k := k + 1;
    }
    assert indices[..k] == indices;
    return Some(clips);
  }

  /** Once an entry raises, the whole loop raises. */
  lemma {:induction false} IndexedClipsRaises(items: seq<Clip>, indices: seq<Json>, excluded: Option<Clip>, k: nat)
    requires k <= |indices|
    requires IndexedClips(items, indices[..k], excluded).None?
    ensures IndexedClips(items, indices, excluded).None?
    decreases |indices| - k
  {
    if k < |indices| {
      assert indices[..k + 1][..k] == indices[..k];
      IndexedClipsRaises(items, indices, excluded, k + 1);
    } else {
      assert indices[..k] == indices;
    }
  }

  /**
   * The selection of `op_set_clip_property` on the selector's track: `all`, else `index`, else
   * `name`, else nothing. A selector that is not an object raises.
   */
  function PropertyTargets(selector: Json, lookup: TrackLookup): (r: Option<seq<Clip>>)
    ensures !selector.JObj? ==> r.None?
    ensures r.Some? ==> forall c :: c in r.value ==> c in lookup(JStr("video"), GetOrDefault(selector, "track", JInt(1)))
    ensures selector.JObj? && Truthy(GetOrDefault(selector, "all", JNull)) ==>
              r == Some(lookup(JStr("video"), GetOrDefault(selector, "track", JInt(1))))
    ensures selector.JObj? && !Truthy(GetOrDefault(selector, "all", JNull)) && "index" in selector.fields ==>
              r == ClipAt(lookup(JStr("video"), GetOrDefault(selector, "track", JInt(1))), selector.fields["index"])
    ensures selector.JObj? && !Truthy(GetOrDefault(selector, "all", JNull)) && "index" !in selector.fields && "name" in selector.fields ==>
              r == Some(ClipsNamed(lookup(JStr("video"), GetOrDefault(selector, "track", JInt(1))), selector.fields["name"]))
    ensures selector.JObj? && !Truthy(GetOrDefault(selector, "all", JNull)) && "index" !in selector.fields && "name" !in selector.fields ==>
              r == Some([])
  {
    if !selector.JObj? then None
    else
      var items := lookup(JStr("video"), GetOrDefault(selector, "track", JInt(1)));
      if Truthy(GetOrDefault(selector, "all", JNull)) then Some(items)
      else if "index" in selector.fields then ClipAt(items, selector.fields["index"])
      else if "name" in selector.fields then Some(ClipsNamed(items, selector.fields["name"]))
      else Some([])
  }

  /**
   * The selection of `op_create_fusion_clip`: `all`, else `indices` (the loop), else `index`; an
   * empty track selects nothing.
   */
  function FusionTargets(selector: Json, lookup: TrackLookup): (r: Option<seq<Clip>>)
    ensures !selector.JObj? ==> r.None?
    ensures r.Some? ==> forall c :: c in r.value ==> c in lookup(JStr("video"), GetOrDefault(selector, "track", JInt(1)))
    ensures selector.JObj? && Truthy(GetOrDefault(selector, "all", JNull)) ==>
              r == Some(lookup(JStr("video"), GetOrDefault(selector, "track", JInt(1))))
    ensures selector.JObj? && !Truthy(GetOrDefault(selector, "all", JNull)) && "indices" in selector.fields
            && lookup(JStr("video"), GetOrDefault(selector, "track", JInt(1))) != [] && selector.fields["indices"].JArr? ==>
              r == IndexedClips(lookup(JStr("video"), GetOrDefault(selector, "track", JInt(1))), selector.fields["indices"].items, None)
    ensures selector.JObj? && !Truthy(GetOrDefault(selector, "all", JNull)) && "indices" in selector.fields
            && lookup(JStr("video"), GetOrDefault(selector, "track", JInt(1))) != [] ==>
              r == match Iteration(selector.fields["indices"])
                   case None => None
                   case Some(indices) => IndexedClips(lookup(JStr("video"), GetOrDefault(selector, "track", JInt(1))), indices, None)
    ensures selector.JObj? && !Truthy(GetOrDefault(selector, "all", JNull)) && "indices" in selector.fields
            && lookup(JStr("video"), GetOrDefault(selector, "track", JInt(1))) == []
            ==> r == Some([])
    ensures selector.JObj? && !Truthy(GetOrDefault(selector, "all", JNull)) && "indices" !in selector.fields && "index" in selector.fields ==>
              r == ClipAt(lookup(JStr("video"), GetOrDefault(selector, "track", JInt(1))), selector.fields["index"])
    ensures selector.JObj? && !Truthy(GetOrDefault(selector, "all", JNull)) && "indices" !in selector.fields && "index" !in selector.fields ==>
              r == Some([])
  {
    if !selector.JObj? then None
    else
      var items := lookup(JStr("video"), GetOrDefault(selector, "track", JInt(1)));
      if Truthy(GetOrDefault(selector, "all", JNull)) then Some(items)
      else if "indices" in selector.fields then
        if items == [] then Some([])
        else
          match Iteration(selector.fields["indices"])
          case None => None
          case Some(indices) => IndexedClips(items, indices, None)
      else if "index" in selector.fields then ClipAt(items, selector.fields["index"])
      else Some([])
  }

  /**
   * `op_create_fusion_clip`: `createFusionClip` is `timeline.CreateFusionClip` with the name of the
   * item it made, `None` when it fails.
   */
  function CreateFusionClip(params: Json, editor: Editor, lookup: TrackLookup,
                            createFusionClip: seq<Clip> -> Option<string>): (r: HandlerOutcome)
    ensures !params.JObj? ==> r == PyBridge.Raised
    ensures params.JObj? && !editor.TimelineOpen? ==> r == TimelineCheck(editor).value
    ensures params.JObj? && editor.TimelineOpen? && FusionTargets(GetOrDefault(params, "selector", EmptyObject), lookup) == Some([]) ==>
              r == PyBridge.Returned(PyBridge.Error("No clips selected", PyBridge.DefaultCode))
    ensures Succeeded(r) ==>
              && params.JObj?
              && var clips := FusionTargets(GetOrDefault(params, "selector", EmptyObject), lookup);
              && clips.Some? && clips.value != [] && createFusionClip(clips.value).Some?
              && r.response == PyBridge.Success(JObj(map["timeline_item" := JStr(createFusionClip(clips.value).value)]))
    ensures params.JObj? && editor.TimelineOpen? ==>
              var clips := FusionTargets(GetOrDefault(params, "selector", EmptyObject), lookup);
              && (clips.None? ==> r == PyBridge.Raised)
              && (clips.Some? && clips.value != [] ==>
                    r == PyBridge.Returned(match createFusionClip(clips.value)
                                           case Some(name) => PyBridge.Success(JObj(map["timeline_item" := JStr(name)]))
                                           case None => PyBridge.Error("Failed to create Fusion clip", PyBridge.DefaultCode)))
  {
    if !params.JObj? then PyBridge.Raised
    else
      var selector := GetOrDefault(params, "selector", EmptyObject);
      if !editor.TimelineOpen? then TimelineCheck(editor).value
      else
        match FusionTargets(selector, lookup)
        case None => PyBridge.Raised
        case Some(clips) =>
          if clips == [] then PyBridge.Returned(PyBridge.Error("No clips selected", PyBridge.DefaultCode))
          else
            match createFusionClip(clips)
            case Some(name) => PyBridge.Returned(PyBridge.Success(JObj(map["timeline_item" := JStr(name)])))
            case None => PyBridge.Returned(PyBridge.Error("Failed to create Fusion clip", PyBridge.DefaultCode))
  }

  // ---------------------------------------------------------------------------------------------
  // copy_grades

  /**
   * The source clip of `op_copy_grades` as the handler picks it: `None` when it raises, `Some(None)`
   * for "Source clip not found". Only `idx >= len(items)` is rejected, so a negative index reaches
   * `items[idx]`, which counts from the end (or raises below `-len(items)`).
   */
  function SourceClipAsWritten(items: seq<Clip>, idx: Json): (r: Option<Option<Clip>>)
    ensures r == Some(None) <==> items == [] || (IndexValue(idx).Some? && IndexValue(idx).value >= |items|)
    ensures r.Some? && r.value.Some? ==> r.value.value in items
  {
    if items == [] then Some(None)
    else
      match IndexValue(idx)
      case None => None
      case Some(i) =>
        if i >= |items| then Some(None)
        else if i >= 0 then Some(Some(items[i]))
        else if i >= -|items| then Some(Some(items[|items| + i]))
        else None
  }

  /** With two clips, index -1 picks the second clip as the source instead of reporting it missing. */
  lemma NegativeSourceIndexWraps(a: Clip, b: Clip)
    ensures SourceClipAsWritten([a, b], JInt(-1)) == Some(Some(b))
    ensures SourceClip([a, b], JInt(-1)) == Some(None)
  {
  }

  /**
   * The source clip as the other selectors of the bridge treat an index: only `0 <= idx < len`
   * selects, every other number is "Source clip not found".
   */
  function SourceClip(items: seq<Clip>, idx: Json): (r: Option<Option<Clip>>)
    ensures items == [] ==> r == Some(None)
    ensures items != [] ==> (r.None? <==> IndexValue(idx).None?)
    ensures r.Some? && r.value.Some? <==> items != [] && IndexValue(idx).Some? && 0 <= IndexValue(idx).value < |items|
    ensures r.Some? && r.value.Some? ==> r.value.value == items[IndexValue(idx).value]
  {
    if items == [] then Some(None)
    else
      match IndexValue(idx)
      case None => None
      case Some(i) => if 0 <= i < |items| then Some(Some(items[i])) else Some(None)
  }

  /** For an index in range the two agree; they differ only on negative indices. */
  lemma SourceClipAgreesInRange(items: seq<Clip>, idx: Json)
    requires IndexValue(idx).Some? ==> IndexValue(idx).value >= 0
    ensures SourceClip(items, idx) == SourceClipAsWritten(items, idx)
  {
  }

  /** The targets of `op_copy_grades`: `all` but the source, else the `indices` loop without it. */
  function GradeTargets(selector: Json, source: Clip, lookup: TrackLookup): (r: Option<seq<Clip>>)
    ensures !selector.JObj? ==> r.None?
    ensures r.Some? ==> forall c :: c in r.value ==> c != source && c in lookup(JStr("video"), GetOrDefault(selector, "track", JInt(1)))
    ensures selector.JObj? && Truthy(GetOrDefault(selector, "all", JNull)) ==>
              r == Some(ClipsOtherThan(lookup(JStr("video"), GetOrDefault(selector, "track", JInt(1))), source))
    ensures selector.JObj? && !Truthy(GetOrDefault(selector, "all", JNull)) && "indices" in selector.fields
            && lookup(JStr("video"), GetOrDefault(selector, "track", JInt(1))) != [] ==>
              r == match Iteration(selector.fields["indices"])
                   case None => None
                   case Some(indices) => IndexedClips(lookup(JStr("video"), GetOrDefault(selector, "track", JInt(1))), indices, Some(source))
    ensures selector.JObj? && !Truthy(GetOrDefault(selector, "all", JNull)) && "indices" in selector.fields
            && lookup(JStr("video"), GetOrDefault(selector, "track", JInt(1))) == []
            ==> r == Some([])
    ensures selector.JObj? && !Truthy(GetOrDefault(selector, "all", JNull)) && "indices" !in selector.fields ==> r == Some([])
  {
    if !selector.JObj? then None
    else
      var items := lookup(JStr("video"), GetOrDefault(selector, "track", JInt(1)));
      if Truthy(GetOrDefault(selector, "all", JNull)) then Some(ClipsOtherThan(items, source))
      else if "indices" in selector.fields then
        if items == [] then Some([])
        else
          match Iteration(selector.fields["indices"])
          case None => None
          case Some(indices) => IndexedClips(items, indices, Some(source))
      else Some([])
  }

  /**
   * `op_copy_grades` once the source clip is picked (`from`, as `SourceClipAsWritten` gives it):
   * the targets, then `copyGrades(source, targets)`, which is `source_clip.CopyGrades`.
   */
  function GradeCopy(from: Option<Option<Clip>>, targetSelector: Json, lookup: TrackLookup,
                     copyGrades: (Clip, seq<Clip>) -> bool): (r: HandlerOutcome)
    ensures from.None? ==> r == PyBridge.Raised
    ensures from == Some(None) ==> r == PyBridge.Returned(PyBridge.Error("Source clip not found", PyBridge.DefaultCode))
    ensures from.Some? && from.value.Some? ==>
              var targets := GradeTargets(targetSelector, from.value.value, lookup);
              && (targets.None? ==> r == PyBridge.Raised)
              && (targets == Some([]) ==> r == PyBridge.Returned(PyBridge.Error("No target clips found", PyBridge.DefaultCode)))
              && (targets.Some? && targets.value != [] ==>
                    r == PyBridge.Returned(if copyGrades(from.value.value, targets.value)
                                           then PyBridge.Success(JObj(map["copied_to" := JInt(|targets.value|)]))
                                           else PyBridge.Error("Failed to copy grades", PyBridge.DefaultCode)))
    ensures Succeeded(r) ==>
              && from.Some? && from.value.Some?
              && var targets := GradeTargets(targetSelector, from.value.value, lookup);
              && targets.Some? && targets.value != [] && from.value.value !in targets.value
              && copyGrades(from.value.value, targets.value)
              && r.response == PyBridge.Success(JObj(map["copied_to" := JInt(|targets.value|)]))
  {
    match from
    case None => PyBridge.Raised
    case Some(None) => PyBridge.Returned(PyBridge.Error("Source clip not found", PyBridge.DefaultCode))
    case Some(Some(clip)) =>
      match GradeTargets(targetSelector, clip, lookup)
      case None => PyBridge.Raised
      case Some(targets) =>
        if targets == [] then PyBridge.Returned(PyBridge.Error("No target clips found", PyBridge.DefaultCode))
        else if copyGrades(clip, targets) then PyBridge.Returned(PyBridge.Success(JObj(map["copied_to" := JInt(|targets|)])))
        else PyBridge.Returned(PyBridge.Error("Failed to copy grades", PyBridge.DefaultCode))
  }

  /** `op_copy_grades` as written: the source is picked by `SourceClipAsWritten`. */
  function CopyGrades(params: Json, editor: Editor, lookup: TrackLookup, copyGrades: (Clip, seq<Clip>) -> bool)
    : (r: HandlerOutcome)
    ensures !params.JObj? ==> r == PyBridge.Raised
    ensures params.JObj? && !editor.TimelineOpen? ==> r == TimelineCheck(editor).value
    ensures params.JObj? && editor.TimelineOpen? && !GetOrDefault(params, "source", EmptyObject).JObj? ==> r == PyBridge.Raised
    ensures params.JObj? && editor.TimelineOpen? && GetOrDefault(params, "source", EmptyObject).JObj? ==>
              var source := GetOrDefault(params, "source", EmptyObject);
              r == GradeCopy(SourceClipAsWritten(lookup(JStr("video"), GetOrDefault(source, "track", JInt(1))),
                                                 GetOrDefault(source, "index", JInt(0))),
                             GetOrDefault(params, "targets", EmptyObject), lookup, copyGrades)
  {
    if !params.JObj? then PyBridge.Raised
    else
      var source := GetOrDefault(params, "source", EmptyObject);
      if !editor.TimelineOpen? then TimelineCheck(editor).value
      else if !source.JObj? then PyBridge.Raised
      else
        GradeCopy(SourceClipAsWritten(lookup(JStr("video"), GetOrDefault(source, "track", JInt(1))), GetOrDefault(source, "index", JInt(0))),
                  GetOrDefault(params, "targets", EmptyObject), lookup, copyGrades)
  }

  /**
   * `op_copy_grades` with the source picked by `SourceClip`, as the other selectors treat an
   * index: a negative index is "Source clip not found".
   */
  function CopyGradesCorrected(params: Json, editor: Editor, lookup: TrackLookup, copyGrades: (Clip, seq<Clip>) -> bool)
    : (r: HandlerOutcome)
    ensures !params.JObj? ==> r == PyBridge.Raised
    ensures params.JObj? && !editor.TimelineOpen? ==> r == TimelineCheck(editor).value
    ensures params.JObj? && editor.TimelineOpen? && !GetOrDefault(params, "source", EmptyObject).JObj? ==> r == PyBridge.Raised
    ensures params.JObj? && editor.TimelineOpen? && GetOrDefault(params, "source", EmptyObject).JObj? ==>
              var source := GetOrDefault(params, "source", EmptyObject);
              r == GradeCopy(SourceClip(lookup(JStr("video"), GetOrDefault(source, "track", JInt(1))),
                                        GetOrDefault(source, "index", JInt(0))),
                             GetOrDefault(params, "targets", EmptyObject), lookup, copyGrades)
    ensures Succeeded(r) ==>
              && params.JObj? && editor.TimelineOpen?
              && var source := GetOrDefault(params, "source", EmptyObject);
              && source.JObj?
              && var items := lookup(JStr("video"), GetOrDefault(source, "track", JInt(1)));
              && var idx := IndexValue(GetOrDefault(source, "index", JInt(0)));
              && idx.Some? && 0 <= idx.value < |items|
  {
    if !params.JObj? then PyBridge.Raised
    else
      var source := GetOrDefault(params, "source", EmptyObject);
      if !editor.TimelineOpen? then TimelineCheck(editor).value
      else if !source.JObj? then PyBridge.Raised
      else
        GradeCopy(SourceClip(lookup(JStr("video"), GetOrDefault(source, "track", JInt(1))), GetOrDefault(source, "index", JInt(0))),
                  GetOrDefault(params, "targets", EmptyObject), lookup, copyGrades)
  }

  /**
   * Index -1 on a two-clip track: as written, the grade of the second clip is copied to the first;
   * corrected, the source is not found.
   */
  lemma CopyGradesNegativeIndex(a: Clip, b: Clip, startFrame: Option<int>, lookup: TrackLookup,
                                copyGrades: (Clip, seq<Clip>) -> bool)
    requires a != b && lookup(JStr("video"), JInt(1)) == [a, b]
    ensures var params := JObj(map["source" := JObj(map["index" := JInt(-1)]), "targets" := JObj(map["all" := JBool(true)])]);
            && CopyGrades(params, TimelineOpen(startFrame), lookup, copyGrades)
               == PyBridge.Returned(if copyGrades(b, [a]) then PyBridge.Success(JObj(map["copied_to" := JInt(1)]))
                                    else PyBridge.Error("Failed to copy grades", PyBridge.DefaultCode))
            && CopyGradesCorrected(params, TimelineOpen(startFrame), lookup, copyGrades)
               == PyBridge.Returned(PyBridge.Error("Source clip not found", PyBridge.DefaultCode))
  {
    var targets := JObj(map["all" := JBool(true)]);
    assert GetOrDefault(targets, "track", JInt(1)) == JInt(1);
    NegativeSourceIndexWraps(a, b);
    assert ClipsOtherThan([a, b], b) == [a] by {
      assert [a, b][0] == a && [a, b][1] == b;
    }
  }

  // ---------------------------------------------------------------------------------------------
  // add_clip_marker

  /** The frame a clip marker goes to: with `timeline_frame`, relative to the clip's start (`or 0`). */
  function ClipMarkerFrame(clip: Clip, frame: int, timelineFrame: bool): (r: int)
    ensures !timelineFrame ==> r == frame
    ensures timelineFrame ==> r + clip.start.GetOr(0) == frame
  {
    if timelineFrame then frame - clip.start.GetOr(0) else frame
  }

  /** A clip is skipped when its duration is known and the marker frame falls outside `[0, duration)`. */
  predicate SkipsClip(clip: Clip, markerFrame: int) {
    clip.duration.Some? && (markerFrame < 0 || markerFrame >= clip.duration.value)
  }

  /** The final `added`, `failed` and `skipped` counters of the loop. */
  datatype Tally = Tally(added: nat, failed: nat, skipped: nat)

  /** The counters after the loop has seen `clips`; `addMarker(clip, frame)` is `clip.AddMarker`. */
  function TallyOf(clips: seq<Clip>, frame: int, timelineFrame: bool, addMarker: (Clip, int) -> bool): (t: Tally)
    decreases |clips|
  {
    if clips == [] then Tally(0, 0, 0)
    else
      var t := TallyOf(clips[..|clips| - 1], frame, timelineFrame, addMarker);
      var clip := clips[|clips| - 1];
      var markerFrame := ClipMarkerFrame(clip, frame, timelineFrame);
      if SkipsClip(clip, markerFrame) then t.(skipped := t.skipped + 1)
      else if addMarker(clip, markerFrame) then t.(added := t.added + 1)
      else t.(failed := t.failed + 1)
  }

  /** How many of `clips` are skipped, counted on their own. */
  function SkippedCount(clips: seq<Clip>, frame: int, timelineFrame: bool): (n: nat)
    ensures n <= |clips|
    decreases |clips|
  {
    if clips == [] then 0
    else
      var clip := clips[|clips| - 1];
      SkippedCount(clips[..|clips| - 1], frame, timelineFrame)
      + (if SkipsClip(clip, ClipMarkerFrame(clip, frame, timelineFrame)) then 1 else 0)
  }

  /**
   * Every selected clip is counted exactly once, and the skipped ones are exactly those whose
   * marker frame lies outside their known duration.
   */
  lemma {:induction false} TallyAccountsForEveryClip(clips: seq<Clip>, frame: int, timelineFrame: bool, addMarker: (Clip, int) -> bool)
    ensures var t := TallyOf(clips, frame, timelineFrame, addMarker);
            t.added + t.failed + t.skipped == |clips| && t.skipped == SkippedCount(clips, frame, timelineFrame)
    decreases |clips|
  {
    if clips != [] {
      TallyAccountsForEveryClip(clips[..|clips| - 1], frame, timelineFrame, addMarker);
    }
  }

  /** The loop of `op_add_clip_marker`. */
  method TallyMarkers(clips: seq<Clip>, frame: int, timelineFrame: bool, addMarker: (Clip, int) -> bool)
    returns (added: nat, failed: nat, skipped: nat)
    ensures Tally(added, failed, skipped) == TallyOf(clips, frame, timelineFrame, addMarker)
    ensures added + failed + skipped == |clips|
  {
    added, failed, skipped := 0, 0, 0;
    var k := 0;
    while k < |clips|
      invariant 0 <= k <= |clips|
      invariant Tally(added, failed, skipped) == TallyOf(clips[..k], frame, timelineFrame, addMarker)
    {
      assert clips[..k + 1][..k] == clips[..k];
      var clip := clips[k];
      var markerFrame := frame;
      if timelineFrame {
        markerFrame := frame - clip.start.GetOr(0);
      }
      if clip.duration.Some? && (markerFrame < 0 || markerFrame >= clip.duration.value) {
        skipped := skipped + 1;
      } else if addMarker(clip, markerFrame) {
        added := added + 1;
      } else {
        failed := failed + 1;
      }
      k := k + 1;
    }
    assert clips[..k] == clips;
    TallyAccountsForEveryClip(clips, frame, timelineFrame, addMarker);
  }

  /**
   * The clips `op_add_clip_marker` marks, from a non-empty track: `all`, else `index`, else `name`.
   * The index is always compared here, so one that is not a number raises.
   */
  function ClipMarkerTargets(selector: Json, items: seq<Clip>): (r: Option<seq<Clip>>)
    requires selector.JObj? && items != []
    ensures r.Some? ==> forall c :: c in r.value ==> c in items
    ensures Truthy(GetOrDefault(selector, "all", JNull)) ==> r == Some(items)
    ensures !Truthy(GetOrDefault(selector, "all", JNull)) && "index" in selector.fields ==> r == ClipAt(items, selector.fields["index"])
    ensures !Truthy(GetOrDefault(selector, "all", JNull)) && "index" !in selector.fields && "name" in selector.fields ==>
              r == Some(ClipsNamed(items, selector.fields["name"]))
    ensures !Truthy(GetOrDefault(selector, "all", JNull)) && "index" !in selector.fields && "name" !in selector.fields ==>
              r == Some([])
  {
    if Truthy(GetOrDefault(selector, "all", JNull)) then Some(items)
    else if "index" in selector.fields then ClipAt(items, selector.fields["index"])
    else if "name" in selector.fields then Some(ClipsNamed(items, selector.fields["name"]))
    else Some([])
  }

  /**
   * `clip.AddMarker(frame, color, name, note, duration)` with the marker's colour (default
   * `"Blue"`), name (an unnamed marker is `" "`), note and duration (default 1) taken from `params`.
   */
  function MarkerWith(addMarker: (Clip, int, Json, Json, Json, Json) -> bool, params: Json): (Clip, int) -> bool {
    (c: Clip, f: int) => addMarker(c, f, GetOrDefault(params, "color", JStr("Blue")), MarkerName(GetOrDefault(params, "name", JStr(""))),
                                   GetOrDefault(params, "note", JStr("")), GetOrDefault(params, "duration", JInt(1)))
  }

  /**
   * `op_add_clip_marker`; `addMarker(clip, frame, color, name, note, duration)` is `clip.AddMarker`.
   * It answers `{added, failed, skipped}` whenever the selection is not empty.
   */
  function AddClipMarker(params: Json, editor: Editor, parseInt: string -> Option<int>, lookup: TrackLookup,
                         addMarker: (Clip, int, Json, Json, Json, Json) -> bool): (r: HandlerOutcome)
    ensures !params.JObj? ==> r == PyBridge.Raised
    ensures params.JObj? && !editor.TimelineOpen? ==> r == TimelineCheck(editor).value
    ensures params.JObj? && editor.TimelineOpen? && PyInt(GetOrDefault(params, "frame", JInt(0)), parseInt).None? ==>
              r == PyBridge.Returned(FrameNotIntegerResponse)
    ensures Succeeded(r) ==>
              && params.JObj? && editor.TimelineOpen?
              && var selector := GetOrDefault(params, "selector", EmptyObject);
              && selector.JObj?
              && var items := lookup(GetOrDefault(selector, "track_type", JStr("video")), GetOrDefault(selector, "track", JInt(1)));
              && items != []
              && var clips := ClipMarkerTargets(selector, items);
              && clips.Some? && clips.value != []
              && var frame := PyInt(GetOrDefault(params, "frame", JInt(0)), parseInt).value;
              && var timelineFrame := Truthy(GetOrDefault(params, "timeline_frame", JBool(false)));
              && var t := TallyOf(clips.value, frame, timelineFrame, MarkerWith(addMarker, params));
              && t.added + t.failed + t.skipped == |clips.value|
              && t.skipped == SkippedCount(clips.value, frame, timelineFrame)
              && r.response == PyBridge.Success(TallyJson(t))
    ensures params.JObj? && editor.TimelineOpen? && PyInt(GetOrDefault(params, "frame", JInt(0)), parseInt).Some? ==>
              var selector := GetOrDefault(params, "selector", EmptyObject);
              && (!selector.JObj? ==> r == PyBridge.Raised)
              && (selector.JObj? ==>
                    var items := lookup(GetOrDefault(selector, "track_type", JStr("video")), GetOrDefault(selector, "track", JInt(1)));
                    && (items == [] ==> r == PyBridge.Returned(PyBridge.Error("No clips found", PyBridge.DefaultCode)))
                    && (items != [] ==>
                          var clips := ClipMarkerTargets(selector, items);
                          && (clips.None? ==> r == PyBridge.Raised)
                          && (clips == Some([]) ==> r == PyBridge.Returned(PyBridge.Error("No clips selected", PyBridge.DefaultCode)))
                          && (clips.Some? && clips.value != [] ==>
                                r == PyBridge.Returned(PyBridge.Success(TallyJson(
                                       TallyOf(clips.value, PyInt(GetOrDefault(params, "frame", JInt(0)), parseInt).value,
                                               Truthy(GetOrDefault(params, "timeline_frame", JBool(false))),
                                               MarkerWith(addMarker, params))))))))
  {
    if !params.JObj? then PyBridge.Raised
    else
      var selector := GetOrDefault(params, "selector", EmptyObject);
      var timelineFrame := Truthy(GetOrDefault(params, "timeline_frame", JBool(false)));
      if !editor.TimelineOpen? then TimelineCheck(editor).value
      else
        match PyInt(GetOrDefault(params, "frame", JInt(0)), parseInt)
        case None => PyBridge.Returned(FrameNotIntegerResponse)
        case Some(frame) =>
          if !selector.JObj? then PyBridge.Raised
          else
            var items := lookup(GetOrDefault(selector, "track_type", JStr("video")), GetOrDefault(selector, "track", JInt(1)));
            if items == [] then PyBridge.Returned(PyBridge.Error("No clips found", PyBridge.DefaultCode))
            else
              match ClipMarkerTargets(selector, items)
              case None => PyBridge.Raised
              case Some(clips) =>
                if clips == [] then PyBridge.Returned(PyBridge.Error("No clips selected", PyBridge.DefaultCode))
                else
                  var t := TallyOf(clips, frame, timelineFrame, MarkerWith(addMarker, params));
                  TallyAccountsForEveryClip(clips, frame, timelineFrame, MarkerWith(addMarker, params));
                  PyBridge.Returned(PyBridge.Success(TallyJson(t)))
  }

  /** `{"added": .., "failed": .., "skipped": ..}`. */
  function TallyJson(t: Tally): (r: Json)
    ensures r.JObj? && r.fields.Keys == {"added", "failed", "skipped"}
    ensures Get(r, "added") == Some(JInt(t.added)) && Get(r, "failed") == Some(JInt(t.failed))
            && Get(r, "skipped") == Some(JInt(t.skipped))
  {
    JObj(map["added" := JInt(t.added), "failed" := JInt(t.failed), "skipped" := JInt(t.skipped)])
  }

  // ---------------------------------------------------------------------------------------------
  // import_media

  /** `os.path.basename`: what follows the last `/`, or the whole path when there is none. */
  function Basename(path: string): (r: string)
    ensures |r| <= |path| && r == path[|path| - |r|..]
    ensures forall k :: 0 <= k < |r| ==> r[k] != '/'
  {
    match RFind(path, "/")
    case None =>
      assert forall k :: 0 <= k < |path| ==> path[k] != '/' by {
        forall k | 0 <= k < |path| ensures path[k] != '/' {
          assert !OccursAt(path, "/", k);
          assert path[k..k + 1] == [path[k]];
        }
      }
      path
    case Some(i) =>
      var r := path[i + 1..];
      assert forall k :: 0 <= k < |r| ==> r[k] != '/' by {
        forall k | 0 <= k < |r| ensures r[k] != '/' {
          assert !OccursAt(path, "/", i + 1 + k);
          assert path[i + 1 + k..i + 2 + k] == [r[k]];
        }
      }
      r
  }

  /** The name after a directory is the basename of the joined path. */
  lemma BasenameOfJoin(dir: string, name: string)
    requires forall k :: 0 <= k < |name| ==> name[k] != '/'
    ensures Basename(dir + "/" + name) == name
  {
    var path := dir + "/" + name;
    assert OccursAt(path, "/", |dir|) by {
      assert path[|dir|..|dir| + 1] == "/";
    }
    forall j | |dir| < j
      ensures !OccursAt(path, "/", j)
    {
      assert j < |path| ==> path[j] == name[j - |dir| - 1];
      assert j + 1 <= |path| ==> path[j..j + 1] == [path[j]];
    }
    assert RFind(path, "/") == Some(|dir|);
    assert path[|dir| + 1..] == name;
  }

  /**
   * The `imported` and `failed` lists of `op_import_media`: a path that exists and that
   * `ImportMedia([path])` accepts is imported under its basename; every other path fails as given.
   */
  function ImportOutcome(paths: seq<string>, exists_: string -> bool, imports: string -> bool)
    : (r: (seq<string>, seq<string>))
    ensures |r.0| + |r.1| == |paths|
    decreases |paths|
  {
    if paths == [] then ([], [])
    else
      var r := ImportOutcome(paths[..|paths| - 1], exists_, imports);
      var path := paths[|paths| - 1];
      if exists_(path) && imports(path) then (r.0 + [Basename(path)], r.1) else (r.0, r.1 + [path])
  }

  /** A path fails exactly when it is missing or refused; the failures keep their order. */
  lemma {:induction false} FailedPathsAreRejected(paths: seq<string>, exists_: string -> bool, imports: string -> bool)
    ensures var failed := ImportOutcome(paths, exists_, imports).1;
            forall p :: p in failed <==> p in paths && !(exists_(p) && imports(p))
    decreases |paths|
  {
    if paths != [] {
      var front := paths[..|paths| - 1];
      FailedPathsAreRejected(front, exists_, imports);
      assert paths == front + [paths[|paths| - 1]];
    }
  }

  /** The loop of `op_import_media`. */
  method ImportAll(paths: seq<string>, exists_: string -> bool, imports: string -> bool)
    returns (imported: seq<string>, failed: seq<string>)
    ensures (imported, failed) == ImportOutcome(paths, exists_, imports)
    ensures |imported| + |failed| == |paths|
  {
    imported, failed := [], [];
    var k := 0;
    while k < |paths|
      invariant 0 <= k <= |paths|
      invariant (imported, failed) == ImportOutcome(paths[..k], exists_, imports)
    {
      assert paths[..k + 1][..k] == paths[..k];
      var path := paths[k];
      if exists_(path) {
        if imports(path) {
          imported := imported + [Basename(path)];
        } else {
          failed := failed + [path];
        }
      } else {
        failed := failed + [path];
      }
      k := k + 1;
    }
    assert paths[..k] == paths;
  }

  /** The paths the loop walks: a list of strings, or the characters of a string. */
  function PathList(paths: Json): (r: Option<seq<string>>)
    ensures paths.JArr? && (forall k :: 0 <= k < |paths.items| ==> paths.items[k].JStr?) ==>
              r == Some(seq(|paths.items|, k requires 0 <= k < |paths.items| => paths.items[k].s))
    ensures paths.JStr? ==> r == Some(seq(|paths.s|, k requires 0 <= k < |paths.s| => [paths.s[k]]))
    ensures r.Some? <==> paths.JStr? || (paths.JArr? && forall k :: 0 <= k < |paths.items| ==> paths.items[k].JStr?)
  {
    match paths
    case JArr(items) =>
      if forall k :: 0 <= k < |items| ==> items[k].JStr? then Some(seq(|items|, k requires 0 <= k < |items| => items[k].s))
      else None
    case JStr(s) => Some(seq(|s|, k requires 0 <= k < |s| => [s[k]]))
    case _ => None
  }

  /**
   * `op_import_media`: the path check comes before the project check, and no timeline is needed;
   * `exists_` is `os.path.exists`, `imports` the verdict of `ImportMedia([path])`.
   */
  function ImportMedia(params: Json, editor: Editor, exists_: string -> bool, imports: string -> bool): (r: HandlerOutcome)
    ensures !params.JObj? ==> r == PyBridge.Raised
    ensures params.JObj? && !Truthy(GetOrDefault(params, "paths", JArr([]))) ==>
              r == PyBridge.Returned(PyBridge.Error("No paths provided", "INVALID_VALUE"))
    ensures params.JObj? && Truthy(GetOrDefault(params, "paths", JArr([]))) && editor == NotRunning ==> r == PyBridge.Raised
    ensures params.JObj? && Truthy(GetOrDefault(params, "paths", JArr([]))) && editor == NoProjectOpen ==>
              r == PyBridge.Returned(NoProjectResponse)
    ensures Succeeded(r) ==>
              && params.JObj? && editor != NotRunning && editor != NoProjectOpen
              && var paths := PathList(GetOrDefault(params, "paths", JArr([])));
              && paths.Some? && paths.value != []
              && var outcome := ImportOutcome(paths.value, exists_, imports);
              && r.response == PyBridge.Success(JObj(map["imported" := StrArray(outcome.0), "failed" := StrArray(outcome.1)]))
    ensures params.JObj? && Truthy(GetOrDefault(params, "paths", JArr([]))) && editor != NotRunning && editor != NoProjectOpen ==>
              r == match PathList(GetOrDefault(params, "paths", JArr([])))
                   case None => PyBridge.Raised
                   case Some(list) =>
                     var outcome := ImportOutcome(list, exists_, imports);
                     PyBridge.Returned(PyBridge.Success(JObj(map["imported" := StrArray(outcome.0), "failed" := StrArray(outcome.1)])))
  {
    if !params.JObj? then PyBridge.Raised
    else
      var paths := GetOrDefault(params, "paths", JArr([]));
      if !Truthy(paths) then PyBridge.Returned(PyBridge.Error("No paths provided", "INVALID_VALUE"))
      else if editor == NotRunning then PyBridge.Raised
      else if editor == NoProjectOpen then PyBridge.Returned(NoProjectResponse)
      else
        match PathList(paths)
        case None => PyBridge.Raised
        case Some(list) =>
          var outcome := ImportOutcome(list, exists_, imports);
          PyBridge.Returned(PyBridge.Success(JObj(map["imported" := StrArray(outcome.0), "failed" := StrArray(outcome.1)])))
  }

  // ---------------------------------------------------------------------------------------------
  // export_timeline

  /** The keys of `export_map` and what they map to. */
  const ExportTypes: map<string, string> := map["aaf" := "AAF", "xml" := "FinalCutProXML", "edl" := "EDL", "fcpxml" := "FCPXML"]

  /**
   * `export_map.get(format_type.lower(), "FinalCutProXML")`; a format that is not a string has no
   * `lower` and raises (`None`).
   */
  function ExportType(format: Json): (r: Option<string>)
    ensures r.Some? <==> format.JStr?
    ensures r.Some? ==> r.value in ExportTypes.Values
    ensures format.JStr? && AsciiLower(format.s) !in ExportTypes ==> r == Some("FinalCutProXML")
  {
    if !format.JStr? then None
    else
      var key := AsciiLower(format.s);
      assert ExportTypes["xml"] == "FinalCutProXML";
      if key in ExportTypes then Some(ExportTypes[key]) else Some("FinalCutProXML")
  }

  lemma {:induction false} AsciiLowerIdempotent(s: string)
    ensures AsciiLower(AsciiLower(s)) == AsciiLower(s)
  {
    assert forall k :: 0 <= k < |s| ==> AsciiLowerChar(AsciiLowerChar(s[k])) == AsciiLowerChar(s[k]);
  }

  /**
   * Case does not matter, the four formats reach their own export types, and the default format
   * `"xml"` is Final Cut Pro XML.
   */
  lemma ExportTypeIgnoresCase(s: string)
    ensures ExportType(JStr(s)) == ExportType(JStr(AsciiLower(s)))
    ensures ExportType(JStr("AAF")) == Some("AAF") && ExportType(JStr("EDL")) == Some("EDL")
    ensures ExportType(JStr("FCPXML")) == Some("FCPXML") && ExportType(JStr("xml")) == Some("FinalCutProXML")
  {
    AsciiLowerIdempotent(s);
    assert AsciiLower("AAF") == "aaf";
    assert AsciiLower("EDL") == "edl";
    assert AsciiLower("FCPXML") == "fcpxml";
    assert AsciiLower("xml") == "xml";
  }
}
