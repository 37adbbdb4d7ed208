/**
 * `record_marker`, the bookkeeping inside `op_detect_beats` of python/resolve_bridge.py. For each
 * clip the handler collects at most one marker per clip-relative frame: a blue one for a beat, a
 * red one for a downbeat, a downbeat winning over a beat at the same frame. The counters for
 * beats and downbeats run over all clips of the call. The analysis that produces the frames is not
 * part of this model.
 */
module BeatMarkers {

  const Red := "Red"
  const Blue := "Blue"

  /** The dictionary stored for a frame: `{"color": .., "name": .., "note": ..}`. */
  datatype Marker = Marker(color: string, name: string, note: string)

  /** The frames of `markers` whose marker has colour `color`. */
  function FramesOf(markers: map<int, Marker>, color: string): (r: set<int>)
    ensures forall f :: f in r <==> f in markers && markers[f].color == color
  {
    set f | f in markers && markers[f].color == color
  }

  /** Storing `m` at `frame` moves that frame into the set of its own colour only. */
  lemma FramesOfUpdate(markers: map<int, Marker>, frame: int, m: Marker, color: string)
    ensures FramesOf(markers[frame := m], color)
            == if m.color == color then FramesOf(markers, color) + {frame} else FramesOf(markers, color) - {frame}
  {
  }

  /** How many frames of `color` there are once `m` is stored at `frame`. */
  lemma StoreCount(markers: map<int, Marker>, frame: int, m: Marker, color: string)
    ensures |FramesOf(markers[frame := m], color)|
            == |FramesOf(markers, color)| + (if m.color == color then 1 else 0)
               - (if frame in markers && markers[frame].color == color then 1 else 0)
  {
    FramesOfUpdate(markers, frame, m, color);
  }

  /** When every marker is blue or red, the two colours split the frames between them. */
  lemma {:induction false} ColoursPartitionFrames(markers: map<int, Marker>)
    requires forall f :: f in markers ==> markers[f].color == Red || markers[f].color == Blue
    ensures |FramesOf(markers, Blue)| + |FramesOf(markers, Red)| == |markers|
  {
    var blue, red := FramesOf(markers, Blue), FramesOf(markers, Red);
    forall f | f in markers.Keys
      ensures f in blue + red
    {
      assert markers[f].color == Red || markers[f].color == Blue;
    }
    assert blue + red == markers.Keys;
    assert blue * red == {};
    assert |blue + red| == |blue| + |red| - |blue * red|;
  }

  /**
   * Whether `record_marker` stores a marker of `color` at `frame`: the frame is new, or holds a
   * marker of another colour that is not red.
   */
  predicate Stores(markers: map<int, Marker>, frame: int, color: string) {
    frame !in markers || (markers[frame].color != color && markers[frame].color != Red)
  }

  /** The state `record_marker` works on, across the clips of one `op_detect_beats` call. */
  class BeatRecorder {
    /** `frame_markers` of the clip being analysed. */
    var frameMarkers: map<int, Marker>
    /** `markers_added["beats"]` and `markers_added["downbeats"]`. */
    var beats: int
    var downbeats: int
    /** The two counters as they were when the current clip started. */
    ghost var beatsAtClipStart: int
    ghost var downbeatsAtClipStart: int

    /**
     * Only beat and downbeat markers are stored, and the counters have grown, over the current
     * clip, by exactly the number of blue and of red markers it holds.
     */
    ghost predicate Valid()
      reads this
    {
      && (forall f :: f in frameMarkers ==> frameMarkers[f].color == Red || frameMarkers[f].color == Blue)
      && beatsAtClipStart >= 0 && downbeatsAtClipStart >= 0
      && beats == beatsAtClipStart + |FramesOf(frameMarkers, Blue)|
      && downbeats == downbeatsAtClipStart + |FramesOf(frameMarkers, Red)|
    }

    /** `markers_added = {"beats": 0, "downbeats": 0}`, before the first clip. */
    constructor ()
      ensures Valid()
      ensures frameMarkers == map[] && beats == 0 && downbeats == 0
    {
      frameMarkers := map[];
      beats, downbeats := 0, 0;
      beatsAtClipStart, downbeatsAtClipStart := 0, 0;
    }

    /** `frame_markers = {}` at the start of each clip; the counters carry on. */
    method StartClip()
      requires Valid()
      modifies this
      ensures Valid()
      ensures frameMarkers == map[] && beats == old(beats) && downbeats == old(downbeats)
    {
      frameMarkers := map[];
      beatsAtClipStart, downbeatsAtClipStart := beats, downbeats;
    }

    /**
     * `record_marker(frame_markers, counters, clip_frame, color, name, note)`, called with red for
     * a downbeat and blue for a beat. The same colour again changes nothing, a blue marker never
     * replaces a red one, and a red one replacing a blue one moves one count from beats to
     * downbeats.
     */
    method RecordMarker(clipFrame: int, color: string, name: string, note: string)
      requires Valid()
      requires color == Red || color == Blue
      modifies this
      ensures Valid()
      ensures Stores(old(frameMarkers), clipFrame, color) ==> frameMarkers == old(frameMarkers)[clipFrame := Marker(color, name, note)]
      ensures !Stores(old(frameMarkers), clipFrame, color) ==>
                frameMarkers == old(frameMarkers) && beats == old(beats) && downbeats == old(downbeats)
      ensures clipFrame in old(frameMarkers) && old(frameMarkers)[clipFrame].color == Blue && color == Red ==>
                beats == old(beats) - 1 && downbeats == old(downbeats) + 1
      ensures clipFrame !in old(frameMarkers) ==>
                if color == Red then beats == old(beats) && downbeats == old(downbeats) + 1
                else beats == old(beats) + 1 && downbeats == old(downbeats)
      ensures beatsAtClipStart == old(beatsAtClipStart) && downbeatsAtClipStart == old(downbeatsAtClipStart)
    {
      if clipFrame in frameMarkers {
        var existing := frameMarkers[clipFrame];
        if existing.color == color {
          return;
        }
        if existing.color == Red && color != Red {
          return;
        }
        if existing.color == Blue && color == Red {
          assert clipFrame in FramesOf(frameMarkers, Blue);
          beats := if beats - 1 > 0 then beats - 1 else 0;
        }
      }
      if color == Red {
        downbeats := downbeats + 1;
      } else {
        beats := beats + 1;
      }
      StoreCount(frameMarkers, clipFrame, Marker(color, name, note), Blue);
      StoreCount(frameMarkers, clipFrame, Marker(color, name, note), Red);
      frameMarkers := frameMarkers[clipFrame := Marker(color, name, note)];
    }

    /**
     * Over the current clip the two counters together have grown by the number of markers the
     * clip will receive, one per frame.
     */
    lemma CountersMatchMarkers()
      requires Valid()
      ensures (beats - beatsAtClipStart) + (downbeats - downbeatsAtClipStart) == |frameMarkers|
    {
      ColoursPartitionFrames(frameMarkers);
    }
  }
}
