/**
 * A certificate that the registry repeats no name: its names listed in strictly increasing
 * lexicographic order (`Sorted`), where each of them stands in the registry (`Position`), and
 * where each registry entry stands in the sorted list (`Rank`).
 */
module OperationsOrder {
  import opened Operations

  /** `a` comes strictly before `b`, the two first differing at position `k` (or `a` ending there). */
  predicate LessAt(a: string, b: string, k: nat) {
    k <= |a| && k < |b| && a[..k] == b[..k] && (k == |a| || a[k] < b[k])
  }

  /** Strict lexicographic order on strings. */
  predicate Precedes(a: string, b: string) {
    exists k: nat | k <= |a| :: LessAt(a, b, k)
  }

  lemma PrecedesIrreflexive(a: string)
    ensures !Precedes(a, a)
  {
  }

  lemma PrecedesTransitive(a: string, b: string, c: string)
    requires Precedes(a, b) && Precedes(b, c)
    ensures Precedes(a, c)
  {
    var k1: nat :| k1 <= |a| && LessAt(a, b, k1);
    var k2: nat :| k2 <= |b| && LessAt(b, c, k2);
    var k := if k1 < k2 then k1 else k2;
    assert a[..k] == a[..k1][..k] == b[..k1][..k] == b[..k];
    assert b[..k] == b[..k2][..k] == c[..k2][..k] == c[..k];
    if k < |a| {
      if k1 < k2 {
        assert b[k1] == b[..k2][k1] == c[..k2][k1] == c[k1];
      } else if k2 < k1 {
        assert a[k2] == a[..k1][k2] == b[..k1][k2] == b[k2];
      }
    }
    assert LessAt(a, c, k);
  }

  /** Each name comes strictly before the next one. */
  predicate StepsIncrease(s: seq<string>) {
    forall i :: 0 <= i < |s| - 1 ==> Precedes(s[i], s[i + 1])
  }

  /** Each name comes strictly before every later one. */
  predicate StrictlyIncreasing(s: seq<string>) {
    forall i, j :: 0 <= i < j < |s| ==> Precedes(s[i], s[j])
  }

  lemma {:induction false} StepsIncreaseConcat(a: seq<string>, b: seq<string>)
    requires StepsIncrease(a) && StepsIncrease(b)
    requires a != [] && b != [] && Precedes(a[|a| - 1], b[0])
    ensures StepsIncrease(a + b)
  {
    forall i | 0 <= i < |a + b| - 1
      ensures Precedes((a + b)[i], (a + b)[i + 1])
    {
      if i < |a| - 1 {
        assert (a + b)[i] == a[i] && (a + b)[i + 1] == a[i + 1];
      } else if i == |a| - 1 {
        assert (a + b)[i] == a[|a| - 1] && (a + b)[i + 1] == b[0];
      } else {
        assert (a + b)[i] == b[i - |a|] && (a + b)[i + 1] == b[i - |a| + 1];
      }
    }
  }

  lemma {:induction false} StrictlyIncreasingFromSteps(s: seq<string>)
    requires StepsIncrease(s)
    ensures StrictlyIncreasing(s)
    decreases |s|
  {
    if |s| > 1 {
      var t := s[..|s| - 1];
      assert StepsIncrease(t) by {
        forall i | 0 <= i < |t| - 1
          ensures Precedes(t[i], t[i + 1])
        {
          assert t[i] == s[i] && t[i + 1] == s[i + 1];
        }
      }
      StrictlyIncreasingFromSteps(t);
      forall i, j | 0 <= i < j < |s|
        ensures Precedes(s[i], s[j])
      {
        if j < |s| - 1 {
          assert s[i] == t[i] && s[j] == t[j];
        } else if i < j - 1 {
          assert s[i] == t[i] && s[j - 1] == t[j - 1];
          PrecedesTransitive(s[i], s[j - 1], s[j]);
        }
      }
    }
  }

  /** Each name of `s` is the registry entry at the corresponding position of `p`. */
  predicate Matches(s: seq<string>, p: seq<nat>) {
    |s| == |p| && forall j :: 0 <= j < |s| ==> p[j] < |All| && s[j] == All[p[j]]
  }

  lemma {:induction false} MatchesConcat(a: seq<string>, pa: seq<nat>, b: seq<string>, pb: seq<nat>)
    requires Matches(a, pa) && Matches(b, pb)
    ensures Matches(a + b, pa + pb)
  {
    forall j | 0 <= j < |a + b|
      ensures (pa + pb)[j] < |All| && (a + b)[j] == All[(pa + pb)[j]]
    {
      if j < |a| {
        assert (a + b)[j] == a[j] && (pa + pb)[j] == pa[j];
      } else {
        assert (a + b)[j] == b[j - |a|] && (pa + pb)[j] == pb[j - |a|];
      }
    }
  }

  /** `Position` sends the `i`-th entry of `rank` back to registry position `offset + i`. */
  predicate Inverts(rank: seq<nat>, offset: nat) {
    forall i :: 0 <= i < |rank| ==> rank[i] < |Position| && Position[rank[i]] == offset + i
  }

  lemma {:induction false} InvertsConcat(ra: seq<nat>, rb: seq<nat>, offset: nat)
    requires Inverts(ra, offset) && Inverts(rb, offset + |ra|)
    ensures Inverts(ra + rb, offset)
  {
    forall i | 0 <= i < |ra + rb|
      ensures (ra + rb)[i] < |Position| && Position[(ra + rb)[i]] == offset + i
    {
      if i < |ra| {
        assert (ra + rb)[i] == ra[i];
      } else {
        assert (ra + rb)[i] == rb[i - |ra|];
      }
    }
  }

  const Sorted0: seq<string> := [
    "add_clip_marker", "add_color_version", "add_flag", "add_fusion_comp_to_clip", "add_marker",
    "add_render_job", "add_take", "add_text_to_timeline"
  ]
  const Sorted1: seq<string> := [
    "add_track", "append_to_timeline", "apply_grade_from_drx", "apply_lut",
    "assign_to_color_group", "check_audio_deps", "check_connection", "clear_flags"
  ]
  const Sorted2: seq<string> := [
    "clear_markers", "copy_grades", "create_color_group", "create_compound_clip",
    "create_fusion_clip", "create_magic_mask", "create_media_pool_folder",
    "create_subtitles_from_audio"
  ]
  const Sorted3: seq<string> := [
    "create_timeline", "delete_all_render_jobs", "delete_clips", "delete_color_group",
    "delete_color_version", "delete_marker", "delete_media_pool_clips",
    "delete_media_pool_folders"
  ]
  const Sorted4: seq<string> := [
    "delete_render_job", "delete_render_preset", "delete_take", "delete_track", "detect_beats",
    "detect_scene_cuts", "duplicate_timeline", "enable_track"
  ]
  const Sorted5: seq<string> := [
    "export_project", "export_still", "export_timeline", "finalize_take", "get_clip_cache_mode",
    "get_clip_metadata", "get_color_groups", "get_color_versions"
  ]
  const Sorted6: seq<string> := [
    "get_context", "get_current_page", "get_current_timecode", "get_flags", "get_gallery_albums",
    "get_keyframe_mode", "get_lut", "get_project_setting"
  ]
  const Sorted7: seq<string> := [
    "get_render_codecs", "get_render_formats", "get_render_job_status", "get_render_jobs",
    "get_render_presets", "get_takes", "get_text_properties", "get_timeline_setting"
  ]
  const Sorted8: seq<string> := [
    "grab_still", "import_media", "import_timeline_from_file", "insert_fusion_composition",
    "insert_generator", "insert_title", "load_color_version", "load_render_preset"
  ]
  const Sorted9: seq<string> := [
    "lock_track", "move_media_pool_clips", "open_page", "refresh_lut_list", "relink_clips",
    "remove_from_color_group", "reset_grades", "save_project"
  ]
  const Sorted10: seq<string> := [
    "save_render_preset", "select_take", "set_cdl", "set_clip_cache_mode", "set_clip_color",
    "set_clip_enabled", "set_clip_metadata", "set_clip_property"
  ]
  const Sorted11: seq<string> := [
    "set_clips_linked", "set_current_media_pool_folder", "set_current_timecode",
    "set_keyframe_mode", "set_project_setting", "set_render_format_and_codec",
    "set_render_settings", "set_text_content"
  ]
  const Sorted12: seq<string> := [
    "set_text_style", "set_timeline", "set_timeline_setting", "set_track_name", "smart_reframe",
    "stabilize_clip", "start_render"
  ]

  const Sorted0To1: seq<string> := Sorted0 + Sorted1
  const Sorted2To3: seq<string> := Sorted2 + Sorted3
  const Sorted0To3: seq<string> := Sorted0To1 + Sorted2To3
  const Sorted4To5: seq<string> := Sorted4 + Sorted5
  const Sorted4To6: seq<string> := Sorted4To5 + Sorted6
  const Sorted0To6: seq<string> := Sorted0To3 + Sorted4To6
  const Sorted7To8: seq<string> := Sorted7 + Sorted8
  const Sorted7To9: seq<string> := Sorted7To8 + Sorted9
  const Sorted10To11: seq<string> := Sorted10 + Sorted11
  const Sorted10To12: seq<string> := Sorted10To11 + Sorted12
  const Sorted7To12: seq<string> := Sorted7To9 + Sorted10To12
  /** The registry's names in increasing order. */
  const Sorted: seq<string> := Sorted0To6 + Sorted7To12

  const Position0: seq<nat> := [9, 67, 84, 37, 8, 17, 87, 44]
  const Position1: seq<nat> := [12, 3, 60, 62, 73, 57, 0, 86]
  const Position2: seq<nat> := [11, 65, 71, 38, 36, 47, 76, 55]
  const Position3: seq<nat> := [4, 29, 49, 75, 70, 10, 79, 80]
  const Position4: seq<nat> := [28, 26, 91, 16, 56, 48, 32, 14]
  const Position5: seq<nat> := [93, 59, 33, 90, 101, 82, 72, 69]
  const Position6: seq<nat> := [1, 54, 52, 85, 61, 99, 63, 94]
  const Position7: seq<nat> := [21, 20, 30, 27, 23, 89, 43, 96]
  const Position8: seq<nat> := [58, 2, 34, 35, 39, 40, 68, 24]
  const Position9: seq<nat> := [15, 78, 53, 102, 83, 74, 66, 92]
  const Position10: seq<nat> := [25, 88, 64, 100, 7, 6, 81, 5]
  const Position11: seq<nat> := [50, 77, 51, 98, 95, 22, 19, 41]
  const Position12: seq<nat> := [42, 31, 97, 13, 46, 45, 18]
  const Position0To1: seq<nat> := Position0 + Position1
  const Position2To3: seq<nat> := Position2 + Position3
  const Position0To3: seq<nat> := Position0To1 + Position2To3
  const Position4To5: seq<nat> := Position4 + Position5
  const Position4To6: seq<nat> := Position4To5 + Position6
  const Position0To6: seq<nat> := Position0To3 + Position4To6
  const Position7To8: seq<nat> := Position7 + Position8
  const Position7To9: seq<nat> := Position7To8 + Position9
  const Position10To11: seq<nat> := Position10 + Position11
  const Position10To12: seq<nat> := Position10To11 + Position12
  const Position7To12: seq<nat> := Position7To9 + Position10To12
  /** Where each name of `Sorted` stands in the registry. */
  const Position: seq<nat> := Position0To6 + Position7To12

  const RankCore: seq<nat> := [14, 48]
  const RankMedia: seq<nat> := [65, 9, 24]
  const RankClipProperties: seq<nat> := [87, 85, 84]
  const RankMarkers: seq<nat> := [4, 0, 29, 16]
  const RankTracks: seq<nat> := [8, 99, 39, 72, 35]
  const RankRender: seq<nat> := [5, 102, 94, 57, 56, 93, 60, 71, 80, 33, 59, 32, 25, 58]
  const RankTimeline: seq<nat> := [97, 38, 42, 66]
  const RankFusionAndCompositions: seq<nat> := [67, 20, 3, 19]
  const RankGeneratorsAndTitles: seq<nat> := [68, 69]
  const RankTextPlus: seq<nat> := [95, 96, 62, 7]
  const RankAiProcessing: seq<nat> := [101, 100, 21, 37]
  const RankClipManagement: seq<nat> := [26, 88]
  const RankNavigation: seq<nat> := [90, 50, 74, 49]
  const RankAudio: seq<nat> := [23, 36, 13]
  const RankStillsAndGallery: seq<nat> := [64, 41, 10, 52]
  const RankColorGrading: seq<nat> := [11, 54, 82, 17, 78, 1, 70, 47, 28]
  const RankColorGroups: seq<nat> := [18, 46, 12, 77, 27]
  const RankMediaPool: seq<nat> := [22, 89, 73, 30, 31, 86, 45, 76]
  const RankFlags: seq<nat> := [2, 51, 15]
  const RankTakes: seq<nat> := [6, 81, 61, 43, 34]
  const RankProjectSettings: seq<nat> := [79, 40, 55, 92, 63, 98]
  const RankKeyframeMode: seq<nat> := [91, 53]
  const RankCache: seq<nat> := [83, 44, 75]
  const RankCoreToMedia: seq<nat> := RankCore + RankMedia
  const RankCoreToClipProperties: seq<nat> := RankCoreToMedia + RankClipProperties
  const RankMarkersToTracks: seq<nat> := RankMarkers + RankTracks
  const RankMarkersToRender: seq<nat> := RankMarkersToTracks + RankRender
  const RankCoreToRender: seq<nat> := RankCoreToClipProperties + RankMarkersToRender
  const RankTimelineToFusionAndCompositions: seq<nat> := RankTimeline + RankFusionAndCompositions
  const RankTimelineToGeneratorsAndTitles: seq<nat> := RankTimelineToFusionAndCompositions + RankGeneratorsAndTitles
  const RankTextPlusToAiProcessing: seq<nat> := RankTextPlus + RankAiProcessing
  const RankTextPlusToClipManagement: seq<nat> := RankTextPlusToAiProcessing + RankClipManagement
  const RankTimelineToClipManagement: seq<nat> := RankTimelineToGeneratorsAndTitles + RankTextPlusToClipManagement
  const RankCoreToClipManagement: seq<nat> := RankCoreToRender + RankTimelineToClipManagement
  const RankNavigationToAudio: seq<nat> := RankNavigation + RankAudio
  const RankNavigationToStillsAndGallery: seq<nat> := RankNavigationToAudio + RankStillsAndGallery
  const RankColorGradingToColorGroups: seq<nat> := RankColorGrading + RankColorGroups
  const RankColorGradingToMediaPool: seq<nat> := RankColorGradingToColorGroups + RankMediaPool
  const RankNavigationToMediaPool: seq<nat> := RankNavigationToStillsAndGallery + RankColorGradingToMediaPool
  const RankFlagsToTakes: seq<nat> := RankFlags + RankTakes
  const RankFlagsToProjectSettings: seq<nat> := RankFlagsToTakes + RankProjectSettings
  const RankKeyframeModeToCache: seq<nat> := RankKeyframeMode + RankCache
  const RankFlagsToCache: seq<nat> := RankFlagsToProjectSettings + RankKeyframeModeToCache
  const RankNavigationToCache: seq<nat> := RankNavigationToMediaPool + RankFlagsToCache
  /** Where each registry entry stands in `Sorted`. */
  const Rank: seq<nat> := RankCoreToClipManagement + RankNavigationToCache

  lemma Sorted0Increases()
    ensures StepsIncrease(Sorted0)
  {
    assert LessAt(Sorted0[0], Sorted0[1], 5);
    assert LessAt(Sorted0[1], Sorted0[2], 4);
    assert LessAt(Sorted0[2], Sorted0[3], 5);
    assert LessAt(Sorted0[3], Sorted0[4], 4);
    assert LessAt(Sorted0[4], Sorted0[5], 4);
    assert LessAt(Sorted0[5], Sorted0[6], 4);
    assert LessAt(Sorted0[6], Sorted0[7], 5);
  }

  lemma Sorted1Increases()
    ensures StepsIncrease(Sorted1)
  {
    assert LessAt(Sorted1[0], Sorted1[1], 1);
    assert LessAt(Sorted1[1], Sorted1[2], 3);
    assert LessAt(Sorted1[2], Sorted1[3], 6);
    assert LessAt(Sorted1[3], Sorted1[4], 1);
    assert LessAt(Sorted1[4], Sorted1[5], 0);
    assert LessAt(Sorted1[5], Sorted1[6], 6);
    assert LessAt(Sorted1[6], Sorted1[7], 1);
  }

  lemma Sorted2Increases()
    ensures StepsIncrease(Sorted2)
  {
    assert LessAt(Sorted2[0], Sorted2[1], 1);
    assert LessAt(Sorted2[1], Sorted2[2], 1);
    assert LessAt(Sorted2[2], Sorted2[3], 9);
    assert LessAt(Sorted2[3], Sorted2[4], 7);
    assert LessAt(Sorted2[4], Sorted2[5], 7);
    assert LessAt(Sorted2[5], Sorted2[6], 8);
    assert LessAt(Sorted2[6], Sorted2[7], 7);
  }

  lemma Sorted3Increases()
    ensures StepsIncrease(Sorted3)
  {
    assert LessAt(Sorted3[0], Sorted3[1], 0);
    assert LessAt(Sorted3[1], Sorted3[2], 7);
    assert LessAt(Sorted3[2], Sorted3[3], 8);
    assert LessAt(Sorted3[3], Sorted3[4], 13);
    assert LessAt(Sorted3[4], Sorted3[5], 7);
    assert LessAt(Sorted3[5], Sorted3[6], 8);
    assert LessAt(Sorted3[6], Sorted3[7], 18);
  }

  lemma Sorted4Increases()
    ensures StepsIncrease(Sorted4)
  {
    assert LessAt(Sorted4[0], Sorted4[1], 14);
    assert LessAt(Sorted4[1], Sorted4[2], 7);
    assert LessAt(Sorted4[2], Sorted4[3], 8);
    assert LessAt(Sorted4[3], Sorted4[4], 2);
    assert LessAt(Sorted4[4], Sorted4[5], 7);
    assert LessAt(Sorted4[5], Sorted4[6], 1);
    assert LessAt(Sorted4[6], Sorted4[7], 0);
  }

  lemma Sorted5Increases()
    ensures StepsIncrease(Sorted5)
  {
    assert LessAt(Sorted5[0], Sorted5[1], 7);
    assert LessAt(Sorted5[1], Sorted5[2], 7);
    assert LessAt(Sorted5[2], Sorted5[3], 0);
    assert LessAt(Sorted5[3], Sorted5[4], 0);
    assert LessAt(Sorted5[4], Sorted5[5], 9);
    assert LessAt(Sorted5[5], Sorted5[6], 5);
    assert LessAt(Sorted5[6], Sorted5[7], 10);
  }

  lemma Sorted6Increases()
    ensures StepsIncrease(Sorted6)
  {
    assert LessAt(Sorted6[0], Sorted6[1], 5);
    assert LessAt(Sorted6[1], Sorted6[2], 12);
    assert LessAt(Sorted6[2], Sorted6[3], 4);
    assert LessAt(Sorted6[3], Sorted6[4], 4);
    assert LessAt(Sorted6[4], Sorted6[5], 4);
    assert LessAt(Sorted6[5], Sorted6[6], 4);
    assert LessAt(Sorted6[6], Sorted6[7], 4);
  }

  lemma Sorted7Increases()
    ensures StepsIncrease(Sorted7)
  {
    assert LessAt(Sorted7[0], Sorted7[1], 11);
    assert LessAt(Sorted7[1], Sorted7[2], 11);
    assert LessAt(Sorted7[2], Sorted7[3], 14);
    assert LessAt(Sorted7[3], Sorted7[4], 11);
    assert LessAt(Sorted7[4], Sorted7[5], 4);
    assert LessAt(Sorted7[5], Sorted7[6], 5);
    assert LessAt(Sorted7[6], Sorted7[7], 5);
  }

  lemma Sorted8Increases()
    ensures StepsIncrease(Sorted8)
  {
    assert LessAt(Sorted8[0], Sorted8[1], 0);
    assert LessAt(Sorted8[1], Sorted8[2], 7);
    assert LessAt(Sorted8[2], Sorted8[3], 1);
    assert LessAt(Sorted8[3], Sorted8[4], 7);
    assert LessAt(Sorted8[4], Sorted8[5], 7);
    assert LessAt(Sorted8[5], Sorted8[6], 0);
    assert LessAt(Sorted8[6], Sorted8[7], 5);
  }

  lemma Sorted9Increases()
    ensures StepsIncrease(Sorted9)
  {
    assert LessAt(Sorted9[0], Sorted9[1], 0);
    assert LessAt(Sorted9[1], Sorted9[2], 0);
    assert LessAt(Sorted9[2], Sorted9[3], 0);
    assert LessAt(Sorted9[3], Sorted9[4], 2);
    assert LessAt(Sorted9[4], Sorted9[5], 2);
    assert LessAt(Sorted9[5], Sorted9[6], 2);
    assert LessAt(Sorted9[6], Sorted9[7], 0);
  }

  lemma Sorted10Increases()
    ensures StepsIncrease(Sorted10)
  {
    assert LessAt(Sorted10[0], Sorted10[1], 1);
    assert LessAt(Sorted10[1], Sorted10[2], 2);
    assert LessAt(Sorted10[2], Sorted10[3], 5);
    assert LessAt(Sorted10[3], Sorted10[4], 10);
    assert LessAt(Sorted10[4], Sorted10[5], 9);
    assert LessAt(Sorted10[5], Sorted10[6], 9);
    assert LessAt(Sorted10[6], Sorted10[7], 9);
  }

  lemma Sorted11Increases()
    ensures StepsIncrease(Sorted11)
  {
    assert LessAt(Sorted11[0], Sorted11[1], 5);
    assert LessAt(Sorted11[1], Sorted11[2], 12);
    assert LessAt(Sorted11[2], Sorted11[3], 4);
    assert LessAt(Sorted11[3], Sorted11[4], 4);
    assert LessAt(Sorted11[4], Sorted11[5], 4);
    assert LessAt(Sorted11[5], Sorted11[6], 11);
    assert LessAt(Sorted11[6], Sorted11[7], 4);
  }

  lemma Sorted12Increases()
    ensures StepsIncrease(Sorted12)
  {
    assert LessAt(Sorted12[0], Sorted12[1], 5);
    assert LessAt(Sorted12[1], Sorted12[2], 12);
    assert LessAt(Sorted12[2], Sorted12[3], 5);
    assert LessAt(Sorted12[3], Sorted12[4], 1);
    assert LessAt(Sorted12[4], Sorted12[5], 1);
    assert LessAt(Sorted12[5], Sorted12[6], 3);
  }

  lemma Sorted0To1Increases()
    ensures StepsIncrease(Sorted0To1)
  {
    Sorted0Increases();
    Sorted1Increases();
    assert LessAt(Sorted0[7], Sorted1[0], 5);
    StepsIncreaseConcat(Sorted0, Sorted1);
  }

  lemma Sorted2To3Increases()
    ensures StepsIncrease(Sorted2To3)
  {
    Sorted2Increases();
    Sorted3Increases();
    assert LessAt(Sorted2[7], Sorted3[0], 7);
    StepsIncreaseConcat(Sorted2, Sorted3);
  }

  lemma Sorted0To3Increases()
    ensures StepsIncrease(Sorted0To3)
  {
    Sorted0To1Increases();
    Sorted2To3Increases();
    assert LessAt(Sorted1[7], Sorted2[0], 6);
    StepsIncreaseConcat(Sorted0To1, Sorted2To3);
  }

  lemma Sorted4To5Increases()
    ensures StepsIncrease(Sorted4To5)
  {
    Sorted4Increases();
    Sorted5Increases();
    assert LessAt(Sorted4[7], Sorted5[0], 1);
    StepsIncreaseConcat(Sorted4, Sorted5);
  }

  lemma Sorted4To6Increases()
    ensures StepsIncrease(Sorted4To6)
  {
    Sorted4To5Increases();
    Sorted6Increases();
    assert LessAt(Sorted5[7], Sorted6[0], 6);
    StepsIncreaseConcat(Sorted4To5, Sorted6);
  }

  lemma Sorted0To6Increases()
    ensures StepsIncrease(Sorted0To6)
  {
    Sorted0To3Increases();
    Sorted4To6Increases();
    assert LessAt(Sorted3[7], Sorted4[0], 7);
    StepsIncreaseConcat(Sorted0To3, Sorted4To6);
  }

  lemma Sorted7To8Increases()
    ensures StepsIncrease(Sorted7To8)
  {
    Sorted7Increases();
    Sorted8Increases();
    assert LessAt(Sorted7[7], Sorted8[0], 1);
    StepsIncreaseConcat(Sorted7, Sorted8);
  }

  lemma Sorted7To9Increases()
    ensures StepsIncrease(Sorted7To9)
  {
    Sorted7To8Increases();
    Sorted9Increases();
    assert LessAt(Sorted8[7], Sorted9[0], 2);
    StepsIncreaseConcat(Sorted7To8, Sorted9);
  }

  lemma Sorted10To11Increases()
    ensures StepsIncrease(Sorted10To11)
  {
    Sorted10Increases();
    Sorted11Increases();
    assert LessAt(Sorted10[7], Sorted11[0], 8);
    StepsIncreaseConcat(Sorted10, Sorted11);
  }

  lemma Sorted10To12Increases()
    ensures StepsIncrease(Sorted10To12)
  {
    Sorted10To11Increases();
    Sorted12Increases();
    assert LessAt(Sorted11[7], Sorted12[0], 9);
    StepsIncreaseConcat(Sorted10To11, Sorted12);
  }

  lemma Sorted7To12Increases()
    ensures StepsIncrease(Sorted7To12)
  {
    Sorted7To9Increases();
    Sorted10To12Increases();
    assert LessAt(Sorted9[7], Sorted10[0], 5);
    StepsIncreaseConcat(Sorted7To9, Sorted10To12);
  }

  /** `Sorted` is strictly increasing. */
  lemma SortedIncreases()
    ensures StrictlyIncreasing(Sorted)
  {
    Sorted0To6Increases();
    Sorted7To12Increases();
    assert LessAt(Sorted6[7], Sorted7[0], 4);
    StepsIncreaseConcat(Sorted0To6, Sorted7To12);
    StrictlyIncreasingFromSteps(Sorted);
  }

  lemma Position0Matches()
    ensures Matches(Sorted0, Position0)
  {
  }

  lemma Position1Matches()
    ensures Matches(Sorted1, Position1)
  {
  }

  lemma Position2Matches()
    ensures Matches(Sorted2, Position2)
  {
  }

  lemma Position3Matches()
    ensures Matches(Sorted3, Position3)
  {
  }

  lemma Position4Matches()
    ensures Matches(Sorted4, Position4)
  {
  }

  lemma Position5Matches()
    ensures Matches(Sorted5, Position5)
  {
  }

  lemma Position6Matches()
    ensures Matches(Sorted6, Position6)
  {
  }

  lemma Position7Matches()
    ensures Matches(Sorted7, Position7)
  {
  }

  lemma Position8Matches()
    ensures Matches(Sorted8, Position8)
  {
  }

  lemma Position9Matches()
    ensures Matches(Sorted9, Position9)
  {
  }

  lemma Position10Matches()
    ensures Matches(Sorted10, Position10)
  {
  }

  lemma Position11Matches()
    ensures Matches(Sorted11, Position11)
  {
  }

  lemma Position12Matches()
    ensures Matches(Sorted12, Position12)
  {
  }

  lemma Position0To1Matches()
    ensures Matches(Sorted0To1, Position0To1)
  {
    Position0Matches();
    Position1Matches();
    MatchesConcat(Sorted0, Position0, Sorted1, Position1);
  }

  lemma Position2To3Matches()
    ensures Matches(Sorted2To3, Position2To3)
  {
    Position2Matches();
    Position3Matches();
    MatchesConcat(Sorted2, Position2, Sorted3, Position3);
  }

  lemma Position0To3Matches()
    ensures Matches(Sorted0To3, Position0To3)
  {
    Position0To1Matches();
    Position2To3Matches();
    MatchesConcat(Sorted0To1, Position0To1, Sorted2To3, Position2To3);
  }

  lemma Position4To5Matches()
    ensures Matches(Sorted4To5, Position4To5)
  {
    Position4Matches();
    Position5Matches();
    MatchesConcat(Sorted4, Position4, Sorted5, Position5);
  }

  lemma Position4To6Matches()
    ensures Matches(Sorted4To6, Position4To6)
  {
    Position4To5Matches();
    Position6Matches();
    MatchesConcat(Sorted4To5, Position4To5, Sorted6, Position6);
  }

  lemma Position0To6Matches()
    ensures Matches(Sorted0To6, Position0To6)
  {
    Position0To3Matches();
    Position4To6Matches();
    MatchesConcat(Sorted0To3, Position0To3, Sorted4To6, Position4To6);
  }

  lemma Position7To8Matches()
    ensures Matches(Sorted7To8, Position7To8)
  {
    Position7Matches();
    Position8Matches();
    MatchesConcat(Sorted7, Position7, Sorted8, Position8);
  }

  lemma Position7To9Matches()
    ensures Matches(Sorted7To9, Position7To9)
  {
    Position7To8Matches();
    Position9Matches();
    MatchesConcat(Sorted7To8, Position7To8, Sorted9, Position9);
  }

  lemma Position10To11Matches()
    ensures Matches(Sorted10To11, Position10To11)
  {
    Position10Matches();
    Position11Matches();
    MatchesConcat(Sorted10, Position10, Sorted11, Position11);
  }

  lemma Position10To12Matches()
    ensures Matches(Sorted10To12, Position10To12)
  {
    Position10To11Matches();
    Position12Matches();
    MatchesConcat(Sorted10To11, Position10To11, Sorted12, Position12);
  }

  lemma Position7To12Matches()
    ensures Matches(Sorted7To12, Position7To12)
  {
    Position7To9Matches();
    Position10To12Matches();
    MatchesConcat(Sorted7To9, Position7To9, Sorted10To12, Position10To12);
  }

  /** Each name of `Sorted` is the registry entry its position names. */
  lemma PositionMatches()
    ensures Matches(Sorted, Position)
  {
    Position0To6Matches();
    Position7To12Matches();
    MatchesConcat(Sorted0To6, Position0To6, Sorted7To12, Position7To12);
  }

  lemma RankCoreInverts()
    ensures Inverts(RankCore, 0)
  {
  }

  lemma RankMediaInverts()
    ensures Inverts(RankMedia, 2)
  {
  }

  lemma RankClipPropertiesInverts()
    ensures Inverts(RankClipProperties, 5)
  {
  }

  lemma RankMarkersInverts()
    ensures Inverts(RankMarkers, 8)
  {
  }

  lemma RankTracksInverts()
    ensures Inverts(RankTracks, 12)
  {
  }

  lemma RankRenderInverts()
    ensures Inverts(RankRender, 17)
  {
  }

  lemma RankTimelineInverts()
    ensures Inverts(RankTimeline, 31)
  {
  }

  lemma RankFusionAndCompositionsInverts()
    ensures Inverts(RankFusionAndCompositions, 35)
  {
  }

  lemma RankGeneratorsAndTitlesInverts()
    ensures Inverts(RankGeneratorsAndTitles, 39)
  {
  }

  lemma RankTextPlusInverts()
    ensures Inverts(RankTextPlus, 41)
  {
  }

  lemma RankAiProcessingInverts()
    ensures Inverts(RankAiProcessing, 45)
  {
  }

  lemma RankClipManagementInverts()
    ensures Inverts(RankClipManagement, 49)
  {
  }

  lemma RankNavigationInverts()
    ensures Inverts(RankNavigation, 51)
  {
  }

  lemma RankAudioInverts()
    ensures Inverts(RankAudio, 55)
  {
  }

  lemma RankStillsAndGalleryInverts()
    ensures Inverts(RankStillsAndGallery, 58)
  {
  }

  lemma RankColorGradingInverts()
    ensures Inverts(RankColorGrading, 62)
  {
  }

  lemma RankColorGroupsInverts()
    ensures Inverts(RankColorGroups, 71)
  {
  }

  lemma RankMediaPoolInverts()
    ensures Inverts(RankMediaPool, 76)
  {
  }

  lemma RankFlagsInverts()
    ensures Inverts(RankFlags, 84)
  {
  }

  lemma RankTakesInverts()
    ensures Inverts(RankTakes, 87)
  {
  }

  lemma RankProjectSettingsInverts()
    ensures Inverts(RankProjectSettings, 92)
  {
  }

  lemma RankKeyframeModeInverts()
    ensures Inverts(RankKeyframeMode, 98)
  {
  }

  lemma RankCacheInverts()
    ensures Inverts(RankCache, 100)
  {
  }

  lemma RankCoreToMediaInverts()
    ensures Inverts(RankCoreToMedia, 0)
  {
    RankCoreInverts();
    RankMediaInverts();
    InvertsConcat(RankCore, RankMedia, 0);
  }

  lemma RankCoreToClipPropertiesInverts()
    ensures Inverts(RankCoreToClipProperties, 0)
  {
    RankCoreToMediaInverts();
    RankClipPropertiesInverts();
    InvertsConcat(RankCoreToMedia, RankClipProperties, 0);
  }

  lemma RankMarkersToTracksInverts()
    ensures Inverts(RankMarkersToTracks, 8)
  {
    RankMarkersInverts();
    RankTracksInverts();
    InvertsConcat(RankMarkers, RankTracks, 8);
  }

  lemma RankMarkersToRenderInverts()
    ensures Inverts(RankMarkersToRender, 8)
  {
    RankMarkersToTracksInverts();
    RankRenderInverts();
    InvertsConcat(RankMarkersToTracks, RankRender, 8);
  }

  lemma RankCoreToRenderInverts()
    ensures Inverts(RankCoreToRender, 0)
  {
    RankCoreToClipPropertiesInverts();
    RankMarkersToRenderInverts();
    InvertsConcat(RankCoreToClipProperties, RankMarkersToRender, 0);
  }

  lemma RankTimelineToFusionAndCompositionsInverts()
    ensures Inverts(RankTimelineToFusionAndCompositions, 31)
  {
    RankTimelineInverts();
    RankFusionAndCompositionsInverts();
    InvertsConcat(RankTimeline, RankFusionAndCompositions, 31);
  }

  lemma RankTimelineToGeneratorsAndTitlesInverts()
    ensures Inverts(RankTimelineToGeneratorsAndTitles, 31)
  {
    RankTimelineToFusionAndCompositionsInverts();
    RankGeneratorsAndTitlesInverts();
    InvertsConcat(RankTimelineToFusionAndCompositions, RankGeneratorsAndTitles, 31);
  }

  lemma RankTextPlusToAiProcessingInverts()
    ensures Inverts(RankTextPlusToAiProcessing, 41)
  {
    RankTextPlusInverts();
    RankAiProcessingInverts();
    InvertsConcat(RankTextPlus, RankAiProcessing, 41);
  }

  lemma RankTextPlusToClipManagementInverts()
    ensures Inverts(RankTextPlusToClipManagement, 41)
  {
    RankTextPlusToAiProcessingInverts();
    RankClipManagementInverts();
    InvertsConcat(RankTextPlusToAiProcessing, RankClipManagement, 41);
  }

  lemma RankTimelineToClipManagementInverts()
    ensures Inverts(RankTimelineToClipManagement, 31)
  {
    RankTimelineToGeneratorsAndTitlesInverts();
    RankTextPlusToClipManagementInverts();
    InvertsConcat(RankTimelineToGeneratorsAndTitles, RankTextPlusToClipManagement, 31);
  }

  lemma RankCoreToClipManagementInverts()
    ensures Inverts(RankCoreToClipManagement, 0)
  {
    RankCoreToRenderInverts();
    RankTimelineToClipManagementInverts();
    InvertsConcat(RankCoreToRender, RankTimelineToClipManagement, 0);
  }

  lemma RankNavigationToAudioInverts()
    ensures Inverts(RankNavigationToAudio, 51)
  {
    RankNavigationInverts();
    RankAudioInverts();
    InvertsConcat(RankNavigation, RankAudio, 51);
  }

  lemma RankNavigationToStillsAndGalleryInverts()
    ensures Inverts(RankNavigationToStillsAndGallery, 51)
  {
    RankNavigationToAudioInverts();
    RankStillsAndGalleryInverts();
    InvertsConcat(RankNavigationToAudio, RankStillsAndGallery, 51);
  }

  lemma RankColorGradingToColorGroupsInverts()
    ensures Inverts(RankColorGradingToColorGroups, 62)
  {
    RankColorGradingInverts();
    RankColorGroupsInverts();
    InvertsConcat(RankColorGrading, RankColorGroups, 62);
  }

  lemma RankColorGradingToMediaPoolInverts()
    ensures Inverts(RankColorGradingToMediaPool, 62)
  {
    RankColorGradingToColorGroupsInverts();
    RankMediaPoolInverts();
    InvertsConcat(RankColorGradingToColorGroups, RankMediaPool, 62);
  }

  lemma RankNavigationToMediaPoolInverts()
    ensures Inverts(RankNavigationToMediaPool, 51)
  {
    RankNavigationToStillsAndGalleryInverts();
    RankColorGradingToMediaPoolInverts();
    InvertsConcat(RankNavigationToStillsAndGallery, RankColorGradingToMediaPool, 51);
  }

  lemma RankFlagsToTakesInverts()
    ensures Inverts(RankFlagsToTakes, 84)
  {
    RankFlagsInverts();
    RankTakesInverts();
    InvertsConcat(RankFlags, RankTakes, 84);
  }

  lemma RankFlagsToProjectSettingsInverts()
    ensures Inverts(RankFlagsToProjectSettings, 84)
  {
    RankFlagsToTakesInverts();
    RankProjectSettingsInverts();
    InvertsConcat(RankFlagsToTakes, RankProjectSettings, 84);
  }

  lemma RankKeyframeModeToCacheInverts()
    ensures Inverts(RankKeyframeModeToCache, 98)
  {
    RankKeyframeModeInverts();
    RankCacheInverts();
    InvertsConcat(RankKeyframeMode, RankCache, 98);
  }

  lemma RankFlagsToCacheInverts()
    ensures Inverts(RankFlagsToCache, 84)
  {
    RankFlagsToProjectSettingsInverts();
    RankKeyframeModeToCacheInverts();
    InvertsConcat(RankFlagsToProjectSettings, RankKeyframeModeToCache, 84);
  }

  lemma RankNavigationToCacheInverts()
    ensures Inverts(RankNavigationToCache, 51)
  {
    RankNavigationToMediaPoolInverts();
    RankFlagsToCacheInverts();
    InvertsConcat(RankNavigationToMediaPool, RankFlagsToCache, 51);
  }

  /** `Position` undoes `Rank`. */
  lemma RankInverts()
    ensures |Rank| == |All| && Inverts(Rank, 0)
  {
    RankCoreToClipManagementInverts();
    RankNavigationToCacheInverts();
    InvertsConcat(RankCoreToClipManagement, RankNavigationToCache, 0);
  }

  lemma PrecedesDistinct(a: string, b: string)
    requires Precedes(a, b)
    ensures a != b
  {
    PrecedesIrreflexive(a);
  }

  /** A name strictly between two neighbours of an increasing list is not in it. */
  lemma AbsentBetween(s: seq<string>, k: nat, x: string)
    requires StrictlyIncreasing(s) && k + 1 < |s|
    requires Precedes(s[k], x) && Precedes(x, s[k + 1])
    ensures x !in s
  {
    forall j | 0 <= j < |s|
      ensures s[j] != x
    {
      if j < k {
        PrecedesTransitive(s[j], s[k], x);
        PrecedesDistinct(s[j], x);
      } else if j == k {
        PrecedesDistinct(s[j], x);
      } else if j == k + 1 {
        PrecedesDistinct(x, s[j]);
      } else {
        PrecedesTransitive(x, s[k + 1], s[j]);
        PrecedesDistinct(x, s[j]);
      }
    }
  }

  /** Every registry entry is the name `Rank` points to in `Sorted`. */
  lemma RegistryInSorted()
    ensures |Rank| == |All| && |Sorted| == |Position|
    ensures forall i :: 0 <= i < |All| ==> Rank[i] < |Sorted| && All[i] == Sorted[Rank[i]]
  {
    PositionMatches();
    RankInverts();
  }

  /** `ALL` lists no name twice. */
  lemma NoDuplicates()
    ensures forall i, j :: 0 <= i < j < |All| ==> All[i] != All[j]
  {
    SortedIncreases();
    PositionMatches();
    RegistryInSorted();
    forall i, j | 0 <= i < j < |All|
      ensures All[i] != All[j]
    {
      RankInverts();
      assert Position[Rank[i]] == i && Position[Rank[j]] == j;
      if Rank[i] < Rank[j] {
        PrecedesDistinct(Sorted[Rank[i]], Sorted[Rank[j]]);
      } else {
        PrecedesDistinct(Sorted[Rank[j]], Sorted[Rank[i]]);
      }
    }
  }

  /** The name the CLI sends for `clip thumbnail` is not in the registry. */
  lemma ThumbnailUnregistered()
    ensures "get_current_clip_thumbnail" !in All
  {
    SortedIncreases();
    RegistryInSorted();
    assert LessAt(Sorted[48], "get_current_clip_thumbnail", 5);
    assert LessAt("get_current_clip_thumbnail", Sorted[49], 12);
    AbsentBetween(Sorted, 48, "get_current_clip_thumbnail");
  }

  /** The name the CLI sends for `gallery grab-all` is not in the registry. */
  lemma GrabAllStillsUnregistered()
    ensures "grab_all_stills" !in All
  {
    SortedIncreases();
    RegistryInSorted();
    assert LessAt(Sorted[63], "grab_all_stills", 1);
    assert LessAt("grab_all_stills", Sorted[64], 5);
    AbsentBetween(Sorted, 63, "grab_all_stills");
  }

  /** The name the CLI sends for `project create` is not in the registry. */
  lemma CreateProjectUnregistered()
    ensures "create_project" !in All
  {
    SortedIncreases();
    RegistryInSorted();
    assert LessAt(Sorted[22], "create_project", 7);
    assert LessAt("create_project", Sorted[23], 7);
    AbsentBetween(Sorted, 22, "create_project");
  }
}
