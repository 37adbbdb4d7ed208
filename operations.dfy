/**
 * The operation registry `ALL` of src/resolve/operations.rs: the names the CLI lists and accepts
 * for `op`, in the order and under the headings of the source.
 */
module Operations {
  /** Core */
  const Core: seq<string> := [
    "check_connection",
    "get_context"
  ]

  /** Media */
  const Media: seq<string> := [
    "import_media",
    "append_to_timeline",
    "create_timeline"
  ]

  /** Clip Properties */
  const ClipProperties: seq<string> := [
    "set_clip_property",
    "set_clip_enabled",
    "set_clip_color"
  ]

  /** Markers */
  const Markers: seq<string> := [
    "add_marker",
    "add_clip_marker",
    "delete_marker",
    "clear_markers"
  ]

  /** Tracks */
  const Tracks: seq<string> := [
    "add_track",
    "set_track_name",
    "enable_track",
    "lock_track",
    "delete_track"
  ]

  /** Render */
  const Render: seq<string> := [
    "add_render_job",
    "start_render",
    "set_render_settings",
    "get_render_formats",
    "get_render_codecs",
    "set_render_format_and_codec",
    "get_render_presets",
    "load_render_preset",
    "save_render_preset",
    "delete_render_preset",
    "get_render_jobs",
    "delete_render_job",
    "delete_all_render_jobs",
    "get_render_job_status"
  ]

  /** Timeline */
  const Timeline: seq<string> := [
    "set_timeline",
    "duplicate_timeline",
    "export_timeline",
    "import_timeline_from_file"
  ]

  /** Fusion & Compositions */
  const FusionAndCompositions: seq<string> := [
    "insert_fusion_composition",
    "create_fusion_clip",
    "add_fusion_comp_to_clip",
    "create_compound_clip"
  ]

  /** Generators & Titles */
  const GeneratorsAndTitles: seq<string> := [
    "insert_generator",
    "insert_title"
  ]

  /** Text+ Operations */
  const TextPlus: seq<string> := [
    "set_text_content",
    "set_text_style",
    "get_text_properties",
    "add_text_to_timeline"
  ]

  /** AI/Processing */
  const AiProcessing: seq<string> := [
    "stabilize_clip",
    "smart_reframe",
    "create_magic_mask",
    "detect_scene_cuts"
  ]

  /** Clip Management */
  const ClipManagement: seq<string> := [
    "delete_clips",
    "set_clips_linked"
  ]

  /** Navigation */
  const Navigation: seq<string> := [
    "set_current_timecode",
    "get_current_timecode",
    "open_page",
    "get_current_page"
  ]

  /** Audio */
  const Audio: seq<string> := [
    "create_subtitles_from_audio",
    "detect_beats",
    "check_audio_deps"
  ]

  /** Stills & Gallery */
  const StillsAndGallery: seq<string> := [
    "grab_still",
    "export_still",
    "apply_grade_from_drx",
    "get_gallery_albums"
  ]

  /** Color Grading */
  const ColorGrading: seq<string> := [
    "apply_lut",
    "get_lut",
    "set_cdl",
    "copy_grades",
    "reset_grades",
    "add_color_version",
    "load_color_version",
    "get_color_versions",
    "delete_color_version"
  ]

  /** Color Groups */
  const ColorGroups: seq<string> := [
    "create_color_group",
    "get_color_groups",
    "assign_to_color_group",
    "remove_from_color_group",
    "delete_color_group"
  ]

  /** Media Pool */
  const MediaPool: seq<string> := [
    "create_media_pool_folder",
    "set_current_media_pool_folder",
    "move_media_pool_clips",
    "delete_media_pool_clips",
    "delete_media_pool_folders",
    "set_clip_metadata",
    "get_clip_metadata",
    "relink_clips"
  ]

  /** Flags */
  const Flags: seq<string> := [
    "add_flag",
    "get_flags",
    "clear_flags"
  ]

  /** Takes */
  const Takes: seq<string> := [
    "add_take",
    "select_take",
    "get_takes",
    "finalize_take",
    "delete_take"
  ]

  /** Project Settings */
  const ProjectSettings: seq<string> := [
    "save_project",
    "export_project",
    "get_project_setting",
    "set_project_setting",
    "get_timeline_setting",
    "set_timeline_setting"
  ]

  /** Keyframe Mode */
  const KeyframeMode: seq<string> := [
    "set_keyframe_mode",
    "get_keyframe_mode"
  ]

  /** Cache */
  const Cache: seq<string> := [
    "set_clip_cache_mode",
    "get_clip_cache_mode",
    "refresh_lut_list"
  ]

  /** The whole registry, group after group. */
  const All: seq<string> :=
    ((Core + Media + ClipProperties + Markers + Tracks + Render)
     + (Timeline + FusionAndCompositions + GeneratorsAndTitles + TextPlus + AiProcessing))
    + ((ClipManagement + Navigation + Audio + StillsAndGallery + ColorGrading + ColorGroups)
       + (MediaPool + Flags + Takes + ProjectSettings + KeyframeMode + Cache))
}
