/**
 * The fields of the Media3 framework types that the player reads or builds.
 * Everything else in those types is a third-party contract outside the model.
 */
module Media3 {
  import opened Wrappers

  /** `Player.STATE_*`. */
  datatype PlaybackState = Idle | Buffering | Ready | Ended

  /** `C.TRACK_TYPE_*` for the kinds the player distinguishes. */
  datatype TrackType = UnknownTrack | AudioTrack | VideoTrack | TextTrack

  /** `C.INDEX_UNSET`. */
  const IndexUnset: int := -1
  /** `Format.NO_VALUE`. */
  const NoValue: int := -1
  /** `C.SELECTION_FLAG_DEFAULT` and `C.SELECTION_FLAG_FORCED`. */
  const SelectionFlagDefault: int := 1
  const SelectionFlagForced: int := 2
  /** `C.FORMAT_HANDLED`. */
  const FormatHandled: int := 4

  // `label` is a keyword in Dafny, so Media3's `label` fields are called `displayLabel`.

  datatype SubtitleConfiguration = SubtitleConfiguration(uri: string, displayLabel: Option<string>)

  datatype LocalConfiguration = LocalConfiguration(uri: string, subtitleConfigurations: seq<SubtitleConfiguration>)

  datatype MediaItem = MediaItem(mediaId: string, localConfiguration: Option<LocalConfiguration>)

  datatype Format = Format(
    id: Option<string>,
    codecs: Option<string>,
    sampleMimeType: Option<string>,
    language: Option<string>,
    displayLabel: Option<string>,
    selectionFlags: int,
    width: int,
    height: int,
    channelCount: int)

  /** A `TrackGroup`: equal when the id and all formats are equal. */
  datatype TrackGroup = TrackGroup(id: string, formats: seq<Format>)

  /** One `Tracks.Group`. */
  datatype Group = Group(
    mediaTrackGroup: TrackGroup,
    adaptiveSupported: bool,
    trackSupport: seq<int>,
    trackSelected: seq<bool>)

  datatype VideoSize = VideoSize(width: int, height: int)

  /** `VideoSize.UNKNOWN`. */
  const VideoSizeUnknown: VideoSize := VideoSize(0, 0)

  /**
   * The parts of `TrackSelectionParameters` the player reads: the disabled
   * track types and the keys of the override map, in iteration order.
   */
  datatype TrackSelectionParameters = TrackSelectionParameters(
    disabledTrackTypes: set<TrackType>,
    overrides: seq<TrackGroup>)

  /** The listener callbacks the player posts, with their arguments. */
  datatype ListenerEvent =
    | PlayWhenReadyChanged(playWhenReady: bool)
    | IsPlayingChanged(isPlaying: bool)
    | PlaybackStateChanged(state: PlaybackState)
    | IsLoadingChanged(isLoading: bool)
    | RenderedFirstFrame
    | TracksChanged(groups: seq<Group>)
    | PlayerError(errorCode: int)

  /**
   * The track type of a sample MIME type, by its top-level type. Media3's
   * further special cases (application types, registered custom types) are
   * not modelled; the player only produces "video/", "audio/", "text/" and
   * "unknown/" MIME types.
   */
  function TrackTypeOfMime(mime: Option<string>): (t: TrackType)
    ensures mime == Some("audio/todo") ==> t == AudioTrack
    ensures mime == Some("video/todo") ==> t == VideoTrack
    ensures mime == Some("text/todo") ==> t == TextTrack
    ensures mime == Some("unknown/todo") ==> t == UnknownTrack
  {
    match mime
    case None => UnknownTrack
    case Some(m) =>
      var slash := FirstSlash(m, 0);
      if slash.None? then UnknownTrack
      else
        var top := m[..slash.value];
        if top == "audio" then AudioTrack
        else if top == "video" then VideoTrack
        else if top == "text" then TextTrack
        else UnknownTrack
  }

  /** The index of the first '/' in `m` at or after `from`. */
  function FirstSlash(m: string, from: nat): (r: Option<nat>)
    requires from <= |m|
    ensures r.Some? ==> from <= r.value < |m| && m[r.value] == '/'
    ensures r.Some? ==> forall k :: from <= k < r.value ==> m[k] != '/'
    ensures r.None? ==> forall k :: from <= k < |m| ==> m[k] != '/'
    decreases |m| - from
  {
    if from == |m| then None
    else if m[from] == '/' then Some(from)
    else FirstSlash(m, from + 1)
  }

  /** `TrackGroup.type`: the track type of its first format. */
  function TrackGroupType(g: TrackGroup): TrackType {
    if |g.formats| == 0 then UnknownTrack else TrackTypeOfMime(g.formats[0].sampleMimeType)
  }
}
