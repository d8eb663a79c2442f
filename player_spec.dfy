/**
 * The adapter's own bookkeeping as values: the shadow fields it keeps beside
 * the engine, the log of engine calls it has made and the log of listener
 * callbacks it has posted, and one function per operation giving the state
 * after it. The class `Mpv.MpvPlayer` is proved to follow these functions; the
 * lemmas at the end are about what any sequence of operations can do.
 */
module PlayerSpec {
  import opened Wrappers
  import opened Kotlin
  import opened MpvEngine
  import opened Media3
  import opened Tracks

  datatype PlayerState = PlayerState(
    isPaused: bool,
    surface: Option<Surface>,
    mediaItem: Option<MediaItem>,
    startPositionMs: Int64,
    durationMs: Int64,
    positionMs: Int64,
    playbackState: PlaybackState,
    isReleased: bool,
    isLoadingFile: bool,
    /** every engine write, option write and command, oldest first */
    calls: seq<EngineCall>,
    /** every listener callback posted to the application looper, oldest first */
    queued: seq<ListenerEvent>)

  /** How an operation ends: normally, or with the exception it throws. */
  datatype Outcome = Completed | IllegalStateException | IndexOutOfBoundsException

  /** The state right after construction (the engine configuration done there is not logged). */
  function Initial(): (s: PlayerState)
    ensures !s.isReleased && !s.isLoadingFile && s.isPaused
    ensures s.mediaItem.None? && s.surface.None?
    ensures s.startPositionMs == 0 && s.durationMs == 0 && s.positionMs == -1
    ensures s.playbackState == Ready
    ensures s.calls == [] && s.queued == []
  {
    PlayerState(true, None, None, 0, 0, -1, Ready, false, false, [], [])
  }

  // ---------------------------------------------------------------------
  // Lifecycle
  // ---------------------------------------------------------------------

  /** `prepare()`: resets duration, position and playback state and nothing else. */
  function Prepare(s: PlayerState): (r: PlayerState)
    ensures r.durationMs == 0 && r.positionMs == -1 && r.playbackState == Ready
    ensures r.(durationMs := s.durationMs, positionMs := s.positionMs, playbackState := s.playbackState) == s
  {
    s.(durationMs := 0, positionMs := -1, playbackState := Ready)
  }

  /** `setPlayWhenReady(playWhenReady)`: writes `pause` and posts the change, unless released. */
  function SetPlayWhenReady(s: PlayerState, playWhenReady: bool): (r: PlayerState)
    ensures s.isReleased ==> r == s
    ensures !s.isReleased ==> r.calls == s.calls + [SetPropertyBoolean("pause", !playWhenReady)]
    ensures !s.isReleased ==> r.queued == s.queued + [PlayWhenReadyChanged(playWhenReady)]
    ensures r.(calls := s.calls, queued := s.queued) == s
  {
    if s.isReleased then s
    else
      s.(calls := s.calls + [SetPropertyBoolean("pause", !playWhenReady)],
         queued := s.queued + [PlayWhenReadyChanged(playWhenReady)])
  }

  /** `stop()`: pauses and resets the shadow state, or does nothing once released. */
  function Stop(s: PlayerState): (r: PlayerState)
    ensures s.isReleased ==> r == s
    ensures !s.isReleased ==>
      r.mediaItem.None? && r.positionMs == -1 && r.durationMs == 0 && r.playbackState == Idle
    ensures !s.isReleased ==> r.calls == s.calls + [SetPropertyBoolean("pause", true)]
    ensures !s.isReleased ==>
      r.queued == s.queued + [PlayWhenReadyChanged(false), IsPlayingChanged(false), PlaybackStateChanged(Idle)]
    ensures r.(mediaItem := s.mediaItem, positionMs := s.positionMs, durationMs := s.durationMs,
               playbackState := s.playbackState, calls := s.calls, queued := s.queued) == s
  {
    if s.isReleased then s
    else
      var p := SetPlayWhenReady(s, false);
      p.(mediaItem := None, positionMs := -1, durationMs := 0, playbackState := Idle,
         queued := p.queued + [IsPlayingChanged(false), PlaybackStateChanged(Idle)])
  }

  /** The engine calls of `clearVideoSurfaceView`. */
  const ClearSurfaceCalls: seq<EngineCall> :=
    [DetachSurface, SetPropertyString("vo", "null"), SetPropertyString("force-window", "no")]

  /** The engine calls of the first `release()`. */
  const TeardownCalls: seq<EngineCall> := [RemoveObserver] + ClearSurfaceCalls + [Destroy]

  /**
   * `clearVideoSurfaceView(view)`: detaches the surface from the engine and
   * forgets the media item. It has no release guard, and it leaves the
   * `surface` field as it was.
   */
  function ClearVideoSurfaceView(s: PlayerState): (r: PlayerState)
    ensures r.calls == s.calls + ClearSurfaceCalls
    ensures r.mediaItem.None?
    ensures r.surface == s.surface
    ensures r.(calls := s.calls, mediaItem := s.mediaItem) == s
  {
    s.(calls := s.calls + ClearSurfaceCalls, mediaItem := None)
  }

  /** `release()`: tears the engine down on the first call only; then the player is released for good. */
  function Release(s: PlayerState): (r: PlayerState)
    ensures r.isReleased
    ensures s.isReleased ==> r == s
    ensures !s.isReleased ==> r.calls == s.calls + TeardownCalls && r.mediaItem.None?
    ensures r.(isReleased := s.isReleased, calls := s.calls, mediaItem := s.mediaItem) == s
  {
    var t :=
      if !s.isReleased then
        var c := ClearVideoSurfaceView(s.(calls := s.calls + [RemoveObserver]));
        c.(calls := c.calls + [Destroy])
      else s;
    t.(isReleased := true)
  }

  /** `throwIfReleased()`. */
  function ReleasedCheck(s: PlayerState): (r: Outcome)
    ensures r == Completed || r == IllegalStateException
    ensures r == IllegalStateException <==> s.isReleased
  {
    if s.isReleased then IllegalStateException else Completed
  }

  // ---------------------------------------------------------------------
  // Media and surface
  // ---------------------------------------------------------------------

  /** `mediaItem.localConfiguration?.uri.toString()`: the text "null" when the item has no local configuration. */
  function Url(item: MediaItem): (url: string)
    ensures item.localConfiguration.None? ==> url == "null"
    ensures item.localConfiguration.Some? ==> url == item.localConfiguration.value.uri
  {
    match item.localConfiguration
    case None => "null"
    case Some(c) => c.uri
  }

  /** The `loadfile` command array: a start time is added only for a positive start position. */
  function LoadFileArgs(url: string, startPositionMs: int): (args: seq<CommandArg>)
    ensures |args| == if startPositionMs > 0 then 5 else 4
    ensures args[..4] == [Arg("loadfile"), Arg(url), Arg("replace"), Arg("-1")]
    ensures startPositionMs > 0 ==> args[4] == StartAt(startPositionMs)
  {
    var base := [Arg("loadfile"), Arg(url), Arg("replace"), Arg("-1")];
    if startPositionMs > 0 then base + [StartAt(startPositionMs)] else base
  }

  /** The engine calls of `loadFile(item)`: the `loadfile` command, then the video output switched to "gpu". */
  function LoadFileCalls(item: MediaItem, startPositionMs: int): (r: seq<EngineCall>)
    ensures |r| == 2 && IsLoadfile(r[0]) && !IsLoadfile(r[1])
    ensures r[0] == Command(LoadFileArgs(Url(item), startPositionMs))
    ensures r[1] == SetPropertyString("vo", "gpu")
  {
    [Command(LoadFileArgs(Url(item), startPositionMs)), SetPropertyString("vo", "gpu")]
  }

  /** `loadFile(item)`: marks the player loading, posts that, and asks the engine to load the item. */
  function LoadFile(s: PlayerState, item: MediaItem): (r: PlayerState)
    ensures r.isLoadingFile
    ensures r.calls == s.calls + LoadFileCalls(item, s.startPositionMs)
    ensures r.queued == s.queued + [IsLoadingChanged(true)]
    ensures r.(isLoadingFile := s.isLoadingFile, calls := s.calls, queued := s.queued) == s
  {
    s.(isLoadingFile := true,
       queued := s.queued + [IsLoadingChanged(true)],
       calls := s.calls + LoadFileCalls(item, s.startPositionMs))
  }

  /**
   * `setMediaItems(items, resetPosition)`: after release it throws; an empty
   * list changes nothing; otherwise the first item becomes the media item and
   * is loaded at once when a surface is attached.
   */
  function SetMediaItems(s: PlayerState, items: seq<MediaItem>): (r: (PlayerState, Outcome))
    ensures s.isReleased ==> r == (s, IllegalStateException)
    ensures !s.isReleased ==> r.1 == Completed
    ensures |items| == 0 ==> r.0 == s
    ensures !s.isReleased && |items| > 0 ==> r.0.mediaItem == Some(items[0])
    ensures !s.isReleased && |items| > 0 && s.surface.None? ==> r.0 == s.(mediaItem := Some(items[0]))
    ensures !s.isReleased && |items| > 0 && s.surface.Some? ==>
      r.0 == LoadFile(s.(mediaItem := Some(items[0])), items[0])
  {
    if s.isReleased then (s, IllegalStateException)
    else if |items| == 0 then (s, Completed)
    else
      var t := s.(mediaItem := Some(items[0]));
      (if t.surface.Some? then LoadFile(t, items[0]) else t, Completed)
  }

  /**
   * `setMediaItems(items, startIndex, startPositionMs)`: records the start
   * position first (even when it then throws), then sets the items from
   * `startIndex` on; `subList` throws for an index outside 0..|items|.
   */
  function SetMediaItemsFrom(s: PlayerState, items: seq<MediaItem>, startIndex: int, startPositionMs: Int64)
    : (r: (PlayerState, Outcome))
    ensures r.0.startPositionMs == startPositionMs
    ensures !(0 <= startIndex <= |items|) ==>
      r == (s.(startPositionMs := startPositionMs), IndexOutOfBoundsException)
    ensures 0 <= startIndex <= |items| ==>
      r == SetMediaItems(s.(startPositionMs := startPositionMs), items[startIndex..])
  {
    var t := s.(startPositionMs := startPositionMs);
    if 0 <= startIndex <= |items| then SetMediaItems(t, items[startIndex..])
    else (t, IndexOutOfBoundsException)
  }

  /**
   * `setVideoSurfaceView(view)` given the view's surface (`view?.holder?.surface`):
   * after release it throws; a surface is attached and the current item
   * loaded on it; no surface clears the view.
   */
  function SetVideoSurfaceView(s: PlayerState, surface: Option<Surface>): (r: (PlayerState, Outcome))
    ensures s.isReleased ==> r == (s, IllegalStateException)
    ensures !s.isReleased ==> r.1 == Completed
    ensures !s.isReleased && surface.None? ==> r.0 == ClearVideoSurfaceView(s)
    ensures !s.isReleased && surface.Some? ==>
      var attached := s.(surface := surface,
                         calls := s.calls + [AttachSurface(surface.value), SetOptionString("force-window", "yes")]);
      r.0 == if s.mediaItem.Some? then LoadFile(attached, s.mediaItem.value) else attached
  {
    if s.isReleased then (s, IllegalStateException)
    else if surface.None? then (ClearVideoSurfaceView(s), Completed)
    else
      var t := s.(surface := surface,
                  calls := s.calls + [AttachSurface(surface.value), SetOptionString("force-window", "yes")]);
      (if t.mediaItem.Some? then LoadFile(t, t.mediaItem.value) else t, Completed)
  }

  /** `seekTo(mediaItemIndex, positionMs, ...)`: writes `time-pos` unless released or the index is unset. */
  function SeekTo(s: PlayerState, mediaItemIndex: int, positionMs: Int64): (r: PlayerState)
    ensures s.isReleased || mediaItemIndex == IndexUnset ==> r == s
    ensures !s.isReleased && mediaItemIndex != IndexUnset ==>
      r == s.(calls := s.calls + [SetPropertyDouble("time-pos", positionMs)])
  {
    if s.isReleased || mediaItemIndex == IndexUnset then s
    else s.(calls := s.calls + [SetPropertyDouble("time-pos", positionMs)])
  }

  /** `setTrackSelectionParameters(params)` with the engine's current track list: unless released, the selection writes. */
  function SetTrackSelectionParameters(s: PlayerState, params: TrackSelectionParameters, view: TrackListView)
    : (r: PlayerState)
    ensures s.isReleased ==> r == s
    ensures !s.isReleased ==> r == s.(calls := s.calls + SelectionCalls(GetTracks(view), params))
  {
    if s.isReleased then s else s.(calls := s.calls + SelectionCalls(GetTracks(view), params))
  }

  /**
   * `setPlaybackParameters(params)`: writes the playback speed. Like
   * `clearVideoSurfaceView` it has no release guard.
   */
  function SetPlaybackParameters(s: PlayerState, speed: real): (r: PlayerState)
    ensures r.calls == s.calls + [SetPropertyReal("speed", speed)]
    ensures r.(calls := s.calls) == s
  {
    s.(calls := s.calls + [SetPropertyReal("speed", speed)])
  }

  /** Setting `subtitleDelay`: writes `sub-delay` unless released. */
  function SetSubtitleDelay(s: PlayerState, delay: real): (r: PlayerState)
    ensures s.isReleased ==> r == s
    ensures !s.isReleased ==> r.calls == s.calls + [SetPropertyReal("sub-delay", delay)]
    ensures r.(calls := s.calls) == s
  {
    if s.isReleased then s else s.(calls := s.calls + [SetPropertyReal("sub-delay", delay)])
  }

  // ---------------------------------------------------------------------
  // Engine events
  // ---------------------------------------------------------------------

  /** `eventProperty(property, value: Long)`: the position is updated from whole seconds. */
  function EventPropertyLong(s: PlayerState, property: PropertyName, value: Int64): (r: PlayerState)
    ensures property == PositionProperty ==> r == s.(positionMs := SecondsToWholeMillis(value))
    ensures property != PositionProperty ==> r == s
  {
    if property == PositionProperty then s.(positionMs := SecondsToWholeMillis(value)) else s
  }

  /** `eventProperty(property, value: Boolean)`: the pause flag is shadowed and the playing state posted. */
  function EventPropertyBoolean(s: PlayerState, property: PropertyName, value: bool): (r: PlayerState)
    ensures property == PausedProperty ==> r == s.(isPaused := value, queued := s.queued + [IsPlayingChanged(!value)])
    ensures property != PausedProperty ==> r == s
  {
    if property == PausedProperty then s.(isPaused := value, queued := s.queued + [IsPlayingChanged(!value)]) else s
  }

  /**
   * `eventProperty(property, value: Double)`: the duration is shadowed. The
   * conversion from seconds to milliseconds is done by the caller here, so
   * `durationMs` is the already converted value.
   */
  function EventPropertyDouble(s: PlayerState, property: PropertyName, durationMs: Int64): (r: PlayerState)
    ensures property == DurationProperty ==> r == s.(durationMs := durationMs)
    ensures property != DurationProperty ==> r == s
  {
    if property == DurationProperty then s.(durationMs := durationMs) else s
  }

  /** The `sub-add` command for one external subtitle. */
  function SubtitleCall(sub: SubtitleConfiguration): (r: EngineCall)
    ensures r.Command? && |r.args| == 4
    ensures r.args[..3] == [Arg("sub-add"), Arg(sub.uri), Arg("auto")]
    ensures sub.displayLabel.Some? ==> r.args[3] == Arg(sub.displayLabel.value)
    ensures sub.displayLabel.None? ==> r.args[3] == Arg("External Subtitles")
  {
    Command([Arg("sub-add"), Arg(sub.uri), Arg("auto"), Arg(sub.displayLabel.GetOr("External Subtitles"))])
  }

  /** One `sub-add` per subtitle configuration, in order. */
  function SubtitleCalls(subs: seq<SubtitleConfiguration>): (r: seq<EngineCall>)
    ensures |r| == |subs|
    ensures forall k :: 0 <= k < |r| ==> r[k] == SubtitleCall(subs[k])
  {
    seq(|subs|, k requires 0 <= k < |subs| => SubtitleCall(subs[k]))
  }

  /** The subtitle commands issued for the current media item when its file has loaded. */
  function ExternalSubtitleCalls(item: Option<MediaItem>): (r: seq<EngineCall>)
    ensures item.None? ==> r == []
    ensures item.Some? && item.value.localConfiguration.None? ==> r == []
    ensures item.Some? && item.value.localConfiguration.Some? ==>
      r == SubtitleCalls(item.value.localConfiguration.value.subtitleConfigurations)
    ensures forall k :: 0 <= k < |r| ==> r[k].Command? && |r[k].args| == 4 && r[k].args[0] == Arg("sub-add")
  {
    match item
    case None => []
    case Some(m) =>
      match m.localConfiguration
      case None => []
      case Some(c) => SubtitleCalls(c.subtitleConfigurations)
  }

  /** Whether an event id is one after which the track list is republished, and only that. */
  predicate IsTrackEvent(eventId: int) {
    eventId == EventPlaybackRestart || eventId == EventAudioReconfig || eventId == EventVideoReconfig
  }

  /**
   * `event(eventId)` with the engine's track list at that moment: a loaded
   * file ends loading, adds the external subtitles and republishes the
   * tracks; a restart or reconfiguration republishes the tracks; any other
   * event changes nothing.
   */
  function Event(s: PlayerState, eventId: int, view: TrackListView): (r: PlayerState)
    ensures eventId == EventFileLoaded ==> !r.isLoadingFile
    ensures eventId == EventFileLoaded ==> r.calls == s.calls + ExternalSubtitleCalls(s.mediaItem)
    ensures eventId == EventFileLoaded ==>
      r.queued == s.queued + [IsLoadingChanged(false), RenderedFirstFrame, IsPlayingChanged(true), TracksChanged(GetTracks(view))]
    ensures IsTrackEvent(eventId) ==> r == s.(queued := s.queued + [TracksChanged(GetTracks(view))])
    ensures eventId != EventFileLoaded && !IsTrackEvent(eventId) ==> r == s
    ensures r.(isLoadingFile := s.isLoadingFile, calls := s.calls, queued := s.queued) == s
  {
    if eventId == EventFileLoaded then
      var t := s.(isLoadingFile := false, queued := s.queued + [IsLoadingChanged(false)]);
      var u := t.(calls := t.calls + ExternalSubtitleCalls(t.mediaItem));
      u.(queued := u.queued + [RenderedFirstFrame, IsPlayingChanged(true), TracksChanged(GetTracks(view))])
    else if IsTrackEvent(eventId) then
      s.(queued := s.queued + [TracksChanged(GetTracks(view))])
    else s
  }

  /**
   * `eventEndFile(reason, error)`: posts that playing stopped, then the end of
   * playback for EOF or the error for ERROR. No shadow field changes, so
   * the playback state stays what it was.
   */
  function EventEndFile(s: PlayerState, reason: int, error: int): (r: PlayerState)
    ensures r.(queued := s.queued) == s
    ensures |r.queued| > |s.queued| && r.queued[..|s.queued| + 1] == s.queued + [IsPlayingChanged(false)]
    ensures reason == EndFileReasonEof ==> r.queued == s.queued + [IsPlayingChanged(false), PlaybackStateChanged(Ended)]
    ensures reason == EndFileReasonError ==> r.queued == s.queued + [IsPlayingChanged(false), PlayerError(error)]
    ensures reason != EndFileReasonEof && reason != EndFileReasonError ==> r.queued == s.queued + [IsPlayingChanged(false)]
  {
    var t := s.(queued := s.queued + [IsPlayingChanged(false)]);
    if reason == EndFileReasonEof then t.(queued := t.queued + [PlaybackStateChanged(Ended)])
    else if reason == EndFileReasonStop then t
    else if reason == EndFileReasonError then t.(queued := t.queued + [PlayerError(error)])
    else t
  }

  // ---------------------------------------------------------------------
  // Getters: the engine's answer, or the shadow value
  // ---------------------------------------------------------------------

  /** `getPlayWhenReady()` given the engine's answer for `pause`. */
  function PlayWhenReady(s: PlayerState, enginePause: Option<bool>): (r: bool)
    ensures s.isReleased ==> !r
    ensures !s.isReleased && enginePause.Some? ==> r == !enginePause.value
    ensures !s.isReleased && enginePause.None? ==> r == !s.isPaused
  {
    if s.isReleased then false else !enginePause.GetOr(s.isPaused)
  }

  /** `getDuration()` given the engine's `duration/full`, already in milliseconds. */
  function Duration(s: PlayerState, engineMs: Option<Int64>): (r: Int64)
    ensures s.isReleased || engineMs.None? ==> r == s.durationMs
    ensures !s.isReleased && engineMs.Some? ==> r == engineMs.value
  {
    if s.isReleased then s.durationMs else engineMs.GetOr(s.durationMs)
  }

  /** `getCurrentPosition()` given the engine's `time-pos/full`, already in milliseconds. */
  function CurrentPosition(s: PlayerState, engineMs: Option<Int64>): (r: Int64)
    ensures s.isReleased || engineMs.None? ==> r == s.positionMs
    ensures !s.isReleased && engineMs.Some? ==> r == engineMs.value
  {
    if s.isReleased then s.positionMs else engineMs.GetOr(s.positionMs)
  }

  /** `getTotalBufferedDuration()` given the engine's `demuxer-cache-duration`, already in milliseconds. */
  function TotalBufferedDuration(s: PlayerState, engineMs: Option<Int64>): (r: Int64)
    ensures s.isReleased || engineMs.None? ==> r == 0
    ensures !s.isReleased && engineMs.Some? ==> r == engineMs.value
  {
    if s.isReleased then 0 else engineMs.GetOr(0)
  }

  /** `getBufferedPosition()`: position plus buffered duration, as a wrapping `Long` sum. */
  function BufferedPosition(s: PlayerState, positionMs: Option<Int64>, cacheMs: Option<Int64>): (r: Int64)
    ensures s.isReleased ==> r == s.positionMs
    ensures var sum := CurrentPosition(s, positionMs) + TotalBufferedDuration(s, cacheMs);
      Int64Min <= sum <= Int64Max ==> r == sum
    ensures var sum := CurrentPosition(s, positionMs) + TotalBufferedDuration(s, cacheMs);
      (r - sum) % 0x1_0000_0000_0000_0000 == 0
  {
    WrappingAdd(CurrentPosition(s, positionMs), TotalBufferedDuration(s, cacheMs))
  }

  /** `getVideoSize()` given the engine's `width` and `height`. */
  function VideoSizeOf(s: PlayerState, width: Option<Int32>, height: Option<Int32>): (r: VideoSize)
    ensures s.isReleased || width.None? || height.None? ==> r == VideoSizeUnknown
    ensures !s.isReleased && width.Some? && height.Some? ==> r == VideoSize(width.value, height.value)
  {
    if s.isReleased then VideoSizeUnknown
    else if width.Some? && height.Some? then VideoSize(width.value, height.value)
    else VideoSizeUnknown
  }

  /** `getPlaybackParameters()` given the engine's `speed`: 1 when the engine gives none, with no release guard. */
  function PlaybackSpeed(engineSpeed: Option<real>): (r: real)
    ensures engineSpeed.None? ==> r == 1.0
    ensures engineSpeed.Some? ==> r == engineSpeed.value
  {
    engineSpeed.GetOr(1.0)
  }

  /** Reading `subtitleDelay` given the engine's `sub-delay`: 0 after release or without an answer. */
  function SubtitleDelay(s: PlayerState, engineDelay: Option<real>): (r: real)
    ensures s.isReleased || engineDelay.None? ==> r == 0.0
    ensures !s.isReleased && engineDelay.Some? ==> r == engineDelay.value
  {
    if s.isReleased then 0.0 else engineDelay.GetOr(0.0)
  }

  /** `getCurrentTracks()`: empty after release, otherwise the engine's track list translated. */
  function CurrentTracks(s: PlayerState, view: TrackListView): (r: seq<Group>)
    ensures s.isReleased || view.count.None? ==> r == []
    ensures !s.isReleased ==> r == GetTracks(view)
  {
    if s.isReleased then [] else GetTracks(view)
  }

  // ---------------------------------------------------------------------
  // Sequences of operations
  // ---------------------------------------------------------------------

  /** Every state-changing call the player accepts, with the engine's answers it reads. */
  datatype Op =
    | PrepareOp
    | StopOp
    | ReleaseOp
    | SetPlayWhenReadyOp(playWhenReady: bool)
    | SeekToOp(mediaItemIndex: int, positionMs: Int64)
    | SetMediaItemsOp(items: seq<MediaItem>)
    | SetMediaItemsFromOp(allItems: seq<MediaItem>, startIndex: int, startPositionMs: Int64)
    | SetVideoSurfaceViewOp(surface: Option<Surface>)
    | ClearVideoSurfaceViewOp
    | SetPlaybackParametersOp(speed: real)
    | SetSubtitleDelayOp(delay: real)
    | SetTrackSelectionParametersOp(params: TrackSelectionParameters, view: TrackListView)
    | PropertyLongOp(property: PropertyName, value: Int64)
    | PropertyBooleanOp(property: PropertyName, flag: bool)
    | PropertyDoubleOp(property: PropertyName, durationMs: Int64)
    | EventOp(eventId: int, eventView: TrackListView)
    | EndFileOp(reason: int, error: int)

  function Apply(s: PlayerState, op: Op): PlayerState {
    match op
    case PrepareOp => Prepare(s)
    case StopOp => Stop(s)
    case ReleaseOp => Release(s)
    case SetPlayWhenReadyOp(p) => SetPlayWhenReady(s, p)
    case SeekToOp(i, ms) => SeekTo(s, i, ms)
    case SetMediaItemsOp(items) => SetMediaItems(s, items).0
    case SetMediaItemsFromOp(items, i, ms) => SetMediaItemsFrom(s, items, i, ms).0
    case SetVideoSurfaceViewOp(surface) => SetVideoSurfaceView(s, surface).0
    case ClearVideoSurfaceViewOp => ClearVideoSurfaceView(s)
    case SetPlaybackParametersOp(speed) => SetPlaybackParameters(s, speed)
    case SetSubtitleDelayOp(delay) => SetSubtitleDelay(s, delay)
    case SetTrackSelectionParametersOp(params, view) => SetTrackSelectionParameters(s, params, view)
    case PropertyLongOp(p, v) => EventPropertyLong(s, p, v)
    case PropertyBooleanOp(p, v) => EventPropertyBoolean(s, p, v)
    case PropertyDoubleOp(p, v) => EventPropertyDouble(s, p, v)
    case EventOp(id, view) => Event(s, id, view)
    case EndFileOp(reason, error) => EventEndFile(s, reason, error)
  }

  /** The state after the operations in order. */
  function Run(s: PlayerState, ops: seq<Op>): PlayerState
    decreases |ops|
  {
    if |ops| == 0 then s else Run(Apply(s, ops[0]), ops[1..])
  }

  /** Calling `release()` again changes nothing. */
  lemma ReleaseIdempotent(s: PlayerState)
    ensures Release(Release(s)) == Release(s)
  {
  }

  /** The engine call log is append-only: every operation keeps what was logged before it. */
  lemma {:induction false} CallLogAppendOnly(s: PlayerState, ops: seq<Op>)
    ensures |s.calls| <= |Run(s, ops).calls|
    ensures Run(s, ops).calls[..|s.calls|] == s.calls
    decreases |ops|
  {
    if |ops| > 0 {
      var t := Apply(s, ops[0]);
      var added := AppendedCalls(s, ops[0]);
      assert t.calls[..|s.calls|] == s.calls;
      CallLogAppendOnly(t, ops[1..]);
      var u := Run(t, ops[1..]);
      assert u.calls[..|s.calls|] == u.calls[..|t.calls|][..|s.calls|];
    }
  }

  /** Release is one-way: no sequence of operations makes a released player unreleased. */
  lemma {:induction false} ReleaseIsPermanent(s: PlayerState, ops: seq<Op>)
    requires s.isReleased
    ensures Run(s, ops).isReleased
    decreases |ops|
  {
    if |ops| > 0 {
      ReleaseIsPermanent(Apply(s, ops[0]), ops[1..]);
    }
  }

  /**
   * What holds of every state reachable from `Initial()`: a released player
   * has no media item, since release clears it and nothing can set it
   * afterwards.
   */
  predicate ReleasedWithoutMedia(s: PlayerState) {
    s.isReleased ==> s.mediaItem.None?
  }

  lemma ReleasedWithoutMediaPreserved(s: PlayerState, op: Op)
    requires ReleasedWithoutMedia(s)
    ensures ReleasedWithoutMedia(Apply(s, op))
  {
  }

  lemma {:induction false} ReleasedWithoutMediaReachable(ops: seq<Op>, s: PlayerState)
    requires ReleasedWithoutMedia(s)
    ensures ReleasedWithoutMedia(Run(s, ops))
    decreases |ops|
  {
    if |ops| > 0 {
      ReleasedWithoutMediaPreserved(s, ops[0]);
      ReleasedWithoutMediaReachable(ops[1..], Apply(s, ops[0]));
    }
  }

  /** The two operations that reach the engine without checking for release. */
  predicate Unguarded(op: Op) {
    op.ClearVideoSurfaceViewOp? || op.SetPlaybackParametersOp?
  }

  /**
   * Once released, a player makes no further engine call, whatever is called
   * on it and whatever the engine reports, except through
   * `clearVideoSurfaceView` and `setPlaybackParameters`, which are not guarded.
   */
  lemma {:induction false} ReleasedPlayerIsQuiet(s: PlayerState, ops: seq<Op>)
    requires s.isReleased && s.mediaItem.None?
    requires forall k :: 0 <= k < |ops| ==> !Unguarded(ops[k])
    ensures Run(s, ops).calls == s.calls
    decreases |ops|
  {
    if |ops| > 0 {
      var t := Apply(s, ops[0]);
      assert t.calls == s.calls && t.isReleased && t.mediaItem.None?;
      ReleasedPlayerIsQuiet(t, ops[1..]);
    }
  }

  /**
   * After `release()` on any reachable state, the log ends with the teardown
   * (made at most once) and no later operation other than
   * `clearVideoSurfaceView` or `setPlaybackParameters` adds to it.
   */
  lemma {:induction false} NoEngineCallAfterRelease(s: PlayerState, ops: seq<Op>)
    requires ReleasedWithoutMedia(s)
    requires forall k :: 0 <= k < |ops| ==> !Unguarded(ops[k])
    ensures Run(Release(s), ops).calls == (if s.isReleased then s.calls else s.calls + TeardownCalls)
  {
    ReleasedPlayerIsQuiet(Release(s), ops);
  }

  /** The unguarded exceptions: clearing the surface or setting the speed of a released player still reaches the engine. */
  lemma UnguardedOpsReachEngineAfterRelease(s: PlayerState, speed: real)
    requires s.isReleased
    ensures Apply(s, ClearVideoSurfaceViewOp).calls == s.calls + ClearSurfaceCalls
    ensures Apply(s, SetPlaybackParametersOp(speed)).calls == s.calls + [SetPropertyReal("speed", speed)]
  {
  }

  /** Whether the calls logged after the first `n` include a `loadfile` command. */
  predicate LoadfileAfter(calls: seq<EngineCall>, n: int) {
    exists k :: 0 <= n <= k < |calls| && IsLoadfile(calls[k])
  }

  /** A `loadfile` is among the calls appended to `before` exactly when it is among `added`. */
  lemma LoadfileAfterAppend(before: seq<EngineCall>, added: seq<EngineCall>)
    ensures LoadfileAfter(before + added, |before|) <==> exists j :: 0 <= j < |added| && IsLoadfile(added[j])
  {
    var all := before + added;
    if LoadfileAfter(all, |before|) {
      var k :| 0 <= |before| <= k < |all| && IsLoadfile(all[k]);
      assert added[k - |before|] == all[k];
    }
    if j :| 0 <= j < |added| && IsLoadfile(added[j]) {
      assert all[|before| + j] == added[j];
    }
  }

  /** The calls an operation appends to the log. */
  function AppendedCalls(s: PlayerState, op: Op): (added: seq<EngineCall>)
    ensures Apply(s, op).calls == s.calls + added
  {
    match op
    case StopOp => if s.isReleased then [] else [SetPropertyBoolean("pause", true)]
    case ReleaseOp => if s.isReleased then [] else TeardownCalls
    case SetPlayWhenReadyOp(p) => if s.isReleased then [] else [SetPropertyBoolean("pause", !p)]
    case SeekToOp(i, ms) =>
      if s.isReleased || i == IndexUnset then [] else [SetPropertyDouble("time-pos", ms)]
    case SetMediaItemsOp(items) =>
      if s.isReleased || |items| == 0 || s.surface.None? then []
      else LoadFileCalls(items[0], s.startPositionMs)
    case SetMediaItemsFromOp(items, i, ms) =>
      if s.isReleased || !(0 <= i < |items|) || s.surface.None? then []
      else LoadFileCalls(items[i], ms)
    case SetVideoSurfaceViewOp(surface) =>
      if s.isReleased then []
      else if surface.None? then ClearSurfaceCalls
      else
        [AttachSurface(surface.value), SetOptionString("force-window", "yes")] +
          if s.mediaItem.Some? then LoadFileCalls(s.mediaItem.value, s.startPositionMs) else []
    case ClearVideoSurfaceViewOp => ClearSurfaceCalls
    case SetPlaybackParametersOp(speed) => [SetPropertyReal("speed", speed)]
    case SetSubtitleDelayOp(delay) => if s.isReleased then [] else [SetPropertyReal("sub-delay", delay)]
    case SetTrackSelectionParametersOp(params, view) =>
      if s.isReleased then [] else SelectionCalls(GetTracks(view), params)
    case EventOp(id, view) => if id == EventFileLoaded then ExternalSubtitleCalls(s.mediaItem) else []
    case _ => []
  }

  /** Whether an operation makes the player load a file. */
  predicate LoadsFile(s: PlayerState, op: Op) {
    match op
    case SetMediaItemsOp(items) => !s.isReleased && |items| > 0 && s.surface.Some?
    case SetMediaItemsFromOp(items, i, ms) => !s.isReleased && 0 <= i < |items| && s.surface.Some?
    case SetVideoSurfaceViewOp(surface) => !s.isReleased && surface.Some? && s.mediaItem.Some?
    case _ => false
  }

  /** The operations that load a file are exactly those that append a `loadfile` command. */
  lemma LoadfileAppendedIffLoads(s: PlayerState, op: Op)
    ensures (exists j :: 0 <= j < |AppendedCalls(s, op)| && IsLoadfile(AppendedCalls(s, op)[j])) <==> LoadsFile(s, op)
  {
    var added := AppendedCalls(s, op);
    match op
    case SetMediaItemsOp(items) =>
      if LoadsFile(s, op) { assert IsLoadfile(added[0]); }
    case SetMediaItemsFromOp(items, i, ms) =>
      if LoadsFile(s, op) { assert IsLoadfile(added[0]); }
    case SetVideoSurfaceViewOp(surface) =>
      if LoadsFile(s, op) {
        assert IsLoadfile(added[2]);
      } else if !s.isReleased && surface.Some? {
        assert added == [AttachSurface(surface.value), SetOptionString("force-window", "yes")];
      }
    case _ =>
  }

  /** The flag is set by exactly the operations that load a file and cleared by FILE_LOADED. */
  lemma LoadingFlagOfOp(s: PlayerState, op: Op)
    ensures Apply(s, op).isLoadingFile ==
      if op.EventOp? && op.eventId == EventFileLoaded then false else s.isLoadingFile || LoadsFile(s, op)
  {
  }

  /**
   * The loading flag follows the `loadfile` commands: an operation leaves the
   * player loading exactly when it issued a `loadfile` or the player was
   * already loading, except that the FILE_LOADED event always ends loading.
   */
  lemma LoadingFlagFollowsLoadfile(s: PlayerState, op: Op)
    ensures var r := Apply(s, op);
      r.isLoadingFile ==
        if op.EventOp? && op.eventId == EventFileLoaded then false
        else s.isLoadingFile || LoadfileAfter(r.calls, |s.calls|)
  {
    LoadfileAfterAppend(s.calls, AppendedCalls(s, op));
    LoadfileAppendedIffLoads(s, op);
    LoadingFlagOfOp(s, op);
  }

  /** After `stop()` and with no engine answer, the getters report the reset values. */
  lemma StopThenReadShadow(s: PlayerState)
    requires !s.isReleased
    ensures Duration(Stop(s), None) == 0
    ensures CurrentPosition(Stop(s), None) == -1
    ensures !PlayWhenReady(Stop(s), Some(true))
    ensures Stop(s).playbackState == Idle
  {
  }

  /** After release the getters no longer depend on the engine's answers. */
  lemma ReleasedGettersIgnoreEngine(s: PlayerState, a: Option<Int64>, b: Option<Int64>, v: TrackListView, d: Option<real>)
    requires s.isReleased
    ensures Duration(s, a) == Duration(s, b) == s.durationMs
    ensures CurrentPosition(s, a) == CurrentPosition(s, b) == s.positionMs
    ensures TotalBufferedDuration(s, a) == 0
    ensures !PlayWhenReady(s, Some(false))
    ensures CurrentTracks(s, v) == []
    ensures SubtitleDelay(s, d) == 0.0
  {
  }
}
