/**
 * The `MpvPlayer` adapter as an object: the shadow fields it updates in place,
 * the engine call log and the listener queue. Each method is proved to leave
 * the object in the state the matching `PlayerSpec` function gives; engine
 * reads are parameters.
 */
module Mpv {
  import opened Wrappers
  import opened Kotlin
  import opened MpvEngine
  import opened Media3
  import opened Tracks
  import PlayerSpec

  class MpvPlayer {
    var isPaused: bool
    var surface: Option<Surface>
    var mediaItem: Option<MediaItem>
    var startPositionMs: Int64
    var durationMs: Int64
    var positionMs: Int64
    var playbackState: PlaybackState
    var isReleased: bool
    var isLoadingFile: bool
    /** the engine calls made so far */
    var calls: seq<EngineCall>
    /** the listener callbacks posted so far */
    var queued: seq<ListenerEvent>

    /** The object's fields as a value. */
    function Snapshot(): PlayerSpec.PlayerState
      reads this
    {
      PlayerSpec.PlayerState(isPaused, surface, mediaItem, startPositionMs, durationMs, positionMs,
                             playbackState, isReleased, isLoadingFile, calls, queued)
    }

    constructor ()
      ensures Snapshot() == PlayerSpec.Initial()
    {
      isPaused := true;
      surface := None;
      mediaItem := None;
      startPositionMs := 0;
      durationMs := 0;
      positionMs := -1;
      playbackState := Ready;
      isReleased := false;
      isLoadingFile := false;
      calls := [];
      queued := [];
    }

    // -------------------------------------------------------------------
    // Lifecycle
    // -------------------------------------------------------------------

    method Prepare()
      modifies this
      ensures Snapshot() == PlayerSpec.Prepare(old(Snapshot()))
    {
      durationMs := 0;
      positionMs := -1;
      playbackState := Ready;
    }

    method SetPlayWhenReady(playWhenReady: bool)
      modifies this
      ensures Snapshot() == PlayerSpec.SetPlayWhenReady(old(Snapshot()), playWhenReady)
    {
      if isReleased {
        return;
      }
      if playWhenReady {
        calls := calls + [SetPropertyBoolean("pause", false)];
      } else {
        calls := calls + [SetPropertyBoolean("pause", true)];
      }
      queued := queued + [PlayWhenReadyChanged(playWhenReady)];
    }

    /** `BasePlayer.pause()`. */
    method Pause()
      modifies this
      ensures Snapshot() == PlayerSpec.SetPlayWhenReady(old(Snapshot()), false)
    {
      SetPlayWhenReady(false);
    }

    method Stop()
      modifies this
      ensures Snapshot() == PlayerSpec.Stop(old(Snapshot()))
    {
      if isReleased {
        return;
      }
      Pause();
      mediaItem := None;
      positionMs := -1;
      durationMs := 0;
      playbackState := Idle;
      queued := queued + [IsPlayingChanged(false)];
      queued := queued + [PlaybackStateChanged(Idle)];
    }

    method Release()
      modifies this
      ensures Snapshot() == PlayerSpec.Release(old(Snapshot()))
    {
      if !isReleased {
        calls := calls + [RemoveObserver];
        ClearVideoSurfaceView();
        calls := calls + [Destroy];
      }
      isReleased := true;
    }

    method ThrowIfReleased() returns (r: PlayerSpec.Outcome)
      ensures r == PlayerSpec.ReleasedCheck(Snapshot())
    {
      if isReleased {
        return PlayerSpec.IllegalStateException;
      }
      return PlayerSpec.Completed;
    }

    // -------------------------------------------------------------------
    // Media and surface
    // -------------------------------------------------------------------

    method SetMediaItems(items: seq<MediaItem>) returns (r: PlayerSpec.Outcome)
      modifies this
      ensures (Snapshot(), r) == PlayerSpec.SetMediaItems(old(Snapshot()), items)
    {
      r := ThrowIfReleased();
      if r != PlayerSpec.Completed {
        return;
      }
      if |items| > 0 {
        var it := items[0];
        mediaItem := Some(it);
        if surface.Some? {
          LoadFile(it);
        }
      }
    }

    method SetMediaItemsFrom(items: seq<MediaItem>, startIndex: int, startPositionMs: Int64)
      returns (r: PlayerSpec.Outcome)
      modifies this
      ensures (Snapshot(), r) == PlayerSpec.SetMediaItemsFrom(old(Snapshot()), items, startIndex, startPositionMs)
    {
      this.startPositionMs := startPositionMs;
      if !(0 <= startIndex <= |items|) {
        return PlayerSpec.IndexOutOfBoundsException;
      }
      r := SetMediaItems(items[startIndex..]);
    }

    /** `setVideoSurfaceView(view)`, given `view?.holder?.surface`. */
    method SetVideoSurfaceView(viewSurface: Option<Surface>) returns (r: PlayerSpec.Outcome)
      modifies this
      ensures (Snapshot(), r) == PlayerSpec.SetVideoSurfaceView(old(Snapshot()), viewSurface)
    {
      r := ThrowIfReleased();
      if r != PlayerSpec.Completed {
        return;
      }
      if viewSurface.Some? {
        surface := viewSurface;
        calls := calls + [AttachSurface(viewSurface.value), SetOptionString("force-window", "yes")];
        if mediaItem.Some? {
          LoadFile(mediaItem.value);
        }
      } else {
        ClearVideoSurfaceView();
      }
    }

    method ClearVideoSurfaceView()
      modifies this
      ensures Snapshot() == PlayerSpec.ClearVideoSurfaceView(old(Snapshot()))
    {
      calls := calls + [DetachSurface];
      calls := calls + [SetPropertyString("vo", "null")];
      calls := calls + [SetPropertyString("force-window", "no")];
      mediaItem := None;
    }

    method LoadFile(item: MediaItem)
      modifies this
      ensures Snapshot() == PlayerSpec.LoadFile(old(Snapshot()), item)
    {
      isLoadingFile := true;
      queued := queued + [IsLoadingChanged(true)];
      var url := PlayerSpec.Url(item);
      var args;
      if startPositionMs > 0 {
        args := [Arg("loadfile"), Arg(url), Arg("replace"), Arg("-1"), StartAt(startPositionMs)];
      } else {
        args := [Arg("loadfile"), Arg(url), Arg("replace"), Arg("-1")];
      }
      assert args == PlayerSpec.LoadFileArgs(url, startPositionMs);
      calls := calls + [Command(args)];
      calls := calls + [SetPropertyString("vo", "gpu")];
    }

    // -------------------------------------------------------------------
    // Commands
    // -------------------------------------------------------------------

    /** Setting `subtitleDelay`. */
    method SetSubtitleDelay(delay: real)
      modifies this
      ensures Snapshot() == PlayerSpec.SetSubtitleDelay(old(Snapshot()), delay)
    {
      if isReleased {
        return;
      }
      calls := calls + [SetPropertyReal("sub-delay", delay)];
    }

    /** `setPlaybackParameters(params)`, given the requested speed; it does not check for release. */
    method SetPlaybackParameters(speed: real)
      modifies this
      ensures Snapshot() == PlayerSpec.SetPlaybackParameters(old(Snapshot()), speed)
    {
      calls := calls + [SetPropertyReal("speed", speed)];
    }

    method SeekTo(mediaItemIndex: int, positionMs: Int64)
      modifies this
      ensures Snapshot() == PlayerSpec.SeekTo(old(Snapshot()), mediaItemIndex, positionMs)
    {
      if isReleased {
        return;
      }
      if mediaItemIndex == IndexUnset {
        return;
      }
      calls := calls + [SetPropertyDouble("time-pos", positionMs)];
    }

    /** `setTrackSelectionParameters(params)`, with the engine's current track list. */
    method SetTrackSelectionParameters(params: TrackSelectionParameters, view: TrackListView)
      modifies this
      ensures Snapshot() == PlayerSpec.SetTrackSelectionParameters(old(Snapshot()), params, view)
    {
      if isReleased {
        return;
      }
      var tracks := GetTracks(view);
      ghost var before := calls;
      DisableTrackTypes(params.disabledTrackTypes);
      SelectOverrides(tracks, params.overrides);
      assert calls == before + (DisabledTypeCalls(params.disabledTrackTypes) + OverrideCalls(tracks, params.overrides));
    }

    /** The writes for `disabledTrackTypes` in `setTrackSelectionParameters`. */
    method DisableTrackTypes(disabled: set<TrackType>)
      modifies this`calls
      ensures calls == old(calls) + DisabledTypeCalls(disabled)
    {
      if TextTrack in disabled {
        calls := calls + [SetPropertyString("sid", "no")];
      }
      if AudioTrack in disabled {
        calls := calls + [SetPropertyString("aid", "no")];
      }
    }

    /** The `overrides.forEach` loop of `setTrackSelectionParameters`. */
    method SelectOverrides(tracks: seq<Group>, overrides: seq<TrackGroup>)
      requires SingleFormatGroups(tracks)
      modifies this`calls
      ensures calls == old(calls) + OverrideCalls(tracks, overrides)
    {
      var i := 0;
      while i < |overrides|
        invariant 0 <= i <= |overrides|
        invariant calls == old(calls) + OverrideCalls(tracks, overrides[..i])
      {
        var trackGroup := overrides[i];
        OverrideCallsStep(tracks, overrides, i);
        var found := FirstGroupWith(tracks, trackGroup);
        if found.Some? {
          var g := found.value;
          var trackId := TrackIdOf(g.mediaTrackGroup.formats[0].id);
          var propertyName := PropertyForType(TrackGroupType(g.mediaTrackGroup));
          if trackId.Some? && propertyName.Some? {
            calls := calls + [SetPropertyString(propertyName.value, trackId.value)];
          }
        }
        i := i + 1;
      }
      assert overrides[..i] == overrides;
    }

    // -------------------------------------------------------------------
    // Engine events
    // -------------------------------------------------------------------

    method EventPropertyLong(property: PropertyName, value: Int64)
      modifies this
      ensures Snapshot() == PlayerSpec.EventPropertyLong(old(Snapshot()), property, value)
    {
      if property == PositionProperty {
        positionMs := SecondsToWholeMillis(value);
      }
    }

    method EventPropertyBoolean(property: PropertyName, value: bool)
      modifies this
      ensures Snapshot() == PlayerSpec.EventPropertyBoolean(old(Snapshot()), property, value)
    {
      if property == PausedProperty {
        isPaused := value;
        queued := queued + [IsPlayingChanged(!value)];
      }
    }

    /** `eventProperty(property, value: Double)`, with the value already in milliseconds. */
    method EventPropertyDouble(property: PropertyName, valueMs: Int64)
      modifies this
      ensures Snapshot() == PlayerSpec.EventPropertyDouble(old(Snapshot()), property, valueMs)
    {
      if property == DurationProperty {
        durationMs := valueMs;
      }
    }

    /** `event(eventId)`, with the engine's track list at that moment. */
    method Event(eventId: int, view: TrackListView)
      modifies this
      ensures Snapshot() == PlayerSpec.Event(old(Snapshot()), eventId, view)
    {
      if eventId == EventFileLoaded {
        isLoadingFile := false;
        queued := queued + [IsLoadingChanged(false)];
        if mediaItem.Some? && mediaItem.value.localConfiguration.Some? {
          AddSubtitles(mediaItem.value.localConfiguration.value.subtitleConfigurations);
        }
        queued := queued + [RenderedFirstFrame];
        queued := queued + [IsPlayingChanged(true)];
        queued := queued + [TracksChanged(GetTracks(view))];
      } else if eventId == EventPlaybackRestart || eventId == EventAudioReconfig || eventId == EventVideoReconfig {
        queued := queued + [TracksChanged(GetTracks(view))];
      }
    }

    /** The `subtitleConfigurations.forEach` loop run when a file has loaded. */
    method AddSubtitles(subs: seq<SubtitleConfiguration>)
      modifies this`calls
      ensures calls == old(calls) + PlayerSpec.SubtitleCalls(subs)
    {
      var i := 0;
      while i < |subs|
        invariant 0 <= i <= |subs|
        invariant calls == old(calls) + PlayerSpec.SubtitleCalls(subs[..i])
      {
        var sub := subs[i];
        var title := sub.displayLabel.GetOr("External Subtitles");
        calls := calls + [Command([Arg("sub-add"), Arg(sub.uri), Arg("auto"), Arg(title)])];
        assert PlayerSpec.SubtitleCalls(subs[..i + 1]) == PlayerSpec.SubtitleCalls(subs[..i]) + [PlayerSpec.SubtitleCall(subs[i])];
        i := i + 1;
      }
      assert subs[..i] == subs;
    }

    method EventEndFile(reason: int, error: int)
      modifies this
      ensures Snapshot() == PlayerSpec.EventEndFile(old(Snapshot()), reason, error)
    {
      queued := queued + [IsPlayingChanged(false)];
      if reason == EndFileReasonEof {
        queued := queued + [PlaybackStateChanged(Ended)];
      } else if reason == EndFileReasonStop {
        // started by the user: nothing more to post
      } else if reason == EndFileReasonError {
        queued := queued + [PlayerError(error)];
      }
    }

    // -------------------------------------------------------------------
    // Getters, given the engine's answers
    // -------------------------------------------------------------------

    function GetPlaybackState(): PlaybackState
      reads this
    {
      playbackState
    }

    function IsLoading(): bool
      reads this
    {
      isLoadingFile
    }

    function GetPlayWhenReady(enginePause: Option<bool>): (r: bool)
      reads this
      ensures isReleased ==> !r
      ensures !isReleased ==> r == !enginePause.GetOr(isPaused)
    {
      PlayerSpec.PlayWhenReady(Snapshot(), enginePause)
    }

    function GetDuration(engineMs: Option<Int64>): (r: Int64)
      reads this
      ensures isReleased || engineMs.None? ==> r == durationMs
      ensures !isReleased && engineMs.Some? ==> r == engineMs.value
    {
      PlayerSpec.Duration(Snapshot(), engineMs)
    }

    function GetCurrentPosition(engineMs: Option<Int64>): (r: Int64)
      reads this
      ensures isReleased || engineMs.None? ==> r == positionMs
      ensures !isReleased && engineMs.Some? ==> r == engineMs.value
    {
      PlayerSpec.CurrentPosition(Snapshot(), engineMs)
    }

    function GetTotalBufferedDuration(engineMs: Option<Int64>): (r: Int64)
      reads this
      ensures isReleased || engineMs.None? ==> r == 0
      ensures !isReleased && engineMs.Some? ==> r == engineMs.value
    {
      PlayerSpec.TotalBufferedDuration(Snapshot(), engineMs)
    }

    function GetBufferedPosition(engineMs: Option<Int64>, cacheMs: Option<Int64>): (r: Int64)
      reads this
      ensures isReleased ==> r == positionMs
      ensures var sum := GetCurrentPosition(engineMs) + GetTotalBufferedDuration(cacheMs);
        Int64Min <= sum <= Int64Max ==> r == sum
    {
      PlayerSpec.BufferedPosition(Snapshot(), engineMs, cacheMs)
    }

    function GetVideoSize(width: Option<Int32>, height: Option<Int32>): (r: VideoSize)
      reads this
      ensures isReleased || width.None? || height.None? ==> r == VideoSizeUnknown
      ensures !isReleased && width.Some? && height.Some? ==> r == VideoSize(width.value, height.value)
    {
      PlayerSpec.VideoSizeOf(Snapshot(), width, height)
    }

    function GetCurrentTracks(view: TrackListView): (r: seq<Group>)
      reads this
      ensures isReleased ==> r == []
      ensures !isReleased ==> r == GetTracks(view)
    {
      PlayerSpec.CurrentTracks(Snapshot(), view)
    }

    /** Reading `subtitleDelay`, given the engine's `sub-delay`. */
    function GetSubtitleDelay(engineDelay: Option<real>): (r: real)
      reads this
      ensures isReleased || engineDelay.None? ==> r == 0.0
      ensures !isReleased && engineDelay.Some? ==> r == engineDelay.value
    {
      PlayerSpec.SubtitleDelay(Snapshot(), engineDelay)
    }

    /** `getPlaybackParameters()`'s speed, given the engine's `speed`. */
    function GetPlaybackSpeed(engineSpeed: Option<real>): (r: real)
      ensures engineSpeed.None? ==> r == 1.0
      ensures engineSpeed.Some? ==> r == engineSpeed.value
    {
      PlayerSpec.PlaybackSpeed(engineSpeed)
    }
  }
}
