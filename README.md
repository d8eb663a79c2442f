# MpvPlayer bookkeeping, modelled in Dafny

Wholphin plays video through `MpvPlayer`, an adapter that puts the native
libmpv engine behind Media3's `Player` interface. Most of the adapter forwards
calls to the engine. Beside that it keeps state of its own:

- shadow copies of what the engine reports asynchronously: pause flag,
  duration, position and playback state;
- the current media item, its start position and the attached surface;
- a loading flag and a one-way released flag;
- the translation between the engine's track list and Media3's `Tracks`,
  built around format ids of the form `"idx:id"`.

This project models that state machine and proves what it does.

The engine is opaque. Every property read the adapter makes is an input of
the operation: an `Option`, `None` when the engine gives no answer. Every
property write, option write and command, plus surface attachment and
teardown, is appended to a log `calls`. So "which engine calls happen" can be
stated and proved. Listener callbacks are posted to the application looper
and run later. The model records them in a second log `queued` and keeps
their order. It does not relate their order to the engine calls.

Modules, one per file:

- `Wrappers` (wrappers.dfy): `Option`, standing for Kotlin's nullable types.
- `Kotlin` (kotlin.dfy): `Int`/`Long` ranges, the wrapping `Long` sum,
  `Long.seconds.inWholeMilliseconds` with its saturation, decimal rendering of
  integers, `String.split` on one delimiter, `getOrNull`.
- `MpvEngine` (mpv_engine.dfy): the logged engine calls, command arguments,
  event ids and end-of-file reasons. The ids and reasons use libmpv's
  `mpv_event_id` and `mpv_end_file_reason` numbering.
- `Media3` (media3.dfy): the fields of the framework types that the adapter
  reads or builds.
- `Tracks` (tracks.dfy): `getTracks`, and the translation of a track
  selection back into engine writes.
- `PlayerSpec` (player_spec.dfy): the adapter's state as a value, one
  function per operation, and lemmas about any sequence of operations.
- `Mpv` (mpv_player.dfy): the class `MpvPlayer`. Its fields are updated in
  place, and its loops are the source's loops. Each method is proved to end in
  the state that the matching `PlayerSpec` function gives.

Facts about the code that the proofs bring out. Each one is stated in a contract.

- `clearVideoSurfaceView` and `setPlaybackParameters` have no release guard.
  They are the only operations that still write to the engine after `release`
  (`PlayerSpec.UnguardedOpsReachEngineAfterRelease`). Every other operation either
  returns early, throws, or writes nothing once the player is released
  (`PlayerSpec.ReleasedPlayerIsQuiet`).
- `clearVideoSurfaceView` forgets the media item but leaves the `surface`
  field set.
- The three-argument `setMediaItems` records `startPositionMs` before it can
  throw. It does so even on a released player and even for a bad start index.
- `eventEndFile` posts callbacks but changes no shadow field. The
  `playbackState` getter keeps its old value after the end of a file.
- A media item without a local configuration is loaded with the URL text
  `"null"`. This is Kotlin's `toString()` of a null `Uri`.

## Model

| member | source | states |
|---|---|---|
| `Kotlin.SecondsToWholeMillis` | app/src/main/java/com/github/damontecres/wholphin/util/mpv/MpvPlayer.kt:566-574 | whole seconds become seconds × 1000 while the duration is finite; from Long.MAX_VALUE / 2 milliseconds on, the result saturates to Long.MAX_VALUE, or to Long.MIN_VALUE for negative values, as an infinite Duration does; the sign is kept |
| `Kotlin.WrappingAdd` | app/src/main/java/com/github/damontecres/wholphin/util/mpv/MpvPlayer.kt:418-421 | the Long sum equals the integer sum when it fits, and is congruent to it modulo 2^64 otherwise |
| `Kotlin.NatToString` | app/src/main/java/com/github/damontecres/wholphin/util/mpv/MpvPlayer.kt:768 | the decimal text of a natural number is non-empty, all digits, with no leading zero |
| `Kotlin.IntToString` | app/src/main/java/com/github/damontecres/wholphin/util/mpv/MpvPlayer.kt:768 | the decimal text of an integer is digits with at most a leading minus sign, so it never contains ':' |
| `Kotlin.IntToStringRoundTrip` | app/src/main/java/com/github/damontecres/wholphin/util/mpv/MpvPlayer.kt:768 | reading the decimal text back gives the same integer |
| `Kotlin.IntToStringInjective` | app/src/main/java/com/github/damontecres/wholphin/util/mpv/MpvPlayer.kt:768 | distinct integers render to distinct texts |
| `Kotlin.Split` | app/src/main/java/com/github/damontecres/wholphin/util/mpv/MpvPlayer.kt:340 | split yields at least one piece, and no piece contains the delimiter |
| `Kotlin.JoinSplit` | app/src/main/java/com/github/damontecres/wholphin/util/mpv/MpvPlayer.kt:340 | joining the pieces of a split with the delimiter gives the original text |
| `Kotlin.SplitHasPiecesIffDelimiter` | app/src/main/java/com/github/damontecres/wholphin/util/mpv/MpvPlayer.kt:339-341 | a split yields more than one piece exactly when the delimiter occurs in the text |
| `Kotlin.SplitPair` | app/src/main/java/com/github/damontecres/wholphin/util/mpv/MpvPlayer.kt:339-341 | two delimiter-free texts joined by the delimiter split back into exactly those two |
| `Kotlin.GetOrNull` | app/src/main/java/com/github/damontecres/wholphin/util/mpv/MpvPlayer.kt:341 | getOrNull is present exactly for an index in range, and is then that element |
| `Media3.TrackTypeOfMime` | app/src/main/java/com/github/damontecres/wholphin/util/mpv/MpvPlayer.kt:755-761 | the four placeholder MIME types the adapter builds map to audio, video, text and unknown track types |
| `Tracks.MimeTypeOf` | app/src/main/java/com/github/damontecres/wholphin/util/mpv/MpvPlayer.kt:755-761 | each engine type's MIME type has the track type of that engine type: video, audio, sub→text, other→unknown |
| `Tracks.TrackTypeOfMpv` | app/src/main/java/com/github/damontecres/wholphin/util/mpv/MpvPlayer.kt:755-761 | "video", "audio" and "sub" map to the video, audio and text track types in both directions, and every other engine type to unknown |
| `Tracks.SelectionFlags` | app/src/main/java/com/github/damontecres/wholphin/util/mpv/MpvPlayer.kt:762-764 | the default bit is set exactly when the track is default, the forced bit exactly when it is forced |
| `Tracks.DisplayLabel` | app/src/main/java/com/github/damontecres/wholphin/util/mpv/MpvPlayer.kt:772 | the label is empty, the one present part, or title "," description |
| `Tracks.FormatId` | app/src/main/java/com/github/damontecres/wholphin/util/mpv/MpvPlayer.kt:768 | the id "$idx:$id" has exactly one ':', placed right after the index text, and its length is the two texts plus one |
| `Tracks.TrackAt` | app/src/main/java/com/github/damontecres/wholphin/util/mpv/MpvPlayer.kt:740-792 | an index yields no group exactly when the engine gives no type or no id; otherwise one format with id "idx:id", the engine type's MIME and track type, the codec, language, label, selection flags and channel count read for that index, the width and height only for a selected video track (else unset), and the selected flag |
| `Tracks.Collect` | app/src/main/java/com/github/damontecres/wholphin/util/mpv/MpvPlayer.kt:740-793 | the mapNotNull over a range gives at most one group per index of the range in total, each with one format; CollectInIndexOrder gives the exact order |
| `Tracks.GetTracks` | app/src/main/java/com/github/damontecres/wholphin/util/mpv/MpvPlayer.kt:737-795 | no track count gives no groups; otherwise at most count groups, each with one format |
| `Tracks.CollectSound` | app/src/main/java/com/github/damontecres/wholphin/util/mpv/MpvPlayer.kt:740-793 | every collected group is the group of an index in the range |
| `Tracks.GetTracksSound` | app/src/main/java/com/github/damontecres/wholphin/util/mpv/MpvPlayer.kt:737-795 | every group in getTracks comes from an engine track below the count with a type and an id |
| `Tracks.CollectComplete` | app/src/main/java/com/github/damontecres/wholphin/util/mpv/MpvPlayer.kt:740-793 | every index in the range that has a group contributes it |
| `Tracks.GetTracksComplete` | app/src/main/java/com/github/damontecres/wholphin/util/mpv/MpvPlayer.kt:737-795 | every engine track below the count with a type and an id appears in getTracks |
| `Tracks.CollectIndices` | app/src/main/java/com/github/damontecres/wholphin/util/mpv/MpvPlayer.kt:740-793 | the usable indices of a range (the engine gives a type and an id), each once, strictly increasing, and all of them |
| `Tracks.CollectLength` | app/src/main/java/com/github/damontecres/wholphin/util/mpv/MpvPlayer.kt:740-793 | the mapNotNull gives exactly as many groups as the range has usable indices |
| `Tracks.CollectAt` | app/src/main/java/com/github/damontecres/wholphin/util/mpv/MpvPlayer.kt:740-793 | the k-th collected group is the group of the k-th usable index |
| `Tracks.CollectInIndexOrder` | app/src/main/java/com/github/damontecres/wholphin/util/mpv/MpvPlayer.kt:740-793 | the collected groups are the groups of the usable indices, each once, in increasing index order |
| `Tracks.TrackAtInjective` | app/src/main/java/com/github/damontecres/wholphin/util/mpv/MpvPlayer.kt:768 | two indices with equal groups are the same index, since the format id names the index |
| `Tracks.GetTracksInIndexOrder` | app/src/main/java/com/github/damontecres/wholphin/util/mpv/MpvPlayer.kt:737-795 | getTracks lists the usable engine tracks below the count in index order, and no group occurs twice |
| `Tracks.PropertyForType` | app/src/main/java/com/github/damontecres/wholphin/util/mpv/MpvPlayer.kt:342-348 | audio, video and text have a selecting property and unknown has none |
| `Tracks.TrackIdOf` | app/src/main/java/com/github/damontecres/wholphin/util/mpv/MpvPlayer.kt:339-341 | no id gives nothing; otherwise the second piece is present exactly when the id contains ':', and it never contains ':' |
| `Tracks.FormatIdRoundTrip` | app/src/main/java/com/github/damontecres/wholphin/util/mpv/MpvPlayer.kt:339-341 | splitting "idx:id" at ':' gives exactly idx and id; element 1 is the engine id's text, which reads back as the id |
| `Tracks.FirstGroupWith` | app/src/main/java/com/github/damontecres/wholphin/util/mpv/MpvPlayer.kt:338 | the first group whose track group equals the key, and none exactly when no group matches |
| `Tracks.OverrideCall` | app/src/main/java/com/github/damontecres/wholphin/util/mpv/MpvPlayer.kt:337-356 | an override key yields at most one write, and only to aid, vid or sid; a key that matches no group of the track list yields no write |
| `Tracks.OverrideCalls` | app/src/main/java/com/github/damontecres/wholphin/util/mpv/MpvPlayer.kt:336-364 | the override loop makes at most one write per key, each to aid, vid or sid |
| `Tracks.OverrideCallsStep` | app/src/main/java/com/github/damontecres/wholphin/util/mpv/MpvPlayer.kt:336-364 | one more key appends exactly that key's write, if it has one |
| `Tracks.DisabledTypeCalls` | app/src/main/java/com/github/damontecres/wholphin/util/mpv/MpvPlayer.kt:325-334 | one write per disabled type and no other: sid=no first when text is disabled, aid=no last when audio is disabled, nothing when neither is |
| `Tracks.SelectionCalls` | app/src/main/java/com/github/damontecres/wholphin/util/mpv/MpvPlayer.kt:321-365 | the selection writes are string property writes, at most two plus one per override |
| `Tracks.OverrideCallOfListedGroup` | app/src/main/java/com/github/damontecres/wholphin/util/mpv/MpvPlayer.kt:337-356 | for a group in the track list the write depends only on that group's id and type |
| `Tracks.SelectListedTrack` | app/src/main/java/com/github/damontecres/wholphin/util/mpv/MpvPlayer.kt:337-356 | selecting a group from getTracks writes its engine id to aid for audio, vid for video, sid for sub, and nothing for other types; the id text reads back as the engine id |
| `PlayerSpec.Initial` | app/src/main/java/com/github/damontecres/wholphin/util/mpv/MpvPlayer.kt:67-93 | a new player is paused, unreleased, not loading, READY, with position -1, duration 0, start 0, no item, no surface and empty logs |
| `PlayerSpec.Prepare` | app/src/main/java/com/github/damontecres/wholphin/util/mpv/MpvPlayer.kt:213-218 | prepare sets duration 0, position -1 and READY, and changes nothing else |
| `PlayerSpec.SetPlayWhenReady` | app/src/main/java/com/github/damontecres/wholphin/util/mpv/MpvPlayer.kt:231-245 | unless released, writes pause = !playWhenReady and posts the change; released: no change at all |
| `PlayerSpec.Stop` | app/src/main/java/com/github/damontecres/wholphin/util/mpv/MpvPlayer.kt:285-295 | unreleased: pauses, clears the item, position -1, duration 0, IDLE, posts the callbacks; released: nothing changes and no engine call |
| `PlayerSpec.ClearVideoSurfaceView` | app/src/main/java/com/github/damontecres/wholphin/util/mpv/MpvPlayer.kt:477-483 | detaches the surface, sets vo=null and force-window=no, forgets the item, keeps the surface field, with no release guard |
| `PlayerSpec.Release` | app/src/main/java/com/github/damontecres/wholphin/util/mpv/MpvPlayer.kt:297-305 | afterwards released; the teardown is logged only when not yet released; a released player is unchanged |
| `PlayerSpec.ReleasedCheck` | app/src/main/java/com/github/damontecres/wholphin/util/mpv/MpvPlayer.kt:719-723 | throws IllegalStateException exactly when released |
| `PlayerSpec.Url` | app/src/main/java/com/github/damontecres/wholphin/util/mpv/MpvPlayer.kt:700 | the item's URI, or the text "null" without a local configuration |
| `PlayerSpec.LoadFileArgs` | app/src/main/java/com/github/damontecres/wholphin/util/mpv/MpvPlayer.kt:701-713 | the command is loadfile, url, replace, -1, with a fifth start= argument exactly when the start position is positive |
| `PlayerSpec.LoadFileCalls` | app/src/main/java/com/github/damontecres/wholphin/util/mpv/MpvPlayer.kt:700-715 | loadFile issues the loadfile command for the item's URL and start position, then the write vo=gpu, and no other call |
| `PlayerSpec.LoadFile` | app/src/main/java/com/github/damontecres/wholphin/util/mpv/MpvPlayer.kt:697-717 | loadFile sets the loading flag, posts it, logs the command and the vo write, and changes nothing else |
| `PlayerSpec.SetMediaItems` | app/src/main/java/com/github/damontecres/wholphin/util/mpv/MpvPlayer.kt:164-177 | throws after release; an empty list changes nothing; otherwise stores the first item and loads it only when a surface is attached |
| `PlayerSpec.SetMediaItemsFrom` | app/src/main/java/com/github/damontecres/wholphin/util/mpv/MpvPlayer.kt:179-187 | records the start position, throws IndexOutOfBounds for an index outside 0..size, otherwise sets the items from startIndex on |
| `PlayerSpec.SetVideoSurfaceView` | app/src/main/java/com/github/damontecres/wholphin/util/mpv/MpvPlayer.kt:458-475 | throws after release; a surface is stored, attached and the item loaded if there is one; no surface clears the view |
| `PlayerSpec.SeekTo` | app/src/main/java/com/github/damontecres/wholphin/util/mpv/MpvPlayer.kt:545-560 | writes time-pos only when not released and the index is set; otherwise no change |
| `PlayerSpec.SetTrackSelectionParameters` | app/src/main/java/com/github/damontecres/wholphin/util/mpv/MpvPlayer.kt:321-365 | no engine call when released; otherwise exactly the selection writes for the current track list |
| `PlayerSpec.EventPropertyLong` | app/src/main/java/com/github/damontecres/wholphin/util/mpv/MpvPlayer.kt:566-574 | the position property sets the position to the converted seconds; any other property changes nothing |
| `PlayerSpec.EventPropertyBoolean` | app/src/main/java/com/github/damontecres/wholphin/util/mpv/MpvPlayer.kt:576-587 | the pause property sets the shadow pause flag and posts isPlaying = !value; any other property changes nothing |
| `PlayerSpec.EventPropertyDouble` | app/src/main/java/com/github/damontecres/wholphin/util/mpv/MpvPlayer.kt:596-604 | the duration property sets the duration; any other property changes nothing |
| `PlayerSpec.SubtitleCall` | app/src/main/java/com/github/damontecres/wholphin/util/mpv/MpvPlayer.kt:616-619 | one four-argument command: sub-add, the subtitle's URI, auto, and its label or "External Subtitles" without one |
| `PlayerSpec.SubtitleCalls` | app/src/main/java/com/github/damontecres/wholphin/util/mpv/MpvPlayer.kt:615-620 | one sub-add command per subtitle configuration, in order |
| `PlayerSpec.ExternalSubtitleCalls` | app/src/main/java/com/github/damontecres/wholphin/util/mpv/MpvPlayer.kt:614-621 | no item or no local configuration gives no commands; otherwise one sub-add per subtitle configuration of the item, in order |
| `PlayerSpec.Event` | app/src/main/java/com/github/damontecres/wholphin/util/mpv/MpvPlayer.kt:606-659 | FILE_LOADED clears the loading flag, adds the subtitles and posts its callbacks; restart and reconfig events post the tracks; anything else changes nothing |
| `PlayerSpec.EventEndFile` | app/src/main/java/com/github/damontecres/wholphin/util/mpv/MpvPlayer.kt:661-695 | no field changes; posts isPlaying=false, then ENDED for EOF or the error for ERROR |
| `PlayerSpec.PlayWhenReady` | app/src/main/java/com/github/damontecres/wholphin/util/mpv/MpvPlayer.kt:247-252 | false when released; otherwise the negation of the engine's pause, or else of the shadow flag |
| `PlayerSpec.Duration` | app/src/main/java/com/github/damontecres/wholphin/util/mpv/MpvPlayer.kt:396-405 | the shadow duration when released or the engine gives none; otherwise the engine's value |
| `PlayerSpec.CurrentPosition` | app/src/main/java/com/github/damontecres/wholphin/util/mpv/MpvPlayer.kt:407-416 | the shadow position when released or the engine gives none; otherwise the engine's value |
| `PlayerSpec.TotalBufferedDuration` | app/src/main/java/com/github/damontecres/wholphin/util/mpv/MpvPlayer.kt:423-427 | 0 when released or the engine gives none; otherwise the engine's value |
| `PlayerSpec.BufferedPosition` | app/src/main/java/com/github/damontecres/wholphin/util/mpv/MpvPlayer.kt:418-421 | the shadow position when released; otherwise position plus buffered duration when the sum fits a Long, and the sum wrapped modulo 2^64 when it does not |
| `PlayerSpec.VideoSizeOf` | app/src/main/java/com/github/damontecres/wholphin/util/mpv/MpvPlayer.kt:489-499 | UNKNOWN when released or either dimension is missing; otherwise the engine's width and height |
| `PlayerSpec.CurrentTracks` | app/src/main/java/com/github/damontecres/wholphin/util/mpv/MpvPlayer.kt:307-311 | empty when released; otherwise getTracks |
| `PlayerSpec.SetPlaybackParameters` | app/src/main/java/com/github/damontecres/wholphin/util/mpv/MpvPlayer.kt:274-277 | writes the speed to the engine whether or not the player is released, and changes nothing else |
| `PlayerSpec.PlaybackSpeed` | app/src/main/java/com/github/damontecres/wholphin/util/mpv/MpvPlayer.kt:279-283 | the engine's speed, or 1 when the engine gives none, with no release guard |
| `PlayerSpec.SetSubtitleDelay` | app/src/main/java/com/github/damontecres/wholphin/util/mpv/MpvPlayer.kt:806-809 | unless released, writes sub-delay; released: no change; nothing else changes |
| `PlayerSpec.SubtitleDelay` | app/src/main/java/com/github/damontecres/wholphin/util/mpv/MpvPlayer.kt:802-805 | 0 when released or without an engine answer; otherwise the engine's sub-delay |
| `PlayerSpec.AppendedCalls` | app/src/main/java/com/github/damontecres/wholphin/util/mpv/MpvPlayer.kt:164-723 | every operation only appends to the call log, and this is what it appends |
| `PlayerSpec.ReleaseIdempotent` | app/src/main/java/com/github/damontecres/wholphin/util/mpv/MpvPlayer.kt:297-305 | a second release changes nothing |
| `PlayerSpec.CallLogAppendOnly` | app/src/main/java/com/github/damontecres/wholphin/util/mpv/MpvPlayer.kt:164-723 | over any sequence of operations the call log only grows and keeps its prefix |
| `PlayerSpec.ReleaseIsPermanent` | app/src/main/java/com/github/damontecres/wholphin/util/mpv/MpvPlayer.kt:88-90 | no sequence of operations makes a released player unreleased |
| `PlayerSpec.ReleasedWithoutMediaPreserved` | app/src/main/java/com/github/damontecres/wholphin/util/mpv/MpvPlayer.kt:297-305 | no operation breaks "released implies no media item": release clears the item and nothing sets it afterwards |
| `PlayerSpec.ReleasedWithoutMediaReachable` | app/src/main/java/com/github/damontecres/wholphin/util/mpv/MpvPlayer.kt:297-305 | from a state where being released implies having no media item, every sequence of operations keeps that |
| `PlayerSpec.ReleasedPlayerIsQuiet` | app/src/main/java/com/github/damontecres/wholphin/util/mpv/MpvPlayer.kt:231-560 | a released player without an item makes no engine call over any sequence of operations without clearVideoSurfaceView and setPlaybackParameters |
| `PlayerSpec.NoEngineCallAfterRelease` | app/src/main/java/com/github/damontecres/wholphin/util/mpv/MpvPlayer.kt:297-305 | after release the log holds the teardown at most once, and later operations other than clearVideoSurfaceView and setPlaybackParameters add nothing |
| `PlayerSpec.UnguardedOpsReachEngineAfterRelease` | app/src/main/java/com/github/damontecres/wholphin/util/mpv/MpvPlayer.kt:274-277 | on a released player, clearVideoSurfaceView still logs its three engine calls and setPlaybackParameters its speed write |
| `PlayerSpec.LoadfileAfterAppend` | app/src/main/java/com/github/damontecres/wholphin/util/mpv/MpvPlayer.kt:697-717 | a loadfile is among the appended calls exactly when it is in the appended part |
| `PlayerSpec.LoadfileAppendedIffLoads` | app/src/main/java/com/github/damontecres/wholphin/util/mpv/MpvPlayer.kt:697-717 | an operation appends a loadfile exactly when it loads a file |
| `PlayerSpec.LoadingFlagOfOp` | app/src/main/java/com/github/damontecres/wholphin/util/mpv/MpvPlayer.kt:610-612 | an operation leaves the player loading exactly when it loads a file or was loading, except FILE_LOADED, which stops it |
| `PlayerSpec.LoadingFlagFollowsLoadfile` | app/src/main/java/com/github/damontecres/wholphin/util/mpv/MpvPlayer.kt:697-699 | the loading flag is set exactly by operations that issue a loadfile command and cleared by FILE_LOADED |
| `PlayerSpec.StopThenReadShadow` | app/src/main/java/com/github/damontecres/wholphin/util/mpv/MpvPlayer.kt:285-295 | after stop with no engine answer the getters give duration 0 and position -1, and the state is IDLE |
| `PlayerSpec.ReleasedGettersIgnoreEngine` | app/src/main/java/com/github/damontecres/wholphin/util/mpv/MpvPlayer.kt:396-427 | after release the duration, position, buffer, tracks and subtitle-delay getters ignore the engine, and playWhenReady is false |
| `Mpv.MpvPlayer.constructor` | app/src/main/java/com/github/damontecres/wholphin/util/mpv/MpvPlayer.kt:57-93 | the fields start as the initial state |
| `Mpv.MpvPlayer.Prepare` | app/src/main/java/com/github/damontecres/wholphin/util/mpv/MpvPlayer.kt:213-218 | the new state is PlayerSpec.Prepare of the old |
| `Mpv.MpvPlayer.SetPlayWhenReady` | app/src/main/java/com/github/damontecres/wholphin/util/mpv/MpvPlayer.kt:231-245 | the new state is PlayerSpec.SetPlayWhenReady of the old |
| `Mpv.MpvPlayer.Pause` | app/src/main/java/com/github/damontecres/wholphin/util/mpv/MpvPlayer.kt:288 | pause is setPlayWhenReady(false) |
| `Mpv.MpvPlayer.Stop` | app/src/main/java/com/github/damontecres/wholphin/util/mpv/MpvPlayer.kt:285-295 | the new state is PlayerSpec.Stop of the old |
| `Mpv.MpvPlayer.Release` | app/src/main/java/com/github/damontecres/wholphin/util/mpv/MpvPlayer.kt:297-305 | the new state is PlayerSpec.Release of the old |
| `Mpv.MpvPlayer.ThrowIfReleased` | app/src/main/java/com/github/damontecres/wholphin/util/mpv/MpvPlayer.kt:719-723 | reports IllegalStateException exactly when released |
| `Mpv.MpvPlayer.SetMediaItems` | app/src/main/java/com/github/damontecres/wholphin/util/mpv/MpvPlayer.kt:164-177 | new state and outcome are PlayerSpec.SetMediaItems of the old state |
| `Mpv.MpvPlayer.SetMediaItemsFrom` | app/src/main/java/com/github/damontecres/wholphin/util/mpv/MpvPlayer.kt:179-187 | new state and outcome are PlayerSpec.SetMediaItemsFrom of the old state |
| `Mpv.MpvPlayer.SetVideoSurfaceView` | app/src/main/java/com/github/damontecres/wholphin/util/mpv/MpvPlayer.kt:458-475 | new state and outcome are PlayerSpec.SetVideoSurfaceView of the old state |
| `Mpv.MpvPlayer.ClearVideoSurfaceView` | app/src/main/java/com/github/damontecres/wholphin/util/mpv/MpvPlayer.kt:477-483 | the new state is PlayerSpec.ClearVideoSurfaceView of the old |
| `Mpv.MpvPlayer.LoadFile` | app/src/main/java/com/github/damontecres/wholphin/util/mpv/MpvPlayer.kt:697-717 | the new state is PlayerSpec.LoadFile of the old |
| `Mpv.MpvPlayer.SeekTo` | app/src/main/java/com/github/damontecres/wholphin/util/mpv/MpvPlayer.kt:545-560 | the new state is PlayerSpec.SeekTo of the old |
| `Mpv.MpvPlayer.SetPlaybackParameters` | app/src/main/java/com/github/damontecres/wholphin/util/mpv/MpvPlayer.kt:274-277 | the new state is PlayerSpec.SetPlaybackParameters of the old |
| `Mpv.MpvPlayer.SetSubtitleDelay` | app/src/main/java/com/github/damontecres/wholphin/util/mpv/MpvPlayer.kt:806-809 | the new state is PlayerSpec.SetSubtitleDelay of the old |
| `Mpv.MpvPlayer.SetTrackSelectionParameters` | app/src/main/java/com/github/damontecres/wholphin/util/mpv/MpvPlayer.kt:321-365 | the new state is PlayerSpec.SetTrackSelectionParameters of the old |
| `Mpv.MpvPlayer.DisableTrackTypes` | app/src/main/java/com/github/damontecres/wholphin/util/mpv/MpvPlayer.kt:325-334 | appends exactly the writes for the disabled types |
| `Mpv.MpvPlayer.SelectOverrides` | app/src/main/java/com/github/damontecres/wholphin/util/mpv/MpvPlayer.kt:336-364 | the loop appends exactly the override writes, in order |
| `Mpv.MpvPlayer.EventPropertyLong` | app/src/main/java/com/github/damontecres/wholphin/util/mpv/MpvPlayer.kt:566-574 | the new state is PlayerSpec.EventPropertyLong of the old |
| `Mpv.MpvPlayer.EventPropertyBoolean` | app/src/main/java/com/github/damontecres/wholphin/util/mpv/MpvPlayer.kt:576-587 | the new state is PlayerSpec.EventPropertyBoolean of the old |
| `Mpv.MpvPlayer.EventPropertyDouble` | app/src/main/java/com/github/damontecres/wholphin/util/mpv/MpvPlayer.kt:596-604 | the new state is PlayerSpec.EventPropertyDouble of the old |
| `Mpv.MpvPlayer.Event` | app/src/main/java/com/github/damontecres/wholphin/util/mpv/MpvPlayer.kt:606-659 | the new state is PlayerSpec.Event of the old |
| `Mpv.MpvPlayer.AddSubtitles` | app/src/main/java/com/github/damontecres/wholphin/util/mpv/MpvPlayer.kt:614-621 | the loop appends one sub-add per subtitle, in order |
| `Mpv.MpvPlayer.EventEndFile` | app/src/main/java/com/github/damontecres/wholphin/util/mpv/MpvPlayer.kt:661-695 | the new state is PlayerSpec.EventEndFile of the old |
| `Mpv.MpvPlayer.GetPlayWhenReady` | app/src/main/java/com/github/damontecres/wholphin/util/mpv/MpvPlayer.kt:247-252 | false when released; otherwise the negation of the engine's pause, or else of the isPaused field |
| `Mpv.MpvPlayer.GetDuration` | app/src/main/java/com/github/damontecres/wholphin/util/mpv/MpvPlayer.kt:396-405 | the durationMs field when released or the engine gives none; otherwise the engine's value |
| `Mpv.MpvPlayer.GetCurrentPosition` | app/src/main/java/com/github/damontecres/wholphin/util/mpv/MpvPlayer.kt:407-416 | the positionMs field when released or the engine gives none; otherwise the engine's value |
| `Mpv.MpvPlayer.GetTotalBufferedDuration` | app/src/main/java/com/github/damontecres/wholphin/util/mpv/MpvPlayer.kt:423-427 | 0 when released or the engine gives none; otherwise the engine's value |
| `Mpv.MpvPlayer.GetBufferedPosition` | app/src/main/java/com/github/damontecres/wholphin/util/mpv/MpvPlayer.kt:418-421 | the positionMs field when released; otherwise the sum of the position and buffered-duration getters when it fits a Long |
| `Mpv.MpvPlayer.GetVideoSize` | app/src/main/java/com/github/damontecres/wholphin/util/mpv/MpvPlayer.kt:489-499 | UNKNOWN when released or a dimension is missing; otherwise the engine's width and height |
| `Mpv.MpvPlayer.GetCurrentTracks` | app/src/main/java/com/github/damontecres/wholphin/util/mpv/MpvPlayer.kt:307-311 | empty when released; otherwise getTracks of the engine's track list |
| `Mpv.MpvPlayer.GetSubtitleDelay` | app/src/main/java/com/github/damontecres/wholphin/util/mpv/MpvPlayer.kt:802-805 | 0 when released or without an engine answer; otherwise the engine's sub-delay |
| `Mpv.MpvPlayer.GetPlaybackSpeed` | app/src/main/java/com/github/damontecres/wholphin/util/mpv/MpvPlayer.kt:279-283 | the engine's speed, or 1 when the engine gives none |

`isLoading()` and `getPlaybackState()` (lines 220-223, 266) return a field.
They are `Mpv.MpvPlayer.IsLoading` and `Mpv.MpvPlayer.GetPlaybackState`,
which carry no contract. The class getters are defined as the `PlayerSpec`
getter applied to the object's fields.

## Left out

- The libmpv engine (`MPVLib`): it is native code. Its reads are inputs and its writes are logged. Nothing is assumed about how it reacts to them.
- Engine configuration in `init` (lines 95-150): a fixed list of option writes, plus a platform version check, the property observers, the available-commands set and the track selector's setup. The call log starts after construction.
- Listener dispatch through `Handler.post`, `ListenerSet` and the looper: asynchronous framework code. Only the posted callbacks are kept, in order.
- `@Volatile` fields and any ordering across threads: the model is sequential.
- The engine names behind `MPVProperty.POSITION`, `PAUSED` and `DURATION`: that constants file is not part of this model, so the three are symbolic constructors.
- Floating point. The `Double` duration, position and cache values come in as milliseconds already converted (lines 396-427, 602). The `time-pos` written by `seekTo` and the `start=` argument of `loadfile` are kept as the millisecond value they are computed from.
- The speed and subtitle delay are kept as exact real numbers. The `Float` to `Double` widening in `setPlaybackParameters` is exact. The `Double` to `Float` narrowing in `getPlaybackParameters` is not modelled: the engine's answer is taken as already narrowed.
- `setPropertyColor` and `Color.mpvFormat` (lines 812-817): an extension the player itself never calls, which only formats floating-point colour channels.
- PlayerSpec.SetMediaItemsFrom: `IndexOutOfBoundsException` stands for whatever `subList` throws. For a negative start index that is IndexOutOfBoundsException. For a start index past the size, it is IllegalArgumentException for lists based on `java.util.AbstractList` (those of `listOf` and `mutableListOf`) and IndexOutOfBoundsException for others, such as Guava's `ImmutableList`.
- Media3 types beyond the fields used. Format's language normalisation is not modelled: the language is stored as the engine reports it. Media3's MIME-to-track-type table is reduced to top-level audio, video and text.
- The `track-list/<idx>/external` read in `getTracks`: its value is never used.
- Operations that only throw `UnsupportedOperationException`, return constants, or are TODO (lines 152, 189-209, 211, 225-229, 254-264, 268-272, 313-319, 367-394, 429-436, 442-456, 485-487, 501-543): there is no behaviour to model. `getApplicationLooper` (line 152) and `getAvailableCommands` (line 211) return the looper and the command set fixed at construction. `isLoading` (line 266) is modelled as `Mpv.MpvPlayer.IsLoading`. `getContentPosition` and `getContentBufferedPosition` (lines 438-440) return `getCurrentPosition` and `getBufferedPosition`, which are modelled.
- `addListener`, `removeListener`, the no-op `eventProperty` overloads for no value and for String values (lines 562-564, 589-594), and `onTrackSelectionsInvalidated`: they change no state the model keeps.
- Timber logging, including the warning for an override that matches no track.
