/**
 * The translation between the engine's track list and Media3's `Tracks`:
 * `getTracks` builds one group per usable engine track with the format id
 * "idx:id", and `setTrackSelectionParameters` reads the engine id back out of
 * that format id to select a track by its type's property ("aid", "vid",
 * "sid").
 */
module Tracks {
  import opened Wrappers
  import opened Kotlin
  import opened MpvEngine
  import opened Media3

  /** The engine's answers to the reads of `track-list/<idx>/...` for one index. */
  datatype TrackProps = TrackProps(
    trackType: Option<string>,
    id: Option<Int32>,
    lang: Option<string>,
    codec: Option<string>,
    codecDesc: Option<string>,
    isDefault: Option<bool>,
    isForced: Option<bool>,
    isSelected: Option<bool>,
    channelCount: Option<Int32>,
    title: Option<string>)

  /** The answers for an index the engine knows nothing about. */
  const NoAnswer: TrackProps := TrackProps(None, None, None, None, None, None, None, None, None, None)

  /**
   * The engine's answers to every read `getTracks` makes: `track-list/count`,
   * the per-track properties (indices past `entries` get no answer), and the
   * `width` / `height` read for the selected video track.
   */
  datatype TrackListView = TrackListView(
    count: Option<Int32>,
    entries: seq<TrackProps>,
    width: Option<Int32>,
    height: Option<Int32>)

  function PropsAt(v: TrackListView, idx: int): TrackProps {
    if 0 <= idx < |v.entries| then v.entries[idx] else NoAnswer
  }

  /** The engine's track type names and the Media3 track type each stands for. */
  function TrackTypeOfMpv(mpvType: string): (t: TrackType)
    ensures t == VideoTrack <==> mpvType == "video"
    ensures t == AudioTrack <==> mpvType == "audio"
    ensures t == TextTrack <==> mpvType == "sub"
    ensures t == UnknownTrack <==> mpvType !in {"video", "audio", "sub"}
  {
    if mpvType == "video" then VideoTrack
    else if mpvType == "audio" then AudioTrack
    else if mpvType == "sub" then TextTrack
    else UnknownTrack
  }

  /** The placeholder sample MIME type given to a track of each engine type. */
  function MimeTypeOf(mpvType: string): (mime: string)
    ensures TrackTypeOfMime(Some(mime)) == TrackTypeOfMpv(mpvType)
  {
    if mpvType == "video" then "video/todo"
    else if mpvType == "audio" then "audio/todo"
    else if mpvType == "sub" then "text/todo"
    else "unknown/todo"
  }

  /** The OR of `SELECTION_FLAG_DEFAULT` and `SELECTION_FLAG_FORCED` as they apply. */
  function SelectionFlags(isDefault: bool, isForced: bool): (flags: int)
    ensures 0 <= flags <= SelectionFlagDefault + SelectionFlagForced
    ensures flags % 2 == 1 <==> isDefault
    ensures flags / 2 == 1 <==> isForced
  {
    (if isDefault then SelectionFlagDefault else 0) + (if isForced then SelectionFlagForced else 0)
  }

  /** `listOfNotNull(title, codecDescription).joinToString(",")`. */
  function DisplayLabel(title: Option<string>, codecDesc: Option<string>): (r: string)
    ensures title.None? && codecDesc.None? ==> r == ""
    ensures title.Some? && codecDesc.Some? ==> r == title.value + "," + codecDesc.value
    ensures title.Some? != codecDesc.Some? ==> r == (if title.Some? then title.value else codecDesc.value)
  {
    match (title, codecDesc)
    case (Some(t), Some(d)) => t + "," + d
    case (Some(t), None) => t
    case (None, Some(d)) => d
    case (None, None) => ""
  }

  /** The format id "$idx:$id" given to the track at index `idx` with engine id `id`. */
  function FormatId(idx: int, id: int): (r: string)
    ensures |r| == |IntToString(idx)| + 1 + |IntToString(id)|
    ensures forall k :: 0 <= k < |r| ==> (r[k] == ':' <==> k == |IntToString(idx)|)
  {
    IntToString(idx) + ":" + IntToString(id)
  }

  /** Whether the engine gives the index a type and an id, which is what `getTracks` requires of a track. */
  predicate Usable(v: TrackListView, idx: int) {
    PropsAt(v, idx).trackType.Some? && PropsAt(v, idx).id.Some?
  }

  /** The group built for one index, or none when the engine gives no type or no id. */
  function TrackAt(v: TrackListView, idx: int): (r: Option<Group>)
    ensures r.None? <==> PropsAt(v, idx).trackType.None? || PropsAt(v, idx).id.None?
    ensures r.Some? <==> Usable(v, idx)
    ensures r.Some? ==> |r.value.mediaTrackGroup.formats| == 1
    ensures r.Some? ==> r.value.mediaTrackGroup.formats[0].id == Some(FormatId(idx, PropsAt(v, idx).id.value))
    ensures r.Some? ==> TrackGroupType(r.value.mediaTrackGroup) == TrackTypeOfMpv(PropsAt(v, idx).trackType.value)
    ensures r.Some? ==> r.value.trackSelected == [PropsAt(v, idx).isSelected.GetOr(false)]
    ensures r.Some? ==> var f := r.value.mediaTrackGroup.formats[0]; var p := PropsAt(v, idx);
      f.selectionFlags == SelectionFlags(p.isDefault.GetOr(false), p.isForced.GetOr(false)) &&
      f.displayLabel == Some(DisplayLabel(p.title, p.codecDesc)) &&
      f.codecs == p.codec && f.language == p.lang &&
      f.sampleMimeType == Some(MimeTypeOf(p.trackType.value))
    ensures r.Some? ==> var f := r.value.mediaTrackGroup.formats[0]; var p := PropsAt(v, idx);
      f.channelCount == (if p.channelCount.Some? then p.channelCount.value else NoValue)
    ensures r.Some? ==> var f := r.value.mediaTrackGroup.formats[0]; var p := PropsAt(v, idx);
      if p.trackType.value == "video" && p.isSelected.GetOr(false)
      then f.width == v.width.GetOr(-1) && f.height == v.height.GetOr(-1)
      else f.width == NoValue && f.height == NoValue
  {
    var p := PropsAt(v, idx);
    if p.trackType.None? || p.id.None? then None
    else
      var t := p.trackType.value;
      var selected := p.isSelected.GetOr(false);
      var sized := t == "video" && selected;
      var format := Format(
        Some(FormatId(idx, p.id.value)),
        p.codec,
        Some(MimeTypeOf(t)),
        p.lang,
        Some(DisplayLabel(p.title, p.codecDesc)),
        SelectionFlags(p.isDefault.GetOr(false), p.isForced.GetOr(false)),
        if sized then v.width.GetOr(-1) else NoValue,
        if sized then v.height.GetOr(-1) else NoValue,
        if p.channelCount.Some? then p.channelCount.value else NoValue);
      Some(Group(TrackGroup("", [format]), false, [FormatHandled], [selected]))
  }

  /** Every group holds exactly one format, as the groups `getTracks` builds do. */
  predicate SingleFormatGroups(groups: seq<Group>) {
    forall g :: g in groups ==> |g.mediaTrackGroup.formats| == 1
  }

  /** `(lo..<hi).mapNotNull { TrackAt(v, it) }`. */
  function Collect(v: TrackListView, lo: int, hi: int): (r: seq<Group>)
    ensures |r| <= if lo < hi then hi - lo else 0
    ensures SingleFormatGroups(r)
    decreases hi - lo
  {
    if lo >= hi then []
    else
      var here := match TrackAt(v, lo) case None => [] case Some(g) => [g];
      here + Collect(v, lo + 1, hi)
  }

  /** `getTracks()`: empty when the engine gives no track count. */
  function GetTracks(v: TrackListView): (r: seq<Group>)
    ensures v.count.None? ==> r == []
    ensures v.count.Some? ==> |r| <= if v.count.value > 0 then v.count.value else 0
    ensures SingleFormatGroups(r)
  {
    match v.count
    case None => []
    case Some(n) => Collect(v, 0, n)
  }

  /** Every collected group is the group of some index in the range, so nothing is invented. */
  lemma {:induction false} CollectSound(v: TrackListView, lo: int, hi: int, g: Group)
    requires g in Collect(v, lo, hi)
    ensures exists idx :: lo <= idx < hi && TrackAt(v, idx) == Some(g)
    decreases hi - lo
  {
    var here := match TrackAt(v, lo) case None => [] case Some(h) => [h];
    assert Collect(v, lo, hi) == here + Collect(v, lo + 1, hi);
    if g !in here {
      CollectSound(v, lo + 1, hi, g);
    }
  }

  /** Every group of `getTracks` comes from an engine track below the count that has a type and an id. */
  lemma GetTracksSound(v: TrackListView, g: Group)
    requires g in GetTracks(v)
    ensures v.count.Some?
    ensures exists idx :: 0 <= idx < v.count.value && TrackAt(v, idx) == Some(g)
  {
    CollectSound(v, 0, v.count.value, g);
  }

  /** No usable engine track is lost: each one's group is in the range it was collected from. */
  lemma {:induction false} CollectComplete(v: TrackListView, lo: int, hi: int, idx: int)
    requires lo <= idx < hi
    requires TrackAt(v, idx).Some?
    ensures TrackAt(v, idx).value in Collect(v, lo, hi)
    decreases hi - lo
  {
    var here := match TrackAt(v, lo) case None => [] case Some(g) => [g];
    assert Collect(v, lo, hi) == here + Collect(v, lo + 1, hi);
    if idx > lo {
      CollectComplete(v, lo + 1, hi, idx);
    } else {
      assert here == [TrackAt(v, idx).value];
    }
  }

  /** Every engine track with a type and an id below the track count appears in `getTracks`. */
  lemma GetTracksComplete(v: TrackListView, idx: int)
    requires v.count.Some? && 0 <= idx < v.count.value
    requires TrackAt(v, idx).Some?
    ensures TrackAt(v, idx).value in GetTracks(v)
  {
    CollectComplete(v, 0, v.count.value, idx);
  }

  /**
   * The indices whose group `Collect` keeps: every index in the range where
   * the engine gives a type and an id, each once, in increasing order.
   */
  ghost function CollectIndices(v: TrackListView, lo: int, hi: int): (ix: seq<int>)
    ensures forall k :: 0 <= k < |ix| ==> lo <= ix[k] < hi && Usable(v, ix[k])
    ensures forall j, k :: 0 <= j < k < |ix| ==> ix[j] < ix[k]
    ensures forall i :: lo <= i < hi && Usable(v, i) ==> i in ix
    decreases hi - lo
  {
    if lo >= hi then []
    else (if Usable(v, lo) then [lo] else []) + CollectIndices(v, lo + 1, hi)
  }

  lemma {:induction false} CollectLength(v: TrackListView, lo: int, hi: int)
    ensures |Collect(v, lo, hi)| == |CollectIndices(v, lo, hi)|
    decreases hi - lo
  {
    if lo < hi {
      CollectLength(v, lo + 1, hi);
    }
  }

  /** The k-th collected group is the group of the k-th usable index. */
  lemma {:induction false} CollectAt(v: TrackListView, lo: int, hi: int, k: int)
    requires 0 <= k < |Collect(v, lo, hi)|
    ensures k < |CollectIndices(v, lo, hi)|
    ensures Collect(v, lo, hi)[k] == TrackAt(v, CollectIndices(v, lo, hi)[k]).value
    decreases hi - lo
  {
    CollectLength(v, lo, hi);
    CollectLength(v, lo + 1, hi);
    if Usable(v, lo) {
      if k > 0 {
        CollectAt(v, lo + 1, hi, k - 1);
      }
    } else {
      CollectAt(v, lo + 1, hi, k);
    }
  }

  /** `Collect` keeps the group of each usable index once, in index order, as `mapNotNull` does. */
  lemma CollectInIndexOrder(v: TrackListView, lo: int, hi: int)
    ensures |Collect(v, lo, hi)| == |CollectIndices(v, lo, hi)|
    ensures forall k :: 0 <= k < |Collect(v, lo, hi)| ==>
      Collect(v, lo, hi)[k] == TrackAt(v, CollectIndices(v, lo, hi)[k]).value
  {
    CollectLength(v, lo, hi);
    forall k | 0 <= k < |Collect(v, lo, hi)|
      ensures Collect(v, lo, hi)[k] == TrackAt(v, CollectIndices(v, lo, hi)[k]).value
    {
      CollectAt(v, lo, hi, k);
    }
  }

  /** Two indices never give the same group: the format id names its index. */
  lemma TrackAtInjective(v: TrackListView, i: int, j: int)
    requires TrackAt(v, i).Some? && TrackAt(v, j).Some?
    requires TrackAt(v, i) == TrackAt(v, j)
    ensures i == j
  {
    var a, b := PropsAt(v, i).id.value, PropsAt(v, j).id.value;
    assert FormatId(i, a) == FormatId(j, b);
    FormatIdRoundTrip(i, a);
    FormatIdRoundTrip(j, b);
    IntToStringInjective(i, j);
  }

  /**
   * `getTracks()` lists the usable engine tracks below the count in index
   * order, each exactly once, and no group twice.
   */
  lemma GetTracksInIndexOrder(v: TrackListView)
    requires v.count.Some?
    ensures var r := GetTracks(v); var ix := CollectIndices(v, 0, v.count.value);
      |r| == |ix| && forall k :: 0 <= k < |r| ==> r[k] == TrackAt(v, ix[k]).value
    ensures var r := GetTracks(v); forall j, k :: 0 <= j < k < |r| ==> r[j] != r[k]
  {
    var r := GetTracks(v);
    var ix := CollectIndices(v, 0, v.count.value);
    CollectInIndexOrder(v, 0, v.count.value);
    forall j, k | 0 <= j < k < |r|
      ensures r[j] != r[k]
    {
      if r[j] == r[k] {
        TrackAtInjective(v, ix[j], ix[k]);
        assert false;
      }
    }
  }

  // ---------------------------------------------------------------------
  // From a selected group back to the engine
  // ---------------------------------------------------------------------

  /** The engine property that selects a track of each type. */
  function PropertyForType(t: TrackType): (r: Option<string>)
    ensures r.Some? <==> t != UnknownTrack
  {
    match t
    case AudioTrack => Some("aid")
    case VideoTrack => Some("vid")
    case TextTrack => Some("sid")
    case UnknownTrack => None
  }

  /** `id?.split(":")?.getOrNull(1)`. */
  function TrackIdOf(formatId: Option<string>): (r: Option<string>)
    ensures formatId.None? ==> r.None?
    ensures formatId.Some? ==> (r.Some? <==> ':' in formatId.value)
    ensures r.Some? ==> ':' !in r.value
  {
    match formatId
    case None => None
    case Some(id) =>
      SplitHasPiecesIffDelimiter(id, ':');
      GetOrNull(Split(id, ':'), 1)
  }

  /** The format id is decoded by splitting at ':': the pieces are exactly `idx` and the engine id. */
  lemma FormatIdRoundTrip(idx: int, id: int)
    ensures Split(FormatId(idx, id), ':') == [IntToString(idx), IntToString(id)]
    ensures TrackIdOf(Some(FormatId(idx, id))) == Some(IntToString(id))
    ensures ParseInt(TrackIdOf(Some(FormatId(idx, id))).value) == Some(id)
  {
    var a, b := IntToString(idx), IntToString(id);
    assert ':' !in a by {
      forall i | 0 <= i < |a| ensures a[i] != ':' { }
    }
    assert ':' !in b by {
      forall i | 0 <= i < |b| ensures b[i] != ':' { }
    }
    SplitPair(a, b, ':');
    IntToStringRoundTrip(id);
  }

  /** `tracks.groups.firstOrNull { it.mediaTrackGroup == trackGroup }`. */
  function FirstGroupWith(groups: seq<Group>, tg: TrackGroup): (r: Option<Group>)
    ensures r.None? <==> forall k :: 0 <= k < |groups| ==> groups[k].mediaTrackGroup != tg
    ensures r.Some? ==> r.value in groups && r.value.mediaTrackGroup == tg
    ensures r.Some? ==>
      exists k :: 0 <= k < |groups| && groups[k] == r.value &&
        forall j :: 0 <= j < k ==> groups[j].mediaTrackGroup != tg
  {
    if |groups| == 0 then None
    else if groups[0].mediaTrackGroup == tg then Some(groups[0])
    else
      var r := FirstGroupWith(groups[1..], tg);
      if r.None? then None
      else
        var k :| 0 <= k < |groups[1..]| && groups[1..][k] == r.value &&
          forall j :: 0 <= j < k ==> groups[1..][j].mediaTrackGroup != tg;
        assert groups[k + 1] == r.value;
        r
  }

  /**
   * The engine write for one override key: the group's engine id written to
   * its type's property, or nothing when the group is not in the track list,
   * its id has no second piece, or its type has no property.
   */
  function OverrideCall(tracks: seq<Group>, tg: TrackGroup): (r: Option<EngineCall>)
    requires SingleFormatGroups(tracks)
    ensures r.Some? ==> r.value.SetPropertyString? && r.value.name in {"aid", "vid", "sid"}
    ensures (forall g :: g in tracks ==> g.mediaTrackGroup != tg) ==> r.None?
  {
    match FirstGroupWith(tracks, tg)
    case None => None
    case Some(g) =>
      var trackId := TrackIdOf(g.mediaTrackGroup.formats[0].id);
      var propertyName := PropertyForType(TrackGroupType(g.mediaTrackGroup));
      if trackId.Some? && propertyName.Some? then Some(SetPropertyString(propertyName.value, trackId.value))
      else None
  }

  /** The writes of the override loop, in iteration order. */
  function OverrideCalls(tracks: seq<Group>, overrides: seq<TrackGroup>): (r: seq<EngineCall>)
    requires SingleFormatGroups(tracks)
    ensures |r| <= |overrides|
    ensures forall k :: 0 <= k < |r| ==> r[k].SetPropertyString? && r[k].name in {"aid", "vid", "sid"}
  {
    if |overrides| == 0 then []
    else
      var last := overrides[|overrides| - 1];
      var before := OverrideCalls(tracks, overrides[..|overrides| - 1]);
      match OverrideCall(tracks, last)
      case None => before
      case Some(c) => before + [c]
  }

  /** One more override key adds at most its own write. */
  lemma OverrideCallsStep(tracks: seq<Group>, overrides: seq<TrackGroup>, i: int)
    requires SingleFormatGroups(tracks)
    requires 0 <= i < |overrides|
    ensures OverrideCalls(tracks, overrides[..i + 1]) ==
      OverrideCalls(tracks, overrides[..i]) +
        match OverrideCall(tracks, overrides[i]) case None => [] case Some(c) => [c]
  {
    assert overrides[..i + 1][..i] == overrides[..i];
  }

  /** The writes for the disabled track types: subtitles off first, then audio off. */
  function DisabledTypeCalls(disabled: set<TrackType>): (r: seq<EngineCall>)
    ensures TextTrack in disabled ==> |r| > 0 && r[0] == SetPropertyString("sid", "no")
    ensures AudioTrack in disabled ==> |r| > 0 && r[|r| - 1] == SetPropertyString("aid", "no")
    ensures TextTrack !in disabled && AudioTrack !in disabled ==> r == []
    ensures |r| == (if TextTrack in disabled then 1 else 0) + (if AudioTrack in disabled then 1 else 0)
    ensures forall k :: 0 <= k < |r| ==> r[k] in [SetPropertyString("sid", "no"), SetPropertyString("aid", "no")]
  {
    (if TextTrack in disabled then [SetPropertyString("sid", "no")] else [])
    + (if AudioTrack in disabled then [SetPropertyString("aid", "no")] else [])
  }

  /** Every engine write `setTrackSelectionParameters` makes, in order. */
  function SelectionCalls(tracks: seq<Group>, params: TrackSelectionParameters): (r: seq<EngineCall>)
    requires SingleFormatGroups(tracks)
    ensures forall k :: 0 <= k < |r| ==> r[k].SetPropertyString?
    ensures |r| <= 2 + |params.overrides|
  {
    DisabledTypeCalls(params.disabledTrackTypes) + OverrideCalls(tracks, params.overrides)
  }

  /** The outcome of an override key depends only on the group found for it, not on where it sits. */
  lemma OverrideCallOfListedGroup(tracks: seq<Group>, g: Group)
    requires SingleFormatGroups(tracks)
    requires g in tracks
    ensures var trackId := TrackIdOf(g.mediaTrackGroup.formats[0].id);
      var propertyName := PropertyForType(TrackGroupType(g.mediaTrackGroup));
      OverrideCall(tracks, g.mediaTrackGroup) ==
        if trackId.Some? && propertyName.Some? then Some(SetPropertyString(propertyName.value, trackId.value))
        else None
  {
  }

  /**
   * Selecting a group that `getTracks` produced writes the engine id that
   * group came from to the property of its engine type: "aid" for "audio",
   * "vid" for "video", "sid" for "sub", and nothing for any other type. The
   * written text reads back as that id.
   */
  lemma SelectListedTrack(v: TrackListView, idx: int)
    requires v.count.Some? && 0 <= idx < v.count.value
    requires TrackAt(v, idx).Some?
    ensures var p := PropsAt(v, idx);
      var t := p.trackType.value;
      OverrideCall(GetTracks(v), TrackAt(v, idx).value.mediaTrackGroup) ==
        if t == "audio" then Some(SetPropertyString("aid", IntToString(p.id.value)))
        else if t == "video" then Some(SetPropertyString("vid", IntToString(p.id.value)))
        else if t == "sub" then Some(SetPropertyString("sid", IntToString(p.id.value)))
        else None
    ensures ParseInt(IntToString(PropsAt(v, idx).id.value)) == Some(PropsAt(v, idx).id.value)
  {
    var g := TrackAt(v, idx).value;
    var id := PropsAt(v, idx).id.value;
    GetTracksComplete(v, idx);
    OverrideCallOfListedGroup(GetTracks(v), g);
    FormatIdRoundTrip(idx, id);
    assert TrackIdOf(g.mediaTrackGroup.formats[0].id) == Some(IntToString(id));
  }
}
