/**
 * MediaPlaybackController of the music sample: the playlist the web page asked for, kept as
 * TrackMetadata objects, beside the system playback list built from the same tracks, and
 * the index of the track that is playing.
 *
 * The system playback list is recorded as its items and the move requests sent to it;
 * where it then moves is the platform's business and reaches the controller only through
 * the item-changed event.
 */
module Playback {
  import opened Wrappers
  import opened WindowsMedia
  import opened Tracks
  import opened PlaylistData

  /** C++ `uint32_t`. */
  newtype uint32 = x: int | 0 <= x < 0x1_0000_0000

  /** One element of an already-parsed `Tracks` array: its string keys, absent ones `None`. */
  datatype TrackJson = TrackJson(id: Option<string>, title: Option<string>, artist: Option<string>, image: Option<string>)

  /** A JSON array, whose size is a `uint32_t`. */
  type TrackArray = s: seq<TrackJson> | |s| < 0x1_0000_0000

  /** A MediaPlaybackItem: its source URI and the display properties applied to it. */
  datatype PlaybackItem = PlaybackItem(
    source: string,
    kind: MediaPlaybackType,
    title: string,
    artist: string,
    thumbnail: Option<string>)

  datatype ListRequest = MovePrevious | MoveNext | MoveTo(index: uint32)

  /** A MediaPlaybackList: its items and the requests made of it, oldest first. */
  datatype PlaybackList = PlaybackList(items: seq<PlaybackItem>, requests: seq<ListRequest>)

  /** `GetNamedString(L"Id", L"")`. */
  function TrackIdOf(json: TrackJson): (id: string)
    ensures json.id.Some? ==> id == json.id.value
    ensures json.id.None? ==> id == ""
  {
    json.id.GetOr("")
  }

  /** CreateTrackMetadataFromJson, as the fields of the record it constructs. */
  function TrackFromJson(json: TrackJson): TrackFields
  {
    TrackFields(
      GetUriFromTrackId(TrackIdOf(json)),
      json.title.GetOr(""),
      json.artist.GetOr(""),
      json.image.GetOr(""))
  }

  /**
   * A track's source is the packaged audio file named by its id (cut at a NUL), and a
   * missing title, artist or image becomes the empty string.
   */
  lemma TrackFromJsonSpec(json: TrackJson)
    ensures var f := TrackFromJson(json);
      && Unwrap(TrackUriPrefix, f.src, TrackUriSuffix) == Some(TakeUntil(TrackIdOf(json), Nul))
      && (json.id.None? ==> f.src == TrackUriPrefix + TrackUriSuffix)
      && (json.title.None? ==> f.title == "") && (json.title.Some? ==> f.title == json.title.value)
      && (json.artist.None? ==> f.artist == "") && (json.artist.Some? ==> f.artist == json.artist.value)
      && (json.image.None? ==> f.thumbnailSrc == "") && (json.image.Some? ==> f.thumbnailSrc == json.image.value)
  {
    GetUriFromTrackIdSpec(TrackIdOf(json));
  }

  /** CreatePlaybackItemFromMetadata: a music item that has a thumbnail only when one is named. */
  function ItemFromTrack(f: TrackFields): (item: PlaybackItem)
    ensures item.source == f.src && item.kind == Music
    ensures item.title == f.title && item.artist == f.artist
    ensures item.thumbnail.Some? <==> f.thumbnailSrc != ""
    ensures item.thumbnail.Some? ==> item.thumbnail.value == f.thumbnailSrc
  {
    var item := PlaybackItem(f.src, Music, f.title, f.artist, None);
    if f.thumbnailSrc != "" then item.(thumbnail := Some(f.thumbnailSrc)) else item
  }

  /** The last index below `n` of a track whose id is `trackId`, if there is one. */
  function LastMatch(tracks: seq<TrackJson>, trackId: string, n: nat): (r: Option<nat>)
    requires n <= |tracks|
    ensures r.Some? ==> r.value < n && TrackIdOf(tracks[r.value]) == trackId
    ensures r.Some? ==> forall j :: r.value < j < n ==> TrackIdOf(tracks[j]) != trackId
    ensures r.None? ==> forall j :: 0 <= j < n ==> TrackIdOf(tracks[j]) != trackId
  {
    if n == 0 then None
    else if TrackIdOf(tracks[n - 1]) == trackId then Some(n - 1)
    else LastMatch(tracks, trackId, n - 1)
  }

  /**
   * The index playback starts at once the first `n` tracks are seen: the last of them with
   * the requested id, or 0 when no id was requested or none matches.
   */
  function InitialIndexAfter(tracks: TrackArray, trackId: string, n: nat): uint32
    requires n <= |tracks|
  {
    if trackId == "" then 0
    else
      match LastMatch(tracks, trackId, n)
      case Some(k) => k as uint32
      case None => 0
  }

  /** The index playback starts at for the whole track array. */
  function InitialTrackIndex(tracks: TrackArray, trackId: string): (r: uint32)
    ensures |tracks| > 0 ==> (r as int) < |tracks|
    ensures trackId == "" ==> r == 0
  {
    InitialIndexAfter(tracks, trackId, |tracks|)
  }

  /**
   * The initial index is 0 when no id is requested or no track has it, and otherwise the
   * largest index of a track that has it; it is a valid index of a non-empty array.
   */
  lemma InitialTrackIndexSpec(tracks: TrackArray, trackId: string)
    ensures |tracks| > 0 ==> (InitialTrackIndex(tracks, trackId) as int) < |tracks|
    ensures trackId == "" ==> InitialTrackIndex(tracks, trackId) == 0
    ensures (forall j :: 0 <= j < |tracks| ==> TrackIdOf(tracks[j]) != trackId) ==> InitialTrackIndex(tracks, trackId) == 0
    ensures trackId != "" && (exists j :: 0 <= j < |tracks| && TrackIdOf(tracks[j]) == trackId) ==>
      var r := InitialTrackIndex(tracks, trackId);
      && TrackIdOf(tracks[r]) == trackId
      && forall j :: r as int < j < |tracks| ==> TrackIdOf(tracks[j]) != trackId
  {
  }

  /** One more track moves the initial index to it exactly when it carries the requested id. */
  lemma InitialIndexStep(tracks: TrackArray, trackId: string, n: nat)
    requires n < |tracks|
    ensures InitialIndexAfter(tracks, trackId, n + 1) ==
      if trackId != "" && TrackIdOf(tracks[n]) == trackId then n as uint32 else InitialIndexAfter(tracks, trackId, n)
  {
  }

  /**
   * The first `n` entries of the playlist and of the playback items agree with the first
   * `n` tracks they were built from, entry by entry and in order, and there are no others.
   */
  ghost predicate Mirrors(playlist: seq<TrackMetadata>, items: seq<PlaybackItem>, tracks: seq<TrackJson>, n: nat)
    reads playlist
  {
    && n <= |tracks| && |playlist| == n && |items| == n
    && forall k :: 0 <= k < n ==>
         playlist[k].Fields() == TrackFromJson(tracks[k]) && items[k] == ItemFromTrack(TrackFromJson(tracks[k]))
  }

  /** No record object stands for two entries: a setter on one entry changes no other. */
  predicate Distinct(playlist: seq<TrackMetadata>)
  {
    forall i, j :: 0 <= i < j < |playlist| ==> playlist[i] != playlist[j]
  }

  lemma MirrorsAppend(playlist: seq<TrackMetadata>, items: seq<PlaybackItem>, tracks: seq<TrackJson>, n: nat,
                      track: TrackMetadata, item: PlaybackItem)
    requires Mirrors(playlist, items, tracks, n) && n < |tracks|
    requires track.Fields() == TrackFromJson(tracks[n]) && item == ItemFromTrack(TrackFromJson(tracks[n]))
    ensures Mirrors(playlist + [track], items + [item], tracks, n + 1)
  {
  }

  class MediaPlaybackController {
    /** The tracks of the playlist loaded last, in the order of its JSON array. */
    var currentPlaylist: seq<TrackMetadata>
    /** The index the controller reports as playing. */
    var currentTrackIndex: uint32
    /** The system playback list, null until a playlist has been loaded. */
    var playbackList: Option<PlaybackList>
    /** True once the player's source is the playback list. */
    var playerSourceIsList: bool
    /** The tracks reported by the SourceUpdate event, oldest first (null for no track). */
    var sourceUpdates: seq<TrackMetadata?>

    constructor ()
      ensures currentPlaylist == [] && currentTrackIndex == 0
      ensures playbackList == None && !playerSourceIsList && sourceUpdates == []
    {
      currentPlaylist := [];
      currentTrackIndex := 0;
      playbackList := None;
      playerSourceIsList := false;
      sourceUpdates := [];
    }

    /** The track at the current index, or null when the index is past the playlist. */
    function CurrentTrack(): (t: TrackMetadata?)
      reads this
      ensures t != null <==> (currentTrackIndex as int) < |currentPlaylist|
      ensures t != null ==> t == currentPlaylist[currentTrackIndex]
    {
      if currentTrackIndex >= 0 && (currentTrackIndex as int) < |currentPlaylist| then
        currentPlaylist[currentTrackIndex]
      else
        null
    }

    /** The state a load of `tracks` starting from `trackId` leaves behind. */
    ghost predicate LoadedFrom(tracks: TrackArray, trackId: string)
      reads this, currentPlaylist
    {
      && playbackList.Some?
      && Mirrors(currentPlaylist, playbackList.value.items, tracks, |tracks|)
      && currentTrackIndex == InitialTrackIndex(tracks, trackId)
      && playbackList.value.requests == [MoveTo(currentTrackIndex)]
      && playerSourceIsList
    }

    /**
     * PlayTrackAsync and the PlayTrackInternalAsync it forwards to. The playlist's packaged
     * JSON file is read with `readPackageFile` and its `Tracks` array parsed with `parse`
     * (`None` when parsing throws); after a throw nothing has changed. Otherwise the
     * playlist and a fresh playback list are rebuilt from the array, one entry per track
     * in array order, and playback is moved to the initial index.
     */
    method PlayTrackAsync(playlistId: string, trackId: string, readPackageFile: string -> string,
                          sendGet: string -> HttpResponse, parse: string -> Option<TrackArray>)
      modifies this`currentPlaylist, this`currentTrackIndex, this`playbackList, this`playerSourceIsList
      ensures var data := parse(readPackageFile(PlaylistUri(playlistId)));
        && (data.None? ==> unchanged(this))
        && (data.Some? ==> LoadedFrom(data.value, trackId))
        && (data.Some? ==> forall k :: 0 <= k < |currentPlaylist| ==> fresh(currentPlaylist[k]))
        && (data.Some? ==> Distinct(currentPlaylist))
    {
      var trackDataString := GetPlaylistTracks(playlistId, readPackageFile, sendGet);
      var trackListJson := parse(trackDataString);
      if trackListJson.Some? {
        Rebuild(trackListJson.value, trackId);
      }
    }

    /** The part of PlayTrackInternalAsync after the track array has been parsed. */
    method Rebuild(tracks: TrackArray, trackId: string)
      modifies this`currentPlaylist, this`currentTrackIndex, this`playbackList, this`playerSourceIsList
      ensures LoadedFrom(tracks, trackId)
      ensures forall k :: 0 <= k < |currentPlaylist| ==> fresh(currentPlaylist[k])
      ensures Distinct(currentPlaylist)
    {
      var initialTrackIdx := LoadTracks(tracks, trackId);
      currentTrackIndex := initialTrackIdx;
      playerSourceIsList := true;
      playbackList := Some(playbackList.value.(requests := [MoveTo(initialTrackIdx)]));
    }

    /**
     * The loop of PlayTrackInternalAsync: the playlist is cleared and a new playback list
     * made, then one record and one item are appended per track while the initial index is
     * tracked.
     */
    method LoadTracks(tracks: TrackArray, trackId: string) returns (initialTrackIdx: uint32)
      modifies this`currentPlaylist, this`playbackList
      ensures playbackList.Some? && playbackList.value.requests == []
      ensures Mirrors(currentPlaylist, playbackList.value.items, tracks, |tracks|)
      ensures initialTrackIdx == InitialTrackIndex(tracks, trackId)
      ensures forall k :: 0 <= k < |currentPlaylist| ==> fresh(currentPlaylist[k])
      ensures Distinct(currentPlaylist)
    {
      initialTrackIdx := 0;

      currentPlaylist := [];
      playbackList := Some(PlaybackList([], []));

      var i := 0;
      while i < |tracks|
        invariant 0 <= i <= |tracks|
        invariant playbackList.Some? && playbackList.value.requests == []
        invariant Mirrors(currentPlaylist, playbackList.value.items, tracks, i)
        invariant initialTrackIdx == InitialIndexAfter(tracks, trackId, i)
        invariant forall k :: 0 <= k < |currentPlaylist| ==> fresh(currentPlaylist[k])
        invariant Distinct(currentPlaylist)
      {
        var trackJson := tracks[i];
        InitialIndexStep(tracks, trackId, i);
        if trackId != "" && TrackIdOf(trackJson) == trackId {
          initialTrackIdx := i as uint32;
        }
        var metadata := AppendTrack(tracks, i);
        i := i + 1;
      }
    }

    /** One turn of the loading loop: the record of track `n` and its playback item are appended. */
    method AppendTrack(tracks: TrackArray, n: nat) returns (metadata: TrackMetadata)
      requires n < |tracks| && playbackList.Some?
      requires Mirrors(currentPlaylist, playbackList.value.items, tracks, n)
      requires Distinct(currentPlaylist)
      modifies this`currentPlaylist, this`playbackList
      ensures fresh(metadata) && metadata.Fields() == TrackFromJson(tracks[n])
      ensures currentPlaylist == old(currentPlaylist) + [metadata]
      ensures playbackList == Some(old(playbackList).value.(items := old(playbackList).value.items + [ItemFromTrack(TrackFromJson(tracks[n]))]))
      ensures Mirrors(currentPlaylist, playbackList.value.items, tracks, n + 1)
      ensures Distinct(currentPlaylist)
    {
      var f := TrackFromJson(tracks[n]);
      metadata := new TrackMetadata(f.src, f.title, f.artist, f.thumbnailSrc);
      ghost var items := playbackList.value.items;
      currentPlaylist := currentPlaylist + [metadata];
      var item := ItemFromTrack(metadata.Fields());
      playbackList := Some(playbackList.value.(items := playbackList.value.items + [item]));
      MirrorsAppend(old(currentPlaylist), items, tracks, n, metadata, item);
    }

    /** PlayTrackAsync with no track id: playback starts at the first track. */
    method PlayPlaylistAsync(playlistId: string, readPackageFile: string -> string,
                             sendGet: string -> HttpResponse, parse: string -> Option<TrackArray>)
      modifies this`currentPlaylist, this`currentTrackIndex, this`playbackList, this`playerSourceIsList
      ensures var data := parse(readPackageFile(PlaylistUri(playlistId)));
        && (data.None? ==> unchanged(this))
        && (data.Some? ==> LoadedFrom(data.value, "") && currentTrackIndex == 0)
        && (data.Some? ==> forall k :: 0 <= k < |currentPlaylist| ==> fresh(currentPlaylist[k]))
        && (data.Some? ==> Distinct(currentPlaylist))
    {
      PlayTrackAsync(playlistId, "", readPackageFile, sendGet, parse);
    }

    /** Asks the playback list for the previous item; without a list nothing happens. */
    method SkipPrevious()
      modifies this`playbackList
      ensures old(playbackList).None? ==> playbackList == None
      ensures old(playbackList).Some? ==>
        playbackList == Some(old(playbackList).value.(requests := old(playbackList).value.requests + [MovePrevious]))
    {
      if playbackList.Some? {
        playbackList := Some(playbackList.value.(requests := playbackList.value.requests + [MovePrevious]));
      }
    }

    /** Asks the playback list for the next item; without a list nothing happens. */
    method SkipNext()
      modifies this`playbackList
      ensures old(playbackList).None? ==> playbackList == None
      ensures old(playbackList).Some? ==>
        playbackList == Some(old(playbackList).value.(requests := old(playbackList).value.requests + [MoveNext]))
    {
      if playbackList.Some? {
        playbackList := Some(playbackList.value.(requests := playbackList.value.requests + [MoveNext]));
      }
    }

    /**
     * The playback list moved to the item at `senderIndex` (0xFFFFFFFF when it has none):
     * the controller takes that index and reports the track there, or null.
     */
    method OnCurrentPlaybackItemChanged(senderIndex: uint32)
      modifies this`currentTrackIndex, this`sourceUpdates
      ensures currentTrackIndex == senderIndex
      ensures sourceUpdates == old(sourceUpdates) + [CurrentTrack()]
      ensures CurrentTrack() != null <==> (senderIndex as int) < |currentPlaylist|
    {
      currentTrackIndex := senderIndex;
      sourceUpdates := sourceUpdates + [CurrentTrack()];
    }

    /** The player took a new source: SourceUpdate reports no track, and nothing else changes. */
    method OnPlayerSourceChanged()
      modifies this`sourceUpdates
      ensures sourceUpdates == old(sourceUpdates) + [null]
    {
      sourceUpdates := sourceUpdates + [null];
    }
  }

  /** Loading a playlist, then skipping and hearing back from the list. */
  method PlaylistSession(readPackageFile: string -> string, sendGet: string -> HttpResponse,
                         parse: string -> Option<TrackArray>)
    requires parse(readPackageFile(PlaylistUri("p"))) ==
      Some([TrackJson(Some("a"), Some("A"), None, None), TrackJson(Some("a"), Some("A2"), Some("X"), None)])
  {
    var c := new MediaPlaybackController();
    c.SkipNext();
    assert c.playbackList == None;
    c.PlayTrackAsync("p", "a", readPackageFile, sendGet, parse);
    c.OnPlayerSourceChanged();
    assert c.currentTrackIndex == 1;
    assert c.CurrentTrack().Title() == "A2";
    assert c.currentPlaylist[0] != c.currentPlaylist[1];
    c.SkipNext();
    assert c.playbackList.value.requests == [MoveTo(1), MoveNext];
    c.OnCurrentPlaybackItemChanged(0xFFFF_FFFF);
    assert c.CurrentTrack() == null && c.sourceUpdates == [null, null];
  }
}
