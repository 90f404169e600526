/**
 * PlaylistDataFetcher of the music sample: the URIs of a track's audio file and of a
 * playlist's JSON file, built by putting the id between a fixed prefix and suffix, and the
 * choice between reading a packaged file and sending an HTTP GET.
 *
 * The id is written into a wide string stream through `c_str()`, so it is cut at its first
 * NUL character; the track URI is read back through `c_str()` once more. Reading the file and
 * sending the request are parameters of the model.
 */
module PlaylistData {
  import opened Wrappers

  const Nul: char := '\0'

  const TrackUriPrefix := "ms-appx:///WebCode/music/"
  const TrackUriSuffix := ".mp3"
  const PlaylistUriPrefix := "ms-appx:///WebCode/playlistdata/"
  const PlaylistUriSuffix := ".json"
  const PackageScheme := "ms-appx"

  // ---------------------------------------------------------------------------------------
  // Strings cut at a stop character
  // ---------------------------------------------------------------------------------------

  /** The longest prefix of `s` that does not contain `stop`. */
  function TakeUntil(s: string, stop: char): (t: string)
    ensures |t| <= |s| && t == s[..|t|]
    ensures stop !in t
    ensures |t| < |s| ==> s[|t|] == stop
  {
    if |s| == 0 || s[0] == stop then "" else [s[0]] + TakeUntil(s[1..], stop)
  }

  /** A string without the stop character is kept whole. */
  lemma TakeUntilWhole(s: string, stop: char)
    requires stop !in s
    ensures TakeUntil(s, stop) == s
  {
  }

  /** A stop-free prefix followed by the stop character is exactly what is kept. */
  lemma TakeUntilStopsAt(p: string, rest: string, stop: char)
    requires stop !in p && |rest| > 0 && rest[0] == stop
    ensures TakeUntil(p + rest, stop) == p
  {
    assert (p + rest)[|p|] == stop;
  }

  // ---------------------------------------------------------------------------------------
  // Putting an id between a prefix and a suffix, and taking it out again
  // ---------------------------------------------------------------------------------------

  function Wrap(prefix: string, id: string, suffix: string): (uri: string)
    ensures |uri| == |prefix| + |id| + |suffix|
    ensures uri[..|prefix|] == prefix
    ensures uri[|prefix|..|prefix| + |id|] == id
    ensures uri[|prefix| + |id|..] == suffix
  {
    prefix + id + suffix
  }

  /** The id between `prefix` and `suffix`, if `uri` has that shape. */
  function Unwrap(prefix: string, uri: string, suffix: string): Option<string>
  {
    if |prefix| + |suffix| <= |uri| && uri[..|prefix|] == prefix && uri[|uri| - |suffix|..] == suffix
    then Some(uri[|prefix|..|uri| - |suffix|])
    else None
  }

  lemma UnwrapWrap(prefix: string, id: string, suffix: string)
    ensures Unwrap(prefix, Wrap(prefix, id, suffix), suffix) == Some(id)
  {
  }

  /** Unwrap only accepts what Wrap could have built, so the two are inverse. */
  lemma WrapUnwrap(prefix: string, uri: string, suffix: string)
    requires Unwrap(prefix, uri, suffix).Some?
    ensures Wrap(prefix, Unwrap(prefix, uri, suffix).value, suffix) == uri
  {
    var id := Unwrap(prefix, uri, suffix).value;
    assert uri == uri[..|prefix|] + uri[|prefix|..|uri| - |suffix|] + uri[|uri| - |suffix|..];
  }

  // ---------------------------------------------------------------------------------------
  // The two URI builders
  // ---------------------------------------------------------------------------------------

  /** GetUriFromTrackId: the packaged audio file of a track. */
  function GetUriFromTrackId(trackId: string): (uri: string)
    ensures Unwrap(TrackUriPrefix, uri, TrackUriSuffix) == Some(TakeUntil(trackId, Nul))
  {
    var streamed := TrackUriPrefix + TakeUntil(trackId, Nul) + TrackUriSuffix;
    assert Nul !in streamed by {
      assert streamed == Wrap(TrackUriPrefix, TakeUntil(trackId, Nul), TrackUriSuffix);
    }
    TakeUntilWhole(streamed, Nul);
    UnwrapWrap(TrackUriPrefix, TakeUntil(trackId, Nul), TrackUriSuffix);
    TakeUntil(streamed, Nul)
  }

  /**
   * The track URI is the id, cut at its first NUL, between the track prefix and suffix:
   * reading the streamed text back through `c_str()` loses nothing more.
   */
  lemma GetUriFromTrackIdSpec(trackId: string)
    ensures GetUriFromTrackId(trackId) == Wrap(TrackUriPrefix, TakeUntil(trackId, Nul), TrackUriSuffix)
  {
    WrapUnwrap(TrackUriPrefix, GetUriFromTrackId(trackId), TrackUriSuffix);
  }

  /** The URI GetPlaylistTracks reads a playlist from. */
  function PlaylistUri(playlistId: string): (uri: string)
    ensures Unwrap(PlaylistUriPrefix, uri, PlaylistUriSuffix) == Some(TakeUntil(playlistId, Nul))
  {
    UnwrapWrap(PlaylistUriPrefix, TakeUntil(playlistId, Nul), PlaylistUriSuffix);
    PlaylistUriPrefix + TakeUntil(playlistId, Nul) + PlaylistUriSuffix
  }

  /** The playlist URI is the id, cut at its first NUL, between the playlist prefix and suffix. */
  lemma PlaylistUriSpec(playlistId: string)
    ensures PlaylistUri(playlistId) == Wrap(PlaylistUriPrefix, TakeUntil(playlistId, Nul), PlaylistUriSuffix)
  {
  }

  /** Ids without NUL are neither escaped nor checked: the id is recovered from its track URI. */
  lemma TrackUriRoundTrip(trackId: string)
    requires Nul !in trackId
    ensures Unwrap(TrackUriPrefix, GetUriFromTrackId(trackId), TrackUriSuffix) == Some(trackId)
  {
    GetUriFromTrackIdSpec(trackId);
    TakeUntilWhole(trackId, Nul);
  }

  lemma PlaylistUriRoundTrip(playlistId: string)
    requires Nul !in playlistId
    ensures Unwrap(PlaylistUriPrefix, PlaylistUri(playlistId), PlaylistUriSuffix) == Some(playlistId)
  {
    PlaylistUriSpec(playlistId);
    TakeUntilWhole(playlistId, Nul);
  }

  /** Distinct NUL-free ids give distinct track URIs. */
  lemma TrackUriInjective(a: string, b: string)
    requires Nul !in a && Nul !in b && GetUriFromTrackId(a) == GetUriFromTrackId(b)
    ensures a == b
  {
    TrackUriRoundTrip(a);
    TrackUriRoundTrip(b);
  }

  /** Distinct NUL-free ids give distinct playlist URIs. */
  lemma PlaylistUriInjective(a: string, b: string)
    requires Nul !in a && Nul !in b && PlaylistUri(a) == PlaylistUri(b)
    ensures a == b
  {
    PlaylistUriRoundTrip(a);
    PlaylistUriRoundTrip(b);
  }

  /** Ids that agree up to an embedded NUL share a track URI. */
  lemma TrackUriCutAtNul()
    ensures "a\0b" != "a\0c" && GetUriFromTrackId("a\0b") == GetUriFromTrackId("a\0c")
  {
    GetUriFromTrackIdSpec("a\0b");
    GetUriFromTrackIdSpec("a\0c");
    TakeUntilStopsAt("a", "\0b", Nul);
    TakeUntilStopsAt("a", "\0c", Nul);
    assert "a" + "\0b" == "a\0b" && "a" + "\0c" == "a\0c";
  }

  // ---------------------------------------------------------------------------------------
  // FetchStringFromUri
  // ---------------------------------------------------------------------------------------

  /** The scheme name of a URI: what comes before its first ':'. */
  function SchemeName(uri: string): string
  {
    TakeUntil(uri, ':')
  }

  datatype FetchRoute = PackageFile | HttpGet

  function Route(uri: string): (r: FetchRoute)
    ensures r == PackageFile <==> SchemeName(uri) == PackageScheme
  {
    if SchemeName(uri) == PackageScheme then PackageFile else HttpGet
  }

  datatype HttpResponse = HttpResponse(statusCode: int, content: string)

  /** HttpResponseMessage.IsSuccessStatusCode: a status in 200-299. */
  predicate IsSuccessStatusCode(statusCode: int)
  {
    200 <= statusCode <= 299
  }

  /**
   * A packaged file is read as it is; anything else is fetched with one GET, whose body is
   * returned on a success status and replaced by "" otherwise.
   */
  function FetchStringFromUri(uri: string, readPackageFile: string -> string, sendGet: string -> HttpResponse): (text: string)
    ensures Route(uri) == PackageFile ==> text == readPackageFile(uri)
    ensures Route(uri) == HttpGet && IsSuccessStatusCode(sendGet(uri).statusCode) ==>
      text == sendGet(uri).content
    ensures Route(uri) == HttpGet && !IsSuccessStatusCode(sendGet(uri).statusCode) ==> text == ""
  {
    if SchemeName(uri) == PackageScheme then
      readPackageFile(uri)
    else
      var response := sendGet(uri);
      if IsSuccessStatusCode(response.statusCode) then response.content else ""
  }

  /** Every playlist URI names a packaged file, whatever the id. */
  lemma PlaylistUriIsPackageFile(playlistId: string)
    ensures Route(PlaylistUri(playlistId)) == PackageFile
  {
    PlaylistUriSpec(playlistId);
    var uri := PlaylistUri(playlistId);
    assert uri == PackageScheme + uri[|PackageScheme|..];
    TakeUntilStopsAt(PackageScheme, uri[|PackageScheme|..], ':');
  }

  /** GetPlaylistTracks: the text of the playlist's packaged JSON file; no request is sent. */
  function GetPlaylistTracks(playlistId: string, readPackageFile: string -> string, sendGet: string -> HttpResponse): (text: string)
    ensures text == readPackageFile(PlaylistUri(playlistId))
  {
    PlaylistUriIsPackageFile(playlistId);
    FetchStringFromUri(PlaylistUri(playlistId), readPackageFile, sendGet)
  }
}
