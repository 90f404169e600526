# WebView2 Xbox media samples: the native rules, modelled in Dafny

The video and music samples run their user interface as a web page inside a WebView2. Beside
it sits a little native C++ code, and this project models the parts of that code that make
decisions:

- **Video host** (`MainPage.cpp`). The web page posts `{Message, Args}` notifications. The host
  turns each one into at most one write to the system media transport controls (SMTC): a
  playback status, a timeline or the video display properties. Play, Pause and Stop each become
  one script call into the page, but only while the web view is navigated to a page; any other
  remote-control button is only logged. A
  display-mode change always sends its script. The two navigation events keep the
  "navigated" flag and decide when the web view becomes the page content.
- **Music playlist controller** (`MediaPlaybackController.cpp`). Loading a playlist rebuilds
  the list of `TrackMetadata` records and the system playback list from a parsed JSON track
  array. Playback starts at the last track whose id was requested, or at 0. The controller
  also does the bounds-checked `CurrentTrack` lookup, skips backwards and forwards only when a
  list exists, and takes the index reported by the item-changed event.
- **Track record** (`TrackMetadata.cpp`, `TrackMetadata.h`): four strings with getters and setters.
- **URI builders and fetch** (`PlaylistDataFetcher.cpp`). The track and playlist URIs put the id
  between a fixed prefix and suffix. Fetching reads a packaged file for the `ms-appx` scheme
  and sends an HTTP GET otherwise; a failure status gives the empty string.

Modules follow the sources. `VideoHost` models `MainPage.cpp`. `Playback` models
`MediaPlaybackController.cpp`. `Tracks` models `TrackMetadata`. `PlaylistData` models
`PlaylistDataFetcher.cpp`. `WindowsMedia` holds the WinRT enumerations both samples use, and
`Wrappers` holds `Option`.

Host APIs become recorded state:

- the SMTC is a record of which buttons are enabled and the last status, timeline and display written;
- script execution is the list of scripts sent;
- debug output is a list of structured log entries;
- the system playback list is its items plus the move requests made of it;
- the `SourceUpdate` event is the list of tracks it reported: the current track after an item change, null after a source change.

File reads, HTTP requests and JSON parsing are function parameters of the model.

The URI builders write the id into the stream through `c_str()`, and `GetUriFromTrackId`
returns its text through `c_str()` once more. So each id is cut at its first NUL character,
and the model does the same (`TakeUntil`). Read as plain concatenation, the builders give
prefix + id + suffix. That holds exactly for NUL-free ids (`TrackUriRoundTrip`,
`PlaylistUriRoundTrip`), and `TrackUriCutAtNul` shows two different ids that share a URI.

`isNavigatedToPage` is declared in `MainPage.h`; MainPage.h is not part of this model, so the
flag is taken to start false.

## Model

| member | source | states |
|---|---|---|
| WindowsMedia.ButtonCode | WebView2/cpp/JavaScriptVideoSample/JavaScriptVideoSample/MainPage.cpp:388 | The integer a button is logged as lies in 0..9, and is 0, 1 or 2 exactly for Play, Pause and Stop. |
| WindowsMedia.ButtonCodeInjective | WebView2/cpp/JavaScriptVideoSample/JavaScriptVideoSample/MainPage.cpp:388 | Two buttons with the same logged code are the same button, so the code in an "unsupported button" log names the button. |
| VideoHost.Apply | WebView2/cpp/JavaScriptVideoSample/JavaScriptVideoSample/MainPage.cpp:252-357 | One SMTC write replaces only the property it names: the status (lines 255, 260, 265), the timeline (328-335) or the display properties (347-357). The enabled buttons and the other two properties keep their values. |
| VideoHost.TimelineFor | WebView2/cpp/JavaScriptVideoSample/JavaScriptVideoSample/MainPage.cpp:323-336 | The timeline handed to the SMTC starts at 0 and is seekable from 0. Its position is the current time, and its maximum seek time and end time are the duration. |
| VideoHost.VideoDisplayFor | WebView2/cpp/JavaScriptVideoSample/JavaScriptVideoSample/MainPage.cpp:347-358 | The display committed is of type Video and carries the given title and subtitle unchanged. |
| VideoHost.StatusFor | WebView2/cpp/JavaScriptVideoSample/JavaScriptVideoSample/MainPage.cpp:252-266 | A message selects a playback status exactly when it is PlaybackStarted, PlaybackPaused or PlaybackEnded, and these select Playing, Paused and Stopped. |
| VideoHost.Dispatch | WebView2/cpp/JavaScriptVideoSample/JavaScriptVideoSample/MainPage.cpp:249-310 | The three status messages write Playing, Paused and Stopped and log nothing. A timeline is written exactly for TimeUpdate with Args holding both CurrentTime and Duration. That timeline starts at 0, is seekable from 0 to the duration and sits at the current time. TimeUpdate with a key missing only logs. The display is committed exactly for VideoUpdate with Args, as a Video, with a missing title or subtitle read as "". Only a missing title is logged. Every other message, including TimeUpdate or VideoUpdate with null Args, only logs "unexpected". At most one entry is logged. |
| VideoHost.UnrecognisedChangesNothing | WebView2/cpp/JavaScriptVideoSample/JavaScriptVideoSample/MainPage.cpp:306-310 | A notification outside the recognised branches leaves the whole SMTC record as it was. |
| VideoHost.DispatchIdempotent | WebView2/cpp/JavaScriptVideoSample/JavaScriptVideoSample/MainPage.cpp:252-304 | Delivering a notification twice leaves the SMTC as delivering it once. |
| VideoHost.StatusIsLastWrite | WebView2/cpp/JavaScriptVideoSample/JavaScriptVideoSample/MainPage.cpp:252-266 | After any notification followed by a status message, the recorded status is the one that status message selects. |
| VideoHost.ButtonPress | WebView2/cpp/JavaScriptVideoSample/JavaScriptVideoSample/MainPage.cpp:372-391 | Nothing happens unless the page is navigated. When it is, Play, Pause and Stop send "play();", "pause();" and "resetPlayback();", and any other button only logs its code. At most one script is ever sent. |
| VideoHost.MainPage.constructor | WebView2/cpp/JavaScriptVideoSample/JavaScriptVideoSample/MainPage.cpp:53-56 | Play, Pause and Stop are enabled on the SMTC. Nothing has been written, sent or logged, and the page is not navigated. |
| VideoHost.MainPage.OnNavigationStarting | WebView2/cpp/JavaScriptVideoSample/JavaScriptVideoSample/MainPage.cpp:149-152 | A starting navigation clears the navigated flag. |
| VideoHost.MainPage.OnNavigationCompleted | WebView2/cpp/JavaScriptVideoSample/JavaScriptVideoSample/MainPage.cpp:158-187 | Success sets the flag and makes the web view the page content. Failure leaves both as they were, and logs the error status only while the web view has no parent. |
| VideoHost.MainPage.OnWebMessageReceived | WebView2/cpp/JavaScriptVideoSample/JavaScriptVideoSample/MainPage.cpp:197-212 | A string message that parsed as JSON is dispatched. Any other string message leaves the SMTC alone and is logged as it came. |
| VideoHost.MainPage.HandleJsonNotification | WebView2/cpp/JavaScriptVideoSample/JavaScriptVideoSample/MainPage.cpp:236-311 | The SMTC gets the write Dispatch chose and the log gets its entries. Nothing else changes. |
| VideoHost.MainPage.HandleSMTCButtonPressed | WebView2/cpp/JavaScriptVideoSample/JavaScriptVideoSample/MainPage.cpp:365-393 | The scripts and the log grow by what ButtonPress chose for the current navigated flag. |
| VideoHost.MainPage.UpdateDisplayMode | WebView2/cpp/JavaScriptVideoSample/JavaScriptVideoSample/MainPage.cpp:398-407 | Whatever the flag, "updateDisplayModeAsync();" is sent and the mode change is logged. |
| Tracks.With | WebView2/cpp/JavaScriptMusicSample/NativeMediaPlayer/TrackMetadata.cpp:24-51 | Overwriting one field makes it read back the new value and leaves the other three fields unchanged. |
| Tracks.WithIdempotent | WebView2/cpp/JavaScriptMusicSample/NativeMediaPlayer/TrackMetadata.cpp:24-51 | Setting a field to the same value twice is setting it once. |
| Tracks.WithCommutes | WebView2/cpp/JavaScriptMusicSample/NativeMediaPlayer/TrackMetadata.cpp:24-51 | Setters of two different fields commute. |
| Tracks.TrackMetadata.Default | WebView2/cpp/JavaScriptMusicSample/NativeMediaPlayer/TrackMetadata.h:24-27 | A default-constructed record has four empty strings. |
| Tracks.TrackMetadata.constructor | WebView2/cpp/JavaScriptMusicSample/NativeMediaPlayer/TrackMetadata.cpp:10-19 | Each getter returns the constructor argument of the same name. |
| Tracks.TrackMetadata.Src | WebView2/cpp/JavaScriptMusicSample/NativeMediaPlayer/TrackMetadata.cpp:20-23 | The getter returns the record's src field. |
| Tracks.TrackMetadata.Title | WebView2/cpp/JavaScriptMusicSample/NativeMediaPlayer/TrackMetadata.cpp:28-31 | The getter returns the record's title field. |
| Tracks.TrackMetadata.Artist | WebView2/cpp/JavaScriptMusicSample/NativeMediaPlayer/TrackMetadata.cpp:36-39 | The getter returns the record's artist field. |
| Tracks.TrackMetadata.ThumbnailSrc | WebView2/cpp/JavaScriptMusicSample/NativeMediaPlayer/TrackMetadata.cpp:44-47 | The getter returns the record's thumbnailSrc field. |
| Tracks.TrackMetadata.SetSrc | WebView2/cpp/JavaScriptMusicSample/NativeMediaPlayer/TrackMetadata.cpp:24-27 | Src() returns the new value and only the src field changes. |
| Tracks.TrackMetadata.SetTitle | WebView2/cpp/JavaScriptMusicSample/NativeMediaPlayer/TrackMetadata.cpp:32-35 | Title() returns the new value and only the title field changes. |
| Tracks.TrackMetadata.SetArtist | WebView2/cpp/JavaScriptMusicSample/NativeMediaPlayer/TrackMetadata.cpp:40-43 | Artist() returns the new value and only the artist field changes. |
| Tracks.TrackMetadata.SetThumbnailSrc | WebView2/cpp/JavaScriptMusicSample/NativeMediaPlayer/TrackMetadata.cpp:48-51 | ThumbnailSrc() returns the new value and only the thumbnailSrc field changes. |
| Tracks.SetTwiceIsSetOnce | WebView2/cpp/JavaScriptMusicSample/NativeMediaPlayer/TrackMetadata.cpp:32-35 | Calling SetTitle twice with one value leaves the record as a single call does: only the title changes, to that value. |
| PlaylistData.TakeUntil | WebView2/cpp/JavaScriptMusicSample/NativeMediaPlayer/PlaylistDataFetcher.cpp:27-28 | What `c_str()` keeps is the longest prefix without the stop character: it contains none, and it ends at the stop character or at the end of the string. |
| PlaylistData.GetUriFromTrackId | WebView2/cpp/JavaScriptMusicSample/NativeMediaPlayer/PlaylistDataFetcher.cpp:24-29 | Taking the track prefix and suffix off the URI gives back the id, cut at its first NUL: the id is neither escaped nor checked, and the second `c_str()` loses nothing more. |
| PlaylistData.GetUriFromTrackIdSpec | WebView2/cpp/JavaScriptMusicSample/NativeMediaPlayer/PlaylistDataFetcher.cpp:24-29 | The track URI is "ms-appx:///WebCode/music/" + id + ".mp3", with the id cut at its first NUL. |
| PlaylistData.PlaylistUri | WebView2/cpp/JavaScriptMusicSample/NativeMediaPlayer/PlaylistDataFetcher.cpp:18-20 | Taking the playlist prefix and suffix off the URI GetPlaylistTracks builds gives back the id, cut at its first NUL. |
| PlaylistData.PlaylistUriSpec | WebView2/cpp/JavaScriptMusicSample/NativeMediaPlayer/PlaylistDataFetcher.cpp:18-20 | The playlist URI is "ms-appx:///WebCode/playlistdata/" + id + ".json", with the id cut at its first NUL. |
| PlaylistData.TrackUriRoundTrip | WebView2/cpp/JavaScriptMusicSample/NativeMediaPlayer/PlaylistDataFetcher.cpp:27 | A NUL-free id is recovered whole from its track URI: it is neither escaped nor checked. |
| PlaylistData.PlaylistUriRoundTrip | WebView2/cpp/JavaScriptMusicSample/NativeMediaPlayer/PlaylistDataFetcher.cpp:19 | A NUL-free id is recovered whole from its playlist URI. |
| PlaylistData.TrackUriInjective | WebView2/cpp/JavaScriptMusicSample/NativeMediaPlayer/PlaylistDataFetcher.cpp:27 | Two NUL-free ids with the same track URI are equal. |
| PlaylistData.PlaylistUriInjective | WebView2/cpp/JavaScriptMusicSample/NativeMediaPlayer/PlaylistDataFetcher.cpp:19 | Two NUL-free ids with the same playlist URI are equal. |
| PlaylistData.TrackUriCutAtNul | WebView2/cpp/JavaScriptMusicSample/NativeMediaPlayer/PlaylistDataFetcher.cpp:27-28 | The ids "a\0b" and "a\0c" differ but give the same track URI. |
| PlaylistData.Route | WebView2/cpp/JavaScriptMusicSample/NativeMediaPlayer/PlaylistDataFetcher.cpp:38 | A URI is read as a packaged file exactly when its scheme is "ms-appx". |
| PlaylistData.FetchStringFromUri | WebView2/cpp/JavaScriptMusicSample/NativeMediaPlayer/PlaylistDataFetcher.cpp:36-66 | An ms-appx URI gives the packaged file's text. Any other URI gets one GET, which gives the body on a 200-299 status and "" otherwise. |
| PlaylistData.PlaylistUriIsPackageFile | WebView2/cpp/JavaScriptMusicSample/NativeMediaPlayer/PlaylistDataFetcher.cpp:19-21 | Every playlist URI takes the packaged-file branch, whatever the id. |
| PlaylistData.GetPlaylistTracks | WebView2/cpp/JavaScriptMusicSample/NativeMediaPlayer/PlaylistDataFetcher.cpp:16-23 | The playlist text is the packaged file at the playlist URI, and no request is sent. |
| Playback.TrackFromJson | WebView2/cpp/JavaScriptMusicSample/NativeMediaPlayer/MediaPlaybackController.cpp:189-197 | CreateTrackMetadataFromJson. Its contract is the lemma TrackFromJsonSpec: the source is the track URI of the Id, and absent keys become "". |
| Playback.TrackIdOf | WebView2/cpp/JavaScriptMusicSample/NativeMediaPlayer/MediaPlaybackController.cpp:162 | A track's id is its Id string, or "" when the key is absent, exactly as `GetNamedString(L"Id", L"")` reads it (also at line 192). |
| Playback.TrackFromJsonSpec | WebView2/cpp/JavaScriptMusicSample/NativeMediaPlayer/MediaPlaybackController.cpp:189-197 | A track's source is the packaged audio file of its Id, with a missing Id read as "". A missing Title, Artist or Image becomes "". |
| Playback.ItemFromTrack | WebView2/cpp/JavaScriptMusicSample/NativeMediaPlayer/MediaPlaybackController.cpp:199-222 | The playback item is Music with the track's source, title and artist. It has a thumbnail exactly when ThumbnailSrc is non-empty, and then the thumbnail is that source. |
| Playback.LastMatch | WebView2/cpp/JavaScriptMusicSample/NativeMediaPlayer/MediaPlaybackController.cpp:158-166 | The result is an index of a track with the id and no later track below n has it. None means no track below n has it. |
| Playback.InitialTrackIndex | WebView2/cpp/JavaScriptMusicSample/NativeMediaPlayer/MediaPlaybackController.cpp:152-166 | The index a load starts at is 0 when no id is requested, and a valid index on a non-empty array. The lemma InitialTrackIndexSpec adds that it is 0 for an unmatched id and otherwise the largest matching index. |
| Playback.InitialTrackIndexSpec | WebView2/cpp/JavaScriptMusicSample/NativeMediaPlayer/MediaPlaybackController.cpp:152-166 | The initial index is 0 when the id is empty or no track has it. Otherwise it is the largest index of a track with that id. On a non-empty array it is a valid index. |
| Playback.InitialIndexStep | WebView2/cpp/JavaScriptMusicSample/NativeMediaPlayer/MediaPlaybackController.cpp:163-166 | Seeing one more track moves the initial index to it exactly when the requested id is non-empty and the track has it. |
| Playback.MirrorsAppend | WebView2/cpp/JavaScriptMusicSample/NativeMediaPlayer/MediaPlaybackController.cpp:168-170 | Appending the next track's record and item keeps the playlist and the playback list in step with the track array. |
| Playback.Distinct | WebView2/cpp/JavaScriptMusicSample/NativeMediaPlayer/MediaPlaybackController.cpp:167-168 | No record object stands for two playlist entries. Each loop turn constructs a new record, so a setter called on one entry changes no other. |
| Playback.MediaPlaybackController.constructor | WebView2/cpp/JavaScriptMusicSample/NativeMediaPlayer/MediaPlaybackController.h:50-54 | A new controller has an empty playlist, index 0, no playback list and no reported tracks. |
| Playback.MediaPlaybackController.CurrentTrack | WebView2/cpp/JavaScriptMusicSample/NativeMediaPlayer/MediaPlaybackController.cpp:36-44 | The result is non-null exactly when the index is below the playlist size, and then it is the record at that index. |
| Playback.MediaPlaybackController.PlayTrackAsync | WebView2/cpp/JavaScriptMusicSample/NativeMediaPlayer/MediaPlaybackController.cpp:140-187 | The playlist file is read. If its track array does not parse, nothing changes. Otherwise the old records are discarded and the playlist holds one fresh record per JSON track, in array order, no two of them the same object. A new playback list holds the matching items and has had one request, a move to the initial index. That index is also the current index, and the player's source is the list. |
| Playback.MediaPlaybackController.Rebuild | WebView2/cpp/JavaScriptMusicSample/NativeMediaPlayer/MediaPlaybackController.cpp:154-186 | After the load, the playlist and the fresh playback list mirror the track array entry by entry, with pairwise distinct fresh records. The current index is the initial index of the array, the list's only request is a move there, and the player's source is the list. |
| Playback.MediaPlaybackController.LoadTracks | WebView2/cpp/JavaScriptMusicSample/NativeMediaPlayer/MediaPlaybackController.cpp:154-170 | The loop leaves a new playback list with no requests, and the playlist and its items mirror every track in order, with pairwise distinct fresh records. It returns the initial index of the array. |
| Playback.MediaPlaybackController.AppendTrack | WebView2/cpp/JavaScriptMusicSample/NativeMediaPlayer/MediaPlaybackController.cpp:167-169 | One fresh record built from track n is appended to the playlist and its item to the playback list. The list's requests are kept, and the playlist still has no record twice. |
| Playback.MediaPlaybackController.PlayPlaylistAsync | WebView2/cpp/JavaScriptMusicSample/NativeMediaPlayer/MediaPlaybackController.cpp:111-114 | Loading with no track id works as PlayTrackAsync with "", so playback starts at index 0. |
| Playback.MediaPlaybackController.SkipPrevious | WebView2/cpp/JavaScriptMusicSample/NativeMediaPlayer/MediaPlaybackController.cpp:93-99 | With no playback list nothing happens. Otherwise one MovePrevious request is added. |
| Playback.MediaPlaybackController.SkipNext | WebView2/cpp/JavaScriptMusicSample/NativeMediaPlayer/MediaPlaybackController.cpp:100-106 | With no playback list nothing happens. Otherwise one MoveNext request is added. |
| Playback.MediaPlaybackController.OnPlayerSourceChanged | WebView2/cpp/JavaScriptMusicSample/NativeMediaPlayer/MediaPlaybackController.cpp:240-246 | A source change reports a null track through SourceUpdate and changes nothing else. |
| Playback.MediaPlaybackController.OnCurrentPlaybackItemChanged | WebView2/cpp/JavaScriptMusicSample/NativeMediaPlayer/MediaPlaybackController.cpp:248-261 | The index becomes the sender's index, even 0xFFFFFFFF. The track reported is the one at that index, which is non-null exactly when the index is below the playlist size. |

## Left out

- JSON parsing: envelopes, `Args` objects and track arrays arrive already parsed, with absent keys as `None`. Values of the wrong JSON type are not represented; on them the WinRT getters throw.
- A notification without a `Message` string, or with no `Args` key, makes `GetNamedString` or `GetNamedObject` throw in the source. The model's notification always has a message, and `Args` is either an object or null.
- Log text: debug output is recorded as structured entries (`LogEntry`) carrying the values the text would show. Formatting with `to_hstring` is not modelled.
- Times: seconds pass through as reals. The conversion of doubles to `TimeSpan` ticks and the floating-point `Ended()` comparison are not modelled.
- XAML and page setup: bounds mode, layout scaling, background brush and focus. These are pure interface work; "the web view becomes content" is only the `webViewHasParent` flag.
- WebView2 initialisation, the virtual host mapping, host-object injection and the injected start-up script: these are browser-runtime calls.
- Coroutines, dispatcher marshalling and fire-and-forget: each handler is one atomic sequential step.
- Volume, mute, the `Play`/`Pause` pass-throughs and the constructor's registrations on the player's `PositionChanged`, `PlaybackStateChanged` and `SourceChanged` events (MediaPlaybackController.cpp:26-30). These are thin wrappers over the player.
- The add/remove pairs of `TimeUpdate`, `PlaybackUpdate` and `SourceUpdate` (MediaPlaybackController.cpp:115-138). They subscribe handlers to the controller's own events, not the player's, and return tokens for removing them. The model keeps no handler list: `sourceUpdates` records what the controller raises on `SourceUpdate`, not who receives it.
- The `CurrentPlaylist` and `CurrentTrackIndex` getters (MediaPlaybackController.cpp:32-35, 45-48) return the controller's own fields, which the model exposes directly.
- `CurrentPlaylist` hands out the controller's live vector (MediaPlaybackController.h:53), which PlayTrackInternalAsync clears and refills in place (MediaPlaybackController.cpp:154, 168). A caller holding it therefore sees each reload. The model's `currentPlaylist` is a sequence value that a load replaces, so it does not capture that sharing or the update in place.
- Removing the old list's item-changed handler (MediaPlaybackController.cpp:143-146) removes nothing: the token from the registration at line 173 is discarded, and `playbackListItemChangedToken` keeps its default value. A replaced list can therefore still report its index. The model does not record which list an item-changed event comes from, and `OnCurrentPlaybackItemChanged` accepts any sender index, so it allows such late reports.
- The player's position and state handlers only raise argument-less events, so they are not modelled. The source-changed handler is `OnPlayerSourceChanged`. The model does not raise it by itself when `PlayTrackAsync` sets the player's source; a caller invokes it.
- The player's own reaction to a new source and to move requests belongs to the platform. Only the requests made are recorded; the resulting index reaches the controller through `OnCurrentPlaybackItemChanged`.
- VideoHost.MainPage.OnWebMessageReceived: a web message that is not a string makes `TryGetWebMessageAsString` (MainPage.cpp:201) throw. Such messages are not represented; the model's message is always a string.
- File and HTTP I/O. `readPackageFile` and `sendGet` are parameters, and their failures (missing file, network errors, exceptions) are not represented.
- PlaylistData.FetchStringFromUri: on a non-success status the source also writes a debug line with the URI and the status code (PlaylistDataFetcher.cpp:61-62). The model returns only the empty string and does not record that log.
- URI parsing: the scheme is taken as the text before the first ':'. The `Uri` class's own parsing, validation and scheme lower-casing are not modelled.
- Playback.MediaPlaybackController.PlayTrackAsync: a parse failure is modelled as "nothing changes", because the source's exception escapes before `Clear()`. A failure part-way through the loop cannot occur in the model.
- MediaPlaybackItem's source stream and thumbnail stream are recorded by their URI strings only.
- `App.h` and the GraphicsDisplayProxies wrapper over the HDMI API are not part of this model; they hold no rules of their own.
- The initial value of `isNavigatedToPage` comes from MainPage.h, which is not part of this model; it is taken to be false.
