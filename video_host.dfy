/**
 * The native host page of the video sample: the `{Message, Args}` notifications the web page
 * posts, the system media transport controls (SMTC) they drive, the remote-control buttons
 * that are turned into script calls, and the navigation flag that gates those calls.
 *
 * The SMTC is recorded as the last value written to each of its properties, script
 * execution as the list of scripts sent to the web view, and debug output as a list of
 * structured log entries.
 */
module VideoHost {
  import opened Wrappers
  import opened WindowsMedia

  // ---------------------------------------------------------------------------------------
  // Notifications from the web page
  // ---------------------------------------------------------------------------------------

  /** The keys of an already-parsed `Args` object that the host looks at; absent keys are `None`. */
  datatype Args = Args(
    currentTime: Option<real>,
    duration: Option<real>,
    title: Option<string>,
    subtitle: Option<string>)

  /** An already-parsed envelope; `args == None` is a null `Args` object. */
  datatype Notification = Notification(message: string, args: Option<Args>)

  const PlaybackStartedMessage := "PlaybackStarted"
  const PlaybackPausedMessage := "PlaybackPaused"
  const PlaybackEndedMessage := "PlaybackEnded"
  const TimeUpdateMessage := "TimeUpdate"
  const VideoUpdateMessage := "VideoUpdate"

  /** What the host writes to its debug output. */
  datatype LogEntry =
    | CouldNotParse(raw: string)
    | MissingTimeArguments
    | MissingTitle
    | UnexpectedMessage(message: string)
    | UnsupportedButton(code: int)
    | DisplayModeChanged
    | InitialNavigationFailed(webErrorStatus: int)

  // ---------------------------------------------------------------------------------------
  // The system media transport controls
  // ---------------------------------------------------------------------------------------

  /** The timeline properties handed to the SMTC, in seconds. */
  datatype Timeline = Timeline(
    startTime: real,
    minSeekTime: real,
    position: real,
    maxSeekTime: real,
    endTime: real)

  /** What the display updater commits: the content type and the video properties. */
  datatype VideoDisplay = VideoDisplay(kind: MediaPlaybackType, title: string, subtitle: string)

  /** One write to the SMTC. */
  datatype SmtcUpdate =
    | SetStatus(status: MediaPlaybackStatus)
    | SetTimeline(timeline: Timeline)
    | SetVideo(display: VideoDisplay)

  /**
   * The SMTC as the host sees it: which buttons are enabled and the last status,
   * timeline and display committed (`None` while never written).
   */
  datatype TransportControls = TransportControls(
    playEnabled: bool,
    pauseEnabled: bool,
    stopEnabled: bool,
    status: Option<MediaPlaybackStatus>,
    timeline: Option<Timeline>,
    display: Option<VideoDisplay>)

  /** The SMTC after one (possibly absent) write. */
  function Apply(c: TransportControls, u: Option<SmtcUpdate>): (c': TransportControls)
    ensures c'.playEnabled == c.playEnabled && c'.pauseEnabled == c.pauseEnabled
    ensures c'.stopEnabled == c.stopEnabled
    ensures c'.status == (if u.Some? && u.value.SetStatus? then Some(u.value.status) else c.status)
    ensures c'.timeline == (if u.Some? && u.value.SetTimeline? then Some(u.value.timeline) else c.timeline)
    ensures c'.display == (if u.Some? && u.value.SetVideo? then Some(u.value.display) else c.display)
  {
    match u
    case None => c
    case Some(SetStatus(s)) => c.(status := Some(s))
    case Some(SetTimeline(t)) => c.(timeline := Some(t))
    case Some(SetVideo(d)) => c.(display := Some(d))
  }

  /** UpdatePlaybackProgress: the timeline written for a position and a duration. */
  function TimelineFor(currentTime: real, duration: real): (t: Timeline)
    ensures t.startTime == 0.0 && t.minSeekTime == 0.0
    ensures t.position == currentTime
    ensures t.maxSeekTime == duration && t.endTime == duration
  {
    Timeline(0.0, 0.0, currentTime, duration, duration)
  }

  /** UpdateVideoMetadata: the display committed for a title and a subtitle. */
  function VideoDisplayFor(title: string, subtitle: string): (d: VideoDisplay)
    ensures d.kind == Video && d.title == title && d.subtitle == subtitle
  {
    VideoDisplay(Video, title, subtitle)
  }

  // ---------------------------------------------------------------------------------------
  // The dispatch of HandleJsonNotification
  // ---------------------------------------------------------------------------------------

  /** What one notification does: at most one SMTC write, and what is logged. */
  datatype Reaction = Reaction(update: Option<SmtcUpdate>, log: seq<LogEntry>)

  /** The status a status message writes, if the message is one. */
  function StatusFor(message: string): (s: Option<MediaPlaybackStatus>)
    ensures s.Some? <==> message in {PlaybackStartedMessage, PlaybackPausedMessage, PlaybackEndedMessage}
    ensures message == PlaybackStartedMessage ==> s == Some(Playing)
    ensures message == PlaybackPausedMessage ==> s == Some(Paused)
    ensures message == PlaybackEndedMessage ==> s == Some(Stopped)
  {
    if message == PlaybackStartedMessage then Some(Playing)
    else if message == PlaybackPausedMessage then Some(Paused)
    else if message == PlaybackEndedMessage then Some(Stopped)
    else None
  }

  /** True when the notification takes one of the recognised branches. */
  predicate IsRecognised(n: Notification)
  {
    || StatusFor(n.message).Some?
    || (n.message in {TimeUpdateMessage, VideoUpdateMessage} && n.args.Some?)
  }

  /** The flat dispatch over the message kind. */
  function Dispatch(n: Notification): (r: Reaction)
    // The three status messages write Playing, Paused and Stopped and log nothing.
    ensures n.message == PlaybackStartedMessage ==> r == Reaction(Some(SetStatus(Playing)), [])
    ensures n.message == PlaybackPausedMessage ==> r == Reaction(Some(SetStatus(Paused)), [])
    ensures n.message == PlaybackEndedMessage ==> r == Reaction(Some(SetStatus(Stopped)), [])
    // The status is written by the status messages and by nothing else.
    ensures (r.update.Some? && r.update.value.SetStatus?) <==> StatusFor(n.message).Some?
    // A timeline is written exactly when TimeUpdate comes with both keys ...
    ensures (r.update.Some? && r.update.value.SetTimeline?) <==>
      (n.message == TimeUpdateMessage && n.args.Some?
       && n.args.value.currentTime.Some? && n.args.value.duration.Some?)
    // ... and then it starts at 0, is seekable from 0 to the duration, and sits at the current time.
    ensures r.update.Some? && r.update.value.SetTimeline? ==>
      var t := r.update.value.timeline;
      && t.startTime == 0.0 && t.minSeekTime == 0.0
      && n.args.value.currentTime == Some(t.position)
      && n.args.value.duration == Some(t.maxSeekTime)
      && t.maxSeekTime == t.endTime
      && r.log == []
    // TimeUpdate with a key missing only logs.
    ensures n.message == TimeUpdateMessage && n.args.Some?
            && (n.args.value.currentTime.None? || n.args.value.duration.None?) ==>
      r == Reaction(None, [MissingTimeArguments])
    // The display is committed exactly for VideoUpdate with an Args object, as a Video,
    // with an absent title or subtitle read as "", and only a missing title logged.
    ensures (r.update.Some? && r.update.value.SetVideo?) <==>
      (n.message == VideoUpdateMessage && n.args.Some?)
    ensures r.update.Some? && r.update.value.SetVideo? ==>
      var d := r.update.value.display;
      && d.kind == Video
      && d.title == n.args.value.title.GetOr("")
      && d.subtitle == n.args.value.subtitle.GetOr("")
      && (r.log == [MissingTitle] <==> n.args.value.title.None?)
      && (r.log == [] <==> n.args.value.title.Some?)
    // Anything else, including TimeUpdate and VideoUpdate with a null Args, is only logged.
    ensures !IsRecognised(n) ==> r == Reaction(None, [UnexpectedMessage(n.message)])
    ensures |r.log| <= 1
  {
    if n.message == PlaybackStartedMessage then Reaction(Some(SetStatus(Playing)), [])
    else if n.message == PlaybackPausedMessage then Reaction(Some(SetStatus(Paused)), [])
    else if n.message == PlaybackEndedMessage then Reaction(Some(SetStatus(Stopped)), [])
    else if n.message == TimeUpdateMessage && n.args.Some? then
      var a := n.args.value;
      if a.currentTime.Some? && a.duration.Some? then
        Reaction(Some(SetTimeline(TimelineFor(a.currentTime.value, a.duration.value))), [])
      else
        Reaction(None, [MissingTimeArguments])
    else if n.message == VideoUpdateMessage && n.args.Some? then
      var a := n.args.value;
      var title := if a.title.Some? then a.title.value else "";
      var subtitle := if a.subtitle.Some? then a.subtitle.value else "";
      Reaction(Some(SetVideo(VideoDisplayFor(title, subtitle))), if a.title.Some? then [] else [MissingTitle])
    else
      Reaction(None, [UnexpectedMessage(n.message)])
  }

  /** An unrecognised notification leaves the status, the timeline and the display as they were. */
  lemma UnrecognisedChangesNothing(c: TransportControls, n: Notification)
    requires !IsRecognised(n)
    ensures Apply(c, Dispatch(n).update) == c
  {
  }

  /** Delivering the same notification twice leaves the SMTC as delivering it once. */
  lemma DispatchIdempotent(c: TransportControls, n: Notification)
    ensures var u := Dispatch(n).update; Apply(Apply(c, u), u) == Apply(c, u)
  {
  }

  /** The recorded status depends only on the last status message delivered. */
  lemma StatusIsLastWrite(c: TransportControls, n1: Notification, n2: Notification)
    requires StatusFor(n2.message).Some?
    ensures Apply(Apply(c, Dispatch(n1).update), Dispatch(n2).update).status == StatusFor(n2.message)
  {
  }

  // ---------------------------------------------------------------------------------------
  // Remote buttons and the display mode
  // ---------------------------------------------------------------------------------------

  /** The scripts sent to the web view and the log written for one event. */
  datatype ScriptReaction = ScriptReaction(scripts: seq<string>, log: seq<LogEntry>)

  const PlayScript := "play();"
  const PauseScript := "pause();"
  const ResetPlaybackScript := "resetPlayback();"
  const UpdateDisplayModeScript := "updateDisplayModeAsync();"

  /** The `switch` of HandleSMTCButtonPressed, entered only while navigated to a page. */
  function ButtonPress(navigated: bool, button: SystemMediaTransportControlsButton): (r: ScriptReaction)
    ensures !navigated ==> r == ScriptReaction([], [])
    ensures navigated && button == Play ==> r == ScriptReaction([PlayScript], [])
    ensures navigated && button == Pause ==> r == ScriptReaction([PauseScript], [])
    ensures navigated && button == Stop ==> r == ScriptReaction([ResetPlaybackScript], [])
    ensures navigated && button !in {Play, Pause, Stop} ==>
      r == ScriptReaction([], [UnsupportedButton(ButtonCode(button))])
    ensures |r.scripts| <= 1 && (r.scripts != [] ==> navigated)
  {
    if !navigated then ScriptReaction([], [])
    else
      match button
      case Play => ScriptReaction([PlayScript], [])
      case Pause => ScriptReaction([PauseScript], [])
      case Stop => ScriptReaction([ResetPlaybackScript], [])
      case _ => ScriptReaction([], [UnsupportedButton(ButtonCode(button))])
  }

  // ---------------------------------------------------------------------------------------
  // The page
  // ---------------------------------------------------------------------------------------

  class MainPage {
    /** True while the web view shows a page it navigated to successfully. */
    var isNavigatedToPage: bool
    /** True once the web view has been made the page's content (it then has a parent). */
    var webViewHasParent: bool
    var smtc: TransportControls
    /** Every script handed to the web view, in order. */
    var scripts: seq<string>
    var debugLog: seq<LogEntry>

    /** The page enables Play, Pause and Stop on the SMTC and has not navigated yet. */
    constructor ()
      ensures !isNavigatedToPage && !webViewHasParent
      ensures smtc == TransportControls(true, true, true, None, None, None)
      ensures scripts == [] && debugLog == []
    {
      isNavigatedToPage := false;
      webViewHasParent := false;
      smtc := TransportControls(true, true, true, None, None, None);
      scripts := [];
      debugLog := [];
    }

    method OnNavigationStarting()
      modifies this`isNavigatedToPage
      ensures !isNavigatedToPage
    {
      isNavigatedToPage := false;
    }

    /**
     * A successful completion sets the flag and, the first time, puts the web view on the
     * page; a failed one leaves the flag alone and, before the first success, logs the error.
     */
    method OnNavigationCompleted(isSuccess: bool, webErrorStatus: int)
      modifies this`isNavigatedToPage, this`webViewHasParent, this`debugLog
      ensures isNavigatedToPage == (isSuccess || old(isNavigatedToPage))
      ensures webViewHasParent == (isSuccess || old(webViewHasParent))
      ensures debugLog == old(debugLog) +
        (if !old(webViewHasParent) && !isSuccess then [InitialNavigationFailed(webErrorStatus)] else [])
    {
      if !webViewHasParent {
        if isSuccess {
          webViewHasParent := true;
        } else {
          debugLog := debugLog + [InitialNavigationFailed(webErrorStatus)];
        }
      }
      if isSuccess {
        isNavigatedToPage := true;
      }
    }

    /** A message that parsed as JSON is dispatched; any other is logged as it came. */
    method OnWebMessageReceived(raw: string, parsed: Option<Notification>)
      modifies this`smtc, this`debugLog
      ensures parsed.Some? ==> smtc == Apply(old(smtc), Dispatch(parsed.value).update)
      ensures parsed.Some? ==> debugLog == old(debugLog) + Dispatch(parsed.value).log
      ensures parsed.None? ==> smtc == old(smtc) && debugLog == old(debugLog) + [CouldNotParse(raw)]
    {
      if parsed.Some? {
        HandleJsonNotification(parsed.value);
      } else {
        debugLog := debugLog + [CouldNotParse(raw)];
      }
    }

    method HandleJsonNotification(n: Notification)
      modifies this`smtc, this`debugLog
      ensures smtc == Apply(old(smtc), Dispatch(n).update)
      ensures debugLog == old(debugLog) + Dispatch(n).log
    {
      var reaction := Dispatch(n);
      smtc := Apply(smtc, reaction.update);
      debugLog := debugLog + reaction.log;
    }

    method HandleSMTCButtonPressed(button: SystemMediaTransportControlsButton)
      modifies this`scripts, this`debugLog
      ensures scripts == old(scripts) + ButtonPress(isNavigatedToPage, button).scripts
      ensures debugLog == old(debugLog) + ButtonPress(isNavigatedToPage, button).log
    {
      var reaction := ButtonPress(isNavigatedToPage, button);
      scripts := scripts + reaction.scripts;
      debugLog := debugLog + reaction.log;
    }

    /** Sent whatever the navigation flag says. */
    method UpdateDisplayMode()
      modifies this`scripts, this`debugLog
      ensures scripts == old(scripts) + [UpdateDisplayModeScript]
      ensures debugLog == old(debugLog) + [DisplayModeChanged]
    {
      debugLog := debugLog + [DisplayModeChanged];
      scripts := scripts + [UpdateDisplayModeScript];
    }
  }

  /**
   * A remote press before the first page has loaded is dropped; after a successful
   * navigation it is sent once; a new navigation closes the gate again, while a
   * display-mode change goes through either way.
   */
  method NavigationGatesButtons()
  {
    var page := new MainPage();
    page.HandleSMTCButtonPressed(Play);
    assert page.scripts == [];
    page.OnNavigationCompleted(false, 5);
    page.HandleSMTCButtonPressed(Play);
    assert page.scripts == [] && !page.webViewHasParent;
    page.OnNavigationCompleted(true, 0);
    page.HandleSMTCButtonPressed(Play);
    assert page.scripts == [PlayScript] && page.webViewHasParent;
    page.OnNavigationStarting();
    page.HandleSMTCButtonPressed(Pause);
    page.UpdateDisplayMode();
    assert page.scripts == [PlayScript, UpdateDisplayModeScript];
  }

  /** The notifications of a short session and what the SMTC records after them. */
  method NotificationSession()
  {
    var page := new MainPage();
    page.HandleJsonNotification(Notification(TimeUpdateMessage, Some(Args(Some(12.5), Some(100.0), None, None))));
    assert page.smtc.timeline == Some(Timeline(0.0, 0.0, 12.5, 100.0, 100.0)) && page.debugLog == [];
    page.HandleJsonNotification(Notification(VideoUpdateMessage, Some(Args(None, None, None, Some("Ep 2")))));
    assert page.smtc.display == Some(VideoDisplay(Video, "", "Ep 2")) && page.debugLog == [MissingTitle];
    page.HandleJsonNotification(Notification(PlaybackStartedMessage, None));
    page.HandleJsonNotification(Notification(PlaybackStartedMessage, None));
    assert page.smtc.status == Some(Playing);
    page.HandleJsonNotification(Notification("Foo", None));
    assert page.smtc.status == Some(Playing) && page.debugLog == [MissingTitle, UnexpectedMessage("Foo")];
  }
}
