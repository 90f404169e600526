/**
 * The Windows.Media enumerations that both media samples pass to the system.
 * Constructors are declared in the order of the platform's numeric values.
 */
module WindowsMedia {

  /** Windows.Media.MediaPlaybackStatus. */
  datatype MediaPlaybackStatus = Closed | Changing | Stopped | Playing | Paused

  /** Windows.Media.MediaPlaybackType. */
  datatype MediaPlaybackType = Unknown | Music | Video | Image

  /** Windows.Media.SystemMediaTransportControlsButton: the buttons of a media remote. */
  datatype SystemMediaTransportControlsButton =
    | Play | Pause | Stop | Record | FastForward | Rewind
    | Next | Previous | ChannelUp | ChannelDown

  /** The integer a button converts to with `static_cast<int>`, used in log text. */
  function ButtonCode(b: SystemMediaTransportControlsButton): (code: int)
    ensures 0 <= code < 10
    ensures code == 0 <==> b == Play
    ensures code == 1 <==> b == Pause
    ensures code == 2 <==> b == Stop
  {
    match b
    case Play => 0
    case Pause => 1
    case Stop => 2
    case Record => 3
    case FastForward => 4
    case Rewind => 5
    case Next => 6
    case Previous => 7
    case ChannelUp => 8
    case ChannelDown => 9
  }

  /** The logged code names the button: no two buttons share one. */
  lemma ButtonCodeInjective(a: SystemMediaTransportControlsButton, b: SystemMediaTransportControlsButton)
    requires ButtonCode(a) == ButtonCode(b)
    ensures a == b
  {
  }

}
