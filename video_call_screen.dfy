/** The call screen of the mobile client (mobile/screens/VideoCallScreen.js): its own copy of the
    recording clock text. */
module VideoCallScreen {
  import opened Wrappers
  import opened Clock
  import VideoCallPage

  /** `formatTime` on the mobile screen. */
  function FormatTime(seconds: nat): (s: string)
    ensures ParseClock(s) == Some(ClockFields(seconds))
    ensures |s| >= 8 && (seconds < 360000 ==> s[2] == ':' && s[5] == ':')
  {
    var f := ClockFields(seconds);
    ClockTextRoundTrip(f);
    ClockTextLength(f);
    ClockText(f)
  }

  /** The mobile screen and the web page show the same text for every time. */
  lemma SameAsWebPage(seconds: nat)
    ensures FormatTime(seconds) == VideoCallPage.FormatTime(seconds)
  {
  }
}
