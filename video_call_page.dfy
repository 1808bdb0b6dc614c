/** The call page of the web client (frontend/src/pages/VideoCall.jsx): the recording clock text,
    the recording-status handlers, the mute and camera toggles and the chat input. */
module VideoCallPage {
  import opened Wrappers
  import opened Text
  import opened Clock
  import opened MediaTracks

  /** `formatTime`: the recording time as padded hours, minutes and seconds. */
  function FormatTime(seconds: nat): (s: string)
    ensures ParseClock(s) == Some(ClockFields(seconds))
    ensures |s| >= 8 && (|s| == 8 <==> seconds < 360000)
    ensures seconds < 360000 ==> s[2] == ':' && s[5] == ':'
  {
    var f := ClockFields(seconds);
    ClockTextRoundTrip(f);
    ClockTextLength(f);
    ClockText(f)
  }

  datatype RecordingStatus = Idle | Recording | Paused | Stopped

  /** Which recorder controls the page's hook hands it. */
  datatype RecorderApi = RecorderApi(start: bool, stop: bool, pause: bool, resume: bool)

  /** frontend/src/hooks/useWebRTC.js returns a start and a stop control but no pause or resume. */
  const ShippedHook := RecorderApi(true, true, false, false)

  datatype Handler = StartHandler | StopHandler | PauseHandler | ResumeHandler

  /** A call the page makes into the hook's recorder. */
  datatype RecorderCall = CallStart | CallStop | CallPause | CallResume

  /** Whether the handler runs at all: start also needs a connection. */
  function Fires(h: Handler, api: RecorderApi, connected: bool): (b: bool)
    ensures h == StartHandler ==> (b <==> connected && api.start)
    ensures h != StartHandler ==> (b <==> (h == StopHandler && api.stop) || (h == PauseHandler && api.pause) || (h == ResumeHandler && api.resume))
  {
    match h
    case StartHandler => connected && api.start
    case StopHandler => api.stop
    case PauseHandler => api.pause
    case ResumeHandler => api.resume
  }

  /** The recording status after a handler: a handler that fires moves to its own status, one that
      does not leaves the status alone. */
  function StatusAfter(status: RecordingStatus, h: Handler, api: RecorderApi, connected: bool): (r: RecordingStatus)
    ensures !Fires(h, api, connected) ==> r == status
    ensures Fires(h, api, connected) ==> r == match h
      case StartHandler => Recording
      case StopHandler => Stopped
      case PauseHandler => Paused
      case ResumeHandler => Recording
  {
    if !Fires(h, api, connected) then status
    else match h
      case StartHandler => Recording
      case StopHandler => Stopped
      case PauseHandler => Paused
      case ResumeHandler => Recording
  }

  /** With the shipped hook the pause and resume controls do nothing, so no handler ever leads
      into the paused status. */
  lemma ShippedHookNeverPauses(status: RecordingStatus, h: Handler, connected: bool)
    requires status != Paused
    ensures StatusAfter(status, h, ShippedHook, connected) != Paused
    ensures h == PauseHandler || h == ResumeHandler ==> StatusAfter(status, h, ShippedHook, connected) == status
  {
  }

  /** The recorder control each handler calls: its own one. */
  function RecorderCallOf(h: Handler): (c: RecorderCall)
    ensures c == CallStart <==> h == StartHandler
    ensures c == CallStop <==> h == StopHandler
    ensures c == CallPause <==> h == PauseHandler
    ensures c == CallResume <==> h == ResumeHandler
  {
    match h
    case StartHandler => CallStart
    case StopHandler => CallStop
    case PauseHandler => CallPause
    case ResumeHandler => CallResume
  }

  datatype ChatMessage = ChatMessage(id: int, sender: string, text: string, timestamp: string)

  /** `user.name || 'You'`: a missing or empty name shows as "You". */
  function SenderName(name: Option<string>): (s: string)
    ensures s != ""
    ensures name.Some? && name.value != "" ==> s == name.value
    ensures name.None? || name.value == "" ==> s == "You"
  {
    if name.Some? && name.value != "" then name.value else "You"
  }

  /** The page's state. The hook's stream, connection flag and recorder controls are inputs to it;
      `recorderLog` lists the calls the page made into the recorder. */
  class Page {
    var recordingTime: nat
    var recordingStatus: RecordingStatus
    var isMuted: bool
    var isVideoEnabled: bool
    var chatMessages: seq<ChatMessage>
    var newMessage: string
    var recorderLog: seq<RecorderCall>
    const hook: RecorderApi
    const isConnected: bool
    const localStream: MediaStream?

    constructor (hook: RecorderApi, isConnected: bool, localStream: MediaStream?)
      ensures this.hook == hook && this.isConnected == isConnected && this.localStream == localStream
      ensures recordingTime == 0 && recordingStatus == Idle && !isMuted && isVideoEnabled
      ensures chatMessages == [] && newMessage == "" && recorderLog == []
    {
      this.hook := hook;
      this.isConnected := isConnected;
      this.localStream := localStream;
      recordingTime := 0;
      recordingStatus := Idle;
      isMuted := false;
      isVideoEnabled := true;
      chatMessages := [];
      newMessage := "";
      recorderLog := [];
    }

    /** A handler that fires calls its recorder control and moves the status; start also resets
        the recording clock. */
    method HandleRecording(h: Handler)
      modifies this`recordingTime, this`recordingStatus, this`recorderLog
      ensures recordingStatus == StatusAfter(old(recordingStatus), h, hook, isConnected)
      ensures recorderLog == old(recorderLog) + (if Fires(h, hook, isConnected) then [RecorderCallOf(h)] else [])
      ensures recordingTime == (if h == StartHandler && Fires(h, hook, isConnected) then 0 else old(recordingTime))
    {
      if Fires(h, hook, isConnected) {
        recorderLog := recorderLog + [RecorderCallOf(h)];
        if h == StartHandler {
          recordingTime := 0;
        }
        recordingStatus := StatusAfter(recordingStatus, h, hook, isConnected);
      }
    }

    /** `toggleMute` as written: it writes the new muted flag itself into every audio track, so a
        muted page has its audio tracks enabled. */
    method ToggleMute()
      requires localStream != null ==> localStream.Valid()
      modifies this`isMuted, if localStream == null then {} else {localStream.audio}
      ensures localStream == null ==> isMuted == old(isMuted)
      ensures localStream != null ==>
        Toggle(isMuted, localStream.audio[..]) == Toggled(Toggle(old(isMuted), old(localStream.audio[..])), SameAsFlag)
    {
      if localStream == null {
        return;
      }
      isMuted := ToggleTracks(isMuted, localStream.audio, SameAsFlag);
    }

    /** The evidently intended mute toggle: every audio track is enabled exactly when the page is
        not muted, as in the mobile service. */
    method ToggleMuteIntended()
      requires localStream != null ==> localStream.Valid()
      modifies this`isMuted, if localStream == null then {} else {localStream.audio}
      ensures localStream == null ==> isMuted == old(isMuted)
      ensures localStream != null ==>
        Toggle(isMuted, localStream.audio[..]) == Toggled(Toggle(old(isMuted), old(localStream.audio[..])), OppositeOfFlag)
    {
      if localStream == null {
        return;
      }
      isMuted := ToggleTracks(isMuted, localStream.audio, OppositeOfFlag);
    }

    /** `toggleVideo`: every video track is enabled exactly when video is on. */
    method ToggleVideo()
      requires localStream != null ==> localStream.Valid()
      modifies this`isVideoEnabled, if localStream == null then {} else {localStream.video}
      ensures localStream == null ==> isVideoEnabled == old(isVideoEnabled)
      ensures localStream != null ==>
        Toggle(isVideoEnabled, localStream.video[..]) == Toggled(Toggle(old(isVideoEnabled), old(localStream.video[..])), SameAsFlag)
    {
      if localStream == null {
        return;
      }
      isVideoEnabled := ToggleTracks(isVideoEnabled, localStream.video, SameAsFlag);
    }

    /** A whitespace-only input is ignored. Otherwise exactly one message, holding the input as
        typed, is appended and the input is cleared. The id and the time label are given. */
    method SendChatMessage(now: int, userName: Option<string>, timeLabel: string)
      modifies this`chatMessages, this`newMessage
      ensures IsBlank(old(newMessage)) ==> chatMessages == old(chatMessages) && newMessage == old(newMessage)
      ensures !IsBlank(old(newMessage)) ==>
        && chatMessages == old(chatMessages) + [ChatMessage(now, SenderName(userName), old(newMessage), timeLabel)]
        && newMessage == ""
    {
      if Trim(newMessage) != "" {
        chatMessages := chatMessages + [ChatMessage(now, SenderName(userName), newMessage, timeLabel)];
        newMessage := "";
      }
    }
  }

  /** Starting unmuted with one enabled audio track, the page's mute leaves that track enabled
      while the page shows itself muted. */
  lemma WebMuteKeepsAudioOn()
    ensures Toggled(Toggle(false, [true]), SameAsFlag) == Toggle(true, [true])
  {
    assert Toggled(Toggle(false, [true]), SameAsFlag).tracks == [true];
  }

  /** With the intended polarity, once the tracks agree with the page they stay in agreement:
      every audio track is enabled exactly when the page is not muted. */
  lemma IntendedMuteSilences(muted: bool, tracks: seq<bool>)
    requires |tracks| > 0
    ensures var r := Toggled(Toggle(muted, tracks), OppositeOfFlag);
      r.flag == !muted && forall i :: 0 <= i < |r.tracks| ==> (r.tracks[i] <==> !r.flag)
  {
  }
}
