/** The mobile WebRTC service object of mobile/services/webrtcService.js: its fields, the mute and
    camera toggles, lazy creation of the peer connection, cleanup and the state snapshot. */
module MobileWebRTC {
  import opened Wrappers
  import opened MediaTracks

  /** An `RTCPeerConnection`: how many local tracks were added to it and whether it was closed. */
  class PeerConnection {
    var senders: nat
    var closed: bool

    constructor (senders0: nat)
      ensures senders == senders0 && !closed
    {
      senders := senders0;
      closed := false;
    }
  }

  /** The signalling socket handle: whether it is connected and how many listeners it holds. */
  class SignalSocket {
    var connected: bool
    var listeners: nat

    constructor (listeners0: nat)
      ensures connected && listeners == listeners0
    {
      connected := true;
      listeners := listeners0;
    }
  }

  /** What `getState()` reports. */
  datatype ServiceState = ServiceState(
    isMuted: bool, isVideoEnabled: bool, isFrontCamera: bool,
    hasLocalStream: bool, hasRemoteStream: bool)

  class WebRTCService {
    var localStream: MediaStream?
    var remoteStream: MediaStream?
    var peerConnection: PeerConnection?
    var socket: SignalSocket?
    var roomId: Option<string>
    var userId: Option<string>
    var isFrontCamera: bool
    var isMuted: bool
    var isVideoEnabled: bool

    /** A fresh service: no media, no connection, no socket, front camera, unmuted, video on. */
    constructor ()
      ensures localStream == null && remoteStream == null && peerConnection == null && socket == null
      ensures roomId == None && userId == None
      ensures isFrontCamera && !isMuted && isVideoEnabled
    {
      localStream := null;
      remoteStream := null;
      peerConnection := null;
      socket := null;
      roomId := None;
      userId := None;
      isFrontCamera := true;
      isMuted := false;
      isVideoEnabled := true;
    }

    /** The snapshot reports the three flags as they are and whether each stream is present. */
    function GetState(): (s: ServiceState)
      reads this
      ensures s.isMuted == isMuted && s.isVideoEnabled == isVideoEnabled && s.isFrontCamera == isFrontCamera
      ensures s.hasLocalStream <==> localStream != null
      ensures s.hasRemoteStream <==> remoteStream != null
    {
      ServiceState(isMuted, isVideoEnabled, isFrontCamera, localStream != null, remoteStream != null)
    }

    /** Without a local stream nothing changes. Otherwise the mute toggle runs over the audio
        tracks with every track enabled exactly when not muted, and the video tracks are left
        alone. */
    method ToggleMute()
      requires localStream != null ==> localStream.Valid()
      modifies this`isMuted, if localStream == null then {} else {localStream.audio}
      ensures localStream == null ==> isMuted == old(isMuted)
      ensures localStream != null ==>
        Toggle(isMuted, localStream.audio[..]) == Toggled(Toggle(old(isMuted), old(localStream.audio[..])), OppositeOfFlag)
      ensures localStream != null ==> localStream.video[..] == old(localStream.video[..])
    {
      if localStream == null {
        return;
      }
      isMuted := ToggleTracks(isMuted, localStream.audio, OppositeOfFlag);
    }

    /** Without a local stream nothing changes. Otherwise the video toggle runs over the video
        tracks with every track enabled exactly when video is on. */
    method ToggleVideo()
      requires localStream != null ==> localStream.Valid()
      modifies this`isVideoEnabled, if localStream == null then {} else {localStream.video}
      ensures localStream == null ==> isVideoEnabled == old(isVideoEnabled)
      ensures localStream != null ==>
        Toggle(isVideoEnabled, localStream.video[..]) == Toggled(Toggle(old(isVideoEnabled), old(localStream.video[..])), SameAsFlag)
      ensures localStream != null ==> localStream.audio[..] == old(localStream.audio[..])
    {
      if localStream == null {
        return;
      }
      isVideoEnabled := ToggleTracks(isVideoEnabled, localStream.video, SameAsFlag);
    }

    /** An existing connection is returned as it is; otherwise a new one is created, holding every
        track of the local stream, and kept. */
    method GetOrCreatePeerConnection() returns (pc: PeerConnection)
      modifies this`peerConnection
      ensures peerConnection == pc
      ensures old(peerConnection) != null ==> pc == old(peerConnection) && unchanged(pc)
      ensures old(peerConnection) == null ==>
        && fresh(pc) && !pc.closed
        && pc.senders == (if localStream == null then 0 else localStream.audio.Length + localStream.video.Length)
    {
      if peerConnection != null {
        return peerConnection;
      }
      var n := if localStream == null then 0 else localStream.audio.Length + localStream.video.Length;
      pc := new PeerConnection(n);
      peerConnection := pc;
    }

    /** Cleanup closes the connection, stops both streams, detaches and disconnects the socket, and
        drops all four; the flags and ids stay as they were. */
    method Cleanup()
      modifies this, peerConnection, localStream, remoteStream, socket
      ensures peerConnection == null && localStream == null && remoteStream == null && socket == null
      ensures isMuted == old(isMuted) && isVideoEnabled == old(isVideoEnabled) && isFrontCamera == old(isFrontCamera)
      ensures roomId == old(roomId) && userId == old(userId)
      ensures old(peerConnection) != null ==> old(peerConnection).closed
      ensures old(localStream) != null ==> old(localStream).stopped
      ensures old(remoteStream) != null ==> old(remoteStream).stopped
      ensures old(socket) != null ==> !old(socket).connected && old(socket).listeners == 0
      ensures GetState() == old(GetState()).(hasLocalStream := false, hasRemoteStream := false)
    {
      if peerConnection != null {
        peerConnection.closed := true;
        peerConnection := null;
      }
      if localStream != null {
        localStream.stopped := true;
        localStream := null;
      }
      if remoteStream != null {
        remoteStream.stopped := true;
        remoteStream := null;
      }
      if socket != null {
        socket.listeners := 0;
        socket.connected := false;
        socket := null;
      }
    }
  }
}
