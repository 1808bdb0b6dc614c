# videocall core in Dafny

This project models the core of the videocall application: a WebRTC video-call system with a
Node/Socket.IO signalling backend over MongoDB, a React web client and a React Native mobile
client. The model covers three parts.

- **Backend.**
  - The room and call records, with their enums, required fields and defaults.
  - The Socket.IO signalling handlers: join-room, the offer/answer/ice-candidate relay, the
    recording relays, leave-room and disconnect. They act on the `activeRooms` map and on the
    rooms table.
  - The call service: createCall, joinCall, endCall, processCallRecording, getCallHistory and
    getCallDetails. They act on the rooms and calls tables.
- **Client rules.**
  - The mute and camera toggles that write `enabled` into every track.
  - The mobile WebRTC service object.
  - The web page's recording-status handlers and chat input.
  - The `HH:MM:SS` and `M:SS` time formatters.
  - The mobile home screen's id validation.
- **How the pieces are shaped.**
  - State that the source updates is a class: `Database`, `SignalingServer`, `WebRTCService`,
    `Page` and `MediaStream`. Each method is specified against a function on values.
  - The two MongoDB collections are maps keyed by `roomId`. This makes `roomId` unique.
  - The transport's rooms are a `channels` map from a room name to its sockets. Each socket also
    sits in a room named by its own id, which is how Socket.IO addresses one socket.
  - Emitted events are appended to an `outbox` as `(address, recipients, event)`.
  - Clock readings, generated ids, upload outcomes and display labels are parameters.

## How the model relates to the code

Where the code and its documentation differ, the model follows the code.

- **Pause and resume do nothing on the web page.** The page's pause and resume handlers only run
  when the hook gives them a control. frontend/src/hooks/useWebRTC.js returns start and stop
  controls but no pause or resume, so both handlers do nothing as shipped. The model takes the
  hook's controls as a value (`RecorderApi`). `ShippedHook` is the shipped one, and
  `ShippedHookNeverPauses` states the consequence.
- **getCallDetails cannot create a call for a non-active room.** When the room is not active,
  getCallDetails creates the call with status `waiting`. `waiting` is outside the call status
  enum, so the create fails validation. `DetailsCall` and `CallStatusEnum` state this.
- **A full room refuses a newcomer silently in join-room.** The roster is unchanged and no error
  is sent. The socket still joins the room's channel and its `activeRooms` set, and the others
  are told `user-joined`.

## Model

| member | source | states |
|---|---|---|
| RoomModel.ParseRoomStatus | backend/models/Room.model.js:29-33 | a stored room status is accepted only as one of the enum names, and reads back as the status it names |
| RoomModel.RoomStatusEnum | backend/models/Room.model.js:29-33 | exactly `waiting`, `active` and `ended` are accepted, and every status survives a round trip through its name |
| RoomModel.ParticipantFromDoc | backend/models/Room.model.js:15-28 | definition: a roster entry keeps its user and socket id (null when omitted), and its join time defaults to the creation time |
| RoomModel.RoomFromDoc | backend/models/Room.model.js:3-37 | a room fails validation exactly when roomId or createdBy is missing or the status is not an enum name; otherwise omitted status defaults to `waiting` and capacity to 5 |
| RoomModel.IsMember | backend/services/socket.service.js:23-25 | definition: a user is a member when some roster entry carries that user id. The same `participants.some(...)` test appears at call.service.js:52-54 and 216-218 |
| CallModel.ParseCallStatus | backend/models/Call.model.js:27-31 | a stored call status is accepted only as one of the enum names and reads back as it |
| CallModel.CallStatusEnum | backend/models/Call.model.js:27-31 | exactly `active`, `ended` and `processing` are accepted, `waiting` is refused, and every status round-trips |
| CallModel.CallFromDoc | backend/models/Call.model.js:3-72 | a call fails validation exactly when roomId or a participant is missing or the status is not an enum name; otherwise it starts now, not ended, duration 0, no media or transcript, an empty summary and metadata, status defaulting to `active` |
| Store.Database.constructor | backend/models/Room.model.js:4-9 | the rooms and calls tables are keyed by their roomId, which makes roomId unique (lines 4-9 and Call.model.js:4-9). The constructor also demands that rosters are within capacity and free of repeated users, and calls free of repeated participants. The schema does not declare these; they are an invariant the services keep (`db.Valid()` in every method's requires and ensures) |
| SocketRooms.FirstIndexOf | backend/services/socket.service.js:53-60 | the roster entry a reconnect updates is the first one of that user |
| SocketRooms.Reconnected | backend/services/socket.service.js:51-60 | a reconnect replaces only that entry's socket id; the roster length, users and join times are unchanged |
| SocketRooms.JoinedRoom | backend/services/socket.service.js:17-61 | a member is reconnected with the status untouched. A newcomer below capacity is appended once. A newcomer to a full room changes nothing. The status becomes active exactly when a newcomer fills the room. The user is on the roster afterwards iff they were a member or there was room |
| SocketRooms.JoinPreservesWellFormed | backend/services/socket.service.js:28-61 | a join never takes the roster over capacity and never repeats a user |
| SocketRooms.WithoutSocket | backend/services/socket.service.js:180-188 | the pull keeps exactly the entries whose socket id is not the caller's |
| SocketRooms.WithoutSocketKeepsOrder | backend/services/socket.service.js:180-188 | the pulled roster is a subsequence of the original |
| SocketRooms.WithoutSocketCount | backend/services/socket.service.js:180-188 | the pull removes exactly as many entries as are bound to the socket, every copy of a repeated entry included. Together with the kept order, the result is exactly the filter |
| SocketRooms.WithoutSocketIdempotent | backend/services/socket.service.js:180-188 | pulling the same socket twice is the same as pulling it once |
| SocketRooms.WithoutSocketDistinct | backend/services/socket.service.js:180-188 | a pull keeps a roster free of repeated users |
| SocketRooms.WithoutSocketKeepsAll | backend/services/socket.service.js:180-188 | a pull by a socket nobody holds leaves the roster as it is |
| SocketRooms.LeftRoom | backend/services/socket.service.js:180-196 | leaving pulls every entry of the socket, and the status becomes ended exactly when the roster is then empty; otherwise the status is untouched |
| SocketRooms.LeavePreservesWellFormed | backend/services/socket.service.js:180-196 | leaving keeps a room within capacity and without repeated users |
| SocketRooms.LeaveIdempotent | backend/services/socket.service.js:180-196 | a repeated leave by the same socket changes nothing more |
| SocketRooms.LeaveByStrangerKeepsRoster | backend/services/socket.service.js:180-188 | a leave by a socket that holds no entry leaves the roster as it is |
| SocketRooms.AddActive | backend/services/socket.service.js:65-72 | a join puts the socket into the room's `activeRooms` set, creating the set when absent, and adds nothing else |
| SocketRooms.RemoveActive | backend/services/socket.service.js:198-204 | a leave drops the socket from that room's set and evicts the entry exactly when its set becomes empty; other rooms are untouched |
| SocketRooms.Hosting | backend/services/socket.service.js:223-224 | definition: the rooms the disconnect visits are exactly the active rooms whose set holds the socket |
| SocketRooms.DisconnectActive | backend/services/socket.service.js:223-251 | after a disconnect no set holds the socket. Rooms not holding it are untouched. A room holding it is evicted exactly when the socket was its only member |
| SocketRooms.ActiveValidPreserved | backend/services/socket.service.js:198-204 | join, leave and disconnect never leave an empty set in `activeRooms` |
| SocketRooms.ActiveIdempotent | backend/services/socket.service.js:198-204 | a repeated leave or disconnect of the same socket is a no-op on `activeRooms` |
| SocketRooms.DisconnectForgetsSocket | backend/services/socket.service.js:223-251 | after a disconnect the socket is in no active room, and exactly the rooms it was alone in are gone |
| SocketRooms.DisconnectStep | backend/services/socket.service.js:224-250 | visiting one more room removes the socket from that room's set only |
| SocketRooms.DisconnectBounds | backend/services/socket.service.js:223-252 | visiting no room changes nothing, and visiting every hosting room gives the full disconnect |
| SocketRooms.Swept | backend/services/socket.service.js:228-244 | definition: after the sweep, visited rooms have left the socket and the other rooms are untouched |
| SocketRooms.SweptStep | backend/services/socket.service.js:228-244 | visiting one more room applies the leave to that room only |
| SocketRooms.SweptWellFormed | backend/services/socket.service.js:228-244 | the sweep keeps the rooms table well formed |
| SocketService.Subscribe | backend/services/socket.service.js:63 | joining a channel adds the socket to that channel only |
| SocketService.Unsubscribe | backend/services/socket.service.js:211 | leaving a channel removes the socket from that channel only |
| SocketService.Forget | backend/services/socket.service.js:219-220 | a disconnected socket is removed from every channel |
| SocketService.Destination | backend/services/socket.service.js:115 | the target socket id or else the room id: the target when given and non-empty, the room otherwise |
| SocketService.Relay | backend/services/socket.service.js:113-137 | the payload is relayed unchanged and tagged with the sender. It goes to the target when one is given and to the room otherwise, and never to the sender |
| SocketService.TargetedRelayReachesOnlyTarget | backend/services/socket.service.js:115 | a targeted signal reaches the target and no one else, not even other room members |
| SocketService.BroadcastRelayReachesPeers | backend/services/socket.service.js:115 | an untargeted signal (also an empty target) reaches exactly the other members of the room |
| SocketService.Roster | backend/services/socket.service.js:82-102 | definition: the roster sent to the joiner lists every stored entry, in order, with its user and socket id |
| SocketService.LeftNotice | backend/services/socket.service.js:246 | a disconnect's notice goes to the room's channel and carries the socket id and no user id. Its recipients are exactly the room's other members, never the leaver |
| SocketService.LeftNotices | backend/services/socket.service.js:246 | definition: each room visited by the disconnect produces one user-left notice to its other members |
| SocketService.LeftNoticesSnoc | backend/services/socket.service.js:246 | visiting one more room appends exactly its notice |
| SocketService.EnumeratesSnoc | backend/services/socket.service.js:223 | the disconnect visits each hosting room once |
| SocketService.SignalingServer.constructor | backend/services/socket.service.js:5 | the server starts with no active rooms, no channels and nothing sent |
| SocketService.SignalingServer.Connect | backend/services/socket.service.js:8 | a new connection sits in its own personal room and changes nothing else |
| SocketService.SignalingServer.JoinRoom | backend/services/socket.service.js:12-110 | an unknown room gets `Room not found` back and nothing changes. Otherwise the room is updated as JoinedRoom says, and the socket joins the channel and `activeRooms`. Its peers get `user-joined` and it gets the stored roster |
| SocketService.SignalingServer.RelaySignal | backend/services/socket.service.js:113-137 | offer, answer and ice-candidate append the Relay event and change no room state |
| SocketService.SignalingServer.RelayRecording | backend/services/socket.service.js:140-157 | start- and stop-recording reach every other socket of the room |
| SocketService.SignalingServer.LeaveRoom | backend/services/socket.service.js:175-216 | the room is left as LeftRoom says and `activeRooms` as RemoveActive says. The peers are told `user-left` and the socket leaves the channel |
| SocketService.SignalingServer.Disconnect | backend/services/socket.service.js:219-253 | every active room holding the socket is swept and evicted when emptied, and its peers are told `user-left` once, in some order; other rooms are untouched |
| CallService.ChosenRoomId | backend/services/call.service.js:13 | the given room id or else a fresh uuid: the given id when present and non-empty, the generated one otherwise |
| CallService.Message | backend/services/call.service.js:44-222 | the service's error texts: `Room not found`, `Room is full`, `Call not found`, `Unauthorized access to room`, the upload's `Failed to upload file to S3`; a database error carries Mongoose's own text, which is not modelled |
| CallService.MessageIdentifiesError | backend/controllers/call.controller.js:139-143 | two errors other than a database error have the same text only when they are the same error, so a caller comparing `error.message` can tell them apart |
| CallService.CreatorRoom | backend/services/call.service.js:16-21 | the created room holds exactly the creator with no socket, is waiting and has capacity 5; it fails only for a missing id |
| CallService.OpeningCall | backend/services/call.service.js:24-28 | the created call lists exactly the user, is active, starts now and has not ended |
| CallService.CreateCall | backend/services/call.service.js:11-35 | a missing or empty room id is replaced by the generated one. A taken id is a duplicate-key error. Otherwise the room is stored, then the call; a failing call insert leaves the room stored |
| CallService.AdmitToRoom | backend/services/call.service.js:51-62 | a newcomer is appended once and a member is not repeated; the room turns active exactly when the newcomer fills it |
| CallService.AddCallParticipant | backend/services/call.service.js:72-80 | the user is added to the call's list only when absent, and a list without repeats stays so |
| CallService.DistinctOccursOnce | backend/services/call.service.js:72-80 | in a list without repeats a listed user occurs exactly once |
| CallService.JoinCall | backend/services/call.service.js:40-87 | an absent room fails with `Room not found`. A room at capacity fails with `Room is full`, before and regardless of membership. Otherwise the room is admitted and the call record is created or extended |
| CallService.ElapsedSeconds | backend/services/call.service.js:101 | the duration is the whole seconds elapsed, rounded down, and is non-negative when the end is not before the start |
| CallService.EndedCall | backend/services/call.service.js:99-101 | an ended call has status ended, ends now and carries the floored duration; nothing else changes |
| CallService.EndCall | backend/services/call.service.js:92-116 | a missing call fails with `Call not found` and nothing changes; otherwise the call ends and the room, if any, becomes ended |
| CallService.ProcessedCall | backend/services/call.service.js:128-164 | when every upload succeeds the call stays processing and holds the new links. When an upload fails the stored call is ended and still holds its old links |
| CallService.ProcessCallRecording | backend/services/call.service.js:121-167 | a missing call fails with `Call not found`; otherwise the stored call becomes ProcessedCall and the result is the call or the upload error |
| CallService.InHistory | backend/services/call.service.js:176-179 | definition: the history query `{ participants: userId, status: 'ended' }` matches an ended call that lists the user |
| CallService.HistoryKeys | backend/services/call.service.js:176-179 | definition: the keys of exactly the stored calls the history query matches |
| CallService.EndedNoEarlier | backend/services/call.service.js:181 | definition: the order of `sort({ endedAt: -1 })`. A later end comes first, and a call with no `endedAt` comes last, as MongoDB's descending sort places a missing field. That case occurs: the failure path of processCallRecording (call.service.js:157-165) ends a call whose `endedAt` may never have been set |
| CallService.CallsOf | backend/services/call.service.js:176-183 | definition: the listed calls are the table's calls in the ranked order |
| CallService.Window | backend/services/call.service.js:174-183 | skip and limit take the elements from the start of the page, at most `limit` of them |
| CallService.PageCount | backend/services/call.service.js:196 | the page count is the fewest pages of `limit` holding all the calls |
| CallService.LatestExists | backend/services/call.service.js:181 | among the matching calls one ends no earlier than all others |
| CallService.GetCallHistory | backend/services/call.service.js:172-203 | the result is the requested page of the user's ended calls, latest end first with a missing end last, and reports the total and the page count |
| CallService.UserIds | backend/services/call.service.js:233 | the call's users are the roster's users in order, without repeats when the roster has none |
| CallService.DerivedCallStatus | backend/services/call.service.js:234 | the created call's status name is `active` exactly for an active room and `waiting` otherwise, so it passes the call status enum exactly for an active room |
| CallService.DetailsCall | backend/services/call.service.js:229-235 | a call created for an active room is active and lists the roster's users; for any other room the create fails the status enum |
| CallService.GetCallDetails | backend/services/call.service.js:208-245 | an absent room fails with `Room not found` and a non-member with `Unauthorized access to room`. An existing call is returned; otherwise DetailsCall is stored or its error returned |
| MediaTracks.MediaStream.constructor | mobile/services/webrtcService.js:165-181 | a stream's audio and video track lists are separate |
| MediaTracks.Toggled | mobile/services/webrtcService.js:160-189 | with no track of the kind nothing changes; otherwise the flag flips and every track's enabled follows the new flag |
| MediaTracks.ToggleTwice | mobile/services/webrtcService.js:167 | two toggles restore the flag, and the tracks then agree with it |
| MediaTracks.ToggleKeepsInStep | mobile/services/webrtcService.js:167-170 | tracks that agree with their flag still agree after a toggle |
| MediaTracks.SetAll | mobile/services/webrtcService.js:168-170 | every track of the list ends with the given enabled value |
| MediaTracks.ToggleTracks | mobile/services/webrtcService.js:166-172 | the toggle on a track array does what Toggled says |
| MobileWebRTC.WebRTCService.constructor | mobile/services/webrtcService.js:37-51 | a new service has no streams, connection or socket, the front camera, unmuted and video on |
| MobileWebRTC.WebRTCService.GetState | mobile/services/webrtcService.js:395-403 | definition: the snapshot reports the three flags verbatim and whether each stream is present |
| MobileWebRTC.WebRTCService.ToggleMute | mobile/services/webrtcService.js:160-173 | without a stream or audio tracks nothing changes. Otherwise the mute flag flips and every audio track is enabled exactly when not muted. The video tracks are untouched |
| MobileWebRTC.WebRTCService.ToggleVideo | mobile/services/webrtcService.js:176-189 | without a stream or video tracks nothing changes; otherwise the video flag flips and every video track follows it |
| MobileWebRTC.WebRTCService.GetOrCreatePeerConnection | mobile/services/webrtcService.js:192-206 | an existing connection is returned unchanged; otherwise a fresh one holding every local track is created and kept |
| MobileWebRTC.WebRTCService.Cleanup | mobile/services/webrtcService.js:363-392 | the connection is closed, both streams stopped, the socket detached and disconnected, and all four dropped; the flags are untouched |
| Clock.ClockFields | frontend/src/pages/VideoCall.jsx:135-137 | hours, minutes and seconds recombine to the input, with minutes and seconds below 60 |
| Clock.ClockFieldsUnique | frontend/src/pages/VideoCall.jsx:135-137 | any split with minutes and seconds below 60 is that one |
| Clock.ClockText | frontend/src/pages/VideoCall.jsx:138 | the text is the padded hours, a colon, the padded minutes, a colon and the padded seconds |
| Clock.ParseClock | frontend/src/pages/VideoCall.jsx:138 | a clock text has three colon-separated fields |
| Clock.ParseThreeFields | frontend/src/pages/VideoCall.jsx:138 | three digit fields joined by colons read back as their values |
| Clock.ClockTextRoundTrip | frontend/src/pages/VideoCall.jsx:138 | the padded clock text reads back as the fields it shows |
| Clock.ClockTextLength | frontend/src/pages/VideoCall.jsx:138 | every field has at least two digits. The text has at least 8 characters, and exactly 8 below 100 hours, with colons at positions 2 and 5 (`HH:MM:SS`) |
| VideoCallPage.FormatTime | frontend/src/pages/VideoCall.jsx:134-139 | the text reads back as the hours, minutes and seconds of the input. It has length 8 exactly when the input is below 360000, and then has the `HH:MM:SS` layout with colons at positions 2 and 5 |
| VideoCallPage.Fires | frontend/src/pages/VideoCall.jsx:142-164 | start runs only when connected and the start control exists; stop, pause and resume run exactly when their control exists |
| VideoCallPage.RecorderCallOf | frontend/src/pages/VideoCall.jsx:141-168 | each handler calls its own recorder control and no other |
| VideoCallPage.StatusAfter | frontend/src/pages/VideoCall.jsx:141-168 | definition: a handler whose control is missing (or start while not connected) leaves the status alone. Otherwise start and resume give recording, stop gives stopped and pause gives paused |
| VideoCallPage.ShippedHookNeverPauses | frontend/src/pages/VideoCall.jsx:44-57 | with the shipped hook pause and resume do nothing and the paused status is never entered |
| VideoCallPage.SenderName | frontend/src/pages/VideoCall.jsx:214 | the sender is the user's name, or "You" when it is missing or empty |
| VideoCallPage.Page.constructor | frontend/src/pages/VideoCall.jsx:29-39 | the page starts idle at time 0, unmuted, video on, with no messages and an empty input |
| VideoCallPage.Page.HandleRecording | frontend/src/pages/VideoCall.jsx:141-168 | a handler that fires calls its recorder control and moves the status as StatusAfter says; start also resets the time to 0 |
| VideoCallPage.Page.ToggleMute | frontend/src/pages/VideoCall.jsx:170-181 | without a stream or audio tracks nothing changes; otherwise the mute flag flips and every audio track gets the new muted flag as its enabled value |
| VideoCallPage.Page.ToggleMuteIntended | frontend/src/pages/VideoCall.jsx:170-181 | the corrected toggle: every audio track is enabled exactly when the page is not muted |
| VideoCallPage.Page.ToggleVideo | frontend/src/pages/VideoCall.jsx:183-194 | without a stream or video tracks nothing changes; otherwise the video flag flips and every video track follows it |
| VideoCallPage.Page.SendChatMessage | frontend/src/pages/VideoCall.jsx:210-222 | a whitespace-only input is ignored. Otherwise exactly one message with the raw input is appended at the end and the input is cleared |
| VideoCallPage.WebMuteKeepsAudioOn | frontend/src/pages/VideoCall.jsx:174-178 | muting an unmuted page with one enabled audio track shows it muted while the track stays enabled |
| VideoCallPage.IntendedMuteSilences | frontend/src/pages/VideoCall.jsx:174-178 | with the corrected polarity every audio track is enabled exactly when the page is not muted |
| CallHistoryPage.DurationFields | frontend/src/pages/CallHistory.jsx:33-34 | minutes and seconds recombine to the input, with the seconds below 60 |
| CallHistoryPage.FormatDuration | frontend/src/pages/CallHistory.jsx:32-36 | the text reads back as the minutes and seconds of the input. The seconds field is exactly two digits after the colon, and the minutes field is the unpadded decimal minutes |
| CallHistoryPage.DurationText | frontend/src/pages/CallHistory.jsx:35 | minutes, a colon and two seconds digits read back as the two values, with the colon third from the end |
| CallHistoryPage.ParseDuration | frontend/src/pages/CallHistory.jsx:35 | a duration text has two colon-separated fields |
| CallHistoryPage.AnHourIsSixtyMinutes | frontend/src/pages/CallHistory.jsx:33-35 | the minutes are not wrapped into hours: 3600 seconds show as `60:00` |
| CallHistoryPage.DurationLabel | frontend/src/pages/CallHistory.jsx:89-93 | a duration is shown exactly when it is positive, and then as FormatDuration |
| VideoCallScreen.FormatTime | mobile/screens/VideoCallScreen.js:76-81 | the text reads back as the hours, minutes and seconds of the input, with colons after two-digit fields below 100 hours |
| VideoCallScreen.SameAsWebPage | mobile/screens/VideoCallScreen.js:76-81 | the mobile formatter gives the web formatter's text for every input |
| HomeScreen.HandleJoinCall | mobile/screens/HomeScreen.js:18-33 | a blank room id is refused first, then a blank user id, and navigation happens exactly when both are non-blank, with the trimmed ids |
| HomeScreen.NavigatesWithCleanIds | mobile/screens/HomeScreen.js:29-32 | the ids passed on are non-empty, carry no surrounding whitespace and are the inputs with only surrounding whitespace removed |
| HomeScreen.RoomIdCheckedFirst | mobile/screens/HomeScreen.js:19-27 | when both ids are blank only the room id is reported |
| Text.Trim | mobile/screens/HomeScreen.js:19-24 | the trimmed text is empty exactly when the input is blank, and otherwise starts and ends with a non-space |
| Text.TrimIsSlice | mobile/screens/HomeScreen.js:30-31 | the trimmed text is the input with only leading and trailing whitespace removed |
| Text.TrimIdempotent | mobile/screens/HomeScreen.js:30-31 | trimming twice is trimming once |
| Numerals.Decimal | frontend/src/pages/CallHistory.jsx:35 | `toString` of a non-negative integer is all digits with no leading zero |
| Numerals.DecimalRoundTrip | frontend/src/pages/CallHistory.jsx:35 | the digits of a number read back as the number |
| Numerals.PadStart | frontend/src/pages/VideoCall.jsx:138 | padding to a width keeps the text as a suffix and fills only the front |
| Numerals.Pad2 | frontend/src/pages/VideoCall.jsx:138 | `padStart(2, '0')` of the decimal text: at least two characters, the digits at the end, zeros before them |
| Numerals.Pad2Field | frontend/src/pages/VideoCall.jsx:138 | a padded field is digits, reads back as its number, and is exactly two long below 100 |
| Numerals.SplitOnPeel | frontend/src/pages/VideoCall.jsx:138 | splitting a separator-free field followed by the separator peels that field off |

## Left out

- Database access and the socket transport (`findOne`, `findOneAndUpdate`, `save`, `populate`, `socket.join`, `emit`) are in-memory maps and an outbox. Each handler and service call is one atomic step, so the races between a read and a later update are not modelled.
- The populated roster of join-room (user names, `'Unknown'` as fallback) and the populated call participants are not modelled. The roster sent is the stored user and socket ids.
- The `Failed to join room` error path of join-room (backend/services/socket.service.js:106-108) is not modelled, nor is the failure of any database write. That path is reached when the database fails, and also when a user id cannot be cast to the ObjectId type of backend/models/Room.model.js:16-18 (see the next line but two).
- The `audio-chunk` relay is not modelled. It is a room broadcast with no state, like the recording relays.
- SocketService.SignalingServer.Disconnect: the order in which rooms are visited (the insertion order of a JavaScript Map) is left open. The contract says each hosting room is visited exactly once.
- User ids are plain strings; MongoDB ObjectId casting of `createdBy`, the roster's `userId` and the call's participants is not modelled, and a missing field is the empty string. The model therefore accepts ids the database would refuse. One such id is the mobile client's default `'user-' + Date.now()` (mobile/screens/HomeScreen.js:16). With it, the `$push` of join-room fails the cast, and a mobile user below capacity gets `Failed to join room` instead of being added.
- The `createdAt` and `updatedAt` fields that the schemas' `timestamps` option adds are not modelled. The `transcript` and `summary` are kept only with the shapes and defaults of the schema.
- Clocks, generated ids and uploads are parameters. These are `Date.now()`/`new Date()`, `uuidv4()`, the S3 upload of processCallRecording, the chat message id and its locale time label.
- The upload file names built from `Date.now()` and the commented-out transcription and summary steps are not modelled.
- CallService.GetCallHistory: requires `page >= 1` and `limit >= 1`. The source accepts any numbers, which MongoDB would reject or read specially (a zero limit means no limit, and the page count would divide by zero).
- CallService.GetCallHistory: ties between equal end times are ordered in some way, not in MongoDB's order.
- VideoCallPage.FormatTime: takes a non-negative integer; negative or fractional seconds are not modelled. The same holds for VideoCallScreen.FormatTime and CallHistoryPage.FormatDuration.
- The WebRTC and media calls of the mobile service are not modelled: getUserMedia, switchCamera, createOffer, handleOffer, handleAnswer, handleIceCandidate, and the connection's event handlers and callbacks. They are foreign library calls.
- MobileWebRTC.WebRTCService.Cleanup: `stop()` on each track is one `stopped` flag on the stream.
- The web page's audio analyser (floating-point averaging), fullscreen, end-call flow, timers and rendering are not modelled.
- The HTTP controllers, routes, server setup and the client socket and hook wiring are not modelled. They only forward to the modelled rules.

## Findings

| source | as written | input that shows it | evidently intended | confidence | as-written member | corrected member |
|---|---|---|---|---|---|---|
| frontend/src/pages/VideoCall.jsx:174-178 | toggleMute writes the new muted flag itself into every audio track's `enabled` | unmuted page, one enabled audio track: after the toggle the page shows muted while the track stays enabled | every audio track enabled exactly when the page is not muted, as in mobile/services/webrtcService.js:167-170 | high, not executed | VideoCallPage.Page.ToggleMute, VideoCallPage.WebMuteKeepsAudioOn | VideoCallPage.Page.ToggleMuteIntended, VideoCallPage.IntendedMuteSilences |
