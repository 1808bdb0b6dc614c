/** The Socket.IO signalling handlers of backend/services/socket.service.js: join-room,
    the offer / answer / ice-candidate relay, the recording broadcasts, leave-room and disconnect,
    each one atomic step over the rooms table, `activeRooms`, the transport's rooms and an outbox
    of emitted events. */
module SocketService {
  import opened Wrappers
  import opened RoomModel
  import opened Store
  import opened SocketRooms

  type Payload = string

  datatype SignalKind = Offer | Answer | IceCandidate
  datatype RecordingKind = StartRecording | StopRecording

  /** A roster line of room-joined (the display name the source looks up is not modelled). */
  datatype RosterEntry = RosterEntry(userId: UserId, socketId: Option<SocketId>)

  datatype OutEvent =
    | ErrorEvent(message: string)
    | UserJoined(socketId: SocketId, userId: UserId)
    | RoomJoined(roomId: RoomId, participants: seq<RosterEntry>)
    | UserLeft(socketId: SocketId, leaver: Option<UserId>)
    | Signal(kind: SignalKind, payload: Payload, socketId: SocketId)
    | Recording(action: RecordingKind, roomId: RoomId)

  /** `socket.emit` (to the socket itself) or `socket.to(name).emit`. */
  datatype Address = ToSelf | ToChannel(name: string)

  /** One emitted event and the sockets it reaches. */
  datatype Emit = Emit(addr: Address, to: set<SocketId>, event: OutEvent)

  const RoomNotFoundMessage: string := "Room not found"

  /** The transport's rooms: a name (a roomId, or a socket's own id) to its sockets. */
  type Channels = map<string, set<SocketId>>

  function Members(ch: Channels, name: string): set<SocketId> {
    if name in ch then ch[name] else {}
  }

  /** The transport deletes a room once it has no socket left. */
  predicate ChannelsValid(ch: Channels) {
    forall n :: n in ch ==> ch[n] != {}
  }

  /** A socket's own room, which Socket.IO creates for every connection, holds only that socket. */
  predicate PersonalRoom(ch: Channels, sock: SocketId) {
    Members(ch, sock) <= {sock}
  }

  function Subscribe(ch: Channels, name: string, sock: SocketId): (r: Channels)
    ensures Members(r, name) == Members(ch, name) + {sock}
    ensures forall n :: n != name ==> Members(r, n) == Members(ch, n)
  {
    ch[name := Members(ch, name) + {sock}]
  }

  function Unsubscribe(ch: Channels, name: string, sock: SocketId): (r: Channels)
    ensures Members(r, name) == Members(ch, name) - {sock}
    ensures forall n :: n != name ==> Members(r, n) == Members(ch, n)
    ensures ChannelsValid(ch) ==> ChannelsValid(r)
  {
    if Members(ch, name) - {sock} == {} then map n | n in ch && n != name :: ch[n]
    else ch[name := ch[name] - {sock}]
  }

  /** On disconnect the transport takes the socket out of every room it was in. */
  function Forget(ch: Channels, sock: SocketId): (r: Channels)
    ensures forall n :: Members(r, n) == Members(ch, n) - {sock}
    ensures ChannelsValid(ch) ==> ChannelsValid(r)
  {
    map n | n in ch && ch[n] - {sock} != {} :: ch[n] - {sock}
  }

  /** `targetSocketId || roomId`: a missing, null or empty target falls back to the room. */
  function Destination(roomId: RoomId, target: Option<SocketId>): (name: string)
    ensures target.Some? && target.value != "" ==> name == target.value
    ensures target.None? || target.value == "" ==> name == roomId
  {
    if target.Some? && target.value != "" then target.value else roomId
  }

  /** The relay of offer, answer and ice-candidate: the payload goes unchanged, tagged with the
      sender, to the target's own room if a target is given and to the signalled room otherwise,
      and never back to the sender. */
  function Relay(ch: Channels, sender: SocketId, kind: SignalKind, roomId: RoomId,
                 payload: Payload, target: Option<SocketId>): (e: Emit)
    ensures sender !in e.to
    ensures e.event == Signal(kind, payload, sender)
    ensures target.Some? && target.value != "" ==>
      e.addr == ToChannel(target.value) && e.to == Members(ch, target.value) - {sender}
    ensures target.None? || target.value == "" ==>
      e.addr == ToChannel(roomId) && e.to == Members(ch, roomId) - {sender}
  {
    var dest := Destination(roomId, target);
    Emit(ToChannel(dest), Members(ch, dest) - {sender}, Signal(kind, payload, sender))
  }

  /** A targeted relay reaches the target alone, and does reach it when it is connected and
      is not the sender; no other member of the room hears it. */
  lemma TargetedRelayReachesOnlyTarget(ch: Channels, sender: SocketId, kind: SignalKind, roomId: RoomId,
                                       payload: Payload, target: SocketId)
    requires target != "" && PersonalRoom(ch, target)
    ensures Relay(ch, sender, kind, roomId, payload, Some(target)).to <= {target}
    ensures target in Members(ch, target) && target != sender ==>
      Relay(ch, sender, kind, roomId, payload, Some(target)).to == {target}
    ensures forall s :: s in Members(ch, roomId) && s != target ==>
      s !in Relay(ch, sender, kind, roomId, payload, Some(target)).to
  {
  }

  /** An untargeted relay reaches every other socket of the room, and only those. */
  lemma BroadcastRelayReachesPeers(ch: Channels, sender: SocketId, kind: SignalKind, roomId: RoomId,
                                   payload: Payload)
    ensures forall s :: s in Relay(ch, sender, kind, roomId, payload, None).to <==>
      s in Members(ch, roomId) && s != sender
    ensures Relay(ch, sender, kind, roomId, payload, Some("")) == Relay(ch, sender, kind, roomId, payload, None)
  {
  }

  function Roster(ps: seq<Participant>): (r: seq<RosterEntry>)
    ensures |r| == |ps|
    ensures forall i :: 0 <= i < |ps| ==> r[i] == RosterEntry(ps[i].userId, ps[i].socketId)
  {
    seq(|ps|, i requires 0 <= i < |ps| => RosterEntry(ps[i].userId, ps[i].socketId))
  }

  /** The user-left notice a disconnect sends to room `r` (no user id is known there). */
  function LeftNotice(ch: Channels, sock: SocketId, r: RoomId): (e: Emit)
    ensures e.addr == ToChannel(r) && e.event == UserLeft(sock, None)
    ensures e.to == Members(ch, r) - {sock} && sock !in e.to
  {
    Emit(ToChannel(r), Members(ch, r) - {sock}, UserLeft(sock, None))
  }

  /** The notices of a disconnect that swept the rooms in the order `order`. */
  function LeftNotices(ch: Channels, sock: SocketId, order: seq<RoomId>): (es: seq<Emit>)
    ensures |es| == |order|
    ensures forall i :: 0 <= i < |order| ==> es[i] == LeftNotice(ch, sock, order[i])
  {
    seq(|order|, i requires 0 <= i < |order| => LeftNotice(ch, sock, order[i]))
  }

  /** `order` lists every room of `s` once. */
  predicate Enumerates(order: seq<RoomId>, s: set<RoomId>) {
    (forall i, j :: 0 <= i < j < |order| ==> order[i] != order[j]) && (set i | 0 <= i < |order| :: order[i]) == s
  }

  lemma LeftNoticesSnoc(ch: Channels, sock: SocketId, order: seq<RoomId>, r: RoomId)
    ensures LeftNotices(ch, sock, order + [r]) == LeftNotices(ch, sock, order) + [LeftNotice(ch, sock, r)]
  {
  }

  lemma EnumeratesSnoc(order: seq<RoomId>, done: set<RoomId>, r: RoomId)
    requires Enumerates(order, done) && r !in done
    ensures Enumerates(order + [r], done + {r})
  {
    var o := order + [r];
    assert (set i | 0 <= i < |o| :: o[i]) == (set i | 0 <= i < |order| :: order[i]) + {r} by {
      assert forall i :: 0 <= i < |order| ==> o[i] == order[i];
      assert o[|order|] == r;
    }
    forall i, j | 0 <= i < j < |o| ensures o[i] != o[j] {
      if j == |order| {
        assert o[i] == order[i];
        assert order[i] in (set k | 0 <= k < |order| :: order[k]);
      }
    }
  }

  /** One loop step of a disconnect: appending room `r`'s notice to the outbox extends the
      notices by `r`. A separate lemma so that the loop of Disconnect need not regroup the
      concatenation itself. */
  lemma NoticeStep(before: seq<Emit>, ch: Channels, sock: SocketId, order: seq<RoomId>, r: RoomId)
    ensures before + LeftNotices(ch, sock, order) + [LeftNotice(ch, sock, r)] == before + LeftNotices(ch, sock, order + [r])
  {
    LeftNoticesSnoc(ch, sock, order, r);
  }

  class SignalingServer {
    const db: Database
    var activeRooms: ActiveRooms
    var channels: Channels
    var outbox: seq<Emit>

    ghost predicate Valid()
      reads this, db
    {
      db.Valid() && ActiveValid(activeRooms) && ChannelsValid(channels)
    }

    constructor (db: Database)
      requires db.Valid()
      ensures Valid() && this.db == db
      ensures activeRooms == map[] && channels == map[] && outbox == []
    {
      this.db := db;
      activeRooms, channels, outbox := map[], map[], [];
    }

    /** A new connection: the transport puts the socket in a room named by its (fresh) id. */
    method Connect(sock: SocketId)
      requires Valid() && sock !in channels
      modifies this
      ensures Valid()
      ensures channels == old(channels)[sock := {sock}] && PersonalRoom(channels, sock)
      ensures activeRooms == old(activeRooms) && outbox == old(outbox)
    {
      channels := channels[sock := {sock}];
    }

    /** join-room. An unknown room answers the joiner with an error and changes nothing.
        Otherwise the roster is updated as JoinedRoom says (even a refused newcomer to a full room
        gets no error), the socket joins the room's channel and its `activeRooms` set, the others
        are told user-joined, and the joiner receives the roster as stored. */
    method JoinRoom(sock: SocketId, roomId: RoomId, userId: UserId, now: int)
      requires Valid()
      modifies this, db
      ensures Valid()
      ensures db.calls == old(db.calls)
      ensures roomId !in old(db.rooms) ==>
        && db.rooms == old(db.rooms) && activeRooms == old(activeRooms) && channels == old(channels)
        && outbox == old(outbox) + [Emit(ToSelf, {sock}, ErrorEvent(RoomNotFoundMessage))]
      ensures roomId in old(db.rooms) ==>
        && db.rooms == old(db.rooms)[roomId := JoinedRoom(old(db.rooms)[roomId], userId, sock, now)]
        && channels == Subscribe(old(channels), roomId, sock)
        && activeRooms == AddActive(old(activeRooms), roomId, sock)
        && outbox == old(outbox) + [
             Emit(ToChannel(roomId), Members(channels, roomId) - {sock}, UserJoined(sock, userId)),
             Emit(ToSelf, {sock}, RoomJoined(roomId, Roster(db.rooms[roomId].participants)))]
    {
      if roomId !in db.rooms {
        outbox := outbox + [Emit(ToSelf, {sock}, ErrorEvent(RoomNotFoundMessage))];
        return;
      }
      var room := JoinedRoom(db.rooms[roomId], userId, sock, now);
      JoinPreservesWellFormed(db.rooms[roomId], userId, sock, now);
      db.rooms := db.rooms[roomId := room];
      channels := Subscribe(channels, roomId, sock);
      activeRooms := AddActive(activeRooms, roomId, sock);
      outbox := outbox + [
        Emit(ToChannel(roomId), Members(channels, roomId) - {sock}, UserJoined(sock, userId)),
        Emit(ToSelf, {sock}, RoomJoined(roomId, Roster(room.participants)))];
    }

    /** offer, answer and ice-candidate: one relayed event; no room state changes. */
    method RelaySignal(sock: SocketId, kind: SignalKind, roomId: RoomId, payload: Payload, target: Option<SocketId>)
      requires Valid()
      modifies this`outbox
      ensures Valid()
      ensures outbox == old(outbox) + [Relay(channels, sock, kind, roomId, payload, target)]
    {
      outbox := outbox + [Relay(channels, sock, kind, roomId, payload, target)];
    }

    /** start-recording and stop-recording: told to every other socket of the room. */
    method RelayRecording(sock: SocketId, kind: RecordingKind, roomId: RoomId)
      requires Valid()
      modifies this`outbox
      ensures Valid()
      ensures outbox == old(outbox) + [Emit(ToChannel(roomId), Members(channels, roomId) - {sock}, Recording(kind, roomId))]
    {
      outbox := outbox + [Emit(ToChannel(roomId), Members(channels, roomId) - {sock}, Recording(kind, roomId))];
    }

    /** leave-room: the socket's roster entries are pulled (the room ends if emptied), its
        `activeRooms` entry goes (the room's entry is evicted if emptied), the others are told
        user-left, and the socket leaves the room's channel. */
    method LeaveRoom(sock: SocketId, roomId: RoomId, userId: UserId)
      requires Valid()
      modifies this, db
      ensures Valid()
      ensures db.calls == old(db.calls)
      ensures db.rooms == if roomId in old(db.rooms) then old(db.rooms)[roomId := LeftRoom(old(db.rooms)[roomId], sock)] else old(db.rooms)
      ensures activeRooms == RemoveActive(old(activeRooms), roomId, sock)
      ensures outbox == old(outbox) + [Emit(ToChannel(roomId), Members(old(channels), roomId) - {sock}, UserLeft(sock, Some(userId)))]
      ensures channels == Unsubscribe(old(channels), roomId, sock)
    {
      if roomId in db.rooms {
        LeavePreservesWellFormed(db.rooms[roomId], sock);
        db.rooms := db.rooms[roomId := LeftRoom(db.rooms[roomId], sock)];
      }
      ActiveValidPreserved(activeRooms, roomId, sock);
      activeRooms := RemoveActive(activeRooms, roomId, sock);
      outbox := outbox + [Emit(ToChannel(roomId), Members(channels, roomId) - {sock}, UserLeft(sock, Some(userId)))];
      channels := Unsubscribe(channels, roomId, sock);
    }

    /** disconnect: the transport drops the socket from its channels, then every active room
        holding the socket loses it (evicted if emptied), its roster entries are pulled, and the
        room's others are told user-left. Rooms not holding the socket are untouched. The rooms are
        visited in some order (the source's Map order, which the model leaves open). */
    method Disconnect(sock: SocketId)
      requires Valid()
      modifies this, db
      ensures Valid()
      ensures db.calls == old(db.calls)
      ensures channels == Forget(old(channels), sock)
      ensures activeRooms == DisconnectActive(old(activeRooms), sock)
      ensures db.rooms == Swept(old(db.rooms), Hosting(old(activeRooms), sock), sock)
      ensures exists order ::
        Enumerates(order, Hosting(old(activeRooms), sock)) && outbox == old(outbox) + LeftNotices(channels, sock, order)
    {
      var ch := Forget(channels, sock);
      ghost var active0, rooms0, outbox0 := activeRooms, db.rooms, outbox;
      var active, rooms, out := activeRooms, db.rooms, outbox;
      var todo := Hosting(activeRooms, sock);
      ghost var done: set<RoomId> := {};
      ghost var order: seq<RoomId> := [];
      assert out == outbox0 + LeftNotices(ch, sock, order);
      DisconnectBounds(active0, sock);
      while todo != {}
        invariant todo !! done && todo + done == Hosting(active0, sock)
        invariant active == PartlyDisconnected(active0, sock, done) && ActiveValid(active)
        invariant rooms == Swept(rooms0, done, sock)
        invariant Enumerates(order, done)
        invariant out == outbox0 + LeftNotices(ch, sock, order)
        modifies {}
        decreases todo
      {
        var r :| r in todo;
        DisconnectStep(active0, sock, done, r);
        ActiveValidPreserved(active, r, sock);
        active := RemoveActive(active, r, sock);
        SweptStep(rooms0, done, sock, r);
        if r in rooms {
          rooms := rooms[r := LeftRoom(rooms[r], sock)];
        }
        EnumeratesSnoc(order, done, r);
        NoticeStep(outbox0, ch, sock, order, r);
        out := out + [LeftNotice(ch, sock, r)];
        order := order + [r];
        todo := todo - {r};
        done := done + {r};
      }
      SweptWellFormed(rooms0, done, sock);
      channels, activeRooms, outbox := ch, active, out;
      db.rooms := rooms;
      assert done == Hosting(active0, sock);
      assert Enumerates(order, Hosting(active0, sock)) && outbox == outbox0 + LeftNotices(channels, sock, order);
    }
  }
}
