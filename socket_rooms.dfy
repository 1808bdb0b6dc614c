/** The room-state rules behind the signalling handlers of backend/services/socket.service.js,
    as functions on values: the roster update of join-room, the roster pull of leave-room and
    disconnect, and the in-memory `activeRooms` bookkeeping. */
module SocketRooms {
  import opened Wrappers
  import opened RoomModel

  /** The index of the first roster entry of user `u`: the element `participants.$` designates. */
  function FirstIndexOf(ps: seq<Participant>, u: UserId): (i: nat)
    requires IsMember(ps, u)
    ensures i < |ps| && ps[i].userId == u
    ensures forall k :: 0 <= k < i ==> ps[k].userId != u
  {
    if ps[0].userId == u then 0
    else
      assert IsMember(ps[1..], u) by {
        var j :| 0 <= j < |ps| && ps[j].userId == u;
        assert ps[1..][j - 1] == ps[j];
      }
      FirstIndexOf(ps[1..], u) + 1
  }

  /** The reconnect update: the first entry of `u` takes socket `sock`; no entry is added or
      removed, and no user id or join time changes. */
  function Reconnected(ps: seq<Participant>, u: UserId, sock: SocketId): (r: seq<Participant>)
    requires IsMember(ps, u)
    ensures |r| == |ps|
    ensures forall k :: 0 <= k < |ps| ==> r[k].userId == ps[k].userId && r[k].joinedAt == ps[k].joinedAt
    ensures forall k :: 0 <= k < |ps| && k != FirstIndexOf(ps, u) ==> r[k] == ps[k]
    ensures r[FirstIndexOf(ps, u)].socketId == Some(sock)
  {
    var i := FirstIndexOf(ps, u);
    ps[i := ps[i].(socketId := Some(sock))]
  }

  /** The database effect of join-room on an existing room. A member reconnects; a newcomer is
      appended only below capacity, and the room turns active when that append fills it; a newcomer
      to a full room changes nothing. */
  function JoinedRoom(room: Room, u: UserId, sock: SocketId, now: int): (r: Room)
    ensures r.roomId == room.roomId && r.createdBy == room.createdBy && r.maxParticipants == room.maxParticipants
    ensures IsMember(room.participants, u) ==>
      r.participants == Reconnected(room.participants, u, sock) && r.status == room.status
    ensures !IsMember(room.participants, u) && |room.participants| < room.maxParticipants ==>
      r.participants == room.participants + [Participant(u, Some(sock), now)]
    ensures !IsMember(room.participants, u) && |room.participants| >= room.maxParticipants ==> r == room
    ensures r.status == Active && room.status != Active <==>
      room.status != Active && !IsMember(room.participants, u) && |room.participants| + 1 == room.maxParticipants
    ensures r.status != room.status ==> r.status == Active
    ensures |room.participants| <= room.maxParticipants ==> |r.participants| <= r.maxParticipants
    ensures IsMember(r.participants, u) <==>
      IsMember(room.participants, u) || |room.participants| < room.maxParticipants
  {
    var ps := room.participants;
    if IsMember(ps, u) then
      var ps' := Reconnected(ps, u, sock);
      assert ps'[FirstIndexOf(ps, u)].userId == u;
      room.(participants := ps')
    else if |ps| < room.maxParticipants then
      var ps' := ps + [Participant(u, Some(sock), now)];
      assert ps'[|ps|].userId == u;
      room.(participants := ps', status := if |ps'| == room.maxParticipants then Active else room.status)
    else room
  }

  /** join-room keeps the roster within capacity and free of repeated users. */
  lemma JoinPreservesWellFormed(room: Room, u: UserId, sock: SocketId, now: int)
    requires WellFormedRoom(room)
    ensures WellFormedRoom(JoinedRoom(room, u, sock, now))
  {
    var ps := room.participants;
    var r := JoinedRoom(room, u, sock, now);
    if !IsMember(ps, u) && |ps| < room.maxParticipants {
      forall i, j | 0 <= i < j < |r.participants| ensures r.participants[i].userId != r.participants[j].userId {
        if j == |ps| {
          assert r.participants[i] == ps[i];
        } else {
          assert r.participants[i] == ps[i] && r.participants[j] == ps[j];
        }
      }
    }
  }

  /** The `$pull: { participants: { socketId } }` filter: the entries bound to `sock` go, every
      other entry stays, in order. */
  function WithoutSocket(ps: seq<Participant>, sock: SocketId): (r: seq<Participant>)
    ensures |r| <= |ps|
    ensures forall p :: p in r ==> p in ps && p.socketId != Some(sock)
    ensures forall p :: p in ps && p.socketId != Some(sock) ==> p in r
  {
    if ps == [] then []
    else if ps[0].socketId == Some(sock) then WithoutSocket(ps[1..], sock)
    else [ps[0]] + WithoutSocket(ps[1..], sock)
  }

  /** How many entries of `ps` are bound to `sock`. */
  function BoundTo(ps: seq<Participant>, sock: SocketId): (n: nat)
    ensures n <= |ps|
  {
    if ps == [] then 0 else (if ps[0].socketId == Some(sock) then 1 else 0) + BoundTo(ps[1..], sock)
  }

  /** The pull drops exactly the bound entries, each copy of a repeated entry included: with
      WithoutSocketKeepsOrder this pins the result down to the filter. */
  lemma {:induction false} WithoutSocketCount(ps: seq<Participant>, sock: SocketId)
    ensures |WithoutSocket(ps, sock)| == |ps| - BoundTo(ps, sock)
  {
    if ps != [] {
      WithoutSocketCount(ps[1..], sock);
    }
  }

  /** `sub` is `ps` with some entries dropped and the rest in their original order. */
  predicate IsSubsequence(sub: seq<Participant>, ps: seq<Participant>)
    decreases |ps|
  {
    if sub == [] then true
    else if ps == [] then false
    else if sub[0] == ps[0] then IsSubsequence(sub[1..], ps[1..])
    else IsSubsequence(sub, ps[1..])
  }

  lemma {:induction false} WithoutSocketKeepsOrder(ps: seq<Participant>, sock: SocketId)
    ensures IsSubsequence(WithoutSocket(ps, sock), ps)
  {
    if ps != [] {
      WithoutSocketKeepsOrder(ps[1..], sock);
      var rest := WithoutSocket(ps[1..], sock);
      if ps[0].socketId != Some(sock) {
        assert ([ps[0]] + rest)[1..] == rest;
      }
    }
  }

  /** Pulling a socket a second time removes nothing more. */
  lemma {:induction false} WithoutSocketIdempotent(ps: seq<Participant>, sock: SocketId)
    ensures WithoutSocket(WithoutSocket(ps, sock), sock) == WithoutSocket(ps, sock)
  {
    if ps != [] {
      WithoutSocketIdempotent(ps[1..], sock);
      if ps[0].socketId != Some(sock) {
        var rest := WithoutSocket(ps[1..], sock);
        assert ([ps[0]] + rest)[1..] == rest;
      }
    }
  }

  lemma {:induction false} WithoutSocketDistinct(ps: seq<Participant>, sock: SocketId)
    requires DistinctUsers(ps)
    ensures DistinctUsers(WithoutSocket(ps, sock))
  {
    if ps != [] {
      var tail := ps[1..];
      assert DistinctUsers(tail) by {
        forall i, j | 0 <= i < j < |tail| ensures tail[i].userId != tail[j].userId {
          assert tail[i] == ps[i + 1] && tail[j] == ps[j + 1];
        }
      }
      WithoutSocketDistinct(tail, sock);
      var rest := WithoutSocket(tail, sock);
      if ps[0].socketId != Some(sock) {
        var r := [ps[0]] + rest;
        forall i, j | 0 <= i < j < |r| ensures r[i].userId != r[j].userId {
          if i == 0 {
            assert r[j] in tail;
            var k :| 0 <= k < |tail| && tail[k] == r[j];
            assert ps[k + 1] == r[j];
          } else {
            assert r[i] == rest[i - 1] && r[j] == rest[j - 1];
          }
        }
      }
    }
  }

  /** The database effect of leave-room (and of each room a disconnect sweeps): the socket's
      entries are pulled, and the room ends exactly when nothing is left. */
  function LeftRoom(room: Room, sock: SocketId): (r: Room)
    ensures r.roomId == room.roomId && r.createdBy == room.createdBy && r.maxParticipants == room.maxParticipants
    ensures r.participants == WithoutSocket(room.participants, sock)
    ensures forall p :: p in r.participants ==> p.socketId != Some(sock)
    ensures r.status == (if r.participants == [] then Ended else room.status)
  {
    var ps := WithoutSocket(room.participants, sock);
    room.(participants := ps, status := if |ps| == 0 then Ended else room.status)
  }

  lemma LeavePreservesWellFormed(room: Room, sock: SocketId)
    requires WellFormedRoom(room)
    ensures WellFormedRoom(LeftRoom(room, sock))
  {
    WithoutSocketDistinct(room.participants, sock);
  }

  /** A repeated leave or disconnect of the same socket leaves the room as the first one did. */
  lemma LeaveIdempotent(room: Room, sock: SocketId)
    ensures LeftRoom(LeftRoom(room, sock), sock) == LeftRoom(room, sock)
  {
    WithoutSocketIdempotent(room.participants, sock);
  }

  /** A leave by a socket the roster does not hold changes nothing, unless the roster is already
      empty, in which case the room is (again) marked ended. */
  lemma {:induction false} LeaveByStrangerKeepsRoster(room: Room, sock: SocketId)
    requires forall p :: p in room.participants ==> p.socketId != Some(sock)
    ensures LeftRoom(room, sock).participants == room.participants
  {
    WithoutSocketKeepsAll(room.participants, sock);
  }

  lemma {:induction false} WithoutSocketKeepsAll(ps: seq<Participant>, sock: SocketId)
    requires forall p :: p in ps ==> p.socketId != Some(sock)
    ensures WithoutSocket(ps, sock) == ps
  {
    if ps != [] {
      assert ps[0] in ps;
      assert forall p :: p in ps[1..] ==> p in ps;
      WithoutSocketKeepsAll(ps[1..], sock);
      assert ps == [ps[0]] + ps[1..];
    }
  }

  // ---- activeRooms: roomId -> set of live socket ids in that room ----

  type ActiveRooms = map<RoomId, set<SocketId>>

  /** The eviction invariant: no room is kept with an empty socket set. */
  predicate ActiveValid(active: ActiveRooms) {
    forall r :: r in active ==> active[r] != {}
  }

  /** join-room: the room's set is created if missing, and the socket is added to it. */
  function AddActive(active: ActiveRooms, roomId: RoomId, sock: SocketId): (a: ActiveRooms)
    ensures a.Keys == active.Keys + {roomId}
    ensures sock in a[roomId]
    ensures forall r, s :: r in active && s in active[r] ==> r in a && s in a[r]
    ensures forall r, s :: r in a && s in a[r] ==> (r == roomId && s == sock) || (r in active && s in active[r])
  {
    active[roomId := (if roomId in active then active[roomId] else {}) + {sock}]
  }

  /** leave-room: the socket leaves the room's set, and an emptied set is deleted. */
  function RemoveActive(active: ActiveRooms, roomId: RoomId, sock: SocketId): (a: ActiveRooms)
    ensures forall r :: r != roomId ==> (r in a <==> r in active) && (r in a ==> a[r] == active[r])
    ensures roomId in a <==> roomId in active && active[roomId] - {sock} != {}
    ensures roomId in a ==> a[roomId] == active[roomId] - {sock}
  {
    if roomId !in active then active
    else
      var rest := active[roomId] - {sock};
      if rest == {} then map r | r in active && r != roomId :: active[r] else active[roomId := rest]
  }

  /** The rooms whose socket set holds `sock`: those a disconnect of `sock` sweeps. */
  function Hosting(active: ActiveRooms, sock: SocketId): (h: set<RoomId>)
    ensures forall r :: r in h <==> r in active && sock in active[r]
  {
    set r | r in active && sock in active[r]
  }

  /** The disconnect sweep: every room holding the socket loses it and is evicted if emptied;
      rooms without the socket are kept as they are. */
  function DisconnectActive(active: ActiveRooms, sock: SocketId): (a: ActiveRooms)
    ensures forall r :: r in a ==> r in active && sock !in a[r]
    ensures forall r :: r in active && sock !in active[r] ==> r in a && a[r] == active[r]
    ensures forall r :: r in active && sock in active[r] ==> (r in a <==> active[r] != {sock})
    ensures forall r :: r in a ==> a[r] == active[r] - {sock}
  {
    map r | r in active && (sock !in active[r] || active[r] - {sock} != {}) :: active[r] - {sock}
  }

  lemma ActiveValidPreserved(active: ActiveRooms, roomId: RoomId, sock: SocketId)
    requires ActiveValid(active)
    ensures ActiveValid(AddActive(active, roomId, sock))
    ensures ActiveValid(RemoveActive(active, roomId, sock))
    ensures ActiveValid(DisconnectActive(active, sock))
  {
  }

  /** A repeated leave or disconnect of the same socket leaves `activeRooms` as the first did. */
  lemma ActiveIdempotent(active: ActiveRooms, roomId: RoomId, sock: SocketId)
    ensures RemoveActive(RemoveActive(active, roomId, sock), roomId, sock) == RemoveActive(active, roomId, sock)
    ensures DisconnectActive(DisconnectActive(active, sock), sock) == DisconnectActive(active, sock)
  {
    var once := DisconnectActive(active, sock);
    var twice := DisconnectActive(once, sock);
    assert twice.Keys == once.Keys;
  }

  /** After a disconnect no room remembers the socket. */
  lemma DisconnectForgetsSocket(active: ActiveRooms, sock: SocketId)
    requires ActiveValid(active)
    ensures Hosting(DisconnectActive(active, sock), sock) == {}
    ensures DisconnectActive(active, sock).Keys == active.Keys - (set r | r in active && active[r] == {sock})
  {
  }

  /** The state of `activeRooms` after the disconnect loop has handled the rooms in `done`. */
  function PartlyDisconnected(active: ActiveRooms, sock: SocketId, done: set<RoomId>): (a: ActiveRooms)
    ensures forall r :: r in a ==> r in active
  {
    map r | r in active && (r !in done || active[r] - {sock} != {}) ::
      if r in done then active[r] - {sock} else active[r]
  }

  /** One loop step handles one more hosting room, exactly as leave-room would. */
  lemma DisconnectStep(active: ActiveRooms, sock: SocketId, done: set<RoomId>, r: RoomId)
    requires r in Hosting(active, sock) && r !in done
    ensures PartlyDisconnected(active, sock, done + {r}) == RemoveActive(PartlyDisconnected(active, sock, done), r, sock)
  {
    var a := PartlyDisconnected(active, sock, done + {r});
    var b := RemoveActive(PartlyDisconnected(active, sock, done), r, sock);
    assert a.Keys == b.Keys;
  }

  /** Handling no room changes nothing; handling every hosting room is the whole sweep. */
  lemma DisconnectBounds(active: ActiveRooms, sock: SocketId)
    ensures PartlyDisconnected(active, sock, {}) == active
    ensures PartlyDisconnected(active, sock, Hosting(active, sock)) == DisconnectActive(active, sock)
  {
    var a := PartlyDisconnected(active, sock, {});
    assert a.Keys == active.Keys;
    var b := PartlyDisconnected(active, sock, Hosting(active, sock));
    var c := DisconnectActive(active, sock);
    assert b.Keys == c.Keys;
  }

  /** The rooms table after the disconnect loop has pulled the socket from the rooms in `done`
      (a room the table does not hold is skipped, as `findOneAndUpdate` finds nothing). */
  function Swept(rooms: map<RoomId, Room>, done: set<RoomId>, sock: SocketId): (t: map<RoomId, Room>)
    ensures t.Keys == rooms.Keys
    ensures forall r :: r in rooms && r !in done ==> t[r] == rooms[r]
    ensures forall r :: r in rooms && r in done ==> t[r] == LeftRoom(rooms[r], sock)
  {
    map r | r in rooms :: if r in done then LeftRoom(rooms[r], sock) else rooms[r]
  }

  lemma SweptStep(rooms: map<RoomId, Room>, done: set<RoomId>, sock: SocketId, r: RoomId)
    requires r !in done
    ensures Swept(rooms, done + {r}, sock) ==
      (if r in rooms then Swept(rooms, done, sock)[r := LeftRoom(rooms[r], sock)] else Swept(rooms, done, sock))
  {
    var a := Swept(rooms, done + {r}, sock);
    var b := if r in rooms then Swept(rooms, done, sock)[r := LeftRoom(rooms[r], sock)] else Swept(rooms, done, sock);
    assert a.Keys == b.Keys;
  }

  lemma SweptWellFormed(rooms: map<RoomId, Room>, done: set<RoomId>, sock: SocketId)
    requires RoomsTable(rooms)
    ensures RoomsTable(Swept(rooms, done, sock))
  {
    forall r | r in rooms && r in done ensures WellFormedRoom(LeftRoom(rooms[r], sock)) {
      LeavePreservesWellFormed(rooms[r], sock);
    }
  }
}
