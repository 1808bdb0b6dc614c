/** The persistent room record (backend/models/Room.model.js): identity, roster, status and
    capacity, with the schema's enum, required fields and defaults. */
module RoomModel {
  import opened Wrappers

  type RoomId = string
  type UserId = string
  type SocketId = string

  datatype RoomStatus = Waiting | Active | Ended

  /** The stored form of a status. */
  function RoomStatusName(s: RoomStatus): string {
    match s
    case Waiting => "waiting"
    case Active => "active"
    case Ended => "ended"
  }

  /** The schema's enum check: only the three names are accepted. */
  function ParseRoomStatus(name: string): (r: Option<RoomStatus>)
    ensures r.Some? ==> RoomStatusName(r.value) == name
  {
    if name == "waiting" then Some(Waiting)
    else if name == "active" then Some(Active)
    else if name == "ended" then Some(Ended)
    else None
  }

  lemma RoomStatusEnum(s: RoomStatus, name: string)
    ensures ParseRoomStatus(RoomStatusName(s)) == Some(s)
    ensures ParseRoomStatus(name).Some? <==> name in {"waiting", "active", "ended"}
  {
  }

  const DefaultRoomStatus: RoomStatus := Waiting
  const DefaultMaxParticipants: int := 5

  /** One roster entry. `socketId` is None for a member with no live connection (null). */
  datatype Participant = Participant(userId: UserId, socketId: Option<SocketId>, joinedAt: int)

  datatype Room = Room(
    roomId: RoomId,
    createdBy: UserId,
    participants: seq<Participant>,
    status: RoomStatus,
    maxParticipants: int)

  /** A roster entry as a caller passes it to the model: a missing or null socket id is None,
      a missing join time is None. */
  datatype ParticipantDoc = ParticipantDoc(userId: UserId, socketId: Option<SocketId>, joinedAt: Option<int>)

  /** The fields a caller passes to Room.create; None is an omitted field. */
  datatype RoomDoc = RoomDoc(
    roomId: string,
    createdBy: string,
    participants: seq<ParticipantDoc>,
    status: Option<string>,
    maxParticipants: Option<int>)

  datatype DbError = ValidationError(path: string) | DuplicateKey(path: string)

  /** A roster entry with the schema defaults applied: join time defaults to the creation time. */
  function ParticipantFromDoc(p: ParticipantDoc, now: int): (r: Participant)
    ensures r.userId == p.userId && r.socketId == p.socketId
    ensures r.joinedAt == (if p.joinedAt.Some? then p.joinedAt.value else now)
  {
    Participant(p.userId, p.socketId, p.joinedAt.GetOr(now))
  }

  /** Building a room document: required fields must be present (non-empty), the status must be one
      of the enum's names, and omitted fields take their defaults. Uniqueness of `roomId` is a
      property of the table, checked where rooms are inserted. */
  function RoomFromDoc(d: RoomDoc, now: int): (r: Result<Room, DbError>)
    ensures d.roomId == "" ==> r == Failure(ValidationError("roomId"))
    ensures d.roomId != "" && d.createdBy == "" ==> r == Failure(ValidationError("createdBy"))
    ensures r.Success? <==>
      d.roomId != "" && d.createdBy != "" && (d.status.None? || ParseRoomStatus(d.status.value).Some?)
    ensures r.Success? ==>
      && r.value.roomId == d.roomId && r.value.createdBy == d.createdBy
      && |r.value.participants| == |d.participants|
      && (forall i :: 0 <= i < |d.participants| ==> r.value.participants[i] == ParticipantFromDoc(d.participants[i], now))
      && r.value.status == (if d.status.None? then DefaultRoomStatus else ParseRoomStatus(d.status.value).value)
      && r.value.maxParticipants == d.maxParticipants.GetOr(DefaultMaxParticipants)
  {
    if d.roomId == "" then Failure(ValidationError("roomId"))
    else if d.createdBy == "" then Failure(ValidationError("createdBy"))
    else if d.status.Some? && ParseRoomStatus(d.status.value).None? then Failure(ValidationError("status"))
    else
      var status := if d.status.None? then DefaultRoomStatus else ParseRoomStatus(d.status.value).value;
      Success(Room(d.roomId, d.createdBy,
        seq(|d.participants|, i requires 0 <= i < |d.participants| => ParticipantFromDoc(d.participants[i], now)),
        status, d.maxParticipants.GetOr(DefaultMaxParticipants)))
  }

  /** `participants.some(p => p.userId.toString() === userId)`. */
  predicate IsMember(ps: seq<Participant>, u: UserId) {
    exists i :: 0 <= i < |ps| && ps[i].userId == u
  }

  /** No user holds two roster entries. */
  predicate DistinctUsers(ps: seq<Participant>) {
    forall i, j :: 0 <= i < j < |ps| ==> ps[i].userId != ps[j].userId
  }

  /** The roster never exceeds the capacity and never repeats a user. */
  predicate WellFormedRoom(r: Room) {
    |r.participants| <= r.maxParticipants && DistinctUsers(r.participants)
  }

  /** The rooms table: keyed by roomId, so each roomId names at most one room. */
  predicate RoomsTable(rooms: map<RoomId, Room>) {
    forall k :: k in rooms ==> rooms[k].roomId == k && WellFormedRoom(rooms[k])
  }
}
