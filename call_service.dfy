/** The call and room service of backend/services/call.service.js over the in-memory tables:
    createCall, joinCall, endCall, processCallRecording (its status flow), getCallHistory and
    getCallDetails. Each call is one sequential step; a thrown error is a Failure result, and
    whatever the source saved before the throw stays saved. */
module CallService {
  import opened Wrappers
  import opened RoomModel
  import opened CallModel
  import opened Store

  datatype ServiceError = RoomNotFound | RoomFull | CallNotFound | Unauthorized | Db(cause: DbError) | UploadError

  /** The message of the error the service throws. A database error is Mongoose's own error,
      passed on with Mongoose's text, which the model does not reproduce (None). */
  function Message(e: ServiceError): (m: Option<string>)
    ensures m.None? <==> e.Db?
  {
    match e
    case RoomNotFound => Some("Room not found")
    case RoomFull => Some("Room is full")
    case CallNotFound => Some("Call not found")
    case Unauthorized => Some("Unauthorized access to room")
    case Db(_) => None
    case UploadError => Some("Failed to upload file to S3")
  }

  /** The text identifies the error: callers of the service that compare `error.message` tell
      apart every error that is not the database's own. */
  lemma MessageIdentifiesError(e1: ServiceError, e2: ServiceError)
    requires !e1.Db? && !e2.Db?
    ensures Message(e1) == Message(e2) <==> e1 == e2
  {
  }

  // ---- createCall ----

  /** `roomId || uuidv4()`: a missing or empty room id is replaced by a freshly generated one. */
  function ChosenRoomId(roomId: Option<RoomId>, generated: RoomId): (id: RoomId)
    ensures roomId.Some? && roomId.value != "" ==> id == roomId.value
    ensures roomId.None? || roomId.value == "" ==> id == generated
    ensures generated != "" ==> id != ""
  {
    if roomId.Some? && roomId.value != "" then roomId.value else generated
  }

  /** The room createCall creates: the creator as its only participant, with no socket and
      joined now, status waiting and the default capacity of 5. */
  function CreatorRoom(roomId: RoomId, userId: UserId, now: int): (r: Result<Room, DbError>)
    ensures r.Success? <==> roomId != "" && userId != ""
    ensures r.Success? ==>
      && r.value.roomId == roomId && r.value.createdBy == userId
      && r.value.participants == [Participant(userId, None, now)]
      && r.value.status == Waiting && r.value.maxParticipants == 5
      && WellFormedRoom(r.value)
  {
    RoomFromDoc(RoomDoc(roomId, userId, [ParticipantDoc(userId, None, None)], Some("waiting"), None), now)
  }

  /** The call record createCall (and joinCall, when none exists) creates: the one user,
      status active, started now and not ended. */
  function OpeningCall(roomId: RoomId, userId: UserId, now: int): (r: Result<Call, DbError>)
    ensures r.Success? <==> roomId != "" && userId != ""
    ensures r.Success? ==>
      && r.value.roomId == roomId && r.value.participants == [userId]
      && r.value.status == CallActive && r.value.startedAt == now
      && r.value.endedAt == None && r.value.duration == 0
  {
    assert (exists i :: 0 <= i < |[userId]| && [userId][i] == "") <==> userId == "" by {
      if userId == "" { assert [userId][0] == ""; }
    }
    CallFromDoc(CallDoc(roomId, [userId], Some("active")), now)
  }

  method CreateCall(db: Database, userId: UserId, roomId: Option<RoomId>, generated: RoomId, now: int)
    returns (r: Result<(Room, Call), ServiceError>)
    requires db.Valid()
    modifies db
    ensures db.Valid()
    ensures var id := ChosenRoomId(roomId, generated);
      && (CreatorRoom(id, userId, now).Failure? ==>
            r == Failure(Db(CreatorRoom(id, userId, now).error)) && unchanged(db))
      && (CreatorRoom(id, userId, now).Success? && id in old(db.rooms) ==>
            r == Failure(Db(DuplicateKey("roomId"))) && unchanged(db))
      && (CreatorRoom(id, userId, now).Success? && id !in old(db.rooms) ==>
            && db.rooms == old(db.rooms)[id := CreatorRoom(id, userId, now).value]
            && (id in old(db.calls) ==> r == Failure(Db(DuplicateKey("roomId"))) && db.calls == old(db.calls))
            && (id !in old(db.calls) ==>
                  && db.calls == old(db.calls)[id := OpeningCall(id, userId, now).value]
                  && r == Success((db.rooms[id], db.calls[id]))))
  {
    var id := ChosenRoomId(roomId, generated);
    var room := CreatorRoom(id, userId, now);
    if room.Failure? {
      return Failure(Db(room.error));
    }
    if id in db.rooms {
      return Failure(Db(DuplicateKey("roomId")));
    }
    db.rooms := db.rooms[id := room.value];
    if id in db.calls {
      return Failure(Db(DuplicateKey("roomId")));
    }
    var call := OpeningCall(id, userId, now);
    db.calls := db.calls[id := call.value];
    r := Success((room.value, call.value));
  }

  // ---- joinCall ----

  /** joinCall's roster rule for a room with a free place: a newcomer is pushed (no socket yet),
      and the room turns active when that fills it; a member changes nothing. */
  function AdmitToRoom(room: Room, u: UserId, now: int): (r: Room)
    requires |room.participants| < room.maxParticipants
    ensures r.roomId == room.roomId && r.maxParticipants == room.maxParticipants
    ensures IsMember(room.participants, u) ==> r == room
    ensures !IsMember(room.participants, u) ==> r.participants == room.participants + [Participant(u, None, now)]
    ensures IsMember(r.participants, u) && |r.participants| <= r.maxParticipants
    ensures r.status == (if !IsMember(room.participants, u) && |r.participants| == r.maxParticipants then Active else room.status)
    ensures WellFormedRoom(room) ==> WellFormedRoom(r)
  {
    if IsMember(room.participants, u) then room
    else
      var ps := room.participants + [Participant(u, None, now)];
      assert ps[|ps| - 1].userId == u;
      assert DistinctUsers(room.participants) ==> DistinctUsers(ps) by {
        if DistinctUsers(room.participants) {
          forall i, j | 0 <= i < j < |ps| ensures ps[i].userId != ps[j].userId {
            assert ps[i] == room.participants[i] || j < |room.participants|;
          }
        }
      }
      room.(participants := ps, status := if |ps| == room.maxParticipants then Active else room.status)
  }

  /** joinCall's call rule: the user is listed once, added at the end if missing. */
  function AddCallParticipant(call: Call, u: UserId): (c: Call)
    ensures c == call.(participants := c.participants)
    ensures u in c.participants
    ensures c.participants == (if u in call.participants then call.participants else call.participants + [u])
    ensures DistinctIds(call.participants) ==> DistinctIds(c.participants)
  {
    if u in call.participants then call else call.(participants := call.participants + [u])
  }

  /** In a list without repeats, a listed user occurs exactly once. */
  lemma DistinctOccursOnce(us: seq<UserId>, u: UserId)
    requires DistinctIds(us) && u in us
    ensures |set i | 0 <= i < |us| && us[i] == u| == 1
  {
    var k :| 0 <= k < |us| && us[k] == u;
    assert (set i | 0 <= i < |us| && us[i] == u) == {k};
  }

  method JoinCall(db: Database, roomId: RoomId, userId: UserId, now: int)
    returns (r: Result<(Room, Call), ServiceError>)
    requires db.Valid()
    modifies db
    ensures db.Valid()
    ensures roomId !in old(db.rooms) ==> r == Failure(RoomNotFound) && unchanged(db)
    ensures roomId in old(db.rooms) && |old(db.rooms)[roomId].participants| >= old(db.rooms)[roomId].maxParticipants ==>
      r == Failure(RoomFull) && unchanged(db)
    ensures roomId in old(db.rooms) && |old(db.rooms)[roomId].participants| < old(db.rooms)[roomId].maxParticipants ==>
      var room := AdmitToRoom(old(db.rooms)[roomId], userId, now);
      && db.rooms == old(db.rooms)[roomId := room]
      && (roomId in old(db.calls) ==>
            var call := AddCallParticipant(old(db.calls)[roomId], userId);
            db.calls == old(db.calls)[roomId := call] && r == Success((room, call)))
      && (roomId !in old(db.calls) ==>
            var made := OpeningCall(roomId, userId, now);
            && (made.Success? ==> db.calls == old(db.calls)[roomId := made.value] && r == Success((room, made.value)))
            && (made.Failure? ==> db.calls == old(db.calls) && r == Failure(Db(made.error))))
  {
    if roomId !in db.rooms {
      return Failure(RoomNotFound);
    }
    var room := db.rooms[roomId];
    if |room.participants| >= room.maxParticipants {
      return Failure(RoomFull);
    }
    room := AdmitToRoom(room, userId, now);
    db.rooms := db.rooms[roomId := room];
    if roomId !in db.calls {
      var created := OpeningCall(roomId, userId, now);
      if created.Failure? {
        return Failure(Db(created.error));
      }
      db.calls := db.calls[roomId := created.value];
      return Success((room, created.value));
    }
    var call := AddCallParticipant(db.calls[roomId], userId);
    db.calls := db.calls[roomId := call];
    r := Success((room, call));
  }

  // ---- endCall ----

  /** `Math.floor((endedAt - startedAt) / 1000)`: whole seconds elapsed, rounded down. */
  function ElapsedSeconds(startedAt: int, endedAt: int): (d: int)
    ensures d * 1000 <= endedAt - startedAt < (d + 1) * 1000
    ensures endedAt >= startedAt ==> d >= 0
  {
    (endedAt - startedAt) / 1000
  }

  /** The call as endCall saves it: ended now, with its duration in whole seconds. */
  function EndedCall(call: Call, now: int): (c: Call)
    ensures c.status == CallEnded && c.endedAt == Some(now)
    ensures c.duration * 1000 <= now - call.startedAt < (c.duration + 1) * 1000
    ensures c == call.(status := CallEnded, endedAt := Some(now), duration := c.duration)
  {
    call.(status := CallEnded, endedAt := Some(now), duration := ElapsedSeconds(call.startedAt, now))
  }

  method EndCall(db: Database, roomId: RoomId, now: int) returns (r: Result<Call, ServiceError>)
    requires db.Valid()
    modifies db
    ensures db.Valid()
    ensures roomId !in old(db.calls) ==> r == Failure(CallNotFound) && unchanged(db)
    ensures roomId in old(db.calls) ==>
      && db.calls == old(db.calls)[roomId := EndedCall(old(db.calls)[roomId], now)]
      && r == Success(db.calls[roomId])
      && db.rooms == if roomId in old(db.rooms) then old(db.rooms)[roomId := old(db.rooms)[roomId].(status := Ended)] else old(db.rooms)
  {
    if roomId !in db.calls {
      return Failure(CallNotFound);
    }
    var call := EndedCall(db.calls[roomId], now);
    db.calls := db.calls[roomId := call];
    if roomId in db.rooms {
      db.rooms := db.rooms[roomId := db.rooms[roomId].(status := Ended)];
    }
    r := Success(call);
  }

  // ---- processCallRecording ----

  /** The outcome of one upload to object storage, which the model takes as given. */
  datatype Upload = Uploaded(url: string) | UploadFailed

  predicate UploadsSucceed(audio: Upload, video: Option<Upload>) {
    audio.Uploaded? && (video.None? || video.value.Uploaded?)
  }

  /** The call as processCallRecording leaves it stored. It is first saved as processing. When
      every upload succeeds the links are saved and it stays processing (the step that would end it
      is commented out). When an upload fails, the stored copy, still without the new links, is
      marked ended. */
  function ProcessedCall(call: Call, audio: Upload, video: Option<Upload>): (c: Call)
    ensures c.status == (if UploadsSucceed(audio, video) then CallProcessing else CallEnded)
    ensures UploadsSucceed(audio, video) ==>
      && c.audioUrl == Some(audio.url)
      && c.videoUrl == (if video.Some? then Some(video.value.url) else call.videoUrl)
    ensures !UploadsSucceed(audio, video) ==> c.audioUrl == call.audioUrl && c.videoUrl == call.videoUrl
    ensures c == call.(status := c.status, audioUrl := c.audioUrl, videoUrl := c.videoUrl)
  {
    var saved := call.(status := CallProcessing);
    if audio.UploadFailed? then saved.(status := CallEnded)
    else
      var withAudio := saved.(audioUrl := Some(audio.url));
      if video.None? then withAudio
      else if video.value.UploadFailed? then saved.(status := CallEnded)
      else withAudio.(videoUrl := Some(video.value.url))
  }

  method ProcessCallRecording(db: Database, roomId: RoomId, audio: Upload, video: Option<Upload>)
    returns (r: Result<Call, ServiceError>)
    requires db.Valid()
    modifies db
    ensures db.Valid()
    ensures db.rooms == old(db.rooms)
    ensures roomId !in old(db.calls) ==> r == Failure(CallNotFound) && db.calls == old(db.calls)
    ensures roomId in old(db.calls) ==>
      && db.calls == old(db.calls)[roomId := ProcessedCall(old(db.calls)[roomId], audio, video)]
      && r == (if UploadsSucceed(audio, video) then Success(db.calls[roomId]) else Failure(UploadError))
  {
    if roomId !in db.calls {
      return Failure(CallNotFound);
    }
    var call := db.calls[roomId].(status := CallProcessing);
    db.calls := db.calls[roomId := call];
    if audio.UploadFailed? {
      db.calls := db.calls[roomId := db.calls[roomId].(status := CallEnded)];
      return Failure(UploadError);
    }
    call := call.(audioUrl := Some(audio.url));
    if video.Some? {
      if video.value.UploadFailed? {
        db.calls := db.calls[roomId := db.calls[roomId].(status := CallEnded)];
        return Failure(UploadError);
      }
      call := call.(videoUrl := Some(video.value.url));
    }
    db.calls := db.calls[roomId := call];
    r := Success(call);
  }

  // ---- getCallHistory ----

  /** The query filter `{ participants: userId, status: 'ended' }`. */
  predicate InHistory(c: Call, u: UserId) {
    c.status == CallEnded && u in c.participants
  }

  /** The keys of the calls the history query matches. */
  function HistoryKeys(calls: map<RoomId, Call>, u: UserId): (h: set<RoomId>)
    ensures forall k :: k in h <==> k in calls && InHistory(calls[k], u)
  {
    set k | k in calls && InHistory(calls[k], u)
  }

  /** `a` may come before `b` under `sort({ endedAt: -1 })`: later end first, a null end last. */
  predicate EndedNoEarlier(a: Call, b: Call) {
    b.endedAt.None? || (a.endedAt.Some? && a.endedAt.value >= b.endedAt.value)
  }

  /** `ks` lists every history call of `u` once, latest end first. */
  ghost predicate IsRanking(ks: seq<RoomId>, calls: map<RoomId, Call>, u: UserId) {
    && (forall i :: 0 <= i < |ks| ==> ks[i] in calls)
    && (forall i, j :: 0 <= i < j < |ks| ==> ks[i] != ks[j])
    && (forall k :: k in ks <==> k in HistoryKeys(calls, u))
    && (forall i, j :: 0 <= i < j < |ks| ==> EndedNoEarlier(calls[ks[i]], calls[ks[j]]))
  }

  function CallsOf(calls: map<RoomId, Call>, ks: seq<RoomId>): (cs: seq<Call>)
    requires forall i :: 0 <= i < |ks| ==> ks[i] in calls
    ensures |cs| == |ks| && forall i :: 0 <= i < |ks| ==> cs[i] == calls[ks[i]]
  {
    seq(|ks|, i requires 0 <= i < |ks| => calls[ks[i]])
  }

  /** `.skip(skip).limit(limit)` on a result list. */
  function Window<T>(s: seq<T>, skip: nat, limit: nat): (w: seq<T>)
    ensures |w| == if skip >= |s| then 0 else if |s| - skip < limit then |s| - skip else limit
    ensures forall i :: 0 <= i < |w| ==> w[i] == s[skip + i]
  {
    if skip >= |s| then [] else if |s| - skip < limit then s[skip..] else s[skip..skip + limit]
  }

  /** `Math.ceil(total / limit)`: the fewest pages of `limit` that hold `total` calls. */
  function PageCount(total: nat, limit: nat): (pages: nat)
    requires limit > 0
    ensures pages * limit >= total
    ensures pages == 0 || (pages - 1) * limit < total
  {
    (total + limit - 1) / limit
  }

  datatype Pagination = Pagination(page: int, limit: int, total: nat, pages: nat)

  /** Among finitely many calls one ends no earlier than all the others. */
  lemma {:induction false} LatestExists(calls: map<RoomId, Call>, s: set<RoomId>)
    requires s != {} && s <= calls.Keys
    ensures exists k :: k in s && forall j :: j in s ==> EndedNoEarlier(calls[k], calls[j])
  {
    var x :| x in s;
    if s != {x} {
      LatestExists(calls, s - {x});
      var k :| k in s - {x} && forall j :: j in s - {x} ==> EndedNoEarlier(calls[k], calls[j]);
      if EndedNoEarlier(calls[k], calls[x]) {
        assert forall j :: j in s ==> EndedNoEarlier(calls[k], calls[j]);
      } else {
        assert forall j :: j in s ==> EndedNoEarlier(calls[x], calls[j]);
      }
    }
  }

  /** getCallHistory: the user's ended calls, latest end first, page `page` of size `limit`
      (skipping `(page - 1) * limit`), with the total and the page count. */
  method GetCallHistory(db: Database, userId: UserId, page: int, limit: int)
    returns (calls: seq<Call>, pagination: Pagination)
    requires page >= 1 && limit >= 1
    ensures pagination == Pagination(page, limit, |HistoryKeys(db.calls, userId)|, PageCount(|HistoryKeys(db.calls, userId)|, limit))
    ensures forall c :: c in calls ==> InHistory(c, userId)
    ensures forall i, j :: 0 <= i < j < |calls| ==> EndedNoEarlier(calls[i], calls[j])
    ensures exists ks :: IsRanking(ks, db.calls, userId) && calls == Window(CallsOf(db.calls, ks), (page - 1) * limit, limit)
  {
    var table := db.calls;
    var remaining := HistoryKeys(table, userId);
    var ks: seq<RoomId> := [];
    while remaining != {}
      invariant remaining <= HistoryKeys(table, userId)
      invariant forall i :: 0 <= i < |ks| ==> ks[i] in HistoryKeys(table, userId) && ks[i] !in remaining
      invariant forall k :: k in HistoryKeys(table, userId) ==> k in remaining || k in ks
      invariant forall i, j :: 0 <= i < j < |ks| ==> ks[i] != ks[j]
      invariant forall i, j :: 0 <= i < j < |ks| ==> EndedNoEarlier(table[ks[i]], table[ks[j]])
      invariant forall i, k :: 0 <= i < |ks| && k in remaining ==> EndedNoEarlier(table[ks[i]], table[k])
      decreases remaining
    {
      LatestExists(table, remaining);
      var k :| k in remaining && forall j :: j in remaining ==> EndedNoEarlier(table[k], table[j]);
      ks := ks + [k];
      remaining := remaining - {k};
    }
    assert IsRanking(ks, table, userId);
    var all := CallsOf(table, ks);
    calls := Window(all, (page - 1) * limit, limit);
    var total := |HistoryKeys(table, userId)|;
    pagination := Pagination(page, limit, total, PageCount(total, limit));
  }

  // ---- getCallDetails ----

  /** The status getCallDetails writes into a call it creates. "waiting" is not a call status. */
  function DerivedCallStatus(s: RoomStatus): (name: string)
    ensures name == "active" <==> s == Active
    ensures name != "active" ==> name == "waiting"
    ensures ParseCallStatus(name).Some? <==> s == Active
  {
    if s == Active then "active" else "waiting"
  }

  function UserIds(ps: seq<Participant>): (us: seq<UserId>)
    ensures |us| == |ps| && forall i :: 0 <= i < |ps| ==> us[i] == ps[i].userId
    ensures DistinctUsers(ps) ==> DistinctIds(us)
  {
    seq(|ps|, i requires 0 <= i < |ps| => ps[i].userId)
  }

  /** The call getCallDetails creates for a room with none: the room's users, status active for an
      active room; any other room's call fails the status enum. */
  function DetailsCall(room: Room, now: int): (r: Result<Call, DbError>)
    ensures room.status != Active ==> r.Failure?
    ensures r.Success? <==>
      room.status == Active && room.roomId != "" && (forall p :: p in room.participants ==> p.userId != "")
    ensures r.Success? ==>
      && r.value.status == CallActive && r.value.participants == UserIds(room.participants)
      && r.value.roomId == room.roomId && r.value.startedAt == now && r.value.endedAt == None
  {
    var us := UserIds(room.participants);
    assert (forall i :: 0 <= i < |us| ==> us[i] != "") <==> (forall p :: p in room.participants ==> p.userId != "") by {
      forall p | p in room.participants ensures (forall i :: 0 <= i < |us| ==> us[i] != "") ==> p.userId != "" {
        var i :| 0 <= i < |room.participants| && room.participants[i] == p;
        assert us[i] == p.userId;
      }
    }
    CallFromDoc(CallDoc(room.roomId, us, Some(DerivedCallStatus(room.status))), now)
  }

  method GetCallDetails(db: Database, roomId: RoomId, userId: UserId, now: int) returns (r: Result<Call, ServiceError>)
    requires db.Valid()
    modifies db
    ensures db.Valid()
    ensures db.rooms == old(db.rooms)
    ensures roomId !in old(db.rooms) ==> r == Failure(RoomNotFound) && db.calls == old(db.calls)
    ensures roomId in old(db.rooms) && !IsMember(old(db.rooms)[roomId].participants, userId) ==>
      r == Failure(Unauthorized) && db.calls == old(db.calls)
    ensures roomId in old(db.rooms) && IsMember(old(db.rooms)[roomId].participants, userId) ==>
      && (roomId in old(db.calls) ==> r == Success(old(db.calls)[roomId]) && db.calls == old(db.calls))
      && (roomId !in old(db.calls) ==>
            var created := DetailsCall(old(db.rooms)[roomId], now);
            && (created.Success? ==> db.calls == old(db.calls)[roomId := created.value] && r == Success(created.value))
            && (created.Failure? ==> db.calls == old(db.calls) && r == Failure(Db(created.error))))
  {
    if roomId !in db.rooms {
      return Failure(RoomNotFound);
    }
    var room := db.rooms[roomId];
    if !IsMember(room.participants, userId) {
      return Failure(Unauthorized);
    }
    if roomId in db.calls {
      return Success(db.calls[roomId]);
    }
    var created := DetailsCall(room, now);
    if created.Failure? {
      return Failure(Db(created.error));
    }
    db.calls := db.calls[roomId := created.value];
    r := Success(created.value);
  }
}
