/** The persistent call record (backend/models/Call.model.js): status enum, timestamps, media
    links, transcript and the structured summary, with the schema's defaults. */
module CallModel {
  import opened Wrappers
  import opened RoomModel

  datatype CallStatus = CallActive | CallEnded | CallProcessing

  function CallStatusName(s: CallStatus): string {
    match s
    case CallActive => "active"
    case CallEnded => "ended"
    case CallProcessing => "processing"
  }

  /** The schema's enum check. Note that "waiting", a room status, is not a call status. */
  function ParseCallStatus(name: string): (r: Option<CallStatus>)
    ensures r.Some? ==> CallStatusName(r.value) == name
  {
    if name == "active" then Some(CallActive)
    else if name == "ended" then Some(CallEnded)
    else if name == "processing" then Some(CallProcessing)
    else None
  }

  lemma CallStatusEnum(s: CallStatus, name: string)
    ensures ParseCallStatus(CallStatusName(s)) == Some(s)
    ensures ParseCallStatus(name).Some? <==> name in {"active", "ended", "processing"}
    ensures ParseCallStatus("waiting") == None
  {
  }

  const DefaultCallStatus: CallStatus := CallActive

  /** An action item of the summary; assignee and due date default to null. */
  datatype ActionItem = ActionItem(item: string, assignedTo: Option<UserId>, dueDate: Option<int>)

  datatype Summary = Summary(
    overview: Option<string>,
    keyPoints: seq<string>,
    decisions: seq<string>,
    actionItems: seq<ActionItem>)

  const EmptySummary: Summary := Summary(None, [], [], [])

  datatype Call = Call(
    roomId: RoomId,
    participants: seq<UserId>,
    startedAt: int,
    endedAt: Option<int>,
    duration: int,
    status: CallStatus,
    videoUrl: Option<string>,
    audioUrl: Option<string>,
    transcript: Option<string>,
    summary: Summary,
    metadata: map<string, string>)

  /** The fields a caller passes to Call.create; None is an omitted field. */
  datatype CallDoc = CallDoc(roomId: string, participants: seq<UserId>, status: Option<string>)

  /** Building a call document: roomId and every participant are required, the status must be one of
      the enum's names, and every other field takes its default (started now, not ended, duration 0,
      no media, no transcript, an empty summary and metadata). */
  function CallFromDoc(d: CallDoc, now: int): (r: Result<Call, DbError>)
    ensures r.Success? <==>
      && d.roomId != ""
      && (forall i :: 0 <= i < |d.participants| ==> d.participants[i] != "")
      && (d.status.None? || ParseCallStatus(d.status.value).Some?)
    ensures d.status == Some("waiting") ==> r.Failure?
    ensures r.Success? ==>
      && r.value.roomId == d.roomId && r.value.participants == d.participants
      && r.value.status == (if d.status.None? then DefaultCallStatus else ParseCallStatus(d.status.value).value)
      && r.value.startedAt == now && r.value.endedAt == None && r.value.duration == 0
      && r.value.videoUrl == None && r.value.audioUrl == None && r.value.transcript == None
      && r.value.summary == EmptySummary && r.value.metadata == map[]
  {
    if d.roomId == "" then Failure(ValidationError("roomId"))
    else if exists i :: 0 <= i < |d.participants| && d.participants[i] == "" then Failure(ValidationError("participants"))
    else if d.status.Some? && ParseCallStatus(d.status.value).None? then Failure(ValidationError("status"))
    else
      var status := if d.status.None? then DefaultCallStatus else ParseCallStatus(d.status.value).value;
      Success(Call(d.roomId, d.participants, now, None, 0, status, None, None, None, EmptySummary, map[]))
  }

  /** No user is listed twice. */
  predicate DistinctIds(us: seq<UserId>) {
    forall i, j :: 0 <= i < j < |us| ==> us[i] != us[j]
  }

  /** The calls table: keyed by roomId, so each roomId has at most one call record, and no call
      lists a user twice. */
  predicate CallsTable(calls: map<RoomId, Call>) {
    forall k :: k in calls ==> calls[k].roomId == k && DistinctIds(calls[k].participants)
  }
}
