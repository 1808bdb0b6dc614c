/** The home screen of the mobile client (mobile/screens/HomeScreen.js): checking the room and
    user ids before opening the call screen. */
module HomeScreen {
  import opened Text

  datatype Outcome =
    | Alert(title: string, message: string)
    | Navigate(screen: string, roomId: string, userId: string)

  /** `handleJoinCall`: a room id that is blank after trimming is refused first, then a blank user
      id; otherwise the call screen opens with both ids trimmed. */
  function HandleJoinCall(roomId: string, userId: string): (o: Outcome)
    ensures IsBlank(roomId) ==> o == Alert("Error", "Please enter a room ID")
    ensures !IsBlank(roomId) && IsBlank(userId) ==> o == Alert("Error", "Please enter a user ID")
    ensures o.Navigate? <==> !IsBlank(roomId) && !IsBlank(userId)
    ensures o.Navigate? ==> o == Navigate("VideoCall", Trim(roomId), Trim(userId))
  {
    if Trim(roomId) == "" then Alert("Error", "Please enter a room ID")
    else if Trim(userId) == "" then Alert("Error", "Please enter a user ID")
    else Navigate("VideoCall", Trim(roomId), Trim(userId))
  }

  /** An id passed on is non-empty, has no surrounding whitespace, and is the input with only
      surrounding whitespace removed. */
  predicate CleanIdOf(id: string, input: string) {
    && id != []
    && !IsWhitespace(id[0]) && !IsWhitespace(id[|id| - 1])
    && exists i, j :: 0 <= i <= j <= |input| && id == input[i..j] && IsBlank(input[..i]) && IsBlank(input[j..])
  }

  lemma NavigatesWithCleanIds(roomId: string, userId: string)
    requires HandleJoinCall(roomId, userId).Navigate?
    ensures CleanIdOf(HandleJoinCall(roomId, userId).roomId, roomId)
    ensures CleanIdOf(HandleJoinCall(roomId, userId).userId, userId)
  {
    TrimIsSlice(roomId);
    TrimIsSlice(userId);
  }

  /** When both ids are blank only the room id is reported. */
  lemma RoomIdCheckedFirst(roomId: string, userId: string)
    requires IsBlank(roomId) && IsBlank(userId)
    ensures HandleJoinCall(roomId, userId) == Alert("Error", "Please enter a room ID")
  {
  }
}
