/** The two persisted tables, rooms and calls, each keyed by its roomId (the unique index). */
module Store {
  import opened RoomModel
  import opened CallModel

  class Database {
    var rooms: map<RoomId, Room>
    var calls: map<RoomId, Call>

    ghost predicate Valid()
      reads this
    {
      RoomsTable(rooms) && CallsTable(calls)
    }

    constructor (rooms0: map<RoomId, Room>, calls0: map<RoomId, Call>)
      requires RoomsTable(rooms0) && CallsTable(calls0)
      ensures Valid() && rooms == rooms0 && calls == calls0
    {
      rooms, calls := rooms0, calls0;
    }
  }
}
