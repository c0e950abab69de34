/** The storage the handlers call (`m.DB`), as an oracle: for each call the
    answer it gives, as the pair of a value and an error flag that Go returns.
    The handlers sometimes go on using the value after an error, so the
    value is kept even when `failed` is set. Every storage call the handler
    methods make is recorded with its answer in a log, so that what was
    written, in what order, is part of the model's state. */
module Storage {
  import opened Models

  datatype RoomLookup = RoomLookup(room: Room, failed: bool)
  datatype RoomsLookup = RoomsLookup(rooms: seq<Room>, failed: bool)
  datatype AvailabilityLookup = AvailabilityLookup(available: bool, failed: bool)
  datatype InsertResult = InsertResult(id: int, failed: bool)

  /** The answers of the database at the time of one request. */
  datatype DatabaseRepo = DatabaseRepo(
    getRoomByID: int -> RoomLookup,
    searchAvailabilityForAllRooms: (Date, Date) -> RoomsLookup,
    searchAvailabilityByDatesByRoomID: (Date, Date, int) -> AvailabilityLookup,
    insertReservation: Reservation -> InsertResult,
    /** true when the insert returned an error */
    insertRoomRestriction: RoomRestriction -> bool)

  /** One call made on the database, with the answer it got. */
  datatype Call =
    | GetRoomByIDCall(id: int, lookup: RoomLookup)
    | SearchAllRoomsCall(start: Date, end: Date, rooms: RoomsLookup)
    | SearchRoomCall(start: Date, end: Date, roomId: int, availability: AvailabilityLookup)
    | InsertReservationCall(reservation: Reservation, inserted: InsertResult)
    | InsertRoomRestrictionCall(restriction: RoomRestriction, restrictionFailed: bool)
  {
    /** The two calls that change what storage holds. */
    predicate IsWrite() {
      InsertReservationCall? || InsertRoomRestrictionCall?
    }
  }
}
