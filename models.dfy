/** The records the booking handlers pass around (the `models` package as the
    handlers use it). Every record here is a value: the handlers copy them,
    assign fields of the copy and store the copy back. */
module Models {

  datatype Option<+T> = None | Some(value: T) {
    /** The held value, or `default` when there is none. */
    function GetOr(default: T): T {
      match this
      case Some(v) => v
      case None => default
    }
  }

  /** A calendar day, counted from January 1 of year 1, the day of Go's zero
      `time.Time`. Dates are parsed with the day-only layout "2006-01-02", so
      a day number is all a parsed date carries. */
  datatype Date = Date(day: int)

  /** The zero `time.Time`: what an unset date field of a reservation holds. */
  const ZeroTime := Date(0)

  /** `later.After(earlier)`: strictly later. */
  predicate After(later: Date, earlier: Date) {
    later.day > earlier.day
  }

  datatype Room = Room(id: int, roomName: string)

  const ZeroRoom := Room(0, "")

  /** A reservation as it travels in the session and to storage; an empty
      string, a zero date or a zero id is an unset field. */
  datatype Reservation = Reservation(
    firstName: string,
    lastName: string,
    email: string,
    phone: string,
    startDate: Date,
    endDate: Date,
    roomId: int,
    room: Room)

  /** The zero value `models.Reservation{}`. */
  const EmptyReservation := Reservation("", "", "", "", ZeroTime, ZeroTime, 0, ZeroRoom)

  datatype RoomRestriction = RoomRestriction(
    startDate: Date,
    endDate: Date,
    roomId: int,
    reservationId: int,
    restrictionId: int)

  /** The HTML body of a notification, kept as the values it is formatted
      from: the guest's first name or the room's name, and the two dates. */
  datatype MailContent =
    | ConfirmationBody(firstName: string, start: Date, end: Date)
    | NotificationBody(roomName: string, start: Date, end: Date)

  /** One message sent on the mail channel. An empty template means none. */
  datatype MailData = MailData(
    to: string,
    from: string,
    subject: string,
    content: MailContent,
    template: string)
}
