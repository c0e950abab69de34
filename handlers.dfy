/** The booking handlers of the web application. Each handler is one request:
    it may read the session's reservation draft, asks storage, may change the
    draft and the error flash, may queue mail, and writes one response.

    Several error branches of the handlers write a redirect and do not
    return, so the handler goes on: later steps still change the session,
    call storage and queue mail, and only the first response written decides
    the status and location the client sees. The methods below follow the
    handlers step by step, with `w` holding what has been written so far. */
module Handlers {
  import opened Models
  import opened Storage
  import opened Library
  import opened Http
  import opened Session
  import opened Forms
  import opened Commit

  // The error flashes. Handlers word the same failure differently, and each
  // wording is kept.
  const NoDraftMessage := "Can't get reservation from session"
  const NoDraftOnPostMessage := "Can't get from session"
  const BadFormMessage := "Can't parse form!"
  const NoRoomMessage := "Can't find room"
  const NoRoomOnPostMessage := "can't find room!"
  const NoBookedRoomMessage := "can't find room"
  const BadDateMessage := "can't parse start date!"
  const SearchFailedMessage := "can't get availability for rooms"
  const OneNightMessage := "You have to book at least one night"
  const NoAvailabilityMessage := "No availability"
  const MissingIdMessage := "missing url parameter"
  const ReservationInsertFailedMessage := "database-insert-fails-reservation"
  const RestrictionInsertFailedMessage := "database-insert-fails-restriction"
  const TamperedDatesMessage := "attentione, user modified ilegally the dates after he fixed them :)))"

  // The messages of the availability probe, one per failed check.
  const JsonParseError := "Internal server error"
  const JsonBadStart := "Invalid start date format. Please use yyyy-mm-dd."
  const JsonBadEnd := "Invalid end date format. Please use yyyy-mm-dd."
  const JsonDateOrder := "End date must be at least one day after start date."
  const JsonQueryFailed := "Error querying database"

  const Home := "/"
  const MakeReservationPath := "/make-reservation"
  const SummaryPath := "/reservation-summary"

  const MakeReservationPage := "make-reservation.page.tmpl"
  const SearchAvailabilityPage := "search-availability.page.tmpl"
  const ChooseRoomPage := "choose-room.page.tmpl"
  const SummaryPage := "reservation-summary.page.tmpl"

  /** The draft with the guest's details from the posted form and the room
      looked up for it (handlers.go, `PostReservation`). */
  function WithGuestDetails(held: Reservation, r: Request, room: Room): (d: Reservation)
    ensures d.firstName == FormGet(r, "first_name") && d.lastName == FormGet(r, "last_name")
    ensures d.email == FormGet(r, "email") && d.phone == FormGet(r, "phone")
    ensures d.room == room
    ensures d.startDate == held.startDate && d.endDate == held.endDate && d.roomId == held.roomId
  {
    held.(firstName := FormGet(r, "first_name"), lastName := FormGet(r, "last_name"),
          email := FormGet(r, "email"), phone := FormGet(r, "phone"), room := room)
  }

  /** The JSON body of the availability probe. */
  datatype JsonResponse = JsonResponse(
    ok: bool,
    message: string,
    roomId: string,
    startDate: string,
    endDate: string)

  function JsonFailure(message: string): JsonResponse {
    JsonResponse(false, message, "", "", "")
  }

  /** The probe gets past every check before the storage query. */
  predicate ProbeReachesStorage(lib: Conversions, r: Request) {
    var start, end := lib.parseDate(FormGet(r, "start")), lib.parseDate(FormGet(r, "end"));
    r.parsed && start.Some? && end.Some? && After(end.value, start.value)
  }

  /** What storage answers the probe once every check passed. */
  function ProbeAnswer(db: DatabaseRepo, lib: Conversions, r: Request): AvailabilityLookup
    requires ProbeReachesStorage(lib, r)
  {
    db.searchAvailabilityByDatesByRoomID(
      lib.parseDate(FormGet(r, "start")).value, lib.parseDate(FormGet(r, "end")).value,
      lib.atoi(FormGet(r, "room_id")).value)
  }

  /** `AvailabilityJSON`: checks the form, the start date, the end date and
      their order, then asks storage about one room, and answers in JSON. It
      touches neither the session nor the mail channel. */
  function AvailabilityJSON(db: DatabaseRepo, lib: Conversions, r: Request): (resp: JsonResponse)
    // each check, in order, fails with its own message
    ensures !r.parsed ==> resp == JsonFailure(JsonParseError)
    ensures r.parsed && lib.parseDate(FormGet(r, "start")).None? ==>
      resp == JsonFailure(JsonBadStart)
    ensures r.parsed && lib.parseDate(FormGet(r, "start")).Some? && lib.parseDate(FormGet(r, "end")).None? ==>
      resp == JsonFailure(JsonBadEnd)
    ensures r.parsed && lib.parseDate(FormGet(r, "start")).Some? && lib.parseDate(FormGet(r, "end")).Some? &&
            !After(lib.parseDate(FormGet(r, "end")).value, lib.parseDate(FormGet(r, "start")).value) ==>
      resp == JsonFailure(JsonDateOrder)
    ensures ProbeReachesStorage(lib, r) && ProbeAnswer(db, lib, r).failed ==>
      resp == JsonFailure(JsonQueryFailed)
    // past every check, the answer is storage's and the request is echoed
    ensures ProbeReachesStorage(lib, r) && !ProbeAnswer(db, lib, r).failed ==>
      resp == JsonResponse(ProbeAnswer(db, lib, r).available, "",
                           lib.itoa(lib.atoi(FormGet(r, "room_id")).value),
                           FormGet(r, "start"), FormGet(r, "end"))
    // ok only when every check passed and storage said the room is free
    ensures resp.ok <==>
      ProbeReachesStorage(lib, r) && !ProbeAnswer(db, lib, r).failed && ProbeAnswer(db, lib, r).available
    // a message is given exactly when some check failed
    ensures resp.message == "" <==> ProbeReachesStorage(lib, r) && !ProbeAnswer(db, lib, r).failed
  {
    if !r.parsed then JsonFailure(JsonParseError)
    else
      var start, end := FormGet(r, "start"), FormGet(r, "end");
      var startDate := lib.parseDate(start);
      if startDate.None? then JsonFailure(JsonBadStart)
      else
        var endDate := lib.parseDate(end);
        if endDate.None? then JsonFailure(JsonBadEnd)
        else if !After(endDate.value, startDate.value) then
          JsonFailure(JsonDateOrder)
        else
          var roomId := lib.atoi(FormGet(r, "room_id")).value;
          var answer := db.searchAvailabilityByDatesByRoomID(startDate.value, endDate.value, roomId);
          if answer.failed then JsonFailure(JsonQueryFailed)
          else JsonResponse(answer.available, "", lib.itoa(roomId), start, end)
  }

  /** The application state the handlers share: the browser session, the
      mail channel (as the queue of messages sent on it) and the log of calls
      made on storage. */
  class Repository {
    var session: Store
    var outbox: seq<MailData>
    var calls: seq<Call>

    /** Every message on the mail channel comes from a reservation insert
        attempt, two per attempt, guest first; every such attempt is followed
        at once by the insert of its restriction. */
    ghost predicate Valid()
      reads this`outbox, this`calls
    {
      outbox == Notifications(calls) && Paired(calls)
    }

    constructor ()
      ensures Valid()
      ensures session == map[] && outbox == [] && calls == []
    {
      session := map[];
      outbox := [];
      calls := [];
    }

    /** The draft slot of the session. */
    function Draft(): Option<Reservation>
      reads this
    {
      GetReservation(session, ReservationKey)
    }

    /** `Reservation`: shows the guest form for the draft, with the draft's
        room looked up again. A missing draft or a failed lookup redirects
        home, but the handler goes on, looks up the room of the zero
        reservation and stores a draft. */
    method Reservation(db: DatabaseRepo) returns (resp: Response)
      requires Valid()
      modifies this
      ensures Valid()
      ensures outbox == old(outbox)
      ensures var draft := GetReservation(old(session), ReservationKey);
              var held := draft.GetOr(EmptyReservation);
              var lookup := db.getRoomByID(held.roomId);
              var shown := held.(room := lookup.room);
              && calls == old(calls) + [GetRoomByIDCall(held.roomId, lookup)]
              && session == Put(FlashIf(FlashIf(old(session), draft.None?, NoDraftMessage),
                                        lookup.failed, NoRoomMessage),
                                ReservationKey, ReservationValue(shown))
              && resp == if draft.None? || lookup.failed then Redirect(Home)
                         else Render(MakeReservationPage, ReservationForm(shown, {}))
    {
      var w: Option<Response> := None;
      var draft := GetReservation(session, ReservationKey);
      var res := draft.GetOr(EmptyReservation);
      if draft.None? {
        session := Flash(session, NoDraftMessage);
        w := FirstWrite(w, Redirect(Home));
      }
      var lookup := db.getRoomByID(res.roomId);
      LogRead(calls, GetRoomByIDCall(res.roomId, lookup));
      calls := calls + [GetRoomByIDCall(res.roomId, lookup)];
      if lookup.failed {
        session := Flash(session, NoRoomMessage);
        w := FirstWrite(w, Redirect(Home));
      }
      res := res.(room := lookup.room);
      session := Put(session, ReservationKey, ReservationValue(res));
      w := FirstWrite(w, Render(MakeReservationPage, ReservationForm(res, {})));
      resp := w.value;
    }

    /** `PostReservation`: looks the draft's room up, records the guest's
        details, validates the form, inserts the reservation and its
        restriction, queues the two notifications and stores the completed
        draft. Only a failed room lookup and an invalid form stop it early. */
    method PostReservation(db: DatabaseRepo, checks: FormChecks, r: Request) returns (resp: Response)
      requires Valid()
      modifies this
      ensures Valid()
      ensures var draft := GetReservation(old(session), ReservationKey);
              var held := draft.GetOr(EmptyReservation);
              var lookup := db.getRoomByID(held.roomId);
              var guest := WithGuestDetails(held, r, lookup.room);
              var flashed := FlashIf(FlashIf(old(session), draft.None?, NoDraftOnPostMessage),
                                     !r.parsed, BadFormMessage);
              var redirected := draft.None? || !r.parsed;
              if lookup.failed then
                && calls == old(calls) + [GetRoomByIDCall(held.roomId, lookup)]
                && outbox == old(outbox)
                && session == Flash(flashed, NoRoomOnPostMessage)
                && resp == Redirect(Home)
              else if !Forms.Valid(checks, r.postForm) then
                && calls == old(calls) + [GetRoomByIDCall(held.roomId, lookup)]
                && outbox == old(outbox)
                && session == flashed
                && resp == if redirected then Redirect(Home)
                           else Render(MakeReservationPage, ReservationForm(guest, FieldErrors(checks, r.postForm)))
              else
                var inserted := db.insertReservation(guest);
                var restrictionFailed := db.insertRoomRestriction(RestrictionFor(guest, inserted.id));
                && calls == old(calls) + [GetRoomByIDCall(held.roomId, lookup)] + InsertCalls(guest, inserted, restrictionFailed)
                && outbox == old(outbox) + [GuestConfirmation(guest), OwnerNotification(guest)]
                && session == Put(FlashIf(FlashIf(flashed, inserted.failed, ReservationInsertFailedMessage),
                                          restrictionFailed, RestrictionInsertFailedMessage),
                                  ReservationKey, ReservationValue(guest))
                && resp == if redirected || inserted.failed || restrictionFailed then Redirect(Home)
                           else Redirect(SummaryPath)
    {
      var w: Option<Response> := None;
      var draft := GetReservation(session, ReservationKey);
      var reservation := draft.GetOr(EmptyReservation);
      if draft.None? {
        session := Flash(session, NoDraftOnPostMessage);
        w := FirstWrite(w, Redirect(Home));
      }
      if !r.parsed {
        session := Flash(session, BadFormMessage);
        w := FirstWrite(w, Redirect(Home));
      }
      var lookup := db.getRoomByID(reservation.roomId);
      var lookupCall := GetRoomByIDCall(reservation.roomId, lookup);
      LogRead(calls, lookupCall);
      calls := calls + [lookupCall];
      if lookup.failed {
        session := Flash(session, NoRoomOnPostMessage);
        resp := FirstWrite(w, Redirect(Home)).value;
        return;
      }
      reservation := WithGuestDetails(reservation, r, lookup.room);
      if !Forms.Valid(checks, r.postForm) {
        resp := FirstWrite(w, Render(MakeReservationPage, ReservationForm(reservation, FieldErrors(checks, r.postForm)))).value;
        return;
      }
      resp := CommitReservation(db, reservation, w);
    }

    /** The end of `PostReservation` once the form is valid: inserts the
        reservation and then its restriction, flashing each failure, queues
        the guest's confirmation and the owner's notice whatever happened,
        stores the completed draft and redirects to the summary unless a
        response was already written. */
    method CommitReservation(db: DatabaseRepo, reservation: Reservation, w0: Option<Response>)
      returns (resp: Response)
      requires Valid()
      modifies this
      ensures Valid()
      ensures var inserted := db.insertReservation(reservation);
              var restrictionFailed := db.insertRoomRestriction(RestrictionFor(reservation, inserted.id));
              && calls == old(calls) + InsertCalls(reservation, inserted, restrictionFailed)
              && outbox == old(outbox) + [GuestConfirmation(reservation), OwnerNotification(reservation)]
              && session == Put(FlashIf(FlashIf(old(session), inserted.failed, ReservationInsertFailedMessage),
                                        restrictionFailed, RestrictionInsertFailedMessage),
                                ReservationKey, ReservationValue(reservation))
              && resp == if w0.Some? then w0.value
                         else if inserted.failed || restrictionFailed then Redirect(Home)
                         else Redirect(SummaryPath)
    {
      var w := w0;
      ghost var before := calls;
      var inserted := db.insertReservation(reservation);
      calls := calls + [InsertReservationCall(reservation, inserted)];
      if inserted.failed {
        session := Flash(session, ReservationInsertFailedMessage);
        w := FirstWrite(w, Redirect(Home));
      }
      assert session == FlashIf(old(session), inserted.failed, ReservationInsertFailedMessage);
      var restriction := RestrictionFor(reservation, inserted.id);
      var restrictionFailed := db.insertRoomRestriction(restriction);
      calls := calls + [InsertRoomRestrictionCall(restriction, restrictionFailed)];
      if restrictionFailed {
        session := Flash(session, RestrictionInsertFailedMessage);
        w := FirstWrite(w, Redirect(Home));
      }
      assert w.Some? <==> w0.Some? || inserted.failed || restrictionFailed;
      outbox := outbox + [GuestConfirmation(reservation)];
      outbox := outbox + [OwnerNotification(reservation)];
      assert outbox == old(outbox) + [GuestConfirmation(reservation), OwnerNotification(reservation)];
      session := Put(session, ReservationKey, ReservationValue(reservation));
      assert calls == before + InsertCalls(reservation, inserted, restrictionFailed);
      LogInserts(before, reservation, inserted, restrictionFailed);
      resp := FirstWrite(w, Redirect(SummaryPath)).value;
    }

    /** `PostAvailability`: parses the searched dates, asks storage for the
        free rooms, and only then checks that the stay is at least one
        night. On success the draft is replaced by one holding only the two
        dates. */
    method PostAvailability(db: DatabaseRepo, lib: Conversions, r: Request) returns (resp: Response)
      requires Valid()
      modifies this
      ensures Valid()
      ensures outbox == old(outbox)
      ensures var start, end := lib.parseDate(FormGet(r, "start")), lib.parseDate(FormGet(r, "end"));
              if start.None? || end.None? then
                && calls == old(calls)
                && session == Flash(old(session), BadDateMessage)
                && resp == Redirect(Home)
              else
                var found := db.searchAvailabilityForAllRooms(start.value, end.value);
                && calls == old(calls) + [SearchAllRoomsCall(start.value, end.value, found)]
                && if found.failed then
                     && session == Flash(old(session), SearchFailedMessage)
                     && resp == Redirect(Home)
                   else if !After(end.value, start.value) then
                     && session == Flash(old(session), OneNightMessage)
                     && resp == Render(SearchAvailabilityPage, SearchDates(start.value, end.value))
                   else if |found.rooms| == 0 then
                     && session == Flash(old(session), NoAvailabilityMessage)
                     && resp == Render(SearchAvailabilityPage, SearchDates(start.value, end.value))
                   else
                     && session == Put(old(session), ReservationKey, ReservationValue(EmptyReservation.(startDate := start.value, endDate := end.value)))
                     && resp == Render(ChooseRoomPage, RoomChoices(found.rooms))
    {
      var startDate := lib.parseDate(FormGet(r, "start"));
      if startDate.None? {
        session := Flash(session, BadDateMessage);
        resp := Redirect(Home);
        return;
      }
      var endDate := lib.parseDate(FormGet(r, "end"));
      if endDate.None? {
        session := Flash(session, BadDateMessage);
        resp := Redirect(Home);
        return;
      }
      var found := db.searchAvailabilityForAllRooms(startDate.value, endDate.value);
      LogRead(calls, SearchAllRoomsCall(startDate.value, endDate.value, found));
      calls := calls + [SearchAllRoomsCall(startDate.value, endDate.value, found)];
      if found.failed {
        session := Flash(session, SearchFailedMessage);
        resp := Redirect(Home);
        return;
      }
      if !After(endDate.value, startDate.value) {
        session := Flash(session, OneNightMessage);
        resp := Render(SearchAvailabilityPage, SearchDates(startDate.value, endDate.value));
        return;
      }
      if |found.rooms| == 0 {
        session := Flash(session, NoAvailabilityMessage);
        resp := Render(SearchAvailabilityPage, SearchDates(startDate.value, endDate.value));
        return;
      }
      session := Put(session, ReservationKey, ReservationValue(EmptyReservation.(startDate := startDate.value, endDate := endDate.value)));
      resp := Render(ChooseRoomPage, RoomChoices(found.rooms));
    }

    /** `ReservationSummary`: shows the draft and removes it from the
        session. */
    method ReservationSummary() returns (resp: Response)
      requires Valid()
      modifies this
      ensures Valid()
      ensures outbox == old(outbox) && calls == old(calls)
      ensures var draft := GetReservation(old(session), ReservationKey);
              if draft.None? then
                && session == Flash(old(session), NoDraftMessage)
                && resp == Redirect(Home)
              else
                && session == Remove(old(session), ReservationKey)
                && resp == Render(SummaryPage, ReservationView(draft.value))
    {
      var draft := GetReservation(session, ReservationKey);
      if draft.None? {
        session := Flash(session, NoDraftMessage);
        resp := Redirect(Home);
        return;
      }
      session := Remove(session, ReservationKey);
      resp := Render(SummaryPage, ReservationView(draft.value));
    }

    /** `ChooseRoom`: takes the room id from the third piece of the request
        URI and records it in the draft, leaving every other field of the
        draft as it was. Indexing a URI with fewer than two slashes panics
        before anything is changed. */
    method ChooseRoom(lib: Conversions, r: Request) returns (resp: Response)
      requires Valid()
      modifies this
      ensures Valid()
      ensures outbox == old(outbox) && calls == old(calls)
      ensures var exploded := Split(r.requestUri, '/');
              if |exploded| < 3 then
                resp == Panicked && session == old(session)
              else
                var id := lib.atoi(exploded[2]);
                var draft := GetReservation(old(session), ReservationKey);
                if !id.ok then
                  && session == Flash(old(session), MissingIdMessage)
                  && resp == Redirect(Home)
                else if draft.None? then
                  && session == Flash(old(session), NoDraftMessage)
                  && resp == Redirect(Home)
                else
                  && session == Put(old(session), ReservationKey, ReservationValue(draft.value.(roomId := id.value)))
                  && resp == Redirect(MakeReservationPath)
    {
      var exploded := Split(r.requestUri, '/');
      if |exploded| < 3 {
        resp := Panicked;
        return;
      }
      var roomId := lib.atoi(exploded[2]);
      if !roomId.ok {
        session := Flash(session, MissingIdMessage);
        resp := Redirect(Home);
        return;
      }
      var draft := GetReservation(session, ReservationKey);
      if draft.None? {
        session := Flash(session, NoDraftMessage);
        resp := Redirect(Home);
        return;
      }
      var res := draft.value.(roomId := roomId.value);
      session := Put(session, ReservationKey, ReservationValue(res));
      resp := Redirect(MakeReservationPath);
    }

    /** `BookRoom`: books a room straight from its page. It checks the
        room's availability for the two dates, without checking their order,
        and replaces the draft with the room and the dates. The error of the
        availability query is dropped: only its boolean answer counts. */
    method BookRoom(db: DatabaseRepo, lib: Conversions, r: Request) returns (resp: Response)
      requires Valid()
      modifies this
      ensures Valid()
      ensures outbox == old(outbox)
      ensures var roomId := lib.atoi(QueryGet(r, "id")).value;
              var start, end := lib.parseDate(QueryGet(r, "s")), lib.parseDate(QueryGet(r, "e"));
              if start.None? || end.None? then
                && calls == old(calls)
                && session == Flash(old(session), BadDateMessage)
                && resp == Redirect(Home)
              else
                var availability := db.searchAvailabilityByDatesByRoomID(start.value, end.value, roomId);
                var availabilityCall := SearchRoomCall(start.value, end.value, roomId, availability);
                if !availability.available then
                  && calls == old(calls) + [availabilityCall]
                  && session == Flash(old(session), TamperedDatesMessage)
                  && resp == Redirect(Home)
                else
                  var lookup := db.getRoomByID(roomId);
                  && calls == old(calls) + [availabilityCall, GetRoomByIDCall(roomId, lookup)]
                  && if lookup.failed then
                       && session == Flash(old(session), NoBookedRoomMessage)
                       && resp == Redirect(Home)
                     else
                       && session == Put(old(session), ReservationKey,
                                         ReservationValue(EmptyReservation.(roomId := roomId, startDate := start.value, endDate := end.value, room := lookup.room)))
                       && resp == Redirect(MakeReservationPath)
    {
      var roomId := lib.atoi(QueryGet(r, "id")).value;
      var startDate := lib.parseDate(QueryGet(r, "s"));
      if startDate.None? {
        session := Flash(session, BadDateMessage);
        resp := Redirect(Home);
        return;
      }
      var endDate := lib.parseDate(QueryGet(r, "e"));
      if endDate.None? {
        session := Flash(session, BadDateMessage);
        resp := Redirect(Home);
        return;
      }
      var availability := db.searchAvailabilityByDatesByRoomID(startDate.value, endDate.value, roomId);
      var availabilityCall := SearchRoomCall(startDate.value, endDate.value, roomId, availability);
      LogRead(calls, availabilityCall);
      calls := calls + [availabilityCall];
      if !availability.available {
        session := Flash(session, TamperedDatesMessage);
        resp := Redirect(Home);
        return;
      }
      var lookup := db.getRoomByID(roomId);
      LogRead(calls, GetRoomByIDCall(roomId, lookup));
      calls := calls + [GetRoomByIDCall(roomId, lookup)];
      assert calls == old(calls) + [availabilityCall, GetRoomByIDCall(roomId, lookup)];
      if lookup.failed {
        session := Flash(session, NoBookedRoomMessage);
        resp := Redirect(Home);
        return;
      }
      session := Put(session, ReservationKey,
                     ReservationValue(EmptyReservation.(roomId := roomId, startDate := startDate.value, endDate := endDate.value, room := lookup.room)));
      resp := Redirect(MakeReservationPath);
    }
  }
}
