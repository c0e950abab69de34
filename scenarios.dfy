/** Request sequences run on a fresh application state, following the handler
    test tables: the whole booking flow and the failure cases. Each holds for
    every storage and library answer that fits its case, not just the test
    repository's. */
module Scenarios {
  import opened Models
  import opened Storage
  import opened Library
  import opened Http
  import opened Session
  import opened Forms
  import opened Commit
  import opened Handlers

  const ChooseRoomRoute := "choose-room"

  /** The request URI of the room choice link, `/choose-room/{id}`. */
  function ChooseRoomUri(segment: string): string {
    ['/'] + ChooseRoomRoute + ['/'] + segment
  }

  /** A path of two pieces, each without the separator, splits into the
      empty piece before the leading separator and the two pieces. */
  lemma SplitTwoPieces(a: string, b: string, sep: char)
    requires sep !in a && sep !in b
    ensures Split([sep] + a + [sep] + b, sep) == ["", a, b]
  {
    var tail := a + [sep] + b;
    assert [sep] + a + [sep] + b == [sep] + tail;
    SplitSeparatorFirst(tail, sep);
    SplitAround(a, sep, b);
    SplitWithoutSeparator(a, sep);
    SplitWithoutSeparator(b, sep);
  }

  /** The link splits into the empty piece, the route name and the id. */
  lemma ChooseRoomSegments(segment: string)
    requires '/' !in segment
    ensures Split(ChooseRoomUri(segment), '/') == ["", ChooseRoomRoute, segment]
  {
    SplitTwoPieces(ChooseRoomRoute, segment, '/');
  }

  /** A fresh state whose session holds only `draft`. */
  method WithDraft(draft: Reservation) returns (repo: Repository)
    ensures fresh(repo) && repo.Valid()
    ensures repo.session == map[ReservationKey := ReservationValue(draft)]
    ensures repo.outbox == [] && repo.calls == []
  {
    repo := new Repository();
    repo.session := Put(repo.session, ReservationKey, ReservationValue(draft));
  }

  /** The whole booking: search, choose a room by its link, open the guest
      form, post it, and look at the summary twice. The booking carries the
      searched dates, the chosen room and the guest's details; exactly the
      reservation and its restriction are written; exactly the guest's
      confirmation and the owner's notice are sent; and the summary shows the
      booking once. */
  method BookingFlow(db: DatabaseRepo, lib: Conversions, checks: FormChecks,
                     search: Request, segment: string, guest: Request)
    returns (responses: seq<Response>, booked: Reservation, mail: seq<MailData>, writes: seq<Call>)
    requires var start, end := lib.parseDate(FormGet(search, "start")), lib.parseDate(FormGet(search, "end"));
             && start.Some? && end.Some? && After(end.value, start.value)
             && !db.searchAvailabilityForAllRooms(start.value, end.value).failed
             && |db.searchAvailabilityForAllRooms(start.value, end.value).rooms| > 0
    requires '/' !in segment && lib.atoi(segment).ok
    requires !db.getRoomByID(lib.atoi(segment).value).failed
    requires guest.parsed && Forms.Valid(checks, guest.postForm)
    requires forall res :: !db.insertReservation(res).failed
    requires forall restriction :: !db.insertRoomRestriction(restriction)
    ensures var start, end := lib.parseDate(FormGet(search, "start")).value, lib.parseDate(FormGet(search, "end")).value;
            var roomId := lib.atoi(segment).value;
            var room := db.getRoomByID(roomId).room;
            && booked == Reservation(FormGet(guest, "first_name"), FormGet(guest, "last_name"),
                                     FormGet(guest, "email"), FormGet(guest, "phone"),
                                     start, end, roomId, room)
            && responses == [
                 Render(ChooseRoomPage, RoomChoices(db.searchAvailabilityForAllRooms(start, end).rooms)),
                 Redirect(MakeReservationPath),
                 Render(MakeReservationPage, ReservationForm(booked.(firstName := "", lastName := "", email := "", phone := ""), {})),
                 Redirect(SummaryPath),
                 Render(SummaryPage, ReservationView(booked)),
                 Redirect(Home)]
    ensures mail == [MailData(booked.email, OwnerAddress, ConfirmationSubject,
                              ConfirmationBody(booked.firstName, booked.startDate, booked.endDate), GuestTemplate),
                     MailData(OwnerAddress, OwnerAddress, NotificationSubject,
                              NotificationBody(booked.room.roomName, booked.startDate, booked.endDate), NoTemplate)]
    ensures writes == [InsertReservationCall(booked, db.insertReservation(booked)),
                       InsertRoomRestrictionCall(
                         RoomRestriction(booked.startDate, booked.endDate, booked.room.id,
                                         db.insertReservation(booked).id, ReservationRestriction),
                         false)]
  {
    var repo, firstHalf := OpenGuestForm(db, lib, search, segment);
    var secondHalf;
    secondHalf, booked, mail, writes := CompleteBooking(repo, db, checks, guest);
    responses := firstHalf + secondHalf;
  }

  /** The second half of `BookingFlow`: post a valid guest form for a draft
      whose room exists, with both inserts succeeding, then look at the
      summary twice. */
  method CompleteBooking(repo: Repository, db: DatabaseRepo, checks: FormChecks, guest: Request)
    returns (responses: seq<Response>, booked: Reservation, mail: seq<MailData>, writes: seq<Call>)
    requires repo.Valid() && repo.outbox == [] && repo.Draft().Some?
    requires !db.getRoomByID(repo.Draft().value.roomId).failed
    requires guest.parsed && Forms.Valid(checks, guest.postForm)
    requires forall res :: !db.insertReservation(res).failed
    requires forall restriction :: !db.insertRoomRestriction(restriction)
    modifies repo
    ensures booked == WithGuestDetails(old(repo.Draft().value), guest, db.getRoomByID(old(repo.Draft().value.roomId)).room)
    ensures responses == [Redirect(SummaryPath), Render(SummaryPage, ReservationView(booked)), Redirect(Home)]
    ensures mail == [GuestConfirmation(booked), OwnerNotification(booked)]
    ensures writes == InsertCalls(booked, db.insertReservation(booked), false)
  {
    var before := repo.calls;
    var posted := repo.PostReservation(db, checks, guest);
    booked := repo.Draft().value;
    writes := repo.calls[|before| + 1..];
    mail := repo.outbox;
    var summary := repo.ReservationSummary();
    var again := repo.ReservationSummary();
    responses := [posted, summary, again];
  }

  /** The first half of `BookingFlow`: search, choose the room by its link
      and open the guest form. The draft then holds the dates, the room id
      and the room, and nothing has been written or sent. */
  method OpenGuestForm(db: DatabaseRepo, lib: Conversions, search: Request, segment: string)
    returns (repo: Repository, responses: seq<Response>)
    requires var start, end := lib.parseDate(FormGet(search, "start")), lib.parseDate(FormGet(search, "end"));
             && start.Some? && end.Some? && After(end.value, start.value)
             && !db.searchAvailabilityForAllRooms(start.value, end.value).failed
             && |db.searchAvailabilityForAllRooms(start.value, end.value).rooms| > 0
    requires '/' !in segment && lib.atoi(segment).ok
    requires !db.getRoomByID(lib.atoi(segment).value).failed
    ensures fresh(repo) && repo.Valid()
    ensures var start, end := lib.parseDate(FormGet(search, "start")).value, lib.parseDate(FormGet(search, "end")).value;
            var roomId := lib.atoi(segment).value;
            var shown := Reservation("", "", "", "", start, end, roomId, db.getRoomByID(roomId).room);
            && repo.Draft() == Some(shown)
            && responses == [
                 Render(ChooseRoomPage, RoomChoices(db.searchAvailabilityForAllRooms(start, end).rooms)),
                 Redirect(MakeReservationPath),
                 Render(MakeReservationPage, ReservationForm(shown, {}))]
    ensures repo.outbox == [] && |repo.calls| == 2 && !repo.calls[0].IsWrite() && !repo.calls[1].IsWrite()
  {
    ghost var start, end := lib.parseDate(FormGet(search, "start")).value, lib.parseDate(FormGet(search, "end")).value;
    ghost var roomId := lib.atoi(segment).value;
    repo := new Repository();
    var searched := repo.PostAvailability(db, lib, search);
    assert repo.Draft() == Some(EmptyReservation.(startDate := start, endDate := end));
    ChooseRoomSegments(segment);
    var chosen := repo.ChooseRoom(lib, Request(true, map[], map[], ChooseRoomUri(segment)));
    assert repo.Draft() == Some(EmptyReservation.(startDate := start, endDate := end, roomId := roomId));
    var form := repo.Reservation(db);
    responses := [searched, chosen, form];
  }

  /** The summary page shows the draft and drops it, so a second visit finds
      none and goes home. */
  method SummaryShowsOnce(draft: Reservation) returns (first: Response, second: Response, flash: Option<Value>)
    ensures first == Render(SummaryPage, ReservationView(draft))
    ensures second == Redirect(Home)
    ensures flash == Some(StringValue(NoDraftMessage))
  {
    var repo := WithDraft(draft);
    first := repo.ReservationSummary();
    second := repo.ReservationSummary();
    flash := if ErrorKey in repo.session then Some(repo.session[ErrorKey]) else None;
  }

  /** An invalid guest form ("J" as the first name) renders the form again
      with its errors, inserts nothing, sends nothing and leaves the draft as
      it was, after the room lookup that comes first. */
  method InvalidGuestForm(db: DatabaseRepo, checks: FormChecks, draft: Reservation, guest: Request)
    returns (resp: Response, draftAfter: Option<Reservation>, mail: seq<MailData>, calls: seq<Call>)
    requires guest.parsed && !db.getRoomByID(draft.roomId).failed
    requires !checks.hasMinLength(Forms.Get(guest.postForm, "first_name"), MinNameLength)
    ensures resp == Render(MakeReservationPage,
                           ReservationForm(WithGuestDetails(draft, guest, db.getRoomByID(draft.roomId).room),
                                           FieldErrors(checks, guest.postForm)))
    ensures "first_name" in resp.data.fieldErrors
    ensures draftAfter == Some(draft)
    ensures mail == []
    ensures calls == [GetRoomByIDCall(draft.roomId, db.getRoomByID(draft.roomId))]
  {
    var repo := WithDraft(draft);
    resp := repo.PostReservation(db, checks, guest);
    draftAfter := repo.Draft();
    mail := repo.outbox;
    calls := repo.calls;
  }

  /** The room of the draft cannot be found: home, with no write and no mail. */
  method UnknownRoom(db: DatabaseRepo, checks: FormChecks, draft: Reservation, guest: Request)
    returns (resp: Response, mail: seq<MailData>, calls: seq<Call>)
    requires db.getRoomByID(draft.roomId).failed
    ensures resp == Redirect(Home)
    ensures mail == []
    ensures calls == [GetRoomByIDCall(draft.roomId, db.getRoomByID(draft.roomId))]
  {
    var repo := WithDraft(draft);
    resp := repo.PostReservation(db, checks, guest);
    mail := repo.outbox;
    calls := repo.calls;
  }

  /** A failed reservation insert does not stop the handler: the response is
      the redirect home, but the restriction is still inserted (with the id
      the failed insert returned), both messages are still sent and the draft
      is still rewritten. */
  method InsertFailsButGoesOn(db: DatabaseRepo, checks: FormChecks, draft: Reservation, guest: Request)
    returns (resp: Response, draftAfter: Option<Reservation>, mail: seq<MailData>, writes: seq<Call>)
    requires guest.parsed && !db.getRoomByID(draft.roomId).failed && Forms.Valid(checks, guest.postForm)
    requires db.insertReservation(WithGuestDetails(draft, guest, db.getRoomByID(draft.roomId).room)).failed
    ensures var booked := WithGuestDetails(draft, guest, db.getRoomByID(draft.roomId).room);
            && resp == Redirect(Home)
            && draftAfter == Some(booked)
            && mail == [GuestConfirmation(booked), OwnerNotification(booked)]
            && |writes| == 2
            && writes[0] == InsertReservationCall(booked, db.insertReservation(booked))
            && writes[1].InsertRoomRestrictionCall?
            && writes[1].restriction == RestrictionFor(booked, db.insertReservation(booked).id)
  {
    var repo := WithDraft(draft);
    resp := repo.PostReservation(db, checks, guest);
    draftAfter := repo.Draft();
    mail := repo.outbox;
    writes := repo.calls[1..];
  }

  /** Without a draft the guest form page redirects home, yet it goes on: it
      looks up room 0 and stores a draft that holds only that room. */
  method FormPageWithoutDraft(db: DatabaseRepo) returns (resp: Response, draftAfter: Option<Reservation>, calls: seq<Call>)
    ensures resp == Redirect(Home)
    ensures draftAfter == Some(EmptyReservation.(room := db.getRoomByID(0).room))
    ensures calls == [GetRoomByIDCall(0, db.getRoomByID(0))]
  {
    var repo := new Repository();
    resp := repo.Reservation(db);
    draftAfter := repo.Draft();
    calls := repo.calls;
  }

  /** A search with the end not after the start still queries storage first,
      then shows the search page again with the flash, keeping the draft. */
  method ReversedSearch(db: DatabaseRepo, lib: Conversions, draft: Reservation, search: Request)
    returns (resp: Response, draftAfter: Option<Reservation>, calls: seq<Call>)
    requires var start, end := lib.parseDate(FormGet(search, "start")), lib.parseDate(FormGet(search, "end"));
             && start.Some? && end.Some? && !After(end.value, start.value)
             && !db.searchAvailabilityForAllRooms(start.value, end.value).failed
    ensures var start, end := lib.parseDate(FormGet(search, "start")).value, lib.parseDate(FormGet(search, "end")).value;
            && resp == Render(SearchAvailabilityPage, SearchDates(start, end))
            && calls == [SearchAllRoomsCall(start, end, db.searchAvailabilityForAllRooms(start, end))]
    ensures draftAfter == Some(draft)
  {
    var repo := WithDraft(draft);
    resp := repo.PostAvailability(db, lib, search);
    draftAfter := repo.Draft();
    calls := repo.calls;
  }

  /** A room link whose id is not a number goes home before the session is
      read, leaving the draft alone. */
  method MalformedRoomLink(lib: Conversions, draft: Reservation, segment: string)
    returns (resp: Response, draftAfter: Option<Reservation>)
    requires '/' !in segment && !lib.atoi(segment).ok
    ensures resp == Redirect(Home)
    ensures draftAfter == Some(draft)
  {
    var repo := WithDraft(draft);
    ChooseRoomSegments(segment);
    resp := repo.ChooseRoom(lib, Request(true, map[], map[], ChooseRoomUri(segment)));
    draftAfter := repo.Draft();
  }

  /** Booking a room from its page when storage says it is free and the room
      exists: the draft becomes the room and the dates only. */
  method BookFreeRoom(db: DatabaseRepo, lib: Conversions, draft: Reservation, r: Request)
    returns (resp: Response, draftAfter: Option<Reservation>)
    requires var start, end := lib.parseDate(QueryGet(r, "s")), lib.parseDate(QueryGet(r, "e"));
             var roomId := lib.atoi(QueryGet(r, "id")).value;
             && start.Some? && end.Some?
             && db.searchAvailabilityByDatesByRoomID(start.value, end.value, roomId).available
             && !db.getRoomByID(roomId).failed
    ensures var roomId := lib.atoi(QueryGet(r, "id")).value;
            && resp == Redirect(MakeReservationPath)
            && draftAfter == Some(Reservation("", "", "", "", lib.parseDate(QueryGet(r, "s")).value,
                                              lib.parseDate(QueryGet(r, "e")).value, roomId,
                                              db.getRoomByID(roomId).room))
  {
    var repo := WithDraft(draft);
    resp := repo.BookRoom(db, lib, r);
    draftAfter := repo.Draft();
  }
}
