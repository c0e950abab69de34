# Booking workflow of the bookings web application, in Dafny

This project models the booking handlers of the `bookings` web application
(`internal/handlers/handlers.go`). A guest books a room in a few steps:

1. search dates (`PostAvailability`);
2. pick a room from the results (`ChooseRoom`) or book one straight from its
   page (`BookRoom`);
3. fill in the guest form (`Reservation`, then `PostReservation`);
4. see the summary (`ReservationSummary`).

A cheap availability probe (`AvailabilityJSON`) answers in JSON.

The steps pass a reservation draft to each other in the browser session. The
model's state is the session, the mail channel and what storage was asked:

- `Handlers.Repository` is a class with three fields:
  - `session`: the session map, holding the `"reservation"` draft and the
    `"error"` flash;
  - `outbox`: the messages sent on the mail channel, in order;
  - `calls`: every storage call the handler methods make, in order, with the
    answer it got.
- Each imperative handler is a method that changes these fields step by step,
  as the Go code does. Its postcondition gives the new state and the response
  for every combination of storage answers and request contents.
- Storage, `time.Parse`, `strconv.Atoi`/`Itoa` and the form checks are
  oracles: records of functions passed in with each request (`Storage`,
  `Library`, `Forms`). Storage answers keep Go's value-and-error pair, because
  some handlers go on using the value after an error.
- The class invariant `Valid` ties the mail to the storage log. The outbox is
  exactly the guest's confirmation followed by the owner's notice, once for
  each reservation insert attempt. Each such attempt is followed at once by
  the insert of its restriction. Every handler keeps this invariant.

Several error branches call `http.Redirect` without returning, so the handler
goes on: it still changes the session, calls storage and sends mail. Only the
first response written reaches the client. The methods model this as
written. A local `w` holds what has been written so far, and `Http.FirstWrite`
ignores later writes. The order of the checks is also kept:

- `PostReservation` looks the room up before it validates the form;
- `PostAvailability` queries storage before it checks that the end date is
  after the start date.

`AvailabilityJSON`, the two mail messages and the restriction record are
functions. The `Scenarios` module runs request sequences on a fresh state,
following the handler test tables. Each sequence holds for every oracle that
fits its case.

The model follows the code where it departs from the intended flow:

- With reversed dates, `PostAvailability` queries storage first, then shows
  the search page again with a flash. It does not redirect.
- `BookRoom` drops the error of its availability query and acts only on the
  boolean answer.
- A request built with no body has a nil body, so `r.ParseForm()` fails. The
  availability probe then answers `ok` false with "Internal server error",
  which differs from the JSON test's "Internal Server Error" only in case; the
  test checks only `ok`. In `PostReservation` the same failed parse is the
  `parsed == false` branch of the request.

## Model

| member | source | states |
|---|---|---|
| Http.Split | internal/handlers/handlers.go:381 | `strings.Split` on one character: one more piece than the separator occurs, and no piece holds the separator |
| Http.SplitJoin | internal/handlers/handlers.go:381 | joining the pieces with the separator gives back the split string, so no character is lost or moved |
| Http.SplitWithoutSeparator | internal/handlers/handlers.go:381 | a string without the separator splits into itself alone |
| Http.SplitAround | internal/handlers/handlers.go:381 | splitting at a separator splits the two sides independently |
| Http.FormGet | internal/handlers/handlers.go:208-209 | `r.Form.Get`: a posted value wins over a query value of the same field, and a field in neither reads as the empty string |
| Http.QueryGet | internal/handlers/handlers.go:402-404 | `r.URL.Query().Get`: the query's value of the field, or the empty string when it is absent |
| Http.FirstWrite | internal/handlers/handlers.go:65-73 | once a redirect or page is written, a later write leaves the response as it was; with nothing written yet, the write is the response |
| Http.FirstWriteSettled | internal/handlers/handlers.go:94-102 | after a first write, any further redirect of a handler that did not return changes nothing |
| Scenarios.ChooseRoomSegments | internal/handlers/handlers.go:381-382 | the room link `/choose-room/{id}` splits into the empty piece, `choose-room` and the id, so `exploded[2]` is the id |
| Session.GetReservation | internal/handlers/handlers.go:64 | the type-asserted session read finds a draft exactly when the key holds a reservation, and gives that reservation |
| Session.DraftAfterPut | internal/handlers/handlers.go:75 | a draft put under `"reservation"` is the draft the next type-asserted read gives back |
| Session.DraftAfterRemove | internal/handlers/handlers.go:364 | after the draft is removed the read finds none |
| Session.DraftAfterOtherPut | internal/handlers/handlers.go:66 | a value put under any other key, such as the `"error"` flash, leaves the draft read unchanged |
| Session.Flash | internal/handlers/handlers.go:66 | setting the error flash stores the message under `"error"`, adds only that key, and leaves every other key and the draft slot as they were |
| Session.FlashIf | internal/handlers/handlers.go:94-102 | a flash set only on failure leaves the draft slot as it was |
| Forms.FieldErrors | internal/handlers/handlers.go:115-120 | a field is flagged exactly when one of its checks fails: required first name, last name and email, names of at least 3 characters, a well-formed email; only these three fields can be flagged |
| Forms.Valid | internal/handlers/handlers.go:127 | the form is valid exactly when all six checks pass |
| Commit.RestrictionFor | internal/handlers/handlers.go:143-149 | the restriction inserted after a reservation carries its dates, the id of the room looked up for it, the id the insert returned and kind 1 |
| Commit.GuestConfirmation | internal/handlers/handlers.go:157-168 | the guest's confirmation goes to the guest's email from `me@here.com`, subject "Reservation Confirmation", template `basic.html`, naming the guest's first name and the two dates |
| Commit.OwnerNotification | internal/handlers/handlers.go:172-183 | the owner's notice goes from and to `me@here.com`, subject "Reservation Notification", with no template, naming the room and the two dates |
| Handlers.WithGuestDetails | internal/handlers/handlers.go:109-113 | the draft takes the posted first name, last name, email and phone and the looked-up room, and keeps its dates and room id |
| Commit.NotificationsAppend | internal/handlers/handlers.go:155-185 | the mail a log accounts for is additive over concatenated logs |
| Commit.PairedAppend | internal/handlers/handlers.go:138-154 | two logs in which each reservation insert is followed at once by its restriction insert keep that pairing when concatenated |
| Commit.LogRead | internal/handlers/handlers.go:103 | logging a storage read keeps the pairing and accounts for no mail |
| Commit.LogInserts | internal/handlers/handlers.go:137-185 | logging a reservation insert and its restriction insert keeps the pairing and accounts for exactly the guest's confirmation and then the owner's notice |
| Handlers.AvailabilityJSON | internal/handlers/handlers.go:264-350 | the checks fire in order (form parse, start date, end date, end after start, storage error), each with its own message and `ok` false; past them `ok` is storage's answer and the room id and dates are echoed; `ok` holds exactly when every check passed and the room is free; the message is empty exactly when storage answered without error; as a function of the request and storage alone it touches no session and no mail |
| Handlers.Repository.Reservation | internal/handlers/handlers.go:62-90 | the guest form is shown for the draft with its room looked up again; a missing draft or room redirects home with its flash, but the lookup (of room 0 with no draft) and the draft write still happen; no mail |
| Handlers.Repository.PostReservation | internal/handlers/handlers.go:92-136 | the room is looked up first; a failed lookup redirects home with no insert and no mail; an invalid form shows the form again with its field errors, with no insert, no mail and the draft untouched; a missing draft or unparsable form makes the response a redirect home, yet the handler goes on |
| Handlers.Repository.CommitReservation | internal/handlers/handlers.go:137-188 | a valid form inserts the reservation, then its restriction with the returned id, the room's id, the dates and kind 1; it sends the guest's confirmation and then the owner's notice, and stores the completed draft; every failed insert flashes and turns the response into a redirect home, but nothing after it is skipped; otherwise it redirects to the summary |
| Handlers.Repository.PostAvailability | internal/handlers/handlers.go:206-262 | unparsable dates redirect home with no storage call; otherwise storage is queried first; a failed query redirects home; reversed dates, then no free room, show the search page again with a flash; only success replaces the draft, with the dates alone, and lists the rooms; no mail |
| Handlers.Repository.ReservationSummary | internal/handlers/handlers.go:357-378 | a present draft is shown and removed from the session; a missing one redirects home with a flash |
| Handlers.Repository.ChooseRoom | internal/handlers/handlers.go:380-398 | a numeric third URI piece and a present draft replace only the draft's room id and redirect to the guest form; a non-numeric id is rejected before the session is read; either failure flashes, redirects home and leaves the draft; a URI with fewer than three pieces panics with no change |
| Handlers.Repository.BookRoom | internal/handlers/handlers.go:401-437 | unparsable dates redirect home; the room's availability is asked for the two dates, unordered; only a free room that is found replaces the draft, with the room id, dates and room, and redirects to the guest form; each failure flashes and redirects home; no mail |
| Scenarios.BookingFlow | internal/handlers/handlers_test.go:136-164 | search, room link, guest form, valid post and two summary visits give the expected six responses; the booking holds the searched dates, the chosen room and the guest's details; exactly the reservation and its restriction are written and exactly the two notifications are sent |
| Scenarios.OpenGuestForm | internal/handlers/handlers_test.go:61-71 | after search, room link and form page, the draft holds the dates, the room id and the room, and nothing was written or sent |
| Scenarios.CompleteBooking | internal/handlers/handlers_test.go:145-164 | posting a valid form for an existing room with working storage redirects to the summary, sends the two notifications, writes the two inserts, and the summary shows the booking once |
| Scenarios.SummaryShowsOnce | internal/handlers/handlers_test.go:506-534 | the summary shows the draft, and a second visit finds none, redirects home and flashes |
| Scenarios.InvalidGuestForm | internal/handlers/handlers_test.go:215-235 | a first name that is too short shows the form again with a first-name error, after the room lookup, with no insert, no mail and the draft unchanged |
| Scenarios.UnknownRoom | internal/handlers/handlers_test.go:194-214 | a draft whose room cannot be found redirects home, after only the lookup, with no mail |
| Scenarios.InsertFailsButGoesOn | internal/handlers/handlers_test.go:236-277 | a failed reservation insert still leads to the restriction insert, both mails and the draft write, while the response is a redirect home |
| Scenarios.FormPageWithoutDraft | internal/handlers/handlers_test.go:72-78 | without a draft the form page redirects home, yet looks up room 0 and stores a draft holding that room |
| Scenarios.ReversedSearch | internal/handlers/handlers.go:223-238 | reversed dates still reach storage, then show the search page again and keep the draft |
| Scenarios.MalformedRoomLink | internal/handlers/handlers_test.go:592-597 | a non-numeric room link redirects home and keeps the draft |
| Scenarios.BookFreeRoom | internal/handlers/handlers_test.go:637-641 | booking a free room that exists redirects to the guest form with a draft of only the room and the dates |

## Left out

- Rendering (`internal/render/render.go`) is not part of this model. A page
  is only its template name and the reservation, rooms or dates it is given.
  Not modelled:
  - the formatted date strings of the template data;
  - the form object;
  - the CSRF token;
  - template errors;
  - the page body a handler appends after its response was already
    redirected.
- Status codes are implied by the kind of response. A redirect is
  303 See Other; a render or JSON answer is 200.
- `Handlers.Repository.ChooseRoom`: a URI with fewer than two slashes makes
  the Go handler panic on `exploded[2]`. The model returns `Panicked` and
  changes nothing. Recovery by the server is not modelled.
- The mail channel is a queue. The listener goroutine is not modelled, nor is
  the blocking of an unbuffered send, nor any other concurrency.
- The HTML of each message is kept as the values it is formatted from: the
  guest's first name or the room's name, and the two dates. Go's `Sprintf`
  and `Format` are not modelled.
- `time.Parse` with layout "2006-01-02", `strconv.Atoi`, `strconv.Itoa` and
  the `forms` package are oracles: their code is not part of this model. A
  parsed date is a day number, and `After` is strict order on it.
- The storage queries are oracles, because their SQL is not part of this
  model. No rule is assumed about which rooms are free.
- `Handlers.Repository.PostAvailability`: the handler ignores the error of
  `r.ParseForm()`. The model reads the posted and query fields whatever that
  result was. What Go leaves in `r.Form` after a failed parse is not
  modelled.
- `Http.FormGet` reads the first posted value of a field, then the first
  query value. Fields with several values are not modelled.
- Other handlers are not modelled, because they carry no workflow state:
  - `Home`, `About`, `Generals`, `Majors`, `Availability` and `Contact`
    render a fixed template;
  - the login, logout and admin handlers are password checking and listings.
- `NewRepo`, `NewTestRepo` and `NewHandlers` only wire the application.
  `Handlers.Repository.constructor` stands for a fresh state.
- Session configuration, `gob` registration, the database connection and
  routing are not part of this model.
