/** What committing a reservation sends out: the restriction row stored with
    it and the two notifications queued for the mail listener, and the
    invariants that tie the storage call log to the mail outbox. */
module Commit {
  import opened Models
  import opened Storage

  const OwnerAddress := "me@here.com"
  const GuestTemplate := "basic.html"
  const ConfirmationSubject := "Reservation Confirmation"
  const NotificationSubject := "Reservation Notification"
  /** No template: the message body is sent as it is. */
  const NoTemplate := ""

  /** The restriction kind that marks a room as taken by a reservation. */
  const ReservationRestriction := 1

  /** The restriction inserted after `reservation`: its dates, the id of the
      room looked up for it, and the id the reservation insert returned. */
  function RestrictionFor(reservation: Reservation, reservationId: int): (r: RoomRestriction)
    ensures r.startDate == reservation.startDate && r.endDate == reservation.endDate
    ensures r.roomId == reservation.room.id && r.reservationId == reservationId
    ensures r.restrictionId == ReservationRestriction
  {
    RoomRestriction(reservation.startDate, reservation.endDate, reservation.room.id,
                    reservationId, ReservationRestriction)
  }

  /** The confirmation sent to the guest: to the guest's address, from the
      owner, naming the guest and the booked dates, with the mail template. */
  function GuestConfirmation(reservation: Reservation): (m: MailData)
    ensures m.to == reservation.email && m.from == OwnerAddress
    ensures m.subject == ConfirmationSubject && m.template == GuestTemplate
    ensures m.content.ConfirmationBody? && m.content.firstName == reservation.firstName
    ensures m.content.start == reservation.startDate && m.content.end == reservation.endDate
  {
    MailData(reservation.email, OwnerAddress, ConfirmationSubject,
             ConfirmationBody(reservation.firstName, reservation.startDate, reservation.endDate),
             GuestTemplate)
  }

  /** The notice sent to the property owner: from and to the owner, naming
      the booked room and dates, with no template. */
  function OwnerNotification(reservation: Reservation): (m: MailData)
    ensures m.to == OwnerAddress && m.from == OwnerAddress
    ensures m.subject == NotificationSubject && m.template == NoTemplate
    ensures m.content.NotificationBody? && m.content.roomName == reservation.room.roomName
    ensures m.content.start == reservation.startDate && m.content.end == reservation.endDate
  {
    MailData(OwnerAddress, OwnerAddress, NotificationSubject,
             NotificationBody(reservation.room.roomName, reservation.startDate, reservation.endDate),
             NoTemplate)
  }

  /** The mail that a log of storage calls accounts for: for each attempted
      reservation insert, in order, the guest's confirmation and then the
      owner's notice. */
  function Notifications(calls: seq<Call>): seq<MailData> {
    if calls == [] then []
    else
      (if calls[0].InsertReservationCall?
       then [GuestConfirmation(calls[0].reservation), OwnerNotification(calls[0].reservation)]
       else [])
      + Notifications(calls[1..])
  }

  lemma {:induction false} NotificationsAppend(a: seq<Call>, b: seq<Call>)
    ensures Notifications(a + b) == Notifications(a) + Notifications(b)
  {
    if a != [] {
      NotificationsAppend(a[1..], b);
      assert (a + b)[0] == a[0];
      assert (a + b)[1..] == a[1..] + b;
      var head := if a[0].InsertReservationCall?
        then [GuestConfirmation(a[0].reservation), OwnerNotification(a[0].reservation)]
        else [];
      assert Notifications(a + b) == head + (Notifications(a[1..]) + Notifications(b));
      assert Notifications(a) == head + Notifications(a[1..]);
      assert head + (Notifications(a[1..]) + Notifications(b))
          == (head + Notifications(a[1..])) + Notifications(b);
    } else {
      assert a + b == b;
    }
  }

  /** Every attempted reservation insert is immediately followed by the
      insert of its restriction, and every restriction insert immediately
      follows the reservation insert it belongs to. */
  predicate Paired(calls: seq<Call>) {
    && (forall i :: 0 <= i < |calls| && calls[i].InsertReservationCall? ==>
          i + 1 < |calls| && calls[i + 1].InsertRoomRestrictionCall? &&
          calls[i + 1].restriction == RestrictionFor(calls[i].reservation, calls[i].inserted.id))
    && (forall i :: 0 <= i < |calls| && calls[i].InsertRoomRestrictionCall? ==>
          0 < i && calls[i - 1].InsertReservationCall?)
  }

  /** Two logs that each keep the pairing keep it when one follows the other. */
  lemma PairedAppend(a: seq<Call>, b: seq<Call>)
    requires Paired(a) && Paired(b)
    ensures Paired(a + b)
  {
  }

  /** The calls one commit attempt appends: the reservation insert and the
      insert of its restriction. */
  function InsertCalls(reservation: Reservation, inserted: InsertResult, restrictionFailed: bool): seq<Call> {
    [InsertReservationCall(reservation, inserted),
     InsertRoomRestrictionCall(RestrictionFor(reservation, inserted.id), restrictionFailed)]
  }

  /** A read logged after a consistent log keeps it consistent and accounts
      for no mail. */
  lemma LogRead(calls: seq<Call>, read: Call)
    requires Paired(calls) && !read.IsWrite()
    ensures Paired(calls + [read])
    ensures Notifications(calls + [read]) == Notifications(calls)
  {
    PairedAppend(calls, [read]);
    NotificationsAppend(calls, [read]);
  }

  /** A commit attempt logged after a consistent log keeps it consistent and
      accounts for exactly its two messages. */
  lemma LogInserts(calls: seq<Call>, reservation: Reservation, inserted: InsertResult, restrictionFailed: bool)
    requires Paired(calls)
    ensures Paired(calls + InsertCalls(reservation, inserted, restrictionFailed))
    ensures Notifications(calls + InsertCalls(reservation, inserted, restrictionFailed))
         == Notifications(calls) + [GuestConfirmation(reservation), OwnerNotification(reservation)]
  {
    var c := InsertCalls(reservation, inserted, restrictionFailed);
    PairedAppend(calls, c);
    NotificationsAppend(calls, c);
    assert Notifications(c[1..]) == [] by {
      assert c[1..][1..] == [];
    }
  }
}
