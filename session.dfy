/** The per-browser session store (`App.Session`) as a map from key to value.
    The handlers use two keys: the reservation draft and the one-shot error
    flash message. */
module Session {
  import opened Models

  datatype Value = ReservationValue(reservation: Reservation) | StringValue(text: string)

  type Store = map<string, Value>

  const ReservationKey := "reservation"
  const ErrorKey := "error"

  /** `Session.Put(ctx, key, value)` */
  function Put(s: Store, key: string, v: Value): Store {
    s[key := v]
  }

  /** `Session.Remove(ctx, key)` */
  function Remove(s: Store, key: string): Store {
    s - {key}
  }

  /** `Session.Get(ctx, key).(models.Reservation)`: the reservation under
      `key`, or nothing when the key is missing or holds another kind of
      value (the type assertion's `ok` is false). */
  function GetReservation(s: Store, key: string): (r: Option<Reservation>)
    ensures r.Some? <==> key in s && s[key].ReservationValue?
    ensures r.Some? ==> s[key] == ReservationValue(r.value)
  {
    if key in s && s[key].ReservationValue? then Some(s[key].reservation) else None
  }

  /** A draft put in the session is the draft read back. */
  lemma DraftAfterPut(s: Store, draft: Reservation)
    ensures GetReservation(Put(s, ReservationKey, ReservationValue(draft)), ReservationKey) == Some(draft)
  {
  }

  /** A removed draft is no longer found. */
  lemma DraftAfterRemove(s: Store)
    ensures GetReservation(Remove(s, ReservationKey), ReservationKey) == None
  {
  }

  /** A value put under any other key leaves the draft read as it was. */
  lemma DraftAfterOtherPut(s: Store, key: string, v: Value)
    requires key != ReservationKey
    ensures GetReservation(Put(s, key, v), ReservationKey) == GetReservation(s, ReservationKey)
  {
  }

  /** `Session.Put(ctx, "error", msg)`: sets the flash and leaves the draft
      slot, and every other key, as it was. */
  function Flash(s: Store, msg: string): (r: Store)
    ensures ErrorKey in r && r[ErrorKey] == StringValue(msg)
    ensures GetReservation(r, ReservationKey) == GetReservation(s, ReservationKey)
    ensures forall key :: key in s && key != ErrorKey ==> key in r && r[key] == s[key]
    ensures r.Keys == s.Keys + {ErrorKey}
  {
    Put(s, ErrorKey, StringValue(msg))
  }

  /** The flash, set only when `cond` holds. */
  function FlashIf(s: Store, cond: bool, msg: string): (r: Store)
    ensures GetReservation(r, ReservationKey) == GetReservation(s, ReservationKey)
    ensures cond ==> r == Flash(s, msg)
    ensures !cond ==> r == s
  {
    if cond then Flash(s, msg) else s
  }
}
