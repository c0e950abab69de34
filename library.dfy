/** Stand-ins for the Go library calls the handlers make on request text:
    `time.Parse` with the layout "2006-01-02", `strconv.Atoi` (its value is
    used even on error by some handlers, so it is kept) and `strconv.Itoa`. */
module Library {
  import opened Models

  datatype IntParse = IntParse(value: int, ok: bool)

  datatype Conversions = Conversions(
    parseDate: string -> Option<Date>,
    atoi: string -> IntParse,
    itoa: int -> string)
}
