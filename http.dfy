/** What a handler reads from its request and what it writes back. */
module Http {
  import opened Models

  /** A request as the handlers see it: whether `ParseForm` succeeded, the
      first value of each field of the posted body (`r.PostForm`) and of the
      URL query, and the raw request URI. */
  datatype Request = Request(
    parsed: bool,
    postForm: map<string, string>,
    query: map<string, string>,
    requestUri: string)

  /** `r.Form.Get(key)`: `r.Form` lists the body's values before the query's,
      and a missing key reads as the empty string. */
  function FormGet(r: Request, key: string): (v: string)
    ensures key in r.postForm ==> v == r.postForm[key]
    ensures key !in r.postForm && key in r.query ==> v == r.query[key]
    ensures key !in r.postForm && key !in r.query ==> v == ""
  {
    if key in r.postForm then r.postForm[key]
    else if key in r.query then r.query[key]
    else ""
  }

  /** `r.URL.Query().Get(key)`. */
  function QueryGet(r: Request, key: string): (v: string)
    ensures key in r.query ==> v == r.query[key]
    ensures key !in r.query ==> v == ""
  {
    if key in r.query then r.query[key] else ""
  }

  /** How many times `c` occurs in `s`. */
  function Occurrences(s: string, c: char): nat {
    if s == [] then 0 else (if s[0] == c then 1 else 0) + Occurrences(s[1..], c)
  }

  /** `strings.Split(s, string(sep))`: the pieces between the separators, one
      more piece than there are separators, none containing the separator. */
  function Split(s: string, sep: char): (parts: seq<string>)
    ensures |parts| == Occurrences(s, sep) + 1
    ensures forall i :: 0 <= i < |parts| ==> sep !in parts[i]
    decreases |s|
  {
    if s == [] then [""]
    else
      var rest := Split(s[1..], sep);
      if s[0] == sep then [""] + rest
      else [[s[0]] + rest[0]] + rest[1..]
  }

  /** `strings.Join(parts, string(sep))`, the inverse of `Split`. */
  function Join(parts: seq<string>, sep: char): string
    requires |parts| >= 1
  {
    if |parts| == 1 then parts[0] else parts[0] + [sep] + Join(parts[1..], sep)
  }

  /** Joining a piece in front of at least one more. */
  lemma JoinCons(x: string, rest: seq<string>, sep: char)
    requires |rest| >= 1
    ensures Join([x] + rest, sep) == x + [sep] + Join(rest, sep)
  {
    assert ([x] + rest)[1..] == rest;
  }

  /** Prepending a character that is not the separator extends the first piece. */
  lemma JoinExtendFirst(c: char, rest: seq<string>, sep: char)
    requires |rest| >= 1
    ensures Join([[c] + rest[0]] + rest[1..], sep) == [c] + Join(rest, sep)
  {
    if |rest| > 1 {
      JoinCons([c] + rest[0], rest[1..], sep);
      JoinCons(rest[0], rest[1..], sep);
      assert rest == [rest[0]] + rest[1..];
    }
  }

  /** Joining the pieces gives back the string that was split. */
  lemma {:induction false} SplitJoin(s: string, sep: char)
    ensures Join(Split(s, sep), sep) == s
    decreases |s|
  {
    if s != [] {
      SplitJoin(s[1..], sep);
      var rest := Split(s[1..], sep);
      if s[0] == sep {
        assert Split(s, sep) == [""] + rest;
        JoinCons("", rest, sep);
      } else {
        assert Split(s, sep) == [[s[0]] + rest[0]] + rest[1..];
        JoinExtendFirst(s[0], rest, sep);
      }
      assert [s[0]] + s[1..] == s;
    }
  }

  /** A string without the separator splits into itself alone. */
  lemma {:induction false} SplitWithoutSeparator(s: string, sep: char)
    requires sep !in s
    ensures Split(s, sep) == [s]
    decreases |s|
  {
    if s != [] {
      SplitWithoutSeparator(s[1..], sep);
      assert [s[0]] + s[1..] == s;
    }
  }

  /** Splitting at a separator splits the two sides independently. */
  lemma {:induction false} SplitAround(a: string, sep: char, b: string)
    ensures Split(a + [sep] + b, sep) == Split(a, sep) + Split(b, sep)
    decreases |a|
  {
    if a == [] {
      assert a + [sep] + b == [sep] + b;
      SplitSeparatorFirst(b, sep);
    } else {
      SplitAround(a[1..], sep, b);
      SplitAroundStep(a, sep, b);
    }
  }

  /** The inductive step of `SplitAround`: from the tail of `a` to all of it. */
  lemma SplitAroundStep(a: string, sep: char, b: string)
    requires a != []
    requires Split(a[1..] + [sep] + b, sep) == Split(a[1..], sep) + Split(b, sep)
    ensures Split(a + [sep] + b, sep) == Split(a, sep) + Split(b, sep)
  {
    var t := a[1..] + [sep] + b;
    assert a + [sep] + b == [a[0]] + t;
    assert a == [a[0]] + a[1..];
    if a[0] == sep {
      SplitAroundLeadingSeparator(a[1..], t, sep, Split(b, sep));
    } else {
      SplitAroundLeadingOther(a[0], a[1..], t, sep, Split(b, sep));
    }
  }

  lemma SplitAroundLeadingSeparator(u: string, t: string, sep: char, y: seq<string>)
    requires Split(t, sep) == Split(u, sep) + y
    ensures Split([sep] + t, sep) == Split([sep] + u, sep) + y
  {
    SplitSeparatorFirst(t, sep);
    SplitSeparatorFirst(u, sep);
    var x := Split(u, sep);
    assert [""] + (x + y) == ([""] + x) + y;
  }

  lemma SplitAroundLeadingOther(c: char, u: string, t: string, sep: char, y: seq<string>)
    requires c != sep
    requires Split(t, sep) == Split(u, sep) + y
    ensures Split([c] + t, sep) == Split([c] + u, sep) + y
  {
    SplitOther(c, t, sep);
    SplitOther(c, u, sep);
    ExtendFirstAppend(c, Split(u, sep), y);
  }

  /** Extending the first piece of a list commutes with appending pieces. */
  lemma ExtendFirstAppend(c: char, x: seq<string>, y: seq<string>)
    requires |x| >= 1
    ensures [[c] + (x + y)[0]] + (x + y)[1..] == ([[c] + x[0]] + x[1..]) + y
  {
    assert (x + y)[0] == x[0];
    assert (x + y)[1..] == x[1..] + y;
  }

  /** `Split` on a leading character other than the separator. */
  lemma SplitOther(c: char, t: string, sep: char)
    requires c != sep
    ensures Split([c] + t, sep) == [[c] + Split(t, sep)[0]] + Split(t, sep)[1..]
  {
    assert ([c] + t)[1..] == t;
  }

  /** `Split` on a leading separator. */
  lemma SplitSeparatorFirst(b: string, sep: char)
    ensures Split([sep] + b, sep) == [""] + Split(b, sep)
  {
    assert ([sep] + b)[1..] == b;
  }

  /** The page a template is rendered with: the reservation, rooms or dates
      the handler puts in its template data. */
  datatype PageData =
    | ReservationForm(reservation: Reservation, fieldErrors: set<string>)
    | ReservationView(reservation: Reservation)
    | RoomChoices(rooms: seq<Room>)
    | SearchDates(start: Date, end: Date)

  /** The status line and location of a response: `http.Redirect` with 303 See
      Other, `render.Template` with 200, or a run-time panic of the handler. */
  datatype Response =
    | Redirect(location: string)
    | Render(template: string, data: PageData)
    | Panicked

  /** Go writes the status of a response once: a later `http.Redirect` or
      render no longer changes it. `w` is what has been written so far. */
  function FirstWrite(w: Option<Response>, next: Response): (r: Option<Response>)
    ensures r.Some?
    ensures w.Some? ==> r == w
    ensures w.None? ==> r == Some(next)
  {
    if w.Some? then w else Some(next)
  }

  /** Once a response is written, no later write changes it. */
  lemma FirstWriteSettled(w: Option<Response>, first: Response, later: Response)
    ensures FirstWrite(FirstWrite(w, first), later) == FirstWrite(w, first)
  {
  }
}
