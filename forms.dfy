/** The checks `PostReservation` runs on the posted guest form. The checks
    themselves (`Required`, `MinLength`, `IsEmail` of the forms package) are
    given as predicates on one field's value; which fields are checked, and
    the minimum length 3, are the handler's. */
module Forms {

  datatype FormChecks = FormChecks(
    /** `Required`: the value is not blank */
    present: string -> bool,
    /** `MinLength(field, n)` */
    hasMinLength: (string, int) -> bool,
    /** `IsEmail` */
    isEmail: string -> bool)

  const MinNameLength := 3

  /** `form.Get(field)` on `forms.New(r.PostForm)`. */
  function Get(postForm: map<string, string>, field: string): string {
    if field in postForm then postForm[field] else ""
  }

  /** The fields that collect at least one error: every failed check is
      recorded, none stops the others. */
  function FieldErrors(checks: FormChecks, postForm: map<string, string>): (errs: set<string>)
    ensures errs <= {"first_name", "last_name", "email"}
    ensures "first_name" in errs <==>
      !checks.present(Get(postForm, "first_name")) || !checks.hasMinLength(Get(postForm, "first_name"), MinNameLength)
    ensures "last_name" in errs <==>
      !checks.present(Get(postForm, "last_name")) || !checks.hasMinLength(Get(postForm, "last_name"), MinNameLength)
    ensures "email" in errs <==>
      !checks.present(Get(postForm, "email")) || !checks.isEmail(Get(postForm, "email"))
  {
    var first, last, email := Get(postForm, "first_name"), Get(postForm, "last_name"), Get(postForm, "email");
    var required :=
      (if checks.present(first) then {} else {"first_name"}) +
      (if checks.present(last) then {} else {"last_name"}) +
      (if checks.present(email) then {} else {"email"});
    var lengths :=
      (if checks.hasMinLength(first, MinNameLength) then {} else {"first_name"}) +
      (if checks.hasMinLength(last, MinNameLength) then {} else {"last_name"});
    required + lengths + (if checks.isEmail(email) then {} else {"email"})
  }

  /** `form.Valid()`: no field collected an error, which is exactly when all
      six checks pass. */
  predicate Valid(checks: FormChecks, postForm: map<string, string>)
    ensures Valid(checks, postForm) <==>
      && checks.present(Get(postForm, "first_name"))
      && checks.present(Get(postForm, "last_name"))
      && checks.present(Get(postForm, "email"))
      && checks.hasMinLength(Get(postForm, "first_name"), MinNameLength)
      && checks.hasMinLength(Get(postForm, "last_name"), MinNameLength)
      && checks.isEmail(Get(postForm, "email"))
  {
    FieldErrors(checks, postForm) == {}
  }
}
