/**
 * The attendance entry embedded in a meeting: who, whether they attended,
 * notes, and an optional feedback rating (1 to 5) with a description.
 * Entries carry no identifier of their own.
 */
module AttendanceModel {
  import opened Wrappers
  import opened Schema

  datatype Attendance = Attendance(
    user: string,
    didAttend: bool,
    notes: string,
    feedbackRating: Option<int>,
    feedbackDescription: Option<string>)

  /** An entry as submitted: every path may be missing. */
  datatype AttendanceInput = AttendanceInput(
    user: Option<string>,
    didAttend: Option<bool>,
    notes: Option<string>,
    feedbackRating: Option<int>,
    feedbackDescription: Option<string>)

  const UserRequiredMessage := "You must state the user who attended"
  const MinRating := 1
  const MaxRating := 5

  predicate RatingInRange(rating: Option<int>) {
    rating.Some? ==> MinRating <= rating.value <= MaxRating
  }

  function RatingErrors(rating: Option<int>): seq<FieldError> {
    if rating.None? then []
    else if rating.value < MinRating then [BelowMin("feedbackRating", rating.value, MinRating)]
    else if rating.value > MaxRating then [AboveMax("feedbackRating", rating.value, MaxRating)]
    else []
  }

  function Errors(input: AttendanceInput): seq<FieldError> {
    (if Present(input.user) then [] else [Required("user", UserRequiredMessage)])
    + RatingErrors(input.feedbackRating)
  }

  /** Creating an entry: the user is required, `didAttend` defaults to false and
      `notes` to the empty string, and a rating outside [1, 5] is rejected. */
  function Validate(input: AttendanceInput): (r: Result<Attendance, seq<FieldError>>)
    ensures r.Success? <==> Present(input.user) && RatingInRange(input.feedbackRating)
    ensures r.Success? ==>
      && r.value.user == input.user.value
      && r.value.didAttend == (if input.didAttend.Some? then input.didAttend.value else false)
      && r.value.notes == (if input.notes.Some? then input.notes.value else "")
      && r.value.feedbackRating == input.feedbackRating
      && r.value.feedbackDescription == input.feedbackDescription
    ensures r.Failure? ==>
      && (Required("user", UserRequiredMessage) in r.error <==> !Present(input.user))
      && (forall e :: e in r.error ==> e.path == "user" || e.path == "feedbackRating")
  {
    var errors := Errors(input);
    if errors == [] then
      Success(Attendance(
        input.user.value,
        if input.didAttend.Some? then input.didAttend.value else false,
        if input.notes.Some? then input.notes.value else "",
        input.feedbackRating,
        input.feedbackDescription))
    else Failure(errors)
  }

  /** What every stored entry satisfies. */
  predicate WellFormed(a: Attendance) {
    a.user != "" && RatingInRange(a.feedbackRating)
  }

  function AsInput(a: Attendance): AttendanceInput {
    AttendanceInput(Some(a.user), Some(a.didAttend), Some(a.notes), a.feedbackRating, a.feedbackDescription)
  }

  /** Every entry the schema accepts is well formed; in particular its rating lies in [1, 5]. */
  lemma ValidatedIsWellFormed(input: AttendanceInput)
    ensures Validate(input).Success? ==> WellFormed(Validate(input).value)
  {
  }

  /** Re-submitting a stored entry gives it back unchanged. */
  lemma ValidateRoundTrip(a: Attendance)
    requires WellFormed(a)
    ensures Validate(AsInput(a)) == Success(a)
  {
  }
}
