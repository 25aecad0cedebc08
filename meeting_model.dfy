/**
 * The meeting document schema: a trimmed, required name; the creator's user id;
 * the start time; where it is held; the embedded attendance; an optional description.
 */
module MeetingModel {
  import opened Wrappers
  import opened Schema
  import opened Text
  import AttendanceModel

  datatype Meeting = Meeting(
    name: string,
    creator: string,
    time: int,
    where: string,
    attendance: AttendanceModel.Attendance,
    description: Option<string>)

  datatype MeetingInput = MeetingInput(
    name: Option<string>,
    creator: Option<string>,
    time: Option<int>,
    where: Option<string>,
    attendance: Option<AttendanceModel.AttendanceInput>,
    description: Option<string>)

  const NameMessage := "You must specify the meeting's name"
  const CreatorMessage := "You must specify the creator's id"
  const TimeMessage := "You must specify when the event starts"
  const WhereMessage := "You must specify the where the meeting was held"
  const AttendanceMessage := "You must specify the attendance"

  /** The name as stored: trimmed on assignment, before validation. */
  function StoredName(input: MeetingInput): Option<string> {
    if input.name.Some? then Some(Trim(input.name.value)) else None
  }

  function AttendanceErrors(input: MeetingInput): seq<FieldError> {
    if input.attendance.None? then [Required("attendance", AttendanceMessage)]
    else match AttendanceModel.Validate(input.attendance.value)
      case Success(_) => []
      case Failure(errors) => Nested("attendance", errors)
  }

  function Errors(input: MeetingInput): seq<FieldError> {
    (if Present(StoredName(input)) then [] else [Required("name", NameMessage)])
    + (if Present(input.creator) then [] else [Required("creator", CreatorMessage)])
    + (if input.time.Some? then [] else [Required("time", TimeMessage)])
    + (if Present(input.where) then [] else [Required("where", WhereMessage)])
    + AttendanceErrors(input)
  }

  /** Creating a meeting: name, creator, time, where and attendance are required,
      the name is stored trimmed, and the description is optional. */
  function Validate(input: MeetingInput): (r: Result<Meeting, seq<FieldError>>)
    ensures r.Success? <==>
      && input.name.Some? && Trim(input.name.value) != ""
      && Present(input.creator) && input.time.Some? && Present(input.where)
      && input.attendance.Some? && AttendanceModel.Validate(input.attendance.value).Success?
    ensures r.Success? ==>
      && r.value.name == Trim(input.name.value)
      && r.value.creator == input.creator.value
      && r.value.time == input.time.value
      && r.value.where == input.where.value
      && Success(r.value.attendance) == AttendanceModel.Validate(input.attendance.value)
      && r.value.description == input.description
    ensures r.Failure? ==> (Required("name", NameMessage) in r.error <==> !Present(StoredName(input)))
  {
    ErrorsMeaning(input);
    var errors := Errors(input);
    if errors == [] then
      var attendance := AttendanceModel.Validate(input.attendance.value);
      Success(Meeting(Trim(input.name.value), input.creator.value, input.time.value,
                      input.where.value, attendance.value, input.description))
    else
      Failure(errors)
  }

  /** The attendance path fails exactly when it is missing or its entry is refused, and
      never with the name's error. */
  lemma AttendanceErrorsMeaning(input: MeetingInput)
    ensures AttendanceErrors(input) == [] <==>
      input.attendance.Some? && AttendanceModel.Validate(input.attendance.value).Success?
    ensures Required("name", NameMessage) !in AttendanceErrors(input)
  {
    if input.attendance.Some? {
      var inner := AttendanceModel.Validate(input.attendance.value);
      if inner.Failure? {
        NestedPaths("attendance", inner.error);
        assert inner.error != [];
      }
    }
  }

  /** No error is reported exactly when every required path is present and valid, and the
      name's error exactly when the stored name is empty. */
  lemma ErrorsMeaning(input: MeetingInput)
    ensures Errors(input) == [] <==>
      && Present(StoredName(input)) && Present(input.creator) && input.time.Some? && Present(input.where)
      && input.attendance.Some? && AttendanceModel.Validate(input.attendance.value).Success?
    ensures Required("name", NameMessage) in Errors(input) <==> !Present(StoredName(input))
  {
    AttendanceErrorsMeaning(input);
    var head := (if Present(StoredName(input)) then [] else [Required("name", NameMessage)])
      + (if Present(input.creator) then [] else [Required("creator", CreatorMessage)])
      + (if input.time.Some? then [] else [Required("time", TimeMessage)])
      + (if Present(input.where) then [] else [Required("where", WhereMessage)]);
    assert Errors(input) == head + AttendanceErrors(input);
    assert Required("name", NameMessage) in head <==> !Present(StoredName(input));
  }

  lemma NestedPaths(prefix: string, errors: seq<FieldError>)
    ensures forall e :: e in Nested(prefix, errors) ==> e.path != "name"
  {
    forall e | e in Nested(prefix, errors) ensures e.path != "name" {
      var i :| 0 <= i < |errors| && Nested(prefix, errors)[i] == e;
      assert e.path == prefix + "." + errors[i].path;
      assert e.path[|prefix|] == '.';
    }
  }

  /** What every stored meeting satisfies. */
  predicate WellFormed(m: Meeting) {
    m.name != "" && Trim(m.name) == m.name && m.creator != "" && m.where != ""
    && AttendanceModel.WellFormed(m.attendance)
  }

  function AsInput(m: Meeting): MeetingInput {
    MeetingInput(Some(m.name), Some(m.creator), Some(m.time), Some(m.where),
                 Some(AttendanceModel.AsInput(m.attendance)), m.description)
  }

  /** Every accepted meeting is well formed: its name carries no surrounding white space. */
  lemma ValidatedIsWellFormed(input: MeetingInput)
    ensures Validate(input).Success? ==> WellFormed(Validate(input).value)
  {
    if Validate(input).Success? {
      TrimIdempotent(input.name.value);
      AttendanceModel.ValidatedIsWellFormed(input.attendance.value);
    }
  }

  /** Re-submitting a stored meeting gives it back unchanged. */
  lemma ValidateRoundTrip(m: Meeting)
    requires WellFormed(m)
    ensures Validate(AsInput(m)) == Success(m)
  {
    AttendanceModel.ValidateRoundTrip(m.attendance);
  }
}
