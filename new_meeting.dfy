/**
 * The "new meeting" dialog of the home page: a form with a title, a location, a
 * description and a start and finish time, checked on submit before the meeting
 * request is posted. Times are milliseconds since the epoch.
 */
module NewMeeting {
  import opened Wrappers

  const OneHour: int := 3600000

  datatype FormValues = FormValues(title: string, location: string, description: string, startTime: int, finishTime: int)

  /** The form's starting values: empty texts, and an hour from `roundedNow`, the hour the page
      was loaded at, rounded. */
  function DefaultValues(roundedNow: int): (f: FormValues)
    ensures f.title == "" && f.location == "" && f.description == ""
    ensures f.startTime == roundedNow && f.finishTime - f.startTime == OneHour
  {
    FormValues("", "", "", roundedNow, roundedNow + OneHour)
  }

  /** The text inputs of the form, by their `name` attribute. */
  datatype InputName = Title | Location | Description

  function Text(f: FormValues, name: InputName): string {
    match name
    case Title => f.title
    case Location => f.location
    case Description => f.description
  }

  /** `handleInputChange`: the input named `name` now holds `value`. */
  function WithInput(f: FormValues, name: InputName, value: string): (r: FormValues)
    ensures Text(r, name) == value
    ensures forall other :: other != name ==> Text(r, other) == Text(f, other)
    ensures r.startTime == f.startTime && r.finishTime == f.finishTime
  {
    match name
    case Title => f.(title := value)
    case Location => f.(location := value)
    case Description => f.(description := value)
  }

  /** The invitation part of the request: nobody invited yet. */
  datatype Invited = Invited(userIds: seq<string>, roleIds: seq<string>)

  datatype AttendanceRequest = AttendanceRequest(attendedUsers: seq<string>, absentUsers: map<string, string>, invited: Invited)

  datatype MeetingRequest = MeetingRequest(
    startTime: int, finishTime: int, location: string, description: string,
    kind: string, name: string, attendance: AttendanceRequest)

  /** The request built from the form: the title becomes the name, the type is always "meeting",
      and the attendance starts out empty. */
  function RequestOf(f: FormValues): (r: MeetingRequest)
    ensures r.name == f.title && r.location == f.location && r.description == f.description
    ensures r.startTime == f.startTime && r.finishTime == f.finishTime && r.kind == "meeting"
    ensures r.attendance.attendedUsers == [] && r.attendance.absentUsers == map[]
    ensures r.attendance.invited.userIds == [] && r.attendance.invited.roleIds == []
  {
    MeetingRequest(f.startTime, f.finishTime, f.location, f.description, "meeting", f.title,
      AttendanceRequest([], map[], Invited([], [])))
  }

  datatype SubmitError = PastStart | StartAfterFinish {
    /** The text of the alert. */
    function Message(): string {
      match this
      case PastStart => "Start time cannot be in the past"
      case StartAfterFinish => "Start time cannot be later than finish time"
    }
  }

  /** The checks of `handleSubmit` at time `now`: a start in the past is refused first, then a
      start later than the finish; a start equal to the finish passes. */
  function CheckSubmit(f: FormValues, now: int): (r: Result<MeetingRequest, SubmitError>)
    ensures r.Success? <==> now <= f.startTime <= f.finishTime
    ensures r.Failure? ==> (r.error == PastStart <==> f.startTime < now)
    ensures r.Success? ==> r.value == RequestOf(f)
  {
    if f.startTime < now then Failure(PastStart)
    else if f.startTime > f.finishTime then Failure(StartAfterFinish)
    else Success(RequestOf(f))
  }

  /** A request that is sent never describes a meeting that ends before it starts or starts in
      the past. */
  lemma SentRequestWellTimed(f: FormValues, now: int)
    requires CheckSubmit(f, now).Success?
    ensures now <= CheckSubmit(f, now).value.startTime <= CheckSubmit(f, now).value.finishTime
  {
  }

  /** Editing a text input never changes whether the form passes the checks. */
  lemma TextInputKeepsVerdict(f: FormValues, name: InputName, value: string, now: int)
    ensures CheckSubmit(WithInput(f, name, value), now).Success? == CheckSubmit(f, now).Success?
  {
  }

  /** The defaults are computed once, when the page loads: they pass the checks while their
      start is still ahead, and once the clock has passed it they are refused as a start in
      the past. */
  lemma DefaultsGoStale(roundedNow: int, now: int)
    ensures now <= roundedNow ==> CheckSubmit(DefaultValues(roundedNow), now).Success?
    ensures roundedNow < now ==> CheckSubmit(DefaultValues(roundedNow), now) == Failure(PastStart)
  {
  }

  /** The dialog: its form, whether it is open and whether a request is in flight. `alerts`
      records the alerts shown, in order. */
  class NewMeetingDialog {
    const defaults: FormValues
    var form: FormValues
    var isOpen: bool
    var isLoading: bool
    var alerts: seq<string>

    constructor (defaults: FormValues, isOpen: bool)
      ensures this.defaults == defaults && form == defaults
      ensures this.isOpen == isOpen && !isLoading && alerts == []
    {
      this.defaults := defaults;
      form := defaults;
      this.isOpen := isOpen;
      isLoading := false;
      alerts := [];
    }

    method InputChange(name: InputName, value: string)
      modifies this
      ensures form == WithInput(old(form), name, value)
      ensures isOpen == old(isOpen) && isLoading == old(isLoading) && alerts == old(alerts)
    {
      form := WithInput(form, name, value);
    }

    method StartChange(date: int)
      modifies this
      ensures form == old(form).(startTime := date)
      ensures isOpen == old(isOpen) && isLoading == old(isLoading) && alerts == old(alerts)
    {
      form := form.(startTime := date);
    }

    method FinishChange(date: int)
      modifies this
      ensures form == old(form).(finishTime := date)
      ensures isOpen == old(isOpen) && isLoading == old(isLoading) && alerts == old(alerts)
    {
      form := form.(finishTime := date);
    }

    /** `handleExit`: the dialog closes and the form is reset. */
    method Exit()
      modifies this
      ensures !isOpen && form == defaults
      ensures isLoading == old(isLoading) && alerts == old(alerts)
    {
      isOpen := false;
      form := defaults;
    }

    /** The first half of `handleSubmit`, up to the request: a refused form shows its alert
      and changes nothing else; an accepted one starts loading and yields the request to post. */
    method Submit(now: int) returns (request: Option<MeetingRequest>)
      modifies this
      ensures request.Some? <==> CheckSubmit(old(form), now).Success?
      ensures request.Some? ==> request.value == RequestOf(old(form)) && isLoading && alerts == old(alerts)
      ensures request.None? ==>
        alerts == old(alerts) + [CheckSubmit(old(form), now).error.Message()] && isLoading == old(isLoading)
      ensures form == old(form) && isOpen == old(isOpen)
    {
      var checked := CheckSubmit(form, now);
      if checked.Failure? {
        alerts := alerts + [checked.error.Message()];
        request := None;
      } else {
        isLoading := true;
        request := Some(checked.value);
      }
    }

    /** The second half: the reply arrives (`created`: it carried data). Loading stops; on
      success the form is reset and the dialog closed, otherwise the form is kept. */
    method Reply(created: bool)
      modifies this
      ensures !isLoading && alerts == old(alerts)
      ensures created ==> form == defaults && !isOpen
      ensures !created ==> form == old(form) && isOpen == old(isOpen)
    {
      isLoading := false;
      if created {
        form := defaults;
        isOpen := false;
      }
    }
  }
}
