/**
 * The meeting router as a table: each entry joins an HTTP verb and a path pattern
 * (relative to where the router is mounted) to the permission its guard demands
 * and the handler it runs. A request is served by the first entry, in registration
 * order, whose verb and pattern accept it.
 */
module MeetingRoutes {
  import opened Wrappers
  import opened Shared

  datatype Verb = Get | Post | Patch | Delete

  /** A path pattern segment: a literal, or a `:name` parameter that takes any non-empty segment. */
  datatype Segment = Lit(text: string) | Param(name: string)

  /** The handlers the router names. */
  datatype Handler =
    | GetAllMeetings | AddMeeting
    | GetMeeting | DeleteMeeting | UpdateMeeting
    | EndMeeting
    | GetMeetingAttendance | ModifyMeetingAttendances
    | GetMeetingAttendanceForUser | ModifyMeetingAttendance
    | GetMeetingFeedback | UpdateMeetingFeedback
    | AddMeetingFeedback | GetMeetingFeedbackForUser
    | DeleteMeetingAttendanceList

  /** One registration: `guard` is the permission `protect(...)` demands, `None` for `protect()`,
      which asks only for an authenticated user. */
  datatype Route = Route(verb: Verb, pattern: seq<Segment>, guard: Option<Permission>, handler: Handler)

  const Root: seq<Segment> := []
  const Meeting: seq<Segment> := [Param("meetingId")]
  const MeetingEnd: seq<Segment> := [Param("meetingId"), Lit("end")]
  const MeetingAttendances: seq<Segment> := [Param("meetingId"), Lit("attendances")]
  const UserAttendance: seq<Segment> := [Param("meetingId"), Lit("attendances"), Lit("users"), Param("userId")]
  const MeetingFeedback: seq<Segment> := [Param("meetingId"), Lit("feedback")]
  const UserFeedback: seq<Segment> := [Lit("meetings"), Param("meetingId"), Lit("feedback"), Lit("users"), Param("userId")]
  const AttendanceList: seq<Segment> := [Lit("attendance"), Param("meetingId")]

  /** The registrations, in order. */
  const Table: seq<Route> := [
    Route(Get, Root, None, GetAllMeetings),
    Route(Post, Root, Some(ManageMeetings), AddMeeting),
    Route(Get, Meeting, Some(ViewMeetings), GetMeeting),
    Route(Delete, Meeting, Some(ManageMeetings), DeleteMeeting),
    Route(Patch, Meeting, Some(ManageMeetings), UpdateMeeting),
    Route(Patch, MeetingEnd, Some(ManageMeetings), EndMeeting),
    Route(Get, MeetingAttendances, Some(ViewMeetings), GetMeetingAttendance),
    Route(Patch, MeetingAttendances, Some(ManageMeetings), ModifyMeetingAttendances),
    Route(Get, UserAttendance, Some(ViewMeetings), GetMeetingAttendanceForUser),
    Route(Patch, UserAttendance, Some(ManageMeetings), ModifyMeetingAttendance),
    Route(Get, MeetingFeedback, Some(ViewMeetings), GetMeetingFeedback),
    Route(Patch, MeetingFeedback, Some(ManageMeetings), UpdateMeetingFeedback),
    Route(Post, UserFeedback, Some(ManageMeetings), AddMeetingFeedback),
    Route(Get, UserFeedback, Some(ViewMeetings), GetMeetingFeedbackForUser),
    Route(Get, AttendanceList, Some(ViewMeetings), GetMeetingAttendance),
    Route(Delete, AttendanceList, Some(ManageMeetings), DeleteMeetingAttendanceList)
  ]

  predicate SegmentMatches(s: Segment, part: string) {
    match s
    case Lit(text) => part == text
    case Param(_) => part != ""
  }

  /** The pattern accepts the request path, given as its segments. */
  predicate Matches(pattern: seq<Segment>, path: seq<string>) {
    |pattern| == |path| && forall i :: 0 <= i < |path| ==> SegmentMatches(pattern[i], path[i])
  }

  predicate Accepts(r: Route, verb: Verb, path: seq<string>) {
    r.verb == verb && Matches(r.pattern, path)
  }

  /** The first route of `routes` that accepts the request. */
  function First(routes: seq<Route>, verb: Verb, path: seq<string>): (r: Option<Route>)
    ensures r.Some? ==> r.value in routes && Accepts(r.value, verb, path)
    ensures r.None? <==> forall i :: 0 <= i < |routes| ==> !Accepts(routes[i], verb, path)
  {
    if routes == [] then None
    else if Accepts(routes[0], verb, path) then Some(routes[0])
    else
      var rest := First(routes[1..], verb, path);
      assert forall i :: 1 <= i < |routes| ==> routes[i] == routes[1..][i - 1];
      rest
  }

  /** The route that serves a request, if any. */
  function Dispatch(verb: Verb, path: seq<string>): (r: Option<Route>)
    ensures r.Some? ==> r.value in Table && Accepts(r.value, verb, path)
  {
    First(Table, verb, path)
  }

  /** The route chosen is the earliest that accepts the request. */
  lemma {:induction false} FirstIsEarliest(routes: seq<Route>, i: nat, verb: Verb, path: seq<string>)
    requires i < |routes| && Accepts(routes[i], verb, path)
    requires forall j :: 0 <= j < i ==> !Accepts(routes[j], verb, path)
    ensures First(routes, verb, path) == Some(routes[i])
  {
    if i > 0 {
      FirstIsEarliest(routes[1..], i - 1, verb, path);
    }
  }

  /** The permission rule of the table: listing needs only authentication, every other
      read needs VIEW_MEETINGS, and every write needs MANAGE_MEETINGS. */
  predicate GuardRuleHolds(r: Route) {
    && (r.verb == Get && |r.pattern| == 0 ==> r.guard == None)
    && (r.verb == Get && |r.pattern| != 0 ==> r.guard == Some(ViewMeetings))
    && (r.verb != Get ==> r.guard == Some(ManageMeetings))
  }

  lemma TableFollowsGuardRule(r: Route)
    requires r in Table
    ensures GuardRuleHolds(r)
  {
    var i :| 0 <= i < |Table| && Table[i] == r;
    if i < 8 {
      assert i in {0, 1, 2, 3, 4, 5, 6, 7};
    } else {
      assert i in {8, 9, 10, 11, 12, 13, 14, 15};
    }
  }

  /** Whatever route serves a request, its guard follows the rule. */
  lemma GuardRule(verb: Verb, path: seq<string>)
    requires Dispatch(verb, path).Some?
    ensures verb == Get && path == [] ==> Dispatch(verb, path).value.guard == None
    ensures verb == Get && path != [] ==> Dispatch(verb, path).value.guard == Some(ViewMeetings)
    ensures verb != Get ==> Dispatch(verb, path).value.guard == Some(ManageMeetings)
  {
    TableFollowsGuardRule(Dispatch(verb, path).value);
  }

  /** `GET /` runs the listing behind the authentication-only guard. */
  lemma GetRootIsListing()
    ensures Dispatch(Get, []) == Some(Route(Get, Root, None, GetAllMeetings))
  {
    FirstIsEarliest(Table, 0, Get, []);
  }

  /** `GET /:meetingId/attendances` runs the attendance handler for the meeting. */
  lemma AttendancesRoute(id: string)
    requires id != ""
    ensures Dispatch(Get, [id, "attendances"]) == Some(Table[6])
    ensures Table[6].handler == GetMeetingAttendance
  {
    var path := [id, "attendances"];
    assert Matches(MeetingAttendances, path);
    FirstIsEarliest(Table, 6, Get, path);
  }

  /** `GET /attendance/:meetingId` reaches the same handler, under the same guard; only an id
      spelled `feedback` is taken first by the `/:meetingId/feedback` entry, and an id spelled
      `attendances` by the `/:meetingId/attendances` entry, with `attendance` as meeting id. */
  lemma AttendanceAlias(id: string)
    requires id != "" && id != "feedback" && id != "attendances"
    ensures Dispatch(Get, ["attendance", id]) == Some(Table[14])
    ensures Table[14].handler == Table[6].handler && Table[14].guard == Table[6].guard
  {
    var path := ["attendance", id];
    assert Matches(AttendanceList, path);
    assert !Matches(MeetingAttendances, path) by { assert path[1] != "attendances"; }
    assert !Matches(MeetingFeedback, path) by { assert path[1] != "feedback"; }
    assert !Matches(MeetingEnd, path) || Table[5].verb != Get;
    FirstIsEarliest(Table, 14, Get, path);
  }

  /** The alias shadowed: `GET /attendance/feedback` runs the feedback handler for a meeting
      whose id would be `attendance`. */
  lemma AttendanceAliasShadowed()
    ensures Dispatch(Get, ["attendance", "feedback"]).Some?
    ensures Dispatch(Get, ["attendance", "feedback"]).value.handler == GetMeetingFeedback
  {
    var path := ["attendance", "feedback"];
    assert Matches(MeetingFeedback, path);
    assert !Matches(MeetingAttendances, path) by { assert path[1] != "attendances"; }
    FirstIsEarliest(Table, 10, Get, path);
  }

  /** Only the per-user feedback entries take five segments. */
  lemma EarlierPatternsShorter(j: nat)
    requires j < 12
    ensures |Table[j].pattern| < 5
  {
    if j < 6 {
      assert j in {0, 1, 2, 3, 4, 5};
    } else {
      assert j in {6, 7, 8, 9, 10, 11};
    }
  }

  /** POST on the per-user feedback path, `/meetings/:meetingId/feedback/users/:userId`,
      adds feedback and needs MANAGE_MEETINGS. */
  lemma PostUserFeedbackRoute(meetingId: string, userId: string)
    requires meetingId != "" && userId != ""
    ensures Dispatch(Post, ["meetings", meetingId, "feedback", "users", userId])
      == Some(Route(Post, UserFeedback, Some(ManageMeetings), AddMeetingFeedback))
  {
    var path := ["meetings", meetingId, "feedback", "users", userId];
    assert Matches(UserFeedback, path);
    forall j | 0 <= j < 12
      ensures !Accepts(Table[j], Post, path)
    {
      EarlierPatternsShorter(j);
    }
    FirstIsEarliest(Table, 12, Post, path);
  }

  /** GET on the same path reads one user's feedback and needs VIEW_MEETINGS. */
  lemma GetUserFeedbackRoute(meetingId: string, userId: string)
    requires meetingId != "" && userId != ""
    ensures Dispatch(Get, ["meetings", meetingId, "feedback", "users", userId])
      == Some(Route(Get, UserFeedback, Some(ViewMeetings), GetMeetingFeedbackForUser))
  {
    var path := ["meetings", meetingId, "feedback", "users", userId];
    assert Matches(UserFeedback, path);
    forall j | 0 <= j < 13
      ensures !Accepts(Table[j], Get, path)
    {
      if j < 12 {
        EarlierPatternsShorter(j);
      }
    }
    FirstIsEarliest(Table, 13, Get, path);
  }
}
