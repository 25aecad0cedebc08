/**
 * The meeting handlers over an in-memory meeting collection (id to document).
 * The listing turns query-string entries into a conjunction of conditions,
 * hides meetings that have passed unless `passed=true`, and sorts by time.
 */
module MeetingController {
  import opened Wrappers
  import opened Seqs
  import opened Text
  import opened AttendanceModel

  /** A stored meeting, with the paths the handlers read and write. */
  datatype MeetingDocument = MeetingDocument(
    id: string,
    name: string,
    creator: string,
    time: int,
    location: string,
    kind: string,
    attendance: seq<Attendance>,
    description: Option<string>)

  /** What a handler answers: a 200 body, a 404 with its message, a 204, or the
      generic error answer for an exception thrown inside the handler. */
  datatype Response<T> = Ok(value: T) | NotFound(message: string) | NoContent | ServerError

  function NoMeetingMessage(id: string): string {
    "There is no meeting with the id " + id
  }

  function NoAttendanceMessage(id: string): string {
    "There is no attendance in the meeting with the id " + id
  }

  // ---------------------------------------------------------------------------
  // Listing: GET /api/meetings
  // ---------------------------------------------------------------------------

  /** The query string as its entries, in order. */
  type Query = seq<(string, string)>

  /** One `where` clause added to the listing query. */
  datatype Condition =
    | TimeBefore(bound: Option<int>)
    | TimeAfter(bound: Option<int>)
    | CreatorIs(creator: string)
    | NameMatches(pattern: string)
    | LocationMatches(pattern: string)
    | TypeMatches(pattern: string)
    | NotPassed(now: int)

  const FilterKeys: seq<string> := ["before", "after", "creator", "name", "location", "type"]

  /** `filterHandlers[key]` applied to `value`: the clause it adds, if the key has a handler. */
  function Handler(key: string, value: string): (c: Option<Condition>)
    ensures c.Some? <==> key in FilterKeys
  {
    if key == "before" then Some(TimeBefore(ParseInt(value)))
    else if key == "after" then Some(TimeAfter(ParseInt(value)))
    else if key == "creator" then Some(CreatorIs(value))
    else if key == "name" then Some(NameMatches(value))
    else if key == "location" then Some(LocationMatches(value))
    else if key == "type" then Some(TypeMatches(value))
    else None
  }

  /** The largest distance from the epoch, in milliseconds, that a `Date` can hold. */
  const MaxDateMillis: int := 8640000000000000

  /** The times `new Date(t)` turns into a valid date. */
  predicate IsDateTime(t: int) {
    -MaxDateMillis <= t <= MaxDateMillis
  }

  /** A time bound that parsed to NaN, or to a number outside the dates' range, cannot be
      cast to a date, and the query fails. */
  predicate CastFails(c: Condition) {
    (c.TimeBefore? || c.TimeAfter?) && (c.bound.None? || !IsDateTime(c.bound.value))
  }

  /** The inherited members of a plain object that `filterHandlers[key]` finds and that throw
      when called with a single string: they demand a function as their second argument. */
  const ThrowingInheritedKeys: seq<string> := ["__defineGetter__", "__defineSetter__"]

  /** Some entry's key reaches an inherited member that throws, so the handler loop throws. */
  ghost predicate CallsThrowingMember(query: Query) {
    exists i :: 0 <= i < |query| && query[i].0 in ThrowingInheritedKeys
  }

  predicate Holds(c: Condition, m: MeetingDocument) {
    match c
    case TimeBefore(b) => b.Some? && m.time < b.value
    case TimeAfter(b) => b.Some? && m.time > b.value
    case CreatorIs(v) => m.creator == v
    case NameMatches(p) => MatchesIgnoringCase(m.name, p)
    case LocationMatches(p) => MatchesIgnoringCase(m.location, p)
    case TypeMatches(p) => MatchesIgnoringCase(m.kind, p)
    case NotPassed(now) => m.time >= now
  }

  /** The clauses one entry adds: its handler's, or none. */
  function Added(entry: (string, string)): seq<Condition> {
    match Handler(entry.0, entry.1)
    case Some(c) => [c]
    case None => []
  }

  /** The clauses the handler loop has added once it has seen the entries of `query`. */
  function HandlerConditions(query: Query): seq<Condition> {
    FlatMap(query, Added)
  }

  /** `req.query[key]`. */
  function Lookup(query: Query, key: string): Option<string> {
    if query == [] then None
    else if query[0].0 == key then Some(query[0].1)
    else Lookup(query[1..], key)
  }

  /** Passed meetings are listed only for `passed` exactly `true`. */
  predicate IncludesPassed(query: Query) {
    Lookup(query, "passed") == Some("true")
  }

  predicate AllHold(conditions: seq<Condition>, m: MeetingDocument) {
    forall c :: c in conditions ==> Holds(c, m)
  }

  predicate AnyCastFails(conditions: seq<Condition>) {
    exists c :: c in conditions && CastFails(c)
  }

  /** What one query entry demands of a listed meeting (nothing, for a key without handler). */
  predicate EntryHolds(entry: (string, string), m: MeetingDocument) {
    AllHold(Added(entry), m)
  }

  ghost predicate EntriesHold(query: Query, m: MeetingDocument) {
    forall i :: 0 <= i < |query| ==> EntryHolds(query[i], m)
  }

  /** The meetings the listing selects: every entry holds, and it has not passed
      unless passed meetings are asked for. */
  ghost predicate Selected(query: Query, now: int, m: MeetingDocument) {
    EntriesHold(query, m) && (!IncludesPassed(query) ==> m.time >= now)
  }

  /** Some entry's clause cannot be cast: a `before` or `after` value with no leading integer,
      or one outside the dates' range. */
  ghost predicate BadTimeBound(query: Query) {
    exists i :: 0 <= i < |query| && AnyCastFails(Added(query[i]))
  }

  /** The entries whose clause cannot be cast are exactly the time bounds that are not numbers
      or not the time of any date. */
  lemma CastFailsMeaning(key: string, value: string)
    ensures AnyCastFails(Added((key, value))) <==>
      (key == "before" || key == "after") && (ParseInt(value).None? || !IsDateTime(ParseInt(value).value))
  {
    if AnyCastFails(Added((key, value))) {
      assert Added((key, value)) == [Handler(key, value).value];
    }
    if (key == "before" || key == "after") && (ParseInt(value).None? || !IsDateTime(ParseInt(value).value)) {
      assert CastFails(Added((key, value))[0]);
    }
  }

  /** A bound past the last date fails to cast although it is a number. */
  lemma BoundPastLastDateFails()
    ensures ParseInt("9000000000000000") == Some(9000000000000000)
    ensures BadTimeBound([("before", "9000000000000000")])
  {
    var d := "9000000000000000";
    NineThenZerosValue();
    assert forall j :: 0 <= j < |d| ==> IsDigit(d[j]);
    ParseIntMeaning("", "", d, "");
    assert "" + "" + d + "" == d;
    var q := [("before", d)];
    CastFailsMeaning(q[0].0, q[0].1);
  }

  lemma NineThenZerosValue()
    ensures DigitsValue("9000000000000000") == 9000000000000000
  {
    assert DigitsValue("9") == 9 by { assert "9"[..0] == []; }
    DigitsAppendZero("9", "90");
    DigitsAppendZero("90", "900");
    DigitsAppendZero("900", "9000");
    DigitsAppendZero("9000", "90000");
    DigitsAppendZero("90000", "900000");
    DigitsAppendZero("900000", "9000000");
    DigitsAppendZero("9000000", "90000000");
    DigitsAppendZero("90000000", "900000000");
    DigitsAppendZero("900000000", "9000000000");
    DigitsAppendZero("9000000000", "90000000000");
    DigitsAppendZero("90000000000", "900000000000");
    DigitsAppendZero("900000000000", "9000000000000");
    DigitsAppendZero("9000000000000", "90000000000000");
    DigitsAppendZero("90000000000000", "900000000000000");
    DigitsAppendZero("900000000000000", "9000000000000000");
  }

  /** A trailing zero multiplies a digit string's value by ten. */
  lemma DigitsAppendZero(d: string, e: string)
    requires e == d + "0"
    ensures DigitsValue(e) == DigitsValue(d) * 10
  {
    assert e[..|d|] == d;
  }

  ghost predicate SortedByTime(s: seq<MeetingDocument>) {
    forall i, j :: 0 <= i < j < |s| ==> s[i].time <= s[j].time
  }

  /** The clauses of the whole listing query: the handlers', then the not-yet-passed bound. */
  function ListingConditions(query: Query, now: int): seq<Condition> {
    HandlerConditions(query) + (if IncludesPassed(query) then [] else [NotPassed(now)])
  }

  /** The listing's outcome: the meetings, a bound that failed to cast, or a handler call
      that threw; the last two are answered with the generic error. */
  datatype Listing = Listed(meetings: seq<MeetingDocument>) | CastError | HandlerThrew

  /** The handler clauses mean exactly the entry-by-entry demands. */
  lemma HandlerConditionsHold(query: Query, m: MeetingDocument)
    ensures AllHold(HandlerConditions(query), m) <==> EntriesHold(query, m)
  {
    forall c | true
      ensures c in HandlerConditions(query) <==> exists i :: 0 <= i < |query| && c in Added(query[i])
    {
      FlatMapMembers(query, Added, c);
    }
    if EntriesHold(query, m) {
      forall c | c in HandlerConditions(query)
        ensures Holds(c, m)
      {
        var i :| 0 <= i < |query| && c in Added(query[i]);
        assert EntryHolds(query[i], m);
      }
    }
  }

  /** A handler clause fails to cast exactly when some entry's clause does. */
  lemma HandlerConditionsCast(query: Query)
    ensures AnyCastFails(HandlerConditions(query)) <==> BadTimeBound(query)
  {
    if AnyCastFails(HandlerConditions(query)) {
      var c :| c in HandlerConditions(query) && CastFails(c);
      FlatMapMembers(query, Added, c);
      var i :| 0 <= i < |query| && c in Added(query[i]);
      assert AnyCastFails(Added(query[i]));
    }
    if BadTimeBound(query) {
      var i :| 0 <= i < |query| && AnyCastFails(Added(query[i]));
      var c :| c in Added(query[i]) && CastFails(c);
      FlatMapMembers(query, Added, c);
    }
  }

  /** The listing's clauses select exactly the meetings `Selected` describes, and fail
      to cast exactly on a bad time bound. */
  lemma ListingConditionsMeaning(query: Query, now: int, m: MeetingDocument)
    ensures AllHold(ListingConditions(query, now), m) <==> Selected(query, now, m)
    ensures AnyCastFails(ListingConditions(query, now)) <==> BadTimeBound(query)
  {
    HandlerConditionsHold(query, m);
    HandlerConditionsCast(query);
    var extra: seq<Condition> := if IncludesPassed(query) then [] else [NotPassed(now)];
    PassedCondition(IncludesPassed(query), now, extra, m);
    ConditionsAppend(HandlerConditions(query), extra, m);
  }

  /** The not-yet-passed bound, when it is added, holds for the meetings at or after `now`
      and always casts. */
  lemma PassedCondition(includesPassed: bool, now: int, extra: seq<Condition>, m: MeetingDocument)
    requires extra == if includesPassed then [] else [NotPassed(now)]
    ensures AllHold(extra, m) <==> includesPassed || m.time >= now
    ensures !AnyCastFails(extra)
  {
    if !includesPassed {
      assert AllHold(extra, m) <==> Holds(NotPassed(now), m);
    }
  }

  /** The clauses of two lists all hold, or one fails to cast, as they do for each list. */
  lemma ConditionsAppend(a: seq<Condition>, b: seq<Condition>, m: MeetingDocument)
    ensures AllHold(a + b, m) <==> AllHold(a, m) && AllHold(b, m)
    ensures AnyCastFails(a + b) <==> AnyCastFails(a) || AnyCastFails(b)
  {
    assert forall c :: c in a + b <==> c in a || c in b;
  }

  /** Adding an entry whose key has no handler, other than `passed`, changes nothing
      in what the listing selects; it makes the handler loop throw exactly when the key
      is one of the throwing inherited members. */
  lemma UnknownKeyIgnored(query: Query, key: string, value: string, now: int, m: MeetingDocument)
    requires key !in FilterKeys && key != "passed"
    ensures HandlerConditions(query + [(key, value)]) == HandlerConditions(query)
    ensures Selected(query + [(key, value)], now, m) <==> Selected(query, now, m)
    ensures CallsThrowingMember(query + [(key, value)]) <==>
      CallsThrowingMember(query) || key in ThrowingInheritedKeys
  {
    var q := query + [(key, value)];
    assert q[..|q| - 1] == query;
    assert Added((key, value)) == [];
    LookupAppendOther(query, key, value, "passed");
    assert forall i :: 0 <= i < |query| ==> q[i] == query[i];
    assert q[|query|] == (key, value);
  }

  lemma {:induction false} LookupAppendOther(query: Query, key: string, value: string, wanted: string)
    requires key != wanted
    ensures Lookup(query + [(key, value)], wanted) == Lookup(query, wanted)
  {
    if query == [] {
      assert query + [(key, value)] == [(key, value)];
    } else {
      assert (query + [(key, value)])[1..] == query[1..] + [(key, value)];
      LookupAppendOther(query[1..], key, value, wanted);
    }
  }

  /** Unless `passed=true`, no listed meeting starts before `now`; `passed=false` or any
      other value behaves as if `passed` were absent. */
  lemma PassedDefault(query: Query, now: int, m: MeetingDocument)
    requires Lookup(query, "passed") != Some("true")
    requires Selected(query, now, m)
    ensures m.time >= now
  {
  }

  /** With `passed=true` the time of day plays no part: selection is by the entries alone. */
  lemma PassedTrue(query: Query, now: int, later: int, m: MeetingDocument)
    requires IncludesPassed(query)
    ensures Selected(query, now, m) <==> Selected(query, later, m)
  {
  }

  /** Each kind of entry and what it keeps. */
  lemma EntryMeaning(key: string, value: string, m: MeetingDocument)
    ensures key == "before" ==> (EntryHolds((key, value), m) <==> ParseInt(value).Some? && m.time < ParseInt(value).value)
    ensures key == "after" ==> (EntryHolds((key, value), m) <==> ParseInt(value).Some? && m.time > ParseInt(value).value)
    ensures key == "creator" ==> (EntryHolds((key, value), m) <==> m.creator == value)
    ensures key == "name" ==> (EntryHolds((key, value), m) <==> MatchesIgnoringCase(m.name, value))
    ensures key == "location" ==> (EntryHolds((key, value), m) <==> MatchesIgnoringCase(m.location, value))
    ensures key == "type" ==> (EntryHolds((key, value), m) <==> MatchesIgnoringCase(m.kind, value))
    ensures key !in FilterKeys ==> EntryHolds((key, value), m)
  {
    var h := Handler(key, value);
    if h.Some? {
      assert Added((key, value)) == [h.value];
      assert EntryHolds((key, value), m) <==> Holds(h.value, m);
    }
  }

  /** Inserts `m` into a list sorted by time, before the first meeting that is not earlier. */
  function InsertByTime(s: seq<MeetingDocument>, m: MeetingDocument): (r: seq<MeetingDocument>)
    ensures |r| == |s| + 1
    ensures forall x :: x in r <==> x in s || x == m
  {
    if s == [] || m.time <= s[0].time then [m] + s
    else [s[0]] + InsertByTime(s[1..], m)
  }

  /** Insertion keeps the list sorted by time. */
  lemma {:induction false} InsertByTimeSorted(s: seq<MeetingDocument>, m: MeetingDocument)
    requires SortedByTime(s)
    ensures SortedByTime(InsertByTime(s, m))
  {
    if s != [] && m.time > s[0].time {
      var rest := InsertByTime(s[1..], m);
      InsertByTimeSorted(s[1..], m);
      assert forall x :: x in s[1..] ==> s[0].time <= x.time;
      var r := [s[0]] + rest;
      assert forall j :: 0 < j < |r| ==> r[j] == rest[j - 1] && r[j] in rest;
    }
  }

  /** Inserting a meeting not yet listed keeps every meeting listed once. */
  lemma {:induction false} InsertByTimeNoDups(s: seq<MeetingDocument>, m: MeetingDocument)
    requires NoDups(s) && m !in s
    ensures NoDups(InsertByTime(s, m))
  {
    if s != [] && m.time > s[0].time {
      var rest := InsertByTime(s[1..], m);
      InsertByTimeNoDups(s[1..], m);
      assert s[0] !in s[1..];
      var r := [s[0]] + rest;
      assert forall j :: 0 < j < |r| ==> r[j] == rest[j - 1] && r[j] in rest;
    }
  }

  // ---------------------------------------------------------------------------
  // Single-meeting reads
  // ---------------------------------------------------------------------------

  /** GET /api/meetings/:meetingId. */
  function GetMeeting(store: map<string, MeetingDocument>, id: string): (r: Response<MeetingDocument>)
    ensures r.Ok? <==> id in store
    ensures r.Ok? ==> r.value == store[id]
    ensures !r.Ok? ==> r == NotFound(NoMeetingMessage(id))
  {
    if id in store then Ok(store[id]) else NotFound(NoMeetingMessage(id))
  }

  /** GET /api/meetings/:meetingId/attendances, as written: the meeting is not checked
      for absence, so reading its attendance throws for an unknown id. */
  function GetMeetingAttendance(store: map<string, MeetingDocument>, id: string): (r: Response<MeetingDocument>)
    ensures r.ServerError? <==> id !in store
    ensures r.NotFound? <==> id in store && store[id].attendance == []
    ensures r.Ok? ==> id in store && r.value == store[id] && r.value.attendance != []
  {
    if id !in store then ServerError
    else if |store[id].attendance| == 0 then NotFound(NoAttendanceMessage(id))
    else Ok(store[id])
  }

  /** The unknown id reaches the dereference: any id not in the collection gives the generic error. */
  lemma AttendanceOfUnknownMeetingThrows()
    ensures GetMeetingAttendance(map[], "64b7f0c2a1b2c3d4e5f60718") == ServerError
  {
  }

  /** The same read with the absence check every other handler has: an unknown id is a 404. */
  function GetMeetingAttendanceChecked(store: map<string, MeetingDocument>, id: string): (r: Response<MeetingDocument>)
    ensures !r.ServerError?
    ensures r == NotFound(NoMeetingMessage(id)) <==> id !in store
    ensures r == NotFound(NoAttendanceMessage(id)) <==> id in store && store[id].attendance == []
    ensures r.Ok? <==> id in store && store[id].attendance != []
    ensures r.Ok? ==> r.value == store[id]
  {
    if id !in store then NotFound(NoMeetingMessage(id))
    else
      assert NoAttendanceMessage(id) != NoMeetingMessage(id) by {
        assert NoAttendanceMessage(id)[12] == 'a' != 'm' == NoMeetingMessage(id)[12];
      }
      GetMeetingAttendance(store, id)
  }

  /** An attendance entry without its `user` and `didAttend` paths. */
  datatype Feedback = Feedback(notes: string, feedbackRating: Option<int>, feedbackDescription: Option<string>)

  function Strip(a: Attendance): Feedback {
    Feedback(a.notes, a.feedbackRating, a.feedbackDescription)
  }

  /** `attendance.filter(dto => dto.user === userId)`. */
  function EntriesOf(entries: seq<Attendance>, userId: string): (r: seq<Attendance>)
    ensures forall a :: a in r <==> a in entries && a.user == userId
  {
    if entries == [] then []
    else (if entries[0].user == userId then [entries[0]] else []) + EntriesOf(entries[1..], userId)
  }

  /** The stripped first entry of the filtered list, if any. */
  function FirstFeedback(entries: seq<Attendance>, userId: string): (r: Option<Feedback>)
    ensures r.None? <==> forall a :: a in entries ==> a.user != userId
  {
    var matching := EntriesOf(entries, userId);
    if matching == [] then None
    else
      assert matching[0] in matching;
      Some(Strip(matching[0]))
  }

  /** The feedback returned is that of the first entry for the user, stripped of `user` and `didAttend`. */
  lemma {:induction false} FirstFeedbackIsFirstEntry(entries: seq<Attendance>, userId: string, i: nat)
    requires i < |entries| && entries[i].user == userId
    requires forall j :: 0 <= j < i ==> entries[j].user != userId
    ensures FirstFeedback(entries, userId) == Some(Strip(entries[i]))
  {
    if i > 0 {
      FirstFeedbackIsFirstEntry(entries[1..], userId, i - 1);
      assert EntriesOf(entries, userId) == EntriesOf(entries[1..], userId);
    }
  }

  /** GET /meetings/:meetingId/feedback/users/:userId. */
  function GetMeetingFeedbackForUser(store: map<string, MeetingDocument>, meetingId: string, userId: string)
    : (r: Response<Option<Feedback>>)
    ensures r.NotFound? <==> meetingId !in store
    ensures r.NotFound? ==> r.message == NoMeetingMessage(meetingId)
    ensures meetingId in store ==> r.Ok? && (r.value.None? <==> forall a :: a in store[meetingId].attendance ==> a.user != userId)
    ensures r.Ok? ==> r.value == FirstFeedback(store[meetingId].attendance, userId)
  {
    if meetingId !in store then NotFound(NoMeetingMessage(meetingId))
    else Ok(FirstFeedback(store[meetingId].attendance, userId))
  }

  // ---------------------------------------------------------------------------
  // Writes
  // ---------------------------------------------------------------------------

  /** The body of POST /api/meetings, with the requester the authentication layer adds. */
  datatype MeetingBody = MeetingBody(
    requester: string,
    creator: Option<string>,
    name: string,
    time: int,
    location: string,
    kind: string,
    attendance: seq<Attendance>,
    description: Option<string>)

  /** What the schema's validators demand of a stored meeting's name and creator: the name is
      stored trimmed and is required, the creator is required. */
  predicate PassesValidators(m: MeetingDocument) {
    m.name != "" && NoOuterSpace(m.name) && m.creator != ""
  }

  /** The body passes the name and creator validators once the name is trimmed. */
  predicate Creatable(body: MeetingBody) {
    Trim(body.name) != "" && body.requester != ""
  }

  /** `{...req.body, creator: req.body.requester}` stored under a new id, the name trimmed. */
  function Created(body: MeetingBody, id: string): (m: MeetingDocument)
    ensures m.id == id && m.creator == body.requester && m.name == Trim(body.name)
    ensures m.time == body.time && m.location == body.location && m.kind == body.kind
    ensures m.attendance == body.attendance && m.description == body.description
  {
    MeetingDocument(id, Trim(body.name), body.requester, body.time, body.location, body.kind,
                    body.attendance, body.description)
  }

  /** The validators accept exactly the bodies `Creatable` admits. */
  lemma CreatedPassesValidators(body: MeetingBody, id: string)
    ensures PassesValidators(Created(body, id)) <==> Creatable(body)
  {
  }

  /** A creator given in the body never reaches the stored meeting. */
  lemma CreatorOverridden(body: MeetingBody, creator: Option<string>, id: string)
    ensures Created(body.(creator := creator), id) == Created(body, id)
  {
  }

  /** A partial update: the paths it carries replace the stored ones. */
  datatype MeetingPatch = MeetingPatch(
    name: Option<string>,
    creator: Option<string>,
    time: Option<int>,
    location: Option<string>,
    kind: Option<string>,
    attendance: Option<seq<Attendance>>,
    description: Option<string>)

  function Pick<T>(given: Option<T>, current: T): T {
    if given.Some? then given.value else current
  }

  /** The update validators run on the paths the patch carries: a given name must not be blank
      once trimmed, a given creator must not be empty. */
  predicate PatchAccepted(p: MeetingPatch) {
    (p.name.Some? ==> Trim(p.name.value) != "") && (p.creator.Some? ==> p.creator.value != "")
  }

  /** The patched document: a given name is stored trimmed, every other given path as it is. */
  function Patched(m: MeetingDocument, p: MeetingPatch): (r: MeetingDocument)
    ensures r.id == m.id
    ensures r.name == if p.name.Some? then Trim(p.name.value) else m.name
  {
    MeetingDocument(m.id, if p.name.Some? then Trim(p.name.value) else m.name,
                    Pick(p.creator, m.creator), Pick(p.time, m.time),
                    Pick(p.location, m.location), Pick(p.kind, m.kind), Pick(p.attendance, m.attendance),
                    if p.description.Some? then p.description else m.description)
  }

  /** A patch that only carries a location leaves the name, time and everything else as they were. */
  lemma PatchLocationOnly(m: MeetingDocument, location: string)
    ensures Patched(m, MeetingPatch(None, None, None, Some(location), None, None, None)) == m.(location := location)
  {
  }

  /** Applying the same patch twice is applying it once. */
  lemma PatchIdempotent(m: MeetingDocument, p: MeetingPatch)
    ensures Patched(Patched(m, p), p) == Patched(m, p)
  {
  }

  /** An accepted patch of a document that passes the validators gives one that passes them. */
  lemma PatchKeepsValidators(m: MeetingDocument, p: MeetingPatch)
    requires PassesValidators(m)
    ensures PatchAccepted(p) ==> PassesValidators(Patched(m, p))
  {
  }

  /** The meeting collection, keyed by id. */
  class MeetingCollection {
    var meetings: map<string, MeetingDocument>

    /** Every document is stored under its own id and passed the validators. */
    ghost predicate Valid()
      reads this
    {
      forall id :: id in meetings ==> meetings[id].id == id && PassesValidators(meetings[id])
    }

    constructor ()
      ensures Valid() && meetings == map[]
    {
      meetings := map[];
    }

    /** GET /api/meetings without paging: every selected meeting once, sorted by time;
        a time bound that is not a number makes the query fail. */
    method GetAllMeetings(query: Query, now: int) returns (r: Listing)
      requires Valid()
      ensures r.HandlerThrew? <==> CallsThrowingMember(query)
      ensures r.CastError? <==> !CallsThrowingMember(query) && BadTimeBound(query)
      ensures r.Listed? ==> SortedByTime(r.meetings) && NoDups(r.meetings)
      ensures r.Listed? ==> forall m :: m in r.meetings ==>
        m.id in meetings && meetings[m.id] == m && Selected(query, now, m)
      ensures r.Listed? ==> forall id :: id in meetings && Selected(query, now, meetings[id]) ==>
        meetings[id] in r.meetings
    {
      var conditions: seq<Condition> := [];
      for i := 0 to |query|
        invariant conditions == HandlerConditions(query[..i])
        invariant forall j :: 0 <= j < i ==> query[j].0 !in ThrowingInheritedKeys
      {
        if query[i].0 in ThrowingInheritedKeys {
          return HandlerThrew;
        }
        assert query[..i + 1][..i] == query[..i];
        assert HandlerConditions(query[..i + 1]) == conditions + Added(query[i]);
        var handled := Handler(query[i].0, query[i].1);
        if handled.Some? {
          conditions := conditions + [handled.value];
        }
      }
      assert query[..|query|] == query;
      if !IncludesPassed(query) {
        conditions := conditions + [NotPassed(now)];
      }
      assert conditions == ListingConditions(query, now);
      ListingConditionsMeaning(query, now, MeetingDocument("", "", "", 0, "", "", [], None));
      if AnyCastFails(conditions) {
        return CastError;
      }
      forall m | true
        ensures AllHold(conditions, m) <==> Selected(query, now, m)
      {
        ListingConditionsMeaning(query, now, m);
      }

      var pending := meetings.Keys;
      var listed: seq<MeetingDocument> := [];
      while pending != {}
        invariant pending <= meetings.Keys
        invariant SortedByTime(listed) && NoDups(listed)
        invariant forall m :: m in listed ==>
          m.id in meetings.Keys - pending && meetings[m.id] == m && AllHold(conditions, m)
        invariant forall id :: id in meetings.Keys - pending && AllHold(conditions, meetings[id]) ==>
          meetings[id] in listed
        decreases pending
      {
        var id :| id in pending;
        var m := meetings[id];
        if AllHold(conditions, m) {
          InsertByTimeSorted(listed, m);
          InsertByTimeNoDups(listed, m);
          listed := InsertByTime(listed, m);
        }
        pending := pending - {id};
      }
      r := Listed(listed);
    }

    /** POST /api/meetings: the body is stored under a fresh id with the requester as creator
        and the name trimmed; a blank name or an empty requester fails validation, which is
        the generic error, and nothing is stored. */
    method AddMeeting(body: MeetingBody, newId: string) returns (r: Response<MeetingDocument>)
      requires Valid() && newId !in meetings
      modifies this
      ensures Valid()
      ensures Creatable(body) ==>
        && r == Ok(Created(body, newId))
        && meetings == old(meetings)[newId := Created(body, newId)]
        && GetMeeting(meetings, newId) == r
      ensures !Creatable(body) ==> r == ServerError && meetings == old(meetings)
    {
      if !Creatable(body) {
        return ServerError;
      }
      var created := Created(body, newId);
      CreatedPassesValidators(body, newId);
      meetings := meetings[newId := created];
      r := Ok(created);
    }

    /** PATCH /api/meetings/:meetingId: a patch the update validators refuse is the generic
        error and changes nothing; otherwise a 404 exactly when no meeting has the id. */
    method UpdateMeeting(id: string, patch: MeetingPatch) returns (r: Response<MeetingDocument>)
      requires Valid()
      modifies this
      ensures Valid()
      ensures !PatchAccepted(patch) ==> r == ServerError && meetings == old(meetings)
      ensures PatchAccepted(patch) && id in old(meetings) ==>
        r == Ok(Patched(old(meetings)[id], patch)) && meetings == old(meetings)[id := r.value]
      ensures PatchAccepted(patch) && id !in old(meetings) ==>
        r == NotFound(NoMeetingMessage(id)) && meetings == old(meetings)
    {
      if !PatchAccepted(patch) {
        return ServerError;
      }
      if id in meetings {
        PatchKeepsValidators(meetings[id], patch);
        var updated := Patched(meetings[id], patch);
        meetings := meetings[id := updated];
        r := Ok(updated);
      } else {
        r := NotFound(NoMeetingMessage(id));
      }
    }

    /** DELETE /api/meetings/:meetingId: 204 and gone, or a 404 when there was no such meeting. */
    method DeleteMeeting(id: string) returns (r: Response<MeetingDocument>)
      requires Valid()
      modifies this
      ensures Valid()
      ensures r == if id in old(meetings) then NoContent else NotFound(NoMeetingMessage(id))
      ensures meetings == old(meetings) - {id}
      ensures GetMeeting(meetings, id) == NotFound(NoMeetingMessage(id))
    {
      if id in meetings {
        meetings := meetings - {id};
        r := NoContent;
      } else {
        r := NotFound(NoMeetingMessage(id));
      }
    }
  }
}
