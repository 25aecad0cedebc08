# aeyb-monitor core, modelled in Dafny

aeyb-monitor is a meeting and role manager. It has an Express/Mongoose backend and a React
frontend. This project models the parts of it that make decisions:

- **Meeting controller.** It turns a query string into a conjunction of filters, hides meetings
  that have passed unless `passed=true`, and sorts the listing by time. It also holds the
  single-meeting reads (find or 404, the attendance read, the per-user feedback extraction) and
  the create/update/delete handlers over the meeting collection.
- **Role controller.** It lists, reads, adds and updates roles. `Default` and `Admin` are
  protected from updates. Deleting a role first pulls its id from every user, counts the users
  changed, and only then deletes the role.
- **Meeting router.** A table from verb and path pattern to the guarding permission and the
  handler. A request is served by the first registration that accepts it.
- **Schemas.** The attendance entry, meeting and user documents: their required paths, defaults,
  trimming and the rating bounds. Also the user's role population (`asPopulated`,
  `findByIdWithRoles`).
- **Roles page and permission editor (frontend).** Records keyed by id, the permission switches
  (select all, per section, per permission), saving, the Admin/Default removal guard, the avatar
  colour and the tab manager.
- **New-meeting dialog.** Its form state, the two submit checks and the request it posts.
- **After-meeting page.** A small state machine: comment required, then a confirmation dialog,
  then home.
- **Button.** The size and colour classes and the inline style.

Stores are maps from id to record. The clock (`Date.now()`), the hour the page was loaded at
(`roundToHour(new Date())`), the ids the database generates and the colour library's darkness
test are parameters. Handlers that change a store are methods of a class holding the store.
Components whose hooks change step by step are classes whose fields are those hooks. Everything
else is pure functions with lemmas.

One module per source file: `MeetingController`, `RoleController`, `MeetingRoutes`,
`AttendanceModel`, `MeetingModel`, `UserModel`, `RolesPage`, `PermissionsList`, `NewMeeting`,
`AfterMeeting` and `Button`. There are also helper modules:

- `Wrappers`: `Option` and `Result`.
- `Seqs`: counting, filtering, de-duplication and flat-mapping over sequences.
- `Text`: ASCII lower-casing, substring search, `trim` and `parseInt`.
- `Schema`: validation errors.
- `Shared`: the permission enumeration and the role record.

## Model

| member | source | states |
|---|---|---|
| Text.ParseInt | backend/src/controllers/MeetingController.ts:28-29 | `Number.parseInt` gives a number only when the string holds a digit; otherwise it gives NaN (`None`) |
| Text.ParseIntMeaning | backend/src/controllers/MeetingController.ts:28-29 | for white space, a sign (`-`, `+` or none), digits d and a rest that does not continue them, `parseInt` gives the decimal value of d, negated after `-`, and NaN exactly when there is no digit |
| Text.ReadSignedMeaning | backend/src/controllers/MeetingController.ts:28-29 | once the white space is skipped: the sign and the digits after it give ±value(d), and NaN exactly when no digit follows the sign |
| Text.DigitsReadsValue | backend/src/controllers/MeetingController.ts:28-29 | reading digits left to right up to the first non-digit yields their positional decimal value and their count |
| Text.ParseIntSkipsSpace | backend/src/controllers/MeetingController.ts:28-29 | leading white space is skipped: `parseInt` reads what follows it |
| Text.ContainsMeaning | backend/src/controllers/MeetingController.ts:31-33 | the substring test holds exactly when the pattern occurs at some position of the field |
| Text.EmptyPatternMatchesAll | backend/src/controllers/MeetingController.ts:31-33 | an empty filter value keeps every meeting |
| Text.MatchIgnoresFieldCase | backend/src/controllers/MeetingController.ts:31-33 | the name/location/type match ignores the case of the field |
| Text.ToLowerIdempotent | backend/src/controllers/MeetingController.ts:31-33 | case folding twice is folding once |
| Text.TrimStart | backend/src/models/MeetingModel.ts:19 | exactly the leading white space is removed: what is dropped is white space, and what is left does not start with it |
| Text.TrimEnd | backend/src/models/MeetingModel.ts:19 | exactly the trailing white space is removed: what is dropped is white space, and what is left does not end with it |
| Text.Trim | backend/src/models/MeetingModel.ts:19 | the result is the input with white space (the ECMAScript white space and line terminators), and only white space, removed from both ends, and neither end of it is white space |
| Text.StripsBetween | backend/src/models/MeetingModel.ts:19 | dropping the leading and then the trailing white space strips both ends of the original |
| Text.TrimFixesUnspaced | backend/src/models/MeetingModel.ts:19 | trimming leaves a string unchanged exactly when neither of its ends is white space |
| Text.TrimIdempotent | backend/src/models/MeetingModel.ts:19 | trimming a stored (trimmed) name changes nothing |
| Seqs.FlatMapMembers | backend/src/controllers/MeetingController.ts:36-38 | a clause is in the clauses gathered from all entries iff some entry added it |
| Seqs.Dedup | frontend/src/pages/roles/components/PermissionsList.tsx:28 | `[...new Set(xs)]` has no duplicates and the same members as `xs` |
| Seqs.DedupKeepsDistinctPrefix | frontend/src/pages/roles/components/PermissionsList.tsx:28 | de-duplicating `a + b` with distinct `a` keeps `a` in front, unchanged |
| Seqs.Without | frontend/src/pages/roles/components/PermissionsList.tsx:30 | `filter(x => !s.includes(x))` keeps exactly the members not in `s` |
| Seqs.WithoutCount | frontend/src/pages/roles/components/PermissionsList.tsx:30 | filtering keeps every other value as many times as before |
| Shared.NamesAreDistinct | frontend/src/pages/roles/components/PermissionsList.tsx:6-10 | the six permission names are distinct |
| Schema.Nested | backend/src/models/MeetingModel.ts:34-38 | errors of the embedded attendance are reported under `attendance.<path>`, one for one |
| AttendanceModel.Validate | backend/src/models/AttendanceModel.ts:4-27 | an entry is accepted iff it has a non-empty user and any rating lies in [1, 5]; `didAttend` defaults to false and `notes` to ""; the user error is reported iff the user is missing; only `user` and `feedbackRating` can fail |
| AttendanceModel.ValidatedIsWellFormed | backend/src/models/AttendanceModel.ts:19-23 | every accepted entry has a user and a rating within bounds |
| AttendanceModel.ValidateRoundTrip | backend/src/models/AttendanceModel.ts:4-27 | a stored entry submitted again comes back unchanged |
| MeetingModel.Validate | backend/src/models/MeetingModel.ts:15-42 | a meeting is accepted iff its trimmed name is non-empty and creator, time, where and a valid attendance are present; the name is stored trimmed and the description is optional; the name error is reported iff the trimmed name is empty |
| MeetingModel.AttendanceErrorsMeaning | backend/src/models/MeetingModel.ts:34-38 | the attendance path fails iff it is missing or its entry is refused, and never with the name's error |
| MeetingModel.ErrorsMeaning | backend/src/models/MeetingModel.ts:15-42 | no error iff every required path is present and valid; the name's error iff the trimmed name is empty |
| MeetingModel.NestedPaths | backend/src/models/MeetingModel.ts:34-38 | errors of the attendance sub-document never carry the path `name` |
| MeetingModel.ValidatedIsWellFormed | backend/src/models/MeetingModel.ts:16-20 | every accepted meeting has a name with no surrounding white space |
| MeetingModel.ValidateRoundTrip | backend/src/models/MeetingModel.ts:15-42 | a stored meeting submitted again comes back unchanged |
| UserModel.Validate | backend/src/models/UserModel.ts:18-30 | a user is accepted iff the caller supplies an id and a non-blank name; the id is kept as given, the name trimmed, the profile URL optional, and roles default to [] |
| UserModel.PopulateRoles | backend/src/models/UserModel.ts:26-29 | populating yields exactly the roles the ids name, at most one per id |
| UserModel.PopulateRolesAppend | backend/src/models/UserModel.ts:26-29 | populating a list is populating its parts in turn, so the order of the ids and every repeated id are kept |
| UserModel.PopulateRolesSingle | backend/src/models/UserModel.ts:26-29 | one id gives its role, or nothing when no role has that id |
| UserModel.PopulateAllPresent | backend/src/models/UserModel.ts:26-29 | when every id names a role, populating is an element-wise lookup |
| UserModel.FindByIdWithRoles | backend/src/models/UserModel.ts:41-43 | found iff the id is stored; the result is that user with the roles populated |
| UserModel.UserDocument.constructor | backend/src/models/UserModel.ts:6-9 | a loaded document starts unpopulated |
| UserModel.UserDocument.AsPopulated | backend/src/models/UserModel.ts:34-39 | an already populated document is left unchanged; otherwise its roles are populated once; either way the populated view is returned |
| MeetingController.Handler | backend/src/controllers/MeetingController.ts:27-34 | a query key adds a clause iff it is one of before, after, creator, name, location, type |
| MeetingController.CastFailsMeaning | backend/src/controllers/MeetingController.ts:28-29 | an entry's clause fails to cast iff it is a `before`/`after` whose value parses to NaN or to a number outside ±8640000000000000 ms, the range of a `Date` |
| MeetingController.BoundPastLastDateFails | backend/src/controllers/MeetingController.ts:28 | `before=9000000000000000` parses to a number, yet the query fails to cast |
| MeetingController.HandlerConditionsHold | backend/src/controllers/MeetingController.ts:36-38 | the clauses the loop adds hold of a meeting iff each entry's demand holds (conjunction) |
| MeetingController.HandlerConditionsCast | backend/src/controllers/MeetingController.ts:36-38 | the added clauses fail to cast iff some entry's time bound is NaN or outside the range of a `Date` |
| MeetingController.ListingConditionsMeaning | backend/src/controllers/MeetingController.ts:27-42 | the whole query selects exactly the meetings that meet every entry and have not passed (unless `passed=true`), and fails to cast iff some time bound is NaN or outside the range of a `Date` |
| MeetingController.PassedCondition | backend/src/controllers/MeetingController.ts:40-42 | the not-yet-passed bound, when added, holds exactly for meetings at or after now, and always casts |
| MeetingController.UnknownKeyIgnored | backend/src/controllers/MeetingController.ts:27-38 | an entry with a key that has no handler (other than `passed`) changes neither the clauses nor the selection; it makes the handler loop throw iff the key is `__defineGetter__` or `__defineSetter__`, the inherited members of the plain `filterHandlers` object that throw when called with one string |
| MeetingController.LookupAppendOther | backend/src/controllers/MeetingController.ts:40 | appending an entry with another key leaves `req.query[key]` unchanged |
| MeetingController.PassedDefault | backend/src/controllers/MeetingController.ts:40-42 | unless `passed` is exactly `true`, every selected meeting starts at or after now |
| MeetingController.PassedTrue | backend/src/controllers/MeetingController.ts:40-42 | with `passed=true` the time of the request plays no part in the selection |
| MeetingController.EntryMeaning | backend/src/controllers/MeetingController.ts:28-33 | `before=v` keeps time < v, `after=v` time > v, `creator=v` creator == v, name/location/type a case-insensitive match; other keys keep everything |
| MeetingController.InsertByTime | backend/src/controllers/MeetingController.ts:44 | insertion adds exactly one element and keeps the others |
| MeetingController.InsertByTimeSorted | backend/src/controllers/MeetingController.ts:44 | insertion keeps the list sorted by time |
| MeetingController.InsertByTimeNoDups | backend/src/controllers/MeetingController.ts:44 | inserting an unlisted meeting keeps every meeting listed once |
| MeetingController.MeetingCollection.constructor | backend/src/models/MeetingModel.ts:44 | the collection starts empty, each document under its own id |
| MeetingController.MeetingCollection.GetAllMeetings | backend/src/controllers/MeetingController.ts:23-52 | a thrown handler call iff some key is `__defineGetter__` or `__defineSetter__`; otherwise a cast error iff some time bound is NaN or outside the range of a `Date`; otherwise exactly the stored meetings the query selects, each once, sorted ascending by time |
| MeetingController.GetMeeting | backend/src/controllers/MeetingController.ts:58-65 | the stored meeting iff the id is stored, else a 404 naming the id |
| MeetingController.GetMeetingAttendance | backend/src/controllers/MeetingController.ts:72-84 | as written: the generic error iff the id is absent; a 404 iff the meeting has no attendance; otherwise the meeting |
| MeetingController.AttendanceOfUnknownMeetingThrows | backend/src/controllers/MeetingController.ts:74-76 | an unknown id reaches the dereference and gives the generic error, not a 404 |
| MeetingController.GetMeetingAttendanceChecked | backend/src/controllers/MeetingController.ts:72-84 | corrected: never the generic error; the meeting 404 iff the id is absent, the attendance 404 iff the attendance is empty, otherwise the meeting |
| MeetingController.EntriesOf | backend/src/controllers/MeetingController.ts:161 | keeps exactly the entries of the user |
| MeetingController.FirstFeedback | backend/src/controllers/MeetingController.ts:161-166 | nothing iff no entry is the user's |
| MeetingController.FirstFeedbackIsFirstEntry | backend/src/controllers/MeetingController.ts:161-166 | the feedback is the user's first entry with `user` and `didAttend` removed |
| MeetingController.GetMeetingFeedbackForUser | backend/src/controllers/MeetingController.ts:152-170 | a 404 iff the meeting is absent; otherwise 200 with the user's first stripped entry, or nothing iff the user has no entry |
| MeetingController.Created | backend/src/controllers/MeetingController.ts:177-180 | the stored meeting has the new id, the requester as creator, the name trimmed and every other path from the body |
| MeetingController.CreatedPassesValidators | backend/src/models/MeetingModel.ts:16-25 | the created meeting passes the name and creator validators exactly when the trimmed name is not blank and the requester is given |
| MeetingController.CreatorOverridden | backend/src/controllers/MeetingController.ts:177-180 | a creator given in the body never reaches the stored meeting |
| MeetingController.MeetingCollection.AddMeeting | backend/src/controllers/MeetingController.ts:176-183 | a blank trimmed name or an empty requester fails validation: the generic error, nothing stored; otherwise the body is stored under the new id with its name trimmed, nothing else changes, reading it back gives the answer, and every stored meeting still passes the validators |
| MeetingController.Patched | backend/src/controllers/MeetingController.ts:191-194 | a patch never changes the id, and a name it carries is stored trimmed |
| MeetingController.PatchKeepsValidators | backend/src/controllers/MeetingController.ts:191-194 | a patch the update validators accept keeps a valid meeting valid |
| MeetingController.PatchLocationOnly | backend/src/controllers/MeetingController.ts:191-194 | a patch carrying only a location changes only the location |
| MeetingController.PatchIdempotent | backend/src/controllers/MeetingController.ts:191-194 | applying a patch twice is applying it once |
| MeetingController.MeetingCollection.UpdateMeeting | backend/src/controllers/MeetingController.ts:189-202 | a patch with a blank trimmed name or an empty creator fails validation: the generic error, store unchanged; otherwise a 404 iff the id is absent, store unchanged, and else the patched meeting is stored and returned, others unchanged; every stored meeting still passes the validators |
| MeetingController.MeetingCollection.DeleteMeeting | backend/src/controllers/MeetingController.ts:208-214 | 204 iff the id was stored, else 404; the meeting is gone afterwards and nothing else changes |
| RoleController.ListRoles | backend/src/controllers/RoleController.ts:20 | lists exactly the stored roles named in the order |
| RoleController.ListRolesAllStored | backend/src/controllers/RoleController.ts:20 | when every id in the order is stored, every role is listed, in order |
| RoleController.RoleDatabase.GetAllRoles | backend/src/controllers/RoleController.ts:19-26 | `results` equals the number of roles returned and of roles stored; every stored role appears |
| RoleController.GetRole | backend/src/controllers/RoleController.ts:32-44 | a 404 iff the id is absent; otherwise the role and the number of users holding it |
| RoleController.RoleDatabase.constructor | backend/src/controllers/RoleController.ts:19-20 | no roles yet, the given users |
| RoleController.RoleDatabase.AddRole | backend/src/controllers/RoleController.ts:50-54 | exactly one role, built from the body, is added and returned as created; users unchanged |
| RoleController.Patched | backend/src/controllers/RoleController.ts:63 | a patch never changes the id, and an empty patch changes nothing |
| RoleController.RoleDatabase.UpdateRole | backend/src/controllers/RoleController.ts:60-75 | an existing role whose name is not Default/Admin is patched and returned, others unchanged; an absent or protected role gives the same 404 and nothing changes |
| RoleController.PullRoleMeaning | backend/src/controllers/RoleController.ts:84 | `$pull` removes every occurrence of the id, keeps other role ids as often as before, and changes no other field |
| RoleController.PullRoleFromNonHolder | backend/src/controllers/RoleController.ts:84 | pulling from a user who does not hold the role changes nothing |
| RoleController.PullFromAllMeaning | backend/src/controllers/RoleController.ts:84 | after the cascade every user is kept, none holds the id, and non-holders are unchanged |
| RoleController.NoHoldersAfterPull | backend/src/controllers/RoleController.ts:84 | after the cascade nobody holds the role |
| RoleController.PullFromAllIdempotent | backend/src/controllers/RoleController.ts:84 | pulling twice is pulling once |
| RoleController.PullEach | backend/src/controllers/RoleController.ts:83-88 | the users one by one: the result is the cascade, and the count is the number of users who held the id beforehand |
| RoleController.RoleDatabase.PullFromUsers | backend/src/controllers/RoleController.ts:83-88 | the users become the cascade and the count is the number of former holders; roles unchanged |
| RoleController.RoleDatabase.DeleteRole | backend/src/controllers/RoleController.ts:81-97 | the cascade runs first, whether or not the role exists, with no Default/Admin guard; then the role is deleted; 200 with the holder count iff it existed, else 404 |
| RoleController.DeleteLeavesNoTrace | backend/src/controllers/RoleController.ts:33-43 | after a delete the role reads as 404, and a role re-added under the id has no holders |
| MeetingRoutes.First | backend/src/routes/MeetingRoutes.ts:24-48 | the chosen registration accepts the request; nothing is chosen iff none accepts it |
| MeetingRoutes.Dispatch | backend/src/routes/MeetingRoutes.ts:24-48 | the route served is in the table and accepts the request |
| MeetingRoutes.FirstIsEarliest | backend/src/routes/MeetingRoutes.ts:24-48 | the registration chosen is the earliest that accepts |
| MeetingRoutes.TableFollowsGuardRule | backend/src/routes/MeetingRoutes.ts:24-48 | every registration follows the guard rule |
| MeetingRoutes.GuardRule | backend/src/routes/MeetingRoutes.ts:24-48 | `GET /` needs only authentication, every other GET needs VIEW_MEETINGS, every POST/PATCH/DELETE needs MANAGE_MEETINGS |
| MeetingRoutes.GetRootIsListing | backend/src/routes/MeetingRoutes.ts:24 | `GET /` runs the listing, with no named permission |
| MeetingRoutes.AttendancesRoute | backend/src/routes/MeetingRoutes.ts:32-33 | `GET /:meetingId/attendances` runs the attendance read |
| MeetingRoutes.AttendanceAlias | backend/src/routes/MeetingRoutes.ts:46-47 | `GET /attendance/:meetingId` reaches the same handler under the same guard, for ids other than `feedback` and `attendances` |
| MeetingRoutes.AttendanceAliasShadowed | backend/src/routes/MeetingRoutes.ts:39-40 | `GET /attendance/feedback` is taken by the earlier feedback route |
| MeetingRoutes.EarlierPatternsShorter | backend/src/routes/MeetingRoutes.ts:24-41 | only the per-user feedback registrations take five segments |
| MeetingRoutes.PostUserFeedbackRoute | backend/src/routes/MeetingRoutes.ts:42-43 | POST on `/meetings/:meetingId/feedback/users/:userId` adds feedback and needs MANAGE_MEETINGS |
| MeetingRoutes.GetUserFeedbackRoute | backend/src/routes/MeetingRoutes.ts:42-44 | GET on the same path reads the user's feedback and needs VIEW_MEETINGS |
| PermissionsList.AllPermissionsComplete | frontend/src/pages/roles/components/PermissionsList.tsx:6-12 | the flattened sections hold all six permissions, each once |
| PermissionsList.SectionsPartition | frontend/src/pages/roles/components/PermissionsList.tsx:6-10 | every permission belongs to one section only |
| PermissionsList.AllCheckedMeaning | frontend/src/pages/roles/components/PermissionsList.tsx:23 | "select all" shows checked iff every permission is in the list |
| PermissionsList.ToggleSection | frontend/src/pages/roles/components/PermissionsList.tsx:26-32 | on: the union of section and list with no duplicates; off: exactly the list's permissions outside the section, each as often as before |
| PermissionsList.ToggleSectionSwitchState | frontend/src/pages/roles/components/PermissionsList.tsx:62-64 | after turning a section on its switch is checked, after turning it off unchecked |
| PermissionsList.ToggleSectionOffKeepsOrder | frontend/src/pages/roles/components/PermissionsList.tsx:30 | turning a section off works piece by piece, so the rest keep their order |
| PermissionsList.ToggleSectionOnPutsSectionFirst | frontend/src/pages/roles/components/PermissionsList.tsx:28 | turning a section on puts its permissions first, in section order |
| PermissionsList.SelectAll | frontend/src/pages/roles/components/PermissionsList.tsx:41-45 | checked: every permission, each once; unchecked: none |
| PermissionsList.TogglePermission | frontend/src/pages/roles/components/PermissionsList.tsx:84-91 | on: appended at the end; off: every occurrence removed; other permissions keep their counts |
| PermissionsList.TogglePermissionOffKeepsOrder | frontend/src/pages/roles/components/PermissionsList.tsx:88-90 | turning a permission off works piece by piece over the list, so the other permissions keep their order |
| PermissionsList.OnChange | frontend/src/pages/roles/components/PermissionsList.tsx:44 | without MANAGE_ROLES every switch is disabled and the list is unchanged |
| PermissionsList.ManagerChanges | frontend/src/pages/roles/components/PermissionsList.tsx:41-93 | with MANAGE_ROLES the switch flipped shows the state it was flipped to |
| RolesPage.KeyedByMeaning | frontend/src/pages/roles/Roles.tsx:37-38 | the record has every item's key, each entry under its own key, and the last item with a given key |
| RolesPage.Index | frontend/src/pages/roles/Roles.tsx:37-38 | the `forEach` loop builds that record |
| RolesPage.FetchRoles | frontend/src/pages/roles/Roles.tsx:34-41 | the roles record is keyed by role id |
| RolesPage.FetchUsers | frontend/src/pages/roles/Roles.tsx:43-50 | the users record is keyed by user id |
| RolesPage.FetchedRolesWellKeyed | frontend/src/pages/roles/Roles.tsx:37-38 | every fetched role sits under its own id |
| RolesPage.AddRoleRequest | frontend/src/pages/roles/Roles.tsx:63-67 | a new role is requested with the given name, colour `#262b6c` and no permissions |
| RolesPage.AfterAddRole | frontend/src/pages/roles/Roles.tsx:68-70 | on success the role is added under its returned id, other entries unchanged; on failure nothing changes |
| RolesPage.SetPermissionsChangesOnlyActive | frontend/src/pages/roles/Roles.tsx:73-76 | only the active role's permissions change; other roles and its other fields are kept |
| RolesPage.SaveRoleRequest | frontend/src/pages/roles/Roles.tsx:78-86 | the PATCH names the active role's id and carries its current permissions |
| RolesPage.SaveSendsEditedPermissions | frontend/src/pages/roles/Roles.tsx:73-86 | saving after editing sends exactly the edited permissions for the active role |
| RolesPage.RemoveRoleRequest | frontend/src/pages/roles/Roles.tsx:239-246 | no request iff the role is named Admin or Default; otherwise the user and that one role id |
| RolesPage.AfterRemoveRole | frontend/src/pages/roles/Roles.tsx:239-252 | only the user's own entry is replaced, and only on success |
| RolesPage.AvatarColor | frontend/src/pages/roles/Roles.tsx:254-259 | the avatar colour is always one of the list |
| RolesPage.AvatarColorCycle | frontend/src/pages/roles/Roles.tsx:254-259 | the list has 21 colours, and names whose lengths differ by 21 share a colour |
| RolesPage.TabManager.constructor | frontend/src/pages/roles/Roles.tsx:196 | the first tab is active |
| RolesPage.TabManager.Click | frontend/src/pages/roles/Roles.tsx:205-207 | clicking tab i makes it active |
| RolesPage.TabManager.Shown | frontend/src/pages/roles/Roles.tsx:223 | the loader receives the active tab's content |
| NewMeeting.DefaultValues | frontend/src/pages/home/components/NewMeeting.tsx:13-19 | empty texts; the start is the rounded load time and the finish one hour later |
| NewMeeting.WithInput | frontend/src/pages/home/components/NewMeeting.tsx:30-36 | the named input gets the value; every other field is unchanged |
| NewMeeting.RequestOf | frontend/src/pages/home/components/NewMeeting.tsx:71-86 | name = title, the form's times, location and description, type "meeting", empty attendance and invitations |
| NewMeeting.CheckSubmit | frontend/src/pages/home/components/NewMeeting.tsx:61-86 | accepted iff now <= start <= finish; a past start is reported first; an accepted form yields its request |
| NewMeeting.SentRequestWellTimed | frontend/src/pages/home/components/NewMeeting.tsx:61-69 | a request that is sent never starts in the past or after its finish |
| NewMeeting.TextInputKeepsVerdict | frontend/src/pages/home/components/NewMeeting.tsx:30-36 | typing in a text input never changes whether the form passes |
| NewMeeting.DefaultsGoStale | frontend/src/pages/home/components/NewMeeting.tsx:13-19 | the defaults pass while their start is ahead, and fail as a past start once the clock passes it |
| NewMeeting.NewMeetingDialog.constructor | frontend/src/pages/home/components/NewMeeting.tsx:27-28 | the form starts at the defaults, not loading |
| NewMeeting.NewMeetingDialog.InputChange | frontend/src/pages/home/components/NewMeeting.tsx:30-36 | only the named text field changes |
| NewMeeting.NewMeetingDialog.StartChange | frontend/src/pages/home/components/NewMeeting.tsx:37-42 | only the start time changes |
| NewMeeting.NewMeetingDialog.FinishChange | frontend/src/pages/home/components/NewMeeting.tsx:43-48 | only the finish time changes |
| NewMeeting.NewMeetingDialog.Exit | frontend/src/pages/home/components/NewMeeting.tsx:51-54 | the dialog closes and the form is reset |
| NewMeeting.NewMeetingDialog.Submit | frontend/src/pages/home/components/NewMeeting.tsx:58-91 | a rejected form shows its alert and changes nothing else; an accepted one starts loading and yields its request |
| NewMeeting.NewMeetingDialog.Reply | frontend/src/pages/home/components/NewMeeting.tsx:92-98 | loading stops; on success the form is reset and the dialog closed, otherwise both are kept |
| AfterMeeting.SubmitMeaning | frontend/src/pages/active_meeting/AfterMeeting.tsx:23-29 | a non-empty comment opens the confirmation; an empty one shows the warning instead |
| AfterMeeting.WarningStays | frontend/src/pages/active_meeting/AfterMeeting.tsx:14-29 | once the warning shows, no sequence of events hides it |
| AfterMeeting.HomeNeedsComment | frontend/src/pages/active_meeting/AfterMeeting.tsx:23-29 | reaching home means some submitted comment was not empty |
| AfterMeeting.AfterMeetingPage.constructor | frontend/src/pages/active_meeting/AfterMeeting.tsx:7-15 | rating 3, no warning, confirmation closed |
| AfterMeeting.AfterMeetingPage.SetRating | frontend/src/pages/active_meeting/AfterMeeting.tsx:39 | the page takes a step on the rating event |
| AfterMeeting.AfterMeetingPage.InputRequired | frontend/src/pages/active_meeting/AfterMeeting.tsx:23-29 | the page takes a step on the submit event |
| AfterMeeting.AfterMeetingPage.Cancel | frontend/src/pages/active_meeting/AfterMeeting.tsx:54 | Cancel only closes the confirmation |
| AfterMeeting.AfterMeetingPage.Confirm | frontend/src/pages/active_meeting/AfterMeeting.tsx:55-59 | Confirm goes home |
| Button.SizeOf | frontend/src/utility_components/Button.tsx:10 | the size is medium unless given |
| Button.ColorOf | frontend/src/utility_components/Button.tsx:10 | the colour is blue unless given |
| Button.SizeClassesDistinct | frontend/src/utility_components/Button.tsx:16-18 | the three size classes differ from each other and from the base classes |
| Button.ClassesMeaning | frontend/src/utility_components/Button.tsx:13-23 | exactly the given size's class is present; a `bg-*-500` class is present iff the colour is named, and only that colour's |
| Button.BackgroundColor | frontend/src/utility_components/Button.tsx:26 | no inline background iff the colour is named; otherwise the colour itself |
| Button.OneBackground | frontend/src/utility_components/Button.tsx:19-26 | the background comes from a class or inline, never both and never neither |
| Button.TextColor | frontend/src/utility_components/Button.tsx:27-33 | the text is white or black: white iff the darkness test holds for the string it is given |

## Left out

- Paging: the listing returns every selected meeting; the paging helper is not part of this model.
- `asPopulated` on meetings: the meeting handlers answer with `meeting.asPopulated()` (MeetingController.ts lines 49, 64, 82, 182 and 200), which the meeting schema does not define. The model assumes it returns the meeting as stored. The user document's `asPopulated` is modelled in `UserModel`.
- Regular expressions: the name/location/type filters are modelled as a case-insensitive (ASCII) substring test, so metacharacters in the value are taken literally. Unicode case folding is left out.
- Invalid patterns: a value that is not a valid regular expression (`name=(`) makes `new RegExp` throw, and the source answers with the generic error. The model lists the meetings whose field contains the value literally instead.
- `Number.parseInt` is modelled for decimal input only (white space, sign, digits). `0x` prefixes and other radix rules are left out.
- A time bound that is NaN, or outside ±8640000000000000 ms, is modelled as a query that fails (a cast error), as `new Date` of such a number is an invalid date. Digit strings above 2^53 lose precision in `parseInt`; all of them lie outside that range, so the model's exact value gives the same verdict. `strictQuery` and validators on queries are left out.
- The two query keys `__defineGetter__` and `__defineSetter__` reach inherited members of the `filterHandlers` object, which throw when called with one string; the model answers them as a thrown handler call. The other inherited names (`constructor`, `toString`, `hasOwnProperty`, …) are called without effect and are modelled as keys without a handler.
- AttendanceModel.Validate: a rating is a whole number in the model, while the schema path is a `Number`, so a rating such as 2.5 is valid in the source and 0.5 fails the lower bound; the bounds 1..5 are modelled on integers only.
- The id cast: ids are plain strings in the model. In the source, an id that is not a valid ObjectId (24 hexadecimal digits) makes Mongoose throw a CastError, which is answered with the generic error, not a 404. This holds in getMeeting, updateMeeting, deleteMeeting, the attendance and feedback reads, getRole and deleteRole. The model answers such an id like any other unknown id.
- Repeated query keys: Express's query parser turns a repeated key into one entry whose value is an array, and `new RegExp`, `parseInt` and `equals` then receive that array. The model instead takes the query as a list of key/value entries, adds one condition per entry (all of them must hold), and reads `passed` from the first entry with that key.
- Ties in the time sort: a meeting is inserted before the first one that is not earlier. The database's order among equal times is not modelled.
- MeetingController.MeetingCollection.GetAllMeetings: the clock is a parameter `now`, and the sort is done by insertion as the meetings are visited.
- The attendance handlers the router names but the controller does not export (end meeting, attendance for a user, modify attendances, feedback list, delete attendance list): only their place in the routing table is modelled.
- `modifyMeetingAttendance`, `addMeetingFeedback` and `updateMeetingFeedback` behave like `updateMeeting` (find, update, 404). They are not modelled separately.
- Express path matching: only exact segment matching is modelled. Case-insensitive and trailing-slash matching are not.
- The `protect` middleware itself: only the permission each registration names is modelled.
- The role schema is not part of this model. A role is a record of id, name, colour and permissions.
- RoleController.RoleDatabase.GetAllRoles: `find` order is modelled as insertion order.
- Mongoose's `updateMany`, `$pull`, `$nin` and `findOneAndUpdate` in the role handlers: only their effect on the maps is modelled.
- MeetingController.MeetingCollection.AddMeeting: only the name and creator validators are modelled (the name trimmed and required, the creator required). The schema also requires `time`, `where` and `attendance`. Those are not checked, because the controller's document has no `where` path and holds a list of entries (see the two shapes below). A failed validation is the generic error.
- MeetingController.MeetingCollection.UpdateMeeting: the update validators are modelled for the name and creator paths only. A patch they refuse is refused before the id is looked up, so a refused patch of an unknown id is the generic error, not a 404.
- MeetingController.EntriesOf: the filter compares `dto.user.id` (MeetingController.ts line 161). An entry's `user` is a plain string id (AttendanceModel.ts lines 6-9), and the meeting is not populated, so as written `.id` is undefined and no entry matches. The model reads the comparison as "the entry's user id equals the requested user id", which the route and the handler's name evidently intend.
- Two meeting shapes: MeetingModel.ts embeds `AttendanceSchema`, which AttendanceModel.ts exports as `attendanceSchema`. The model reads the two names as the same schema. The controller's documents (`MeetingDocument`: `location`, `type`, a list of attendance entries) and the schema's meeting (`MeetingModel.Meeting`: `where`, one embedded entry) are kept as two shapes, as the two files have them.
- Deleting a role is not atomic; interleavings with other requests are not modelled.
- RolesPage.AvatarColor: a name's length is counted in characters, not UTF-16 code units.
- RolesPage.TabManager.Shown: when there are no tabs the loader receives `undefined`, modelled as `None`.
- The fetch calls, `Promise.all`, loading flags on the roles page, and every JSX rendering.
- NewMeeting.DefaultValues: `roundToHour` and `addOneHour` are not part of this model. The rounded load time is a parameter, and one hour is 3,600,000 ms.
- NewMeeting.NewMeetingDialog.Reply: the meeting returned is handed to the meeting context; that context is not part of this model. Only whether a reply arrived is modelled.
- `console.log` in the dialog and on the after-meeting page, and the reading of the comment from the DOM: the comment is a parameter.
- AfterMeeting.AfterMeetingPage.Confirm: navigation is modelled as a flag (`atHome`).
- The range of ratings: the rating component is not part of this model.
- Button.TextColor: the colour library's darkness test is a parameter. For a named colour the library is handed the class name (`bg-blue-500`), not a colour, and how it parses that is not modelled.
- Button.ClassesMeaning: `classNames` output is modelled as the list of class groups it joins with spaces.
- The user, event and app-routing files are not part of this model.

## Findings

| source | as written | input that shows it | evidently intended | confidence | as-written member | corrected member |
|---|---|---|---|---|---|---|
| backend/src/controllers/MeetingController.ts:74-78 | the meeting found by id is read (`meeting.attendance`) without checking that it exists | GET `/api/meetings/64b7f0c2a1b2c3d4e5f60718/attendances` when no meeting has that id: `findById` yields null, reading `attendance` throws, and the generic error answer is sent | a 404 "There is no meeting with the id 64b7f0c2a1b2c3d4e5f60718", as getMeeting (MeetingController.ts lines 59-62) and getMeetingFeedbackForUser (lines 156-159) answer an unknown id | high (not executed) | MeetingController.GetMeetingAttendance, MeetingController.AttendanceOfUnknownMeetingThrows | MeetingController.GetMeetingAttendanceChecked |
