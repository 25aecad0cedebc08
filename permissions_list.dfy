/**
 * The permission editor of the roles page: the six permissions grouped in three
 * sections, the "select all" switch, one switch per section and one per permission.
 * Each switch hands a new permission list to the page; none changes the old one.
 * All switches are disabled for a viewer without MANAGE_ROLES.
 */
module PermissionsList {
  import opened Seqs
  import opened Shared

  datatype Section = RolesSection | UsersSection | MeetingsSection {
    function Members(): seq<Permission> {
      match this
      case RolesSection => [ViewRoles, ManageRoles]
      case UsersSection => [ViewUsers, ManageUsers]
      case MeetingsSection => [ViewMeetings, ManageMeetings]
    }
  }

  /** `Object.values(PermissionsLists).flat()`. */
  const AllPermissions: seq<Permission> :=
    RolesSection.Members() + UsersSection.Members() + MeetingsSection.Members()

  /** The flattened sections list each of the six permissions exactly once. */
  lemma AllPermissionsComplete(p: Permission)
    ensures p in AllPermissions
    ensures |AllPermissions| == 6 && NoDups(AllPermissions)
  {
    assert AllPermissions == [ViewRoles, ManageRoles, ViewUsers, ManageUsers, ViewMeetings, ManageMeetings];
  }

  /** Every permission belongs to exactly one section. */
  lemma SectionsPartition(p: Permission, s: Section, t: Section)
    requires p in s.Members() && p in t.Members()
    ensures s == t
  {
  }

  /** The "select all" switch shows checked. */
  predicate AllChecked(current: seq<Permission>) {
    forall p :: p in AllPermissions ==> p in current
  }

  /** Checked exactly when the list holds every permission there is. */
  lemma AllCheckedMeaning(current: seq<Permission>)
    ensures AllChecked(current) <==> forall p: Permission :: p in current
  {
    forall p: Permission
      ensures p in AllPermissions
    {
      AllPermissionsComplete(p);
    }
  }

  /** A section switch shows checked. */
  predicate SectionChecked(s: Section, current: seq<Permission>) {
    forall p :: p in s.Members() ==> p in current
  }

  /** `toggleSection(section, isChecked)`: the list handed on. */
  function ToggleSection(s: Section, isChecked: bool, current: seq<Permission>): (r: seq<Permission>)
    ensures isChecked ==> NoDups(r) && forall p :: p in r <==> p in s.Members() || p in current
    ensures !isChecked ==> forall p :: p in r <==> p in current && p !in s.Members()
    ensures !isChecked ==> forall p :: p !in s.Members() ==> Count(r, p) == Count(current, p)
  {
    if isChecked then Dedup(s.Members() + current)
    else
      var r := Without(current, s.Members());
      forall p | p !in s.Members()
        ensures Count(r, p) == Count(current, p)
      {
        WithoutCount(current, s.Members(), p);
      }
      r
  }

  /** After turning a section on its switch shows checked, and after turning it off unchecked. */
  lemma ToggleSectionSwitchState(s: Section, current: seq<Permission>)
    ensures SectionChecked(s, ToggleSection(s, true, current))
    ensures !SectionChecked(s, ToggleSection(s, false, current))
  {
    assert s.Members()[0] in s.Members();
  }

  /** Turning a section off keeps the remaining permissions in their order: it works piece by piece. */
  lemma ToggleSectionOffKeepsOrder(s: Section, a: seq<Permission>, b: seq<Permission>)
    ensures ToggleSection(s, false, a + b) == ToggleSection(s, false, a) + ToggleSection(s, false, b)
  {
    WithoutAppend(a, b, s.Members());
  }

  /** Turning a section on puts its permissions first, in section order, ahead of the rest. */
  lemma ToggleSectionOnPutsSectionFirst(s: Section, current: seq<Permission>)
    ensures |ToggleSection(s, true, current)| >= 2
    ensures ToggleSection(s, true, current)[..2] == s.Members()
  {
    DedupKeepsDistinctPrefix(s.Members(), current);
  }

  /** The "select all" switch: every permission, or none. */
  function SelectAll(isChecked: bool): (r: seq<Permission>)
    ensures isChecked ==> AllChecked(r) && NoDups(r)
    ensures !isChecked ==> forall p :: p !in r
  {
    AllPermissionsComplete(ViewRoles);
    if isChecked then AllPermissions else []
  }

  /** One permission's switch: turning it on appends it, turning it off removes every occurrence. */
  function TogglePermission(p: Permission, isChecked: bool, current: seq<Permission>): (r: seq<Permission>)
    ensures isChecked ==> |r| == |current| + 1 && r[..|current|] == current && r[|current|] == p
    ensures !isChecked ==> p !in r
    ensures forall q :: q != p ==> Count(r, q) == Count(current, q)
  {
    if isChecked then
      forall q | q != p
        ensures Count(current + [p], q) == Count(current, q)
      {
        CountAppend(current, [p], q);
      }
      current + [p]
    else
      forall q | q != p
        ensures Count(Without(current, [p]), q) == Count(current, q)
      {
        WithoutCount(current, [p], q);
      }
      Without(current, [p])
  }

  /** Turning one permission off keeps the others in their order: it works piece by piece. */
  lemma TogglePermissionOffKeepsOrder(p: Permission, a: seq<Permission>, b: seq<Permission>)
    ensures TogglePermission(p, false, a + b) == TogglePermission(p, false, a) + TogglePermission(p, false, b)
  {
    WithoutAppend(a, b, [p]);
  }

  /** A change of one of the page's switches. */
  datatype SwitchChange =
    | SelectAllChanged(isChecked: bool)
    | SectionChanged(section: Section, isChecked: bool)
    | PermissionChanged(permission: Permission, isChecked: bool)

  /** The list the page holds after a switch change by a viewer holding `viewer`:
      a viewer without MANAGE_ROLES sees disabled switches, so nothing changes. */
  function OnChange(viewer: seq<Permission>, change: SwitchChange, current: seq<Permission>): (r: seq<Permission>)
    ensures ManageRoles !in viewer ==> r == current
  {
    if ManageRoles !in viewer then current
    else
      match change
      case SelectAllChanged(c) => SelectAll(c)
      case SectionChanged(s, c) => ToggleSection(s, c, current)
      case PermissionChanged(p, c) => TogglePermission(p, c, current)
  }

  /** For a viewer with MANAGE_ROLES each switch does what its handler says. */
  lemma ManagerChanges(viewer: seq<Permission>, change: SwitchChange, current: seq<Permission>)
    requires ManageRoles in viewer
    ensures change.SelectAllChanged? ==> (AllChecked(OnChange(viewer, change, current)) <==> change.isChecked)
    ensures change.SectionChanged? ==>
      (SectionChecked(change.section, OnChange(viewer, change, current)) <==> change.isChecked)
    ensures change.PermissionChanged? ==>
      (change.permission in OnChange(viewer, change, current) <==> change.isChecked)
  {
    match change
    case SelectAllChanged(c) =>
      if !c {
        assert ViewRoles in AllPermissions;
      }
    case SectionChanged(s, c) =>
      ToggleSectionSwitchState(s, current);
    case PermissionChanged(p, c) =>
      if c {
        var r := TogglePermission(p, c, current);
        assert r[|current|] == p;
      }
  }
}
