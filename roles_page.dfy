/**
 * The roles page: it keeps the fetched roles and users in records keyed by id,
 * edits the active role's permissions, saves them, removes a role from a user
 * (never Admin or Default), picks an avatar colour from a user's name, and shows
 * one tab at a time.
 */
module RolesPage {
  import opened Wrappers
  import opened Shared
  import opened UserModel

  /** The record built by `items.forEach(x => record[key(x)] = x)`: later items overwrite earlier ones. */
  function KeyedBy<T>(items: seq<T>, key: T -> string): map<string, T> {
    if items == [] then map[]
    else KeyedBy(items[..|items| - 1], key)[key(items[|items| - 1]) := items[|items| - 1]]
  }

  /** The record holds every item's key, stores each entry under its own key, and for each key
      the last item that has it. */
  lemma {:induction false} KeyedByMeaning<T>(items: seq<T>, key: T -> string)
    ensures forall k :: k in KeyedBy(items, key) <==> exists i :: 0 <= i < |items| && key(items[i]) == k
    ensures forall k :: k in KeyedBy(items, key) ==> key(KeyedBy(items, key)[k]) == k
    ensures forall i :: 0 <= i < |items| && (forall j :: i < j < |items| ==> key(items[j]) != key(items[i])) ==>
      KeyedBy(items, key)[key(items[i])] == items[i]
  {
    if items != [] {
      var init := items[..|items| - 1];
      KeyedByMeaning(init, key);
      assert forall i :: 0 <= i < |init| ==> init[i] == items[i];
    }
  }

  /** The `forEach` loop of `fetchRoles` and `fetchUsers`. */
  method Index<T>(items: seq<T>, key: T -> string) returns (record: map<string, T>)
    ensures record == KeyedBy(items, key)
  {
    record := map[];
    for i := 0 to |items|
      invariant record == KeyedBy(items[..i], key)
    {
      assert items[..i + 1][..i] == items[..i];
      record := record[key(items[i]) := items[i]];
    }
    assert items[..|items|] == items;
  }

  method FetchRoles(fetched: seq<Role>) returns (roles: map<string, Role>)
    ensures roles == KeyedBy(fetched, (r: Role) => r.id)
  {
    roles := Index(fetched, (r: Role) => r.id);
  }

  method FetchUsers(fetched: seq<PopulatedUser>) returns (users: map<string, PopulatedUser>)
    ensures users == KeyedBy(fetched, (u: PopulatedUser) => u.id)
  {
    users := Index(fetched, (u: PopulatedUser) => u.id);
  }

  /** Every role is kept under its own id. */
  ghost predicate WellKeyed(roles: map<string, Role>) {
    forall k :: k in roles ==> roles[k].id == k
  }

  /** A record built from fetched roles is well keyed. */
  lemma FetchedRolesWellKeyed(fetched: seq<Role>)
    ensures WellKeyed(KeyedBy(fetched, (r: Role) => r.id))
  {
    KeyedByMeaning(fetched, (r: Role) => r.id);
  }

  /** The body `handleAddRole` posts for a new role. */
  datatype NewRoleRequest = NewRoleRequest(name: string, color: string, permissions: seq<Permission>)

  const NewRoleColor := "#262b6c"

  function AddRoleRequest(name: string): (r: NewRoleRequest)
    ensures r.name == name && r.color == NewRoleColor && r.permissions == []
  {
    NewRoleRequest(name, NewRoleColor, [])
  }

  /** The roles record once the reply to the new-role request arrives (`None`: the request failed). */
  function AfterAddRole(roles: map<string, Role>, reply: Option<Role>): (r: map<string, Role>)
    ensures reply.None? ==> r == roles
    ensures reply.Some? ==> r.Keys == roles.Keys + {reply.value.id} && r[reply.value.id] == reply.value
    ensures forall k :: k in roles && (reply.None? || k != reply.value.id) ==> r[k] == roles[k]
  {
    if reply.Some? then roles[reply.value.id := reply.value] else roles
  }

  /** `handleSetPermissions`: the active role with new permissions, stored under the role's own id. */
  function SetPermissions(roles: map<string, Role>, activeRole: string, permissions: seq<Permission>)
    : map<string, Role>
    requires activeRole in roles
  {
    var updated := roles[activeRole].(permissions := permissions);
    roles[updated.id := updated]
  }

  /** On a well-keyed record only the active role's permissions change. */
  lemma SetPermissionsChangesOnlyActive(roles: map<string, Role>, activeRole: string, permissions: seq<Permission>)
    requires activeRole in roles && WellKeyed(roles)
    ensures SetPermissions(roles, activeRole, permissions).Keys == roles.Keys
    ensures SetPermissions(roles, activeRole, permissions)[activeRole]
      == roles[activeRole].(permissions := permissions)
    ensures forall k :: k in roles && k != activeRole ==> SetPermissions(roles, activeRole, permissions)[k] == roles[k]
    ensures WellKeyed(SetPermissions(roles, activeRole, permissions))
  {
  }

  /** `handleSaveRole`: the role id and the permissions the PATCH sends. */
  datatype SaveRequest = SaveRequest(roleId: string, permissions: seq<Permission>)

  function SaveRoleRequest(roles: map<string, Role>, activeRole: string): (r: SaveRequest)
    requires activeRole in roles
    ensures r.roleId == roles[activeRole].id && r.permissions == roles[activeRole].permissions
  {
    SaveRequest(roles[activeRole].id, roles[activeRole].permissions)
  }

  /** Saving after editing sends exactly the edited permissions for the active role. */
  lemma SaveSendsEditedPermissions(roles: map<string, Role>, activeRole: string, permissions: seq<Permission>)
    requires activeRole in roles && WellKeyed(roles)
    ensures SaveRoleRequest(SetPermissions(roles, activeRole, permissions), activeRole)
      == SaveRequest(activeRole, permissions)
  {
  }

  const UnremovableRoles: seq<string> := ["Admin", "Default"]

  /** The request `removeRole` sends, if any: none for Admin or Default. */
  datatype RemoveRequest = RemoveRequest(userId: string, roleIds: seq<string>)

  function RemoveRoleRequest(role: Role, userId: string): (r: Option<RemoveRequest>)
    ensures r.None? <==> role.name in UnremovableRoles
    ensures r.Some? ==> r.value.userId == userId && r.value.roleIds == [role.id]
  {
    if role.name in UnremovableRoles then None else Some(RemoveRequest(userId, [role.id]))
  }

  /** The users record after `removeRole`: untouched for a protected role or a failed request,
      otherwise the user's entry is replaced by the reply. */
  function AfterRemoveRole(users: map<string, PopulatedUser>, role: Role, userId: string, reply: Option<PopulatedUser>)
    : (r: map<string, PopulatedUser>)
    ensures RemoveRoleRequest(role, userId).None? || reply.None? ==> r == users
    ensures forall k :: k in users && k != userId ==> k in r && r[k] == users[k]
    ensures RemoveRoleRequest(role, userId).Some? && reply.Some? ==> userId in r && r[userId] == reply.value
  {
    if RemoveRoleRequest(role, userId).None? then users
    else if reply.Some? then users[userId := reply.value]
    else users
  }

  const AvatarColors: seq<string> := [
    "bg-[#ae49b8]", "bg-[#7d259d]", "bg-[#748f9a]", "bg-[#455a64]", "bg-[#f44279]", "bg-[#c91e5c]",
    "bg-[#586bbb]", "bg-[#0087cc]", "bg-[#005898]", "bg-[#0097a3]", "bg-[#008779]", "bg-[#004d41]",
    "bg-[#629d44]", "bg-[#2f6929]", "bg-[#8d6e64]", "bg-[#60423c]", "bg-[#7e58bd]", "bg-[#5232a2]",
    "bg-[#f86c27]", "bg-[#ff5231]", "bg-[#c63921]"]

  /** The avatar colour of a user: chosen by the length of the name, always one of the list. */
  function AvatarColor(name: string): (c: string)
    ensures c in AvatarColors
  {
    AvatarColors[|name| % |AvatarColors|]
  }

  /** The list has 21 colours, so names whose lengths differ by 21 share a colour. */
  lemma AvatarColorCycle(name: string, longer: string)
    requires |longer| == |name| + 21
    ensures AvatarColor(longer) == AvatarColor(name)
    ensures |AvatarColors| == 21
  {
    var n := |AvatarColors|;
    assert n == 21;
    assert (|name| + n) % n == |name| % n;
  }

  /** A row of tabs over fixed content, one of which is shown. */
  class TabManager<T> {
    const content: seq<T>
    var activeTab: nat

    ghost predicate Valid()
      reads this
    {
      activeTab == 0 || activeTab < |content|
    }

    constructor (content: seq<T>)
      ensures Valid() && this.content == content && activeTab == 0
    {
      this.content := content;
      activeTab := 0;
    }

    /** Clicking the tab at `index`. */
    method Click(index: nat)
      requires Valid() && index < |content|
      modifies this
      ensures Valid() && activeTab == index
    {
      activeTab := index;
    }

    /** What the loader is given: the active tab's content; `None` when there are no tabs, where
        the loader receives an undefined tab. */
    function Shown(): (r: Option<T>)
      requires Valid()
      reads this
      ensures r.Some? <==> |content| > 0
      ensures r.Some? ==> r.value == content[activeTab]
    {
      if activeTab < |content| then Some(content[activeTab]) else None
    }
  }
}
