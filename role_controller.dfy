/**
 * The role handlers over an in-memory database of roles and users.
 * Updating skips the protected roles `Default` and `Admin`; deleting first pulls
 * the role id out of every user's role list, counting the users it changed, and
 * only then removes the role, answering 404 if there was none.
 */
module RoleController {
  import opened Wrappers
  import opened Seqs
  import opened Shared
  import opened UserModel

  /** What a handler answers: 200 with a body, 201 with a body, or 404 with its message. */
  datatype Response<T> = Ok(value: T) | Created(value: T) | NotFound(message: string)

  datatype AllRoles = AllRoles(results: nat, roles: seq<Role>)
  datatype RoleWithCount = RoleWithCount(userCount: nat, role: Role)

  /** The body of POST /api/roles. */
  datatype RoleBody = RoleBody(name: string, color: string, permissions: seq<Permission>)

  /** The body of PATCH /api/roles/:roleId: the fields it carries replace the stored ones. */
  datatype RolePatch = RolePatch(name: Option<string>, color: Option<string>, permissions: Option<seq<Permission>>)

  /** Roles no update may touch. */
  const ProtectedNames: seq<string> := ["Default", "Admin"]

  function NoRoleMessage(id: string): string {
    "There is no role with the id " + id
  }

  function NoValidRoleMessage(id: string): string {
    "There is no valid role with the id " + id
  }

  /** The users whose role list contains `roleId` (`{ roles: roleId }`). */
  function Holders(users: map<string, User>, roleId: string): set<string> {
    set k | k in users && roleId in users[k].roles
  }

  /** The stored roles in the collection's natural order. */
  function ListRoles(order: seq<string>, roles: map<string, Role>): (r: seq<Role>)
    ensures |r| <= |order|
    ensures forall role :: role in r <==> exists i :: 0 <= i < |order| && order[i] in roles && roles[order[i]] == role
  {
    if order == [] then []
    else
      var rest := ListRoles(order[1..], roles);
      assert forall i :: 0 <= i < |order| - 1 ==> order[1..][i] == order[i + 1];
      (if order[0] in roles then [roles[order[0]]] else []) + rest
  }

  /** When every id in the order is stored, each is listed, in order. */
  lemma {:induction false} ListRolesAllStored(order: seq<string>, roles: map<string, Role>)
    requires forall i :: 0 <= i < |order| ==> order[i] in roles
    ensures |ListRoles(order, roles)| == |order|
    ensures forall i :: 0 <= i < |order| ==> ListRoles(order, roles)[i] == roles[order[i]]
  {
    if order != [] {
      ListRolesAllStored(order[1..], roles);
    }
  }

  /** GET /api/roles/:roleId: the role and how many users hold it, or a 404. */
  function GetRole(roles: map<string, Role>, users: map<string, User>, id: string): (r: Response<RoleWithCount>)
    ensures r.NotFound? <==> id !in roles
    ensures r.NotFound? ==> r.message == NoRoleMessage(id)
    ensures r.Ok? ==> r.value.role == roles[id] && r.value.userCount == |Holders(users, id)|
    ensures !r.Created?
  {
    if id !in roles then NotFound(NoRoleMessage(id))
    else Ok(RoleWithCount(|Holders(users, id)|, roles[id]))
  }

  /** `$pull: { roles: roleId }` on one user. */
  function PullRole(u: User, roleId: string): User {
    u.(roles := Without(u.roles, [roleId]))
  }

  /** Pulling removes every occurrence of the role and keeps every other role as often as
      it was there; the user's other fields are untouched. */
  lemma PullRoleMeaning(u: User, roleId: string, x: string)
    ensures PullRole(u, roleId).(roles := u.roles) == u
    ensures roleId !in PullRole(u, roleId).roles
    ensures x != roleId ==> Count(PullRole(u, roleId).roles, x) == Count(u.roles, x)
  {
    WithoutCount(u.roles, [roleId], x);
  }

  /** Pulling a role from a user who does not hold it changes nothing. */
  lemma PullRoleFromNonHolder(u: User, roleId: string)
    requires roleId !in u.roles
    ensures PullRole(u, roleId) == u
  {
    WithoutNothingToRemove(u.roles, [roleId]);
  }

  /** The user collection after the cascade of `deleteRole`. */
  function PullFromAll(users: map<string, User>, roleId: string): map<string, User> {
    map k | k in users :: PullRole(users[k], roleId)
  }

  /** The cascade keeps every user, leaves none holding the role, and leaves the users
      that did not hold it exactly as they were. */
  lemma PullFromAllMeaning(users: map<string, User>, roleId: string)
    ensures PullFromAll(users, roleId).Keys == users.Keys
    ensures forall k :: k in users ==> roleId !in PullFromAll(users, roleId)[k].roles
    ensures forall k :: k in users ==> PullFromAll(users, roleId)[k].id == users[k].id
    ensures forall k :: k in users && roleId !in users[k].roles ==> PullFromAll(users, roleId)[k] == users[k]
  {
    forall k | k in users
      ensures roleId !in PullFromAll(users, roleId)[k].roles
      ensures roleId !in users[k].roles ==> PullFromAll(users, roleId)[k] == users[k]
    {
      PullRoleMeaning(users[k], roleId, roleId);
      if roleId !in users[k].roles {
        PullRoleFromNonHolder(users[k], roleId);
      }
    }
  }

  /** After the cascade nobody holds the role. */
  lemma NoHoldersAfterPull(users: map<string, User>, roleId: string)
    ensures Holders(PullFromAll(users, roleId), roleId) == {}
  {
    PullFromAllMeaning(users, roleId);
  }

  /** Pulling the same role twice is pulling it once. */
  lemma PullFromAllIdempotent(users: map<string, User>, roleId: string)
    ensures PullFromAll(PullFromAll(users, roleId), roleId) == PullFromAll(users, roleId)
  {
    var once := PullFromAll(users, roleId);
    PullFromAllMeaning(users, roleId);
    forall k | k in once
      ensures PullRole(once[k], roleId) == once[k]
    {
      PullRoleFromNonHolder(once[k], roleId);
    }
  }

  /** `updateMany` over the users one at a time: each holder has the role pulled and is counted. */
  method PullEach(users: map<string, User>, id: string) returns (pulled: map<string, User>, modCount: nat)
    ensures pulled == PullFromAll(users, id)
    ensures modCount == |Holders(users, id)|
  {
    pulled := users;
    modCount := 0;
    var pending := users.Keys;
    ghost var counted: set<string> := {};
    while pending != {}
      invariant pending <= users.Keys && pulled.Keys == users.Keys
      invariant forall k :: k in pulled ==>
        pulled[k] == if k in pending then users[k] else PullRole(users[k], id)
      invariant forall k :: k in counted <==> k in users && k !in pending && id in users[k].roles
      invariant modCount == |counted|
      decreases pending
    {
      var k :| k in pending;
      if id in pulled[k].roles {
        pulled := pulled[k := PullRole(pulled[k], id)];
        counted := counted + {k};
        modCount := modCount + 1;
      } else {
        PullRoleFromNonHolder(pulled[k], id);
      }
      pending := pending - {k};
    }
    assert counted == Holders(users, id);
  }

  /** The role and user collections. */
  class RoleDatabase {
    var roles: map<string, Role>
    /** The ids of the stored roles in insertion order, the order `find` yields them. */
    var order: seq<string>
    var users: map<string, User>

    ghost predicate Valid()
      reads this
    {
      && NoDups(order)
      && (forall k :: k in roles <==> k in order)
      && (forall k :: k in roles ==> roles[k].id == k)
      && (forall k :: k in users ==> users[k].id == k)
    }

    constructor (users: map<string, User>)
      requires forall k :: k in users ==> users[k].id == k
      ensures Valid() && roles == map[] && order == [] && this.users == users
    {
      roles := map[];
      order := [];
      this.users := users;
    }

    /** GET /api/roles: every stored role once, in the natural order, and their number. */
    method GetAllRoles() returns (r: AllRoles)
      requires Valid()
      ensures r.results == |r.roles| == |roles| == |order|
      ensures forall i :: 0 <= i < |order| ==> r.roles[i] == roles[order[i]]
      ensures forall role :: role in r.roles <==> role in roles.Values
    {
      ListRolesAllStored(order, roles);
      DistinctCardinality(order);
      assert roles.Keys == set k | k in order;
      var listed := ListRoles(order, roles);
      r := AllRoles(|listed|, listed);
    }

    /** POST /api/roles: exactly one role, built from the body, is added under a fresh id. */
    method AddRole(body: RoleBody, newId: string) returns (r: Response<Role>)
      requires Valid() && newId !in roles
      modifies this
      ensures Valid()
      ensures r == Created(Role(newId, body.name, body.color, body.permissions))
      ensures roles == old(roles)[newId := r.value] && order == old(order) + [newId]
      ensures users == old(users)
    {
      var role := Role(newId, body.name, body.color, body.permissions);
      roles := roles[newId := role];
      order := order + [newId];
      r := Created(role);
    }

    /** PATCH /api/roles/:roleId: a protected role is answered as if it did not exist. */
    method UpdateRole(id: string, patch: RolePatch) returns (r: Response<Role>)
      requires Valid()
      modifies this
      ensures Valid()
      ensures users == old(users) && order == old(order)
      ensures id in old(roles) && old(roles)[id].name !in ProtectedNames ==>
        r == Ok(Patched(old(roles)[id], patch)) && roles == old(roles)[id := r.value]
      ensures id !in old(roles) || old(roles)[id].name in ProtectedNames ==>
        r == NotFound(NoValidRoleMessage(id)) && roles == old(roles)
    {
      if id in roles && roles[id].name !in ProtectedNames {
        var updated := Patched(roles[id], patch);
        roles := roles[id := updated];
        r := Ok(updated);
      } else {
        r := NotFound(NoValidRoleMessage(id));
      }
    }

    /** The cascade of DELETE /api/roles/:roleId (`updateMany` with `$pull`): the id leaves
        every user's role list, and the count is of the users that held it. */
    method PullFromUsers(id: string) returns (modCount: nat)
      requires Valid()
      modifies this
      ensures Valid()
      ensures users == PullFromAll(old(users), id) && modCount == |Holders(old(users), id)|
      ensures roles == old(roles) && order == old(order)
    {
      var before := users;
      var pulled, count := PullEach(before, id);
      PullFromAllMeaning(before, id);
      users := pulled;
      modCount := count;
    }

    /** DELETE /api/roles/:roleId: pull the id from every user, counting the users changed,
        then delete the role; no protected-name guard, and the pull happens even when
        there is no such role. */
    method DeleteRole(id: string) returns (r: Response<nat>)
      requires Valid()
      modifies this
      ensures Valid()
      ensures users == PullFromAll(old(users), id)
      ensures roles == old(roles) - {id} && order == Without(old(order), [id])
      ensures Holders(users, id) == {}
      ensures id in old(roles) ==> r == Ok(|Holders(old(users), id)|)
      ensures id !in old(roles) ==> r == NotFound(NoRoleMessage(id))
    {
      var modCount := PullFromUsers(id);
      NoHoldersAfterPull(old(users), id);
      if id in roles {
        WithoutNoDups(order, [id]);
        roles := roles - {id};
        order := Without(order, [id]);
        assert forall k :: k in roles <==> k in order;
        r := Ok(modCount);
      } else {
        WithoutNothingToRemove(order, [id]);
        r := NotFound(NoRoleMessage(id));
      }
    }
  }

  function Patched(role: Role, patch: RolePatch): (r: Role)
    ensures r.id == role.id
    ensures patch == RolePatch(None, None, None) ==> r == role
  {
    Role(role.id,
         if patch.name.Some? then patch.name.value else role.name,
         if patch.color.Some? then patch.color.value else role.color,
         if patch.permissions.Some? then patch.permissions.value else role.permissions)
  }

  /** After a delete, reading the role is a 404 and, should a role come back under the
      same id, no user holds it. */
  lemma DeleteLeavesNoTrace(roles: map<string, Role>, users: map<string, User>, id: string, again: Role)
    ensures GetRole(roles - {id}, PullFromAll(users, id), id) == NotFound(NoRoleMessage(id))
    ensures GetRole((roles - {id})[id := again], PullFromAll(users, id), id) == Ok(RoleWithCount(0, again))
  {
    NoHoldersAfterPull(users, id);
  }
}
