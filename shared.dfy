/**
 * Entities shared by the backend and the frontend: the closed permission
 * enumeration and the role record (a named, coloured list of permissions).
 */
module Shared {

  /** The six capabilities a role can grant. */
  datatype Permission =
    | ViewRoles | ManageRoles
    | ViewUsers | ManageUsers
    | ViewMeetings | ManageMeetings
  {
    /** The name the API and the database use. */
    function Name(): string {
      match this
      case ViewRoles => "VIEW_ROLES"
      case ManageRoles => "MANAGE_ROLES"
      case ViewUsers => "VIEW_USERS"
      case ManageUsers => "MANAGE_USERS"
      case ViewMeetings => "VIEW_MEETINGS"
      case ManageMeetings => "MANAGE_MEETINGS"
    }
  }

  /** Distinct permissions have distinct names. */
  lemma NamesAreDistinct(p: Permission, q: Permission)
    ensures p.Name() == q.Name() ==> p == q
  {
  }

  /** A role as stored and as sent to the frontend. */
  datatype Role = Role(id: string, name: string, color: string, permissions: seq<Permission>)
}
