/**
 * The user document: its id is the caller-supplied Google id, the name is required
 * and trimmed, the profile URL optional, and the roles a list of role ids
 * (empty by default) that can be populated into the role records.
 */
module UserModel {
  import opened Wrappers
  import opened Schema
  import opened Text
  import opened Shared

  datatype User = User(id: string, name: string, profileUrl: Option<string>, roles: seq<string>)

  datatype UserInput = UserInput(
    id: Option<string>,
    name: Option<string>,
    profileUrl: Option<string>,
    roles: Option<seq<string>>)

  /** A user whose role ids have been replaced by the role records they name. */
  datatype PopulatedUser = PopulatedUser(id: string, name: string, profileUrl: Option<string>, roles: seq<Role>)

  const IdMessage := "document must have an _id before saving"
  const NameMessage := "You must specify the user's name"

  function StoredName(input: UserInput): Option<string> {
    if input.name.Some? then Some(Trim(input.name.value)) else None
  }

  function Errors(input: UserInput): seq<FieldError> {
    (if input.id.Some? then [] else [Required("_id", IdMessage)])
    + (if Present(StoredName(input)) then [] else [Required("name", NameMessage)])
  }

  /** Creating a user: the id is taken as given (no id is generated), the name is
      required and stored trimmed, and roles default to the empty list. */
  function Validate(input: UserInput): (r: Result<User, seq<FieldError>>)
    ensures r.Success? <==> input.id.Some? && input.name.Some? && Trim(input.name.value) != ""
    ensures r.Success? ==>
      && r.value.id == input.id.value
      && r.value.name == Trim(input.name.value)
      && r.value.profileUrl == input.profileUrl
      && r.value.roles == (if input.roles.Some? then input.roles.value else [])
    ensures r.Failure? ==> (Required("_id", IdMessage) in r.error <==> input.id.None?)
  {
    var errors := Errors(input);
    if errors == [] then
      Success(User(input.id.value, Trim(input.name.value), input.profileUrl,
                   if input.roles.Some? then input.roles.value else []))
    else Failure(errors)
  }

  /** The roles a list of ids refers to, in list order, duplicates kept and ids
      with no role dropped, as populating an array of references does. */
  function PopulateRoles(ids: seq<string>, store: map<string, Role>): (r: seq<Role>)
    ensures |r| <= |ids|
    ensures forall role :: role in r <==> exists i :: 0 <= i < |ids| && ids[i] in store && store[ids[i]] == role
  {
    if ids == [] then []
    else
      var rest := PopulateRoles(ids[1..], store);
      assert forall i :: 0 < i < |ids| ==> ids[i] == ids[1..][i - 1];
      assert forall i :: 0 <= i < |ids| - 1 ==> ids[1..][i] == ids[i + 1];
      (if ids[0] in store then [store[ids[0]]] else []) + rest
  }

  /** Populating a list is populating its parts in turn: the order of the ids is kept, and
      so is every repeated id. */
  lemma {:induction false} PopulateRolesAppend(a: seq<string>, b: seq<string>, store: map<string, Role>)
    ensures PopulateRoles(a + b, store) == PopulateRoles(a, store) + PopulateRoles(b, store)
    decreases |a|
  {
    if a == [] {
      assert a + b == b;
    } else {
      assert (a + b)[1..] == a[1..] + b;
      PopulateRolesAppend(a[1..], b, store);
    }
  }

  /** A single id gives its role, or nothing when no role has it. */
  lemma PopulateRolesSingle(id: string, store: map<string, Role>)
    ensures PopulateRoles([id], store) == if id in store then [store[id]] else []
  {
  }

  /** When every id names a role, populating is an element-wise lookup. */
  lemma {:induction false} PopulateAllPresent(ids: seq<string>, store: map<string, Role>)
    requires forall i :: 0 <= i < |ids| ==> ids[i] in store
    ensures |PopulateRoles(ids, store)| == |ids|
    ensures forall i :: 0 <= i < |ids| ==> PopulateRoles(ids, store)[i] == store[ids[i]]
  {
    if ids != [] {
      PopulateAllPresent(ids[1..], store);
    }
  }

  function Populated(u: User, store: map<string, Role>): PopulatedUser {
    PopulatedUser(u.id, u.name, u.profileUrl, PopulateRoles(u.roles, store))
  }

  /** `findByIdWithRoles(id)`: `findById(id)` followed by populating the roles. */
  function FindByIdWithRoles(users: map<string, User>, store: map<string, Role>, id: string): (r: Option<PopulatedUser>)
    ensures r.Some? <==> id in users
    ensures r.Some? ==>
      && r.value.id == users[id].id
      && r.value.name == users[id].name
      && r.value.profileUrl == users[id].profileUrl
      && r.value.roles == PopulateRoles(users[id].roles, store)
  {
    if id in users then Some(Populated(users[id], store)) else None
  }

  /** A loaded user document, whose roles path is populated at most once. */
  class UserDocument {
    var user: User
    var populatedRoles: Option<seq<Role>>

    constructor (user: User)
      ensures this.user == user && populatedRoles == None
    {
      this.user := user;
      populatedRoles := None;
    }

    /** `asPopulated`: populate the roles unless they already are, then return the
        document. On an already populated document it changes nothing. */
    method AsPopulated(store: map<string, Role>) returns (view: PopulatedUser)
      modifies this
      ensures old(populatedRoles).Some? ==> unchanged(this)
      ensures old(populatedRoles).None? ==>
        user == old(user) && populatedRoles == Some(PopulateRoles(user.roles, store))
      ensures populatedRoles.Some?
      ensures view == PopulatedUser(user.id, user.name, user.profileUrl, populatedRoles.value)
    {
      if populatedRoles.None? {
        populatedRoles := Some(PopulateRoles(user.roles, store));
      }
      view := PopulatedUser(user.id, user.name, user.profileUrl, populatedRoles.value);
    }
  }
}
