/** The user schema: required name, email and password, a unique email, and
    a role drawn from `user` and `admin` that defaults to `user`. */
module UserModel {
  import opened Common

  datatype Role = UserRole | AdminRole

  function RoleName(r: Role): string {
    match r
    case UserRole => "user"
    case AdminRole => "admin"
  }

  /** The role path's enum check. */
  function ParseRole(text: string): (r: Option<Role>)
    ensures r.Some? ==> RoleName(r.value) == text
    ensures forall role :: RoleName(role) == text ==> r == Some(role)
  {
    if text == "user" then Some(UserRole)
    else if text == "admin" then Some(AdminRole)
    else None
  }

  /** Casting the optional `role` path: an absent role takes the default. */
  function CastRole(v: Option<string>): (r: Option<Role>)
    ensures v.None? ==> r == Some(UserRole)
    ensures v.Some? ==> r == ParseRole(v.value)
  {
    match v
    case None => Some(UserRole)
    case Some(text) => ParseRole(text)
  }

  datatype User = User(name: string, email: string, password: string, role: Role)

  /** The authenticated caller, as the `protect` middleware attaches it to
      the request from the token's payload. */
  datatype Principal = Principal(id: ObjectId, role: Role)

  /** Building and validating a user document. A `required` string path
      rejects the empty string; the role is optional and defaulted. */
  function NewUser(name: string, email: string, password: string, role: Option<string>): (r: Option<User>)
    ensures r.Some? <==> name != "" && email != "" && password != "" && CastRole(role).Some?
    ensures r.Some? ==> r.value == User(name, email, password, CastRole(role).value)
    ensures r.Some? && role.None? ==> r.value.role == UserRole
  {
    var cast := CastRole(role);
    if name == "" || email == "" || password == "" || cast.None? then None
    else Some(User(name, email, password, cast.value))
  }

  /** The schema's `unique: true` on email, over a whole collection. */
  ghost predicate EmailsUnique(users: map<ObjectId, User>) {
    forall a, b :: a in users && b in users && a != b ==> users[a].email != users[b].email
  }
}
