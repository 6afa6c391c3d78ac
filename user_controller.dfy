/** User registration: refuse an email that is already registered, store
    the new user with a hashed password and the default role, and answer
    with a signed token whose payload names the new user's id and role. */
module UserController {
  import opened Common
  import opened UserModel

  /** The fields a registration request may carry. `role` is present so the
      model can say that it is never read. */
  datatype RegisterBody = RegisterBody(name: string, email: string, password: string, role: Option<string>)

  /** The token payload `{ user: { id, role } }`. */
  datatype TokenPayload = TokenPayload(user: Principal)

  const UserExistsMessage := "User already exists"
  const ServerErrorMessage := "Server error"

  predicate EmailTaken(users: map<ObjectId, User>, email: string) {
    exists id :: id in users && users[id].email == email
  }

  class UserRegistry {
    var users: map<ObjectId, User>

    ghost predicate Valid()
      reads this
    {
      && (forall id :: id in users ==> IsCanonicalId(id) && users[id].name != "" && users[id].email != "" && users[id].password != "")
      && EmailsUnique(users)
    }

    constructor ()
      ensures Valid() && users == map[]
    {
      users := map[];
    }

    /** `User.findOne({ email })`. */
    method FindByEmail(email: string) returns (found: Option<ObjectId>)
      ensures found.Some? ==> found.value in users && users[found.value].email == email
      ensures found.None? <==> !EmailTaken(users, email)
    {
      if exists id :: id in users && users[id].email == email {
        var id :| id in users && users[id].email == email;
        found := Some(id);
      } else {
        found := None;
      }
    }

    /** registerUser. The salt, the hash and the signer are bcrypt's and
        jwt's; `freshId` is the id the new document receives. */
    method RegisterUser(body: RegisterBody, salt: string, hash: (string, string) -> string,
                        sign: TokenPayload -> string, freshId: ObjectId)
      returns (resp: Response<string>)
      requires Valid()
      requires IsCanonicalId(freshId) && freshId !in users
      modifies this
      ensures Valid()
      ensures EmailTaken(old(users), body.email) ==>
                resp == Failure(400, UserExistsMessage) && users == old(users)
      ensures !EmailTaken(old(users), body.email) && NewUser(body.name, body.email, hash(body.password, salt), None).None? ==>
                resp == Failure(500, ServerErrorMessage) && users == old(users)
      ensures !EmailTaken(old(users), body.email) && NewUser(body.name, body.email, hash(body.password, salt), None).Some? ==>
                && users == old(users)[freshId := User(body.name, body.email, hash(body.password, salt), UserRole)]
                && resp == Success(201, sign(TokenPayload(Principal(freshId, UserRole))))
    {
      var existing := FindByEmail(body.email);
      if existing.Some? {
        return Failure(400, UserExistsMessage);
      }
      // The document is built from name, email and password only; the
      // plaintext password is then overwritten by its hash.
      var user := User(body.name, body.email, body.password, UserRole);
      user := user.(password := hash(body.password, salt));
      var doc := NewUser(user.name, user.email, user.password, None);
      if doc.None? {
        return Failure(500, ServerErrorMessage);
      }
      RegisterKeepsEmailsUnique(users, freshId, doc.value);
      users := users[freshId := doc.value];
      var payload := TokenPayload(Principal(freshId, doc.value.role));
      resp := Success(201, sign(payload));
    }
  }

  /** Adding a user whose email nobody holds keeps emails unique. */
  lemma RegisterKeepsEmailsUnique(users: map<ObjectId, User>, id: ObjectId, u: User)
    requires EmailsUnique(users)
    requires id !in users && !EmailTaken(users, u.email)
    ensures EmailsUnique(users[id := u])
  {
  }
}
