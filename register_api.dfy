/**
 * `POST /api/users/register`: hash the password, save a new non-admin user
 * and answer with a token and the saved user's fields.
 *
 * The handler imports `signToken` as the default export of utils/auth.ts,
 * which exports it only by name, so at run time the call after the save is
 * a call of `undefined`. `PostAsWritten` models that; `Post` is the handler
 * with the named import, which the rest of the model relies on.
 */
module RegisterApi {
  import opened Common
  import opened Types
  import opened UserModel
  import Auth

  /** The request body; `None` is a missing field. */
  datatype Body = Body(name: Option<string>, email: Option<string>, password: Option<string>)

  /** Why the handler threw; the framework answers each with a server error. */
  datatype Failure =
    | HashThrew                  // bcrypt.hashSync(undefined)
    | NotSaved(error: SaveError)
    | SignTokenNotAFunction      // the default import is undefined

  datatype Reply = Sent(info: UserInfo) | Failed(failure: Failure)

  /** The document `new User({...})` is built from, or `None` when hashing an absent password throws. */
  function NewUserDraft(body: Body, hash: string -> string): (d: Option<Draft>)
    ensures d.Some? <==> body.password.Some?
    ensures d.Some? ==> d.value.name == body.name && d.value.email == body.email
    ensures d.Some? ==> d.value.password == Some(hash(body.password.value)) && d.value.isAdmin == Some(false)
  {
    match body.password
    case None => None
    case Some(pw) => Some(Draft(body.name, body.email, Some(hash(pw)), Some(false)))
  }

  /**
   * A registered user is never an admin, stores the hash of the password
   * and not the password, and keeps the name and email of the body.
   */
  lemma RegisteredUserIsPlain(users: map<nat, User>, nextId: nat, body: Body, hash: string -> string, now: int)
    requires NewUserDraft(body, hash).Some?
    requires Create(users, nextId, NewUserDraft(body, hash).value, now).Saved?
    ensures var u := Create(users, nextId, NewUserDraft(body, hash).value, now).user;
      && !u.isAdmin
      && u.password == hash(body.password.value)
      && Some(u.name) == body.name && Some(u.email) == body.email
      && u.createdAt == u.updatedAt == now
  {
  }

  /**
   * An empty password is still hashed, and a bcrypt hash is never empty, so
   * the user is saved: the schema's `required` never sees the password.
   */
  lemma EmptyPasswordIsRegistered(users: map<nat, User>, nextId: nat, name: string, email: string,
                                  hash: string -> string, now: int)
    requires forall s :: hash(s) != ""
    requires name != "" && email != "" && !EmailTaken(users, email, None)
    ensures var d := NewUserDraft(Body(Some(name), Some(email), Some("")), hash);
      d.Some? && Create(users, nextId, d.value, now).Saved?
  {
    assert hash("") != "";
  }

  /** The answer for a saved user. */
  function Answer(u: User, jwtSecret: Option<string>, sign: (Auth.Claims, string, nat) -> string): UserInfo {
    UserInfo(Auth.SignToken(u, jwtSecret, sign), u.id, u.name, u.email, u.isAdmin)
  }

  /** The handler with `signToken` imported by name. */
  method Post(table: UserTable, body: Body, hash: string -> string, now: int,
              jwtSecret: Option<string>, sign: (Auth.Claims, string, nat) -> string) returns (reply: Reply)
    requires table.Valid()
    modifies table
    ensures table.Valid()
    ensures match NewUserDraft(body, hash)
      case None =>
        reply == Failed(HashThrew) && table.users == old(table.users) && table.nextId == old(table.nextId)
      case Some(d) =>
        match Create(old(table.users), old(table.nextId), d, now)
        case Rejected(e) =>
          reply == Failed(NotSaved(e)) && table.users == old(table.users) && table.nextId == old(table.nextId)
        case Saved(u) =>
          table.users == old(table.users)[u.id := u] && reply == Sent(Answer(u, jwtSecret, sign))
  {
    var draft := NewUserDraft(body, hash);
    if draft.None? {
      return Failed(HashThrew);
    }
    var r := table.Insert(draft.value, now);
    match r
    case Rejected(e) =>
      reply := Failed(NotSaved(e));
    case Saved(u) =>
      reply := Sent(Answer(u, jwtSecret, sign));
  }

  /**
   * The handler as written: the user is saved exactly as `Post` saves it,
   * but the answer is always an error, so the client never receives its
   * token.
   */
  method PostAsWritten(table: UserTable, body: Body, hash: string -> string, now: int) returns (reply: Reply)
    requires table.Valid()
    modifies table
    ensures table.Valid()
    ensures reply.Failed?
    ensures match NewUserDraft(body, hash)
      case None =>
        reply == Failed(HashThrew) && table.users == old(table.users) && table.nextId == old(table.nextId)
      case Some(d) =>
        match Create(old(table.users), old(table.nextId), d, now)
        case Rejected(e) =>
          reply == Failed(NotSaved(e)) && table.users == old(table.users) && table.nextId == old(table.nextId)
        case Saved(u) =>
          table.users == old(table.users)[u.id := u] && reply == Failed(SignTokenNotAFunction)
  {
    var draft := NewUserDraft(body, hash);
    if draft.None? {
      return Failed(HashThrew);
    }
    var r := table.Insert(draft.value, now);
    match r
    case Rejected(e) =>
      reply := Failed(NotSaved(e));
    case Saved(u) =>
      reply := Failed(SignTokenNotAFunction);
  }

  /**
   * Under the handler as written a client that retries after the error is
   * refused: its first attempt already saved the email.
   */
  lemma RetryAfterAsWrittenFailureIsRefused(users: map<nat, User>, nextId: nat, body: Body,
                                            hash: string -> string, now: int, later: int)
    requires NewUserDraft(body, hash).Some?
    requires Create(users, nextId, NewUserDraft(body, hash).value, now).Saved?
    ensures var d := NewUserDraft(body, hash).value;
      var u := Create(users, nextId, d, now).user;
      Create(users[u.id := u], nextId + 1, d, later) == Rejected(DuplicateEmail)
  {
    var d := NewUserDraft(body, hash).value;
    SecondCreateIsDuplicate(users, nextId, d, now, later);
  }
}
