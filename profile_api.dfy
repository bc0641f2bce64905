/**
 * `PUT /api/users/profile`, behind `isAuth`: load the requesting user,
 * overwrite name and email from the body, replace the password hash only
 * when a new password is given, save, and answer with a fresh token.
 */
module ProfileApi {
  import opened Common
  import opened Types
  import opened JsNumber
  import opened UserModel
  import Auth

  datatype Body = Body(name: Option<string>, email: Option<string>, password: Option<string>)

  datatype Reply = Sent(info: UserInfo) | Refused(status: int, message: string) | Failed(error: SaveError)

  /** The loaded document after the three assignments. */
  function Edited(u: User, body: Body, hash: string -> string): (d: Draft)
    ensures d.name == body.name && d.email == body.email && d.isAdmin == Some(u.isAdmin)
    ensures TruthyText(body.password) ==> d.password == Some(hash(body.password.value))
    ensures !TruthyText(body.password) ==> d.password == Some(u.password)
  {
    Draft(body.name, body.email, Some(if TruthyText(body.password) then hash(body.password.value) else u.password), Some(u.isAdmin))
  }

  /**
   * A saved profile update keeps the user's id, creation time and admin
   * flag; the password hash changes only when a new password is given.
   */
  lemma UpdateKeepsIdentityAndRole(users: map<nat, User>, u: User, body: Body, hash: string -> string, now: int)
    requires Update(users, u, Edited(u, body, hash), now).Saved?
    ensures var v := Update(users, u, Edited(u, body, hash), now).user;
      && v.id == u.id && v.createdAt == u.createdAt && v.isAdmin == u.isAdmin
      && v.updatedAt == (if Modified(u, Edited(u, body, hash)) then now else u.updatedAt)
      && Some(v.name) == body.name && Some(v.email) == body.email
      && v.password == (if TruthyText(body.password) then hash(body.password.value) else u.password)
  {
  }

  /**
   * Resubmitting the stored name and email without a password modifies no
   * path: the saved document is the stored one, `updatedAt` included.
   */
  lemma ResubmittingChangesNothing(users: map<nat, User>, u: User, body: Body, hash: string -> string, now: int)
    requires body.name == Some(u.name) && body.email == Some(u.email) && !TruthyText(body.password)
    requires Update(users, u, Edited(u, body, hash), now).Saved?
    ensures Update(users, u, Edited(u, body, hash), now).user == u
  {
  }

  /** An update that clears the name, or the email, is refused and stores nothing. */
  lemma EmptyNameOrEmailIsRefused(users: map<nat, User>, u: User, body: Body, hash: string -> string, now: int)
    requires !Present(body.name) || !Present(body.email)
    ensures Update(users, u, Edited(u, body, hash), now).Rejected?
  {
  }

  const NotFound := "not found"

  /** The handler; `requester` is the payload `isAuth` attached to the request. */
  method Put(table: UserTable, requester: Auth.Claims, body: Body, hash: string -> string, now: int,
             jwtSecret: Option<string>, sign: (Auth.Claims, string, nat) -> string) returns (reply: Reply)
    requires table.Valid()
    modifies table
    ensures table.Valid() && table.nextId == old(table.nextId)
    ensures requester.id !in old(table.users) ==>
      reply == Refused(404, NotFound) && table.users == old(table.users)
    ensures requester.id in old(table.users) ==>
      var u := old(table.users)[requester.id];
      match Update(old(table.users), u, Edited(u, body, hash), now)
      case Rejected(e) => reply == Failed(e) && table.users == old(table.users)
      case Saved(v) =>
        && table.users == old(table.users)[u.id := v]
        && reply == Sent(UserInfo(Auth.SignToken(v, jwtSecret, sign), v.id, v.name, v.email, v.isAdmin))
  {
    var found := table.FindById(requester.id);
    if found.None? {
      return Refused(404, NotFound);
    }
    var user := found.value;
    var doc := Draft(Some(user.name), Some(user.email), Some(user.password), Some(user.isAdmin));
    doc := doc.(name := body.name);
    doc := doc.(email := body.email);
    doc := doc.(password := if TruthyText(body.password) then Some(hash(body.password.value)) else doc.password);
    assert doc == Edited(user, body, hash);
    var r := table.Save(user, doc, now);
    match r
    case Rejected(e) =>
      reply := Failed(e);
    case Saved(v) =>
      var token := Auth.SignToken(v, jwtSecret, sign);
      reply := Sent(UserInfo(token, v.id, v.name, v.email, v.isAdmin));
  }
}
