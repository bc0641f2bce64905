/**
 * The user collection of models/User.ts: name, email and password are
 * required, email is unique, isAdmin is required and defaults to false,
 * and every document carries createdAt and updatedAt timestamps.
 */
module UserModel {
  import opened Common

  /** A stored user document; `password` holds the bcrypt hash. */
  datatype User = User(
    id: nat,
    name: string,
    email: string,
    password: string,
    isAdmin: bool,
    createdAt: int,
    updatedAt: int)

  /** The values a document is saved with; `None` is `undefined`. */
  datatype Draft = Draft(name: Option<string>, email: Option<string>, password: Option<string>, isAdmin: Option<bool>)

  /** Why a save was refused: a required path is missing, or the email index already holds the address. */
  datatype SaveError = Required(path: string) | DuplicateEmail

  datatype SaveResult = Saved(user: User) | Rejected(error: SaveError)

  /** A required string path is satisfied: neither `undefined` nor `""`. */
  predicate Present(v: Option<string>) {
    v.Some? && v.value != ""
  }

  predicate Conforms(u: User) {
    u.name != "" && u.email != "" && u.password != ""
  }

  /** Some document other than `except` has this email. */
  predicate EmailTaken(users: map<nat, User>, email: string, except: Option<nat>) {
    exists id :: id in users && Some(id) != except && users[id].email == email
  }

  /** The collection's invariant: ids are keys below the next id, documents conform, emails are unique. */
  ghost predicate ValidTable(users: map<nat, User>, nextId: nat) {
    && (forall id :: id in users ==> users[id].id == id && id < nextId && Conforms(users[id]))
    && (forall a, b :: a in users && b in users && users[a].email == users[b].email ==> a == b)
  }

  /** The first required path the draft leaves empty, in schema order. */
  function Missing(d: Draft): (r: Option<string>)
    ensures r.None? <==> Present(d.name) && Present(d.email) && Present(d.password)
  {
    if !Present(d.name) then Some("name")
    else if !Present(d.email) then Some("email")
    else if !Present(d.password) then Some("password")
    else None
  }

  /** `new User(d).save()` at time `now`: the new document gets the next id. */
  function Create(users: map<nat, User>, nextId: nat, d: Draft, now: int): (r: SaveResult)
    ensures r.Saved? <==> Missing(d).None? && !EmailTaken(users, d.email.value, None)
    ensures r.Saved? ==> r.user == User(nextId, d.name.value, d.email.value, d.password.value, d.isAdmin.GetOr(false), now, now)
    ensures r.Saved? ==> Conforms(r.user)
  {
    match Missing(d)
    case Some(path) => Rejected(Required(path))
    case None =>
      if EmailTaken(users, d.email.value, None) then Rejected(DuplicateEmail)
      else Saved(User(nextId, d.name.value, d.email.value, d.password.value, d.isAdmin.GetOr(false), now, now))
  }

  /**
   * Setting the paths from `d` changes some value of `prior`: the document
   * is modified. An `undefined` isAdmin leaves the flag as it is.
   */
  predicate Modified(prior: User, d: Draft) {
    || d.name != Some(prior.name) || d.email != Some(prior.email) || d.password != Some(prior.password)
    || d.isAdmin.GetOr(prior.isAdmin) != prior.isAdmin
  }

  /**
   * `doc.save()` on the loaded document `prior` after its paths were set
   * from `d`: the id and createdAt stay, and the timestamps option moves
   * updatedAt to `now` only when some path was modified.
   */
  function Update(users: map<nat, User>, prior: User, d: Draft, now: int): (r: SaveResult)
    ensures r.Saved? <==> Missing(d).None? && !EmailTaken(users, d.email.value, Some(prior.id))
    ensures r.Saved? ==> && r.user.id == prior.id && r.user.createdAt == prior.createdAt
                         && r.user.name == d.name.value && r.user.email == d.email.value
                         && r.user.password == d.password.value && Conforms(r.user)
                         && r.user.isAdmin == d.isAdmin.GetOr(prior.isAdmin)
    ensures r.Saved? && Modified(prior, d) ==> r.user.updatedAt == now
    ensures r.Saved? && !Modified(prior, d) ==> r.user == prior
  {
    match Missing(d)
    case Some(path) => Rejected(Required(path))
    case None =>
      if EmailTaken(users, d.email.value, Some(prior.id)) then Rejected(DuplicateEmail)
      else Saved(prior.(name := d.name.value, email := d.email.value, password := d.password.value,
                        isAdmin := d.isAdmin.GetOr(prior.isAdmin),
                        updatedAt := if Modified(prior, d) then now else prior.updatedAt))
  }

  /** Creating a document keeps the collection's invariant. */
  lemma CreateKeepsTableValid(users: map<nat, User>, nextId: nat, d: Draft, now: int)
    requires ValidTable(users, nextId)
    requires Create(users, nextId, d, now).Saved?
    ensures var u := Create(users, nextId, d, now).user;
      u.id !in users && ValidTable(users[u.id := u], nextId + 1)
  {
    var u := Create(users, nextId, d, now).user;
    var t := users[u.id := u];
    forall a, b | a in t && b in t && t[a].email == t[b].email ensures a == b {
      if a != b && (a == u.id || b == u.id) {
        assert false;
      }
    }
  }

  /** Saving an existing document keeps the collection's invariant. */
  lemma UpdateKeepsTableValid(users: map<nat, User>, nextId: nat, prior: User, d: Draft, now: int)
    requires ValidTable(users, nextId) && prior.id in users
    requires Update(users, prior, d, now).Saved?
    ensures var u := Update(users, prior, d, now).user;
      u.id == prior.id && ValidTable(users[u.id := u], nextId)
  {
    var u := Update(users, prior, d, now).user;
    var t := users[u.id := u];
    forall a, b | a in t && b in t && t[a].email == t[b].email ensures a == b {
      if a != b && (a == u.id || b == u.id) {
        assert false;
      }
    }
  }

  /** Once a document is saved, a second create with the same email is refused. */
  lemma SecondCreateIsDuplicate(users: map<nat, User>, nextId: nat, d: Draft, now: int, later: int)
    requires Create(users, nextId, d, now).Saved?
    ensures var u := Create(users, nextId, d, now).user;
      Create(users[u.id := u], nextId + 1, d, later) == Rejected(DuplicateEmail)
  {
    var u := Create(users, nextId, d, now).user;
    assert u.id in users[u.id := u];
  }

  /** The user collection, updated in place by `save()`. */
  class UserTable {
    var users: map<nat, User>
    var nextId: nat

    ghost predicate Valid()
      reads this
    {
      ValidTable(users, nextId)
    }

    constructor ()
      ensures Valid() && users == map[] && nextId == 0
    {
      users := map[];
      nextId := 0;
    }

    /** `User.findById(id)`. */
    method FindById(id: nat) returns (u: Option<User>)
      requires Valid()
      ensures u.Some? <==> id in users
      ensures u.Some? ==> u.value == users[id] && u.value.id == id
    {
      if id in users {
        u := Some(users[id]);
      } else {
        u := None;
      }
    }

    /** `new User(d).save()`. */
    method Insert(d: Draft, now: int) returns (r: SaveResult)
      requires Valid()
      modifies this
      ensures Valid()
      ensures r == Create(old(users), old(nextId), d, now)
      ensures r.Saved? ==> users == old(users)[r.user.id := r.user] && nextId == old(nextId) + 1
      ensures r.Rejected? ==> users == old(users) && nextId == old(nextId)
    {
      r := Create(users, nextId, d, now);
      if r.Saved? {
        CreateKeepsTableValid(users, nextId, d, now);
        users := users[r.user.id := r.user];
        nextId := nextId + 1;
      }
    }

    /** `doc.save()` for the loaded document `prior` with its paths set from `d`. */
    method Save(prior: User, d: Draft, now: int) returns (r: SaveResult)
      requires Valid() && prior.id in users
      modifies this
      ensures Valid()
      ensures r == Update(old(users), prior, d, now)
      ensures r.Saved? ==> users == old(users)[prior.id := r.user]
      ensures r.Rejected? ==> users == old(users)
      ensures nextId == old(nextId)
    {
      r := Update(users, prior, d, now);
      if r.Saved? {
        UpdateKeepsTableValid(users, nextId, prior, d, now);
        users := users[prior.id := r.user];
      }
    }
  }
}
