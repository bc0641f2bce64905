/**
 * utils/auth.ts: the claims a token is signed with, and the `isAuth`
 * middleware that answers 401 or attaches the decoded claims to the request
 * and calls the next handler. `jwt.sign` and `jwt.verify` are oracles passed
 * in as functions.
 */
module Auth {
  import opened Common
  import opened JsNumber
  import UserModel

  /** The payload of a token. */
  datatype Claims = Claims(id: nat, name: string, email: string, isAdmin: bool)

  /** `expiresIn: "30d"`, in seconds. */
  const ThirtyDays: nat := 30 * 24 * 60 * 60

  /** `process.env.JWT_SECRET ? process.env.JWT_SECRET : ""`. */
  function Secret(jwtSecret: Option<string>): string {
    if TruthyText(jwtSecret) then jwtSecret.value else ""
  }

  /** The conditional is the same as falling back to `""` when the variable is unset. */
  lemma SecretFallsBackToEmpty(jwtSecret: Option<string>)
    ensures Secret(jwtSecret) == jwtSecret.GetOr("")
    ensures jwtSecret.None? ==> Secret(jwtSecret) == ""
  {
  }

  function ClaimsOf(u: UserModel.User): Claims {
    Claims(u.id, u.name, u.email, u.isAdmin)
  }

  /** `signToken(user)`, with `jwt.sign(payload, secret, expiresInSeconds)` as `sign`. */
  function SignToken(u: UserModel.User, jwtSecret: Option<string>, sign: (Claims, string, nat) -> string): string {
    sign(ClaimsOf(u), Secret(jwtSecret), ThirtyDays)
  }

  /**
   * The token carries exactly the user's id, name, email and admin flag: two
   * users that agree on those get the same token, whatever their password
   * hash or timestamps, and the payload gives the four fields back.
   */
  lemma SignTokenReadsOnlyClaims(u: UserModel.User, v: UserModel.User, jwtSecret: Option<string>,
                                 sign: (Claims, string, nat) -> string)
    requires u.id == v.id && u.name == v.name && u.email == v.email && u.isAdmin == v.isAdmin
    ensures SignToken(u, jwtSecret, sign) == SignToken(v, jwtSecret, sign)
    ensures var c := ClaimsOf(u); c.id == u.id && c.name == u.name && c.email == u.email && c.isAdmin == u.isAdmin
  {
  }

  datatype Response = Response(status: int, message: string)

  const NotSupplied := "Token is not supplied"
  const NotValid := "Token is not valid"

  /** `authorization.slice(7, authorization.length)`. */
  function Token(authorization: string): (t: string)
    ensures |authorization| <= 7 ==> t == ""
    ensures |authorization| > 7 ==> authorization == authorization[..7] + t
  {
    if |authorization| <= 7 then "" else authorization[7..]
  }

  /** What `isAuth` does: answer with a 401, or accept the decoded claims. */
  datatype Decision = Reject(response: Response) | Accept(claims: Claims)

  /** `verify(token, secret)` is `jwt.verify`: the decoded payload, or `None` on an error. */
  function Decide(authorization: Option<string>, secret: string, verify: (string, string) -> Option<Claims>): (d: Decision)
    ensures !TruthyText(authorization) ==> d == Reject(Response(401, NotSupplied))
    ensures TruthyText(authorization) ==>
      match verify(Token(authorization.value), secret)
      case None => d == Reject(Response(401, NotValid))
      case Some(c) => d == Accept(c)
  {
    if !TruthyText(authorization) then Reject(Response(401, NotSupplied))
    else
      match verify(Token(authorization.value), secret)
      case None => Reject(Response(401, NotValid))
      case Some(c) => Accept(c)
  }

  /** A header `Bearer <t>` hands `t` to the verifier. */
  lemma BearerHeaderYieldsToken(t: string)
    ensures Token("Bearer " + t) == t
  {
    if t == "" {
      assert "Bearer " + t == "Bearer ";
    } else {
      assert ("Bearer " + t)[7..] == t;
    }
  }

  /**
   * The first seven characters are dropped unread: any seven characters in
   * front of the token get the same decision as `Bearer `.
   */
  lemma PrefixIsNotChecked(prefix: string, t: string, secret: string, verify: (string, string) -> Option<Claims>)
    requires |prefix| == 7
    ensures Decide(Some(prefix + t), secret, verify) == Decide(Some("Bearer " + t), secret, verify)
  {
    BearerHeaderYieldsToken(t);
    if t == "" {
      assert prefix + t == prefix;
    } else {
      assert (prefix + t)[7..] == t;
    }
  }

  /** A request and response passing through the middleware chain. */
  class Exchange {
    var headers: map<string, string>
    var user: Option<Claims>
    var response: Option<Response>
    /** How many times `next()` has been called. */
    var nextCalls: nat

    constructor (headers: map<string, string>)
      ensures this.headers == headers && user == None && response == None && nextCalls == 0
    {
      this.headers := headers;
      user := None;
      response := None;
      nextCalls := 0;
    }
  }

  /** `isAuth(req, res, next)`, with `jwtSecret` the environment variable. */
  method IsAuth(ex: Exchange, jwtSecret: Option<string>, verify: (string, string) -> Option<Claims>)
    modifies ex
    ensures ex.headers == old(ex.headers)
    ensures match Decide(Lookup(old(ex.headers), "authorization"), Secret(jwtSecret), verify)
      case Reject(r) =>
        ex.response == Some(r) && ex.user == old(ex.user) && ex.nextCalls == old(ex.nextCalls)
      case Accept(c) =>
        ex.user == Some(c) && ex.nextCalls == old(ex.nextCalls) + 1 && ex.response == old(ex.response)
  {
    var authorization := Lookup(ex.headers, "authorization");
    if TruthyText(authorization) {
      var token := Token(authorization.value);
      match verify(token, Secret(jwtSecret))
      case None =>
        ex.response := Some(Response(401, NotValid));
      case Some(decoded) =>
        ex.user := Some(decoded);
        ex.nextCalls := ex.nextCalls + 1;
    } else {
      ex.response := Some(Response(401, NotSupplied));
    }
  }
}
