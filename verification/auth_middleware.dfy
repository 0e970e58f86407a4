/**
 * The authentication middleware: reading the bearer token out of the
 * `Authorization` header, verifying it with Firebase first and with the
 * HS256 JWT verifier second, and attaching the identity it carries; and the
 * role gate that follows it. The two verifiers are the libraries': each is
 * a parameter that either decodes a token or rejects it.
 */
module AuthMiddleware {
  import opened Wrappers
  import opened Strings
  import opened UserEntity
  import opened Tokens

  /** The scheme prefix the header must start with, compared exactly and case-sensitively. */
  const BearerPrefix: string := "Bearer "

  const HeaderRequired: string := "Authorization header is required"
  const InvalidFormat: string := "Invalid authorization format. Expected \"Bearer <token>\""
  const TokenRequired: string := "Authentication token is required"
  const InvalidToken: string := "Invalid or expired token"
  const NotAuthenticated: string := "User not authenticated"
  const NoPermission: string := "You do not have permission to access this resource"

  /** What a verifier yields for a token it accepts; any claim may be absent. */
  datatype Decoded = Decoded(uid: Option<string>, email: Option<string>, role: Option<string>)

  /** `req.user`: the identity attached to an authenticated request. */
  datatype Identity = Identity(uid: Option<string>, email: Option<string>, role: string)

  /** How the middleware ends: an error response, or `next()` with the identity attached. */
  datatype AuthOutcome = Reject(status: nat, error: string) | Next(user: Identity)

  /** How the role gate ends: an error response, or `next()`. */
  datatype GateOutcome = Deny(status: nat, error: string) | Allow

  /** `header.split("Bearer ")[1]`, with `None` standing for `undefined`. */
  function BearerToken(header: string): (r: Option<string>)
    ensures r.Some? <==> !Free(header, BearerPrefix)
    ensures r.Some? ==> Free(r.value, BearerPrefix)
  {
    SplitLength(header, BearerPrefix);
    SplitPiecesFree(header, BearerPrefix);
    var pieces := Split(header, BearerPrefix);
    if |pieces| >= 2 then Some(pieces[1]) else None
  }

  /**
   * For a header starting with the prefix, the token is the text after it,
   * up to the next occurrence of the prefix or the end of the header, and
   * never itself contains the prefix.
   */
  lemma BearerTokenAfterPrefix(header: string)
    requires StartsWith(header, BearerPrefix)
    ensures BearerToken(header).Some?
    ensures var t := BearerToken(header).value;
      && |BearerPrefix| + |t| <= |header|
      && header[|BearerPrefix|..|BearerPrefix| + |t|] == t
      && Free(t, BearerPrefix)
      && (|header| == |BearerPrefix| + |t| || OccursAt(header, BearerPrefix, |BearerPrefix| + |t|))
  {
    var n := |BearerPrefix|;
    assert OccursAt(header, BearerPrefix, 0);
    assert IndexOf(header, BearerPrefix) == Some(0);
    var rest := header[n..];
    assert Split(header, BearerPrefix) == [header[..0]] + Split(rest, BearerPrefix);
    FirstPiece(rest, BearerPrefix);
    var t := Split(rest, BearerPrefix)[0];
    assert BearerToken(header) == Some(t);
    assert header[n..n + |t|] == rest[..|t|];
    if |header| != n + |t| {
      assert header[n + |t|..n + |t| + n] == rest[|t|..|t| + n];
    }
  }

  /** `"Bearer " + t` yields `t` itself, when `t` does not contain the prefix. */
  lemma BearerTokenOfPrefixed(t: string)
    requires Free(t, BearerPrefix)
    ensures BearerToken(BearerPrefix + t) == Some(t)
  {
    var header := BearerPrefix + t;
    assert header[..|BearerPrefix|] == BearerPrefix;
    BearerTokenAfterPrefix(header);
    var u := BearerToken(header).value;
    assert header[|BearerPrefix|..] == t;
    if |header| != |BearerPrefix| + |u| {
      assert header[|BearerPrefix| + |u|..|BearerPrefix| + |u| + |BearerPrefix|]
          == t[|u|..|u| + |BearerPrefix|];
      assert OccursAt(t, BearerPrefix, |u|);
      assert false;
    }
    assert u == header[|BearerPrefix|..] == t;
  }

  /** The ordered fallback: Firebase's decoding when it accepts, the JWT verifier's otherwise. */
  function Verified(token: string, firebase: string -> Option<Decoded>, jwt: string -> Option<Decoded>): (d: Option<Decoded>)
    ensures firebase(token).Some? ==> d == firebase(token)
    ensures firebase(token).None? ==> d == jwt(token)
  {
    if firebase(token).Some? then firebase(token) else jwt(token)
  }

  /**
   * The HS256 verifier the middleware falls back to, at instant `nowMs`:
   * the token text is parsed by `decode` (the library's, a parameter) and
   * checked against the same secret setting login signs with, on the
   * clock in whole seconds; its claims become the decoded identity.
   */
  function JwtVerifier(decode: string -> Option<Jwt>, secretEnv: Option<string>, nowMs: Time): string -> Option<Decoded>
  {
    token =>
      match decode(token)
      case None => None
      case Some(t) =>
        match Verify(t, SigningSecret(secretEnv), nowMs / 1000)
        case None => None
        case Some(c) => Some(Decoded(Some(c.uid), Some(c.email), Some(c.role)))
  }

  /** The identity attached for a decoded token: its uid and email, and its role or "user". */
  function IdentityOf(d: Decoded): (id: Identity)
    ensures id.uid == d.uid && id.email == d.email && id.role == RoleOrUser(d.role)
  {
    Identity(d.uid, d.email, RoleOrUser(d.role))
  }

  /** `authMiddleware` on a request whose `Authorization` header is `header`. */
  function Authenticate(header: Option<string>, firebase: string -> Option<Decoded>, jwt: string -> Option<Decoded>): (r: AuthOutcome)
    ensures r.Reject? ==> r.status == 401
    ensures Falsy(header) ==> r == Reject(401, HeaderRequired)
    ensures !Falsy(header) && !StartsWith(header.value, BearerPrefix) ==> r == Reject(401, InvalidFormat)
    ensures r.Next? <==>
      && !Falsy(header) && StartsWith(header.value, BearerPrefix)
      && !Falsy(BearerToken(header.value))
      && Verified(BearerToken(header.value).value, firebase, jwt).Some?
    ensures r.Next? ==> r.user == IdentityOf(Verified(BearerToken(header.value).value, firebase, jwt).value)
  {
    if Falsy(header) then Reject(401, HeaderRequired)
    else if !StartsWith(header.value, BearerPrefix) then Reject(401, InvalidFormat)
    else
      var token := BearerToken(header.value);
      if Falsy(token) then Reject(401, TokenRequired)
      else match Verified(token.value, firebase, jwt)
        case None => Reject(401, InvalidToken)
        case Some(d) => Next(IdentityOf(d))
  }

  /** A header that is exactly the prefix carries an empty token, which is refused before any verifier runs. */
  lemma EmptyTokenRejected(firebase: string -> Option<Decoded>, jwt: string -> Option<Decoded>)
    ensures Authenticate(Some(BearerPrefix), firebase, jwt) == Reject(401, TokenRequired)
  {
  }

  /** When Firebase accepts the token, the JWT verifier is never consulted: any JWT verifier gives the same result. */
  lemma FirebaseFirst(header: Option<string>, firebase: string -> Option<Decoded>,
                      jwt1: string -> Option<Decoded>, jwt2: string -> Option<Decoded>)
    requires !Falsy(header) && StartsWith(header.value, BearerPrefix)
    requires !Falsy(BearerToken(header.value))
    requires firebase(BearerToken(header.value).value).Some?
    ensures Authenticate(header, firebase, jwt1) == Authenticate(header, firebase, jwt2)
    ensures Authenticate(header, firebase, jwt1) == Next(IdentityOf(firebase(BearerToken(header.value).value).value))
  {
  }

  /** When both verifiers reject the token, the request is refused as invalid or expired. */
  lemma BothVerifiersFail(header: Option<string>, firebase: string -> Option<Decoded>, jwt: string -> Option<Decoded>)
    requires !Falsy(header) && StartsWith(header.value, BearerPrefix)
    requires !Falsy(BearerToken(header.value))
    requires firebase(BearerToken(header.value).value).None?
    requires jwt(BearerToken(header.value).value).None?
    ensures Authenticate(header, firebase, jwt) == Reject(401, InvalidToken)
  {
  }

  /** `authorizeRoles(allowedRoles)` on a request carrying `user`. */
  function AuthorizeRoles(allowedRoles: seq<string>, user: Option<Identity>): (r: GateOutcome)
    ensures r == Deny(401, NotAuthenticated) <==> user.None?
    ensures r == Deny(403, NoPermission) <==> user.Some? && RoleOrUser(Some(user.value.role)) !in allowedRoles
    ensures r == Allow <==> user.Some? && RoleOrUser(Some(user.value.role)) in allowedRoles
  {
    if user.None? then Deny(401, NotAuthenticated)
    else if RoleOrUser(Some(user.value.role)) !in allowedRoles then Deny(403, NoPermission)
    else Allow
  }

  /**
   * A token that carries no role authenticates as a "user": it passes a gate
   * that admits "user" and is refused by one that does not.
   */
  lemma MissingRoleGatedAsUser(header: Option<string>, firebase: string -> Option<Decoded>,
                               jwt: string -> Option<Decoded>, allowedRoles: seq<string>)
    requires Authenticate(header, firebase, jwt).Next?
    requires Verified(BearerToken(header.value).value, firebase, jwt).value.role.None?
    ensures AuthorizeRoles(allowedRoles, Some(Authenticate(header, firebase, jwt).user)) == Allow
        <==> "user" in allowedRoles
  {
  }
}
