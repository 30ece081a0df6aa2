/**
 * Credentials as the gateway and the guard handle them: the bearer token taken
 * from the handshake, the two secrets a token is checked against, the claims a
 * verified token carries, and the admin-then-team verification cascade.
 * Signature checking itself is not modelled: a `Verifier` is any total function
 * from a token and a secret to the claims it yields, or None when it rejects.
 */
module Credentials {
  import opened Js

  /** The pattern both call sites strip from the authorization header. */
  const BearerPattern: string := "Bearer "

  /** `authorization.replace('Bearer ', '')`: drops the first `Bearer `, wherever it stands. */
  function StripBearer(authorization: string): string
  {
    RemoveFirst(authorization, BearerPattern)
  }

  /**
   * `auth.token || authorization?.replace('Bearer ', '')`, the extraction written out at
   * connection time and in the guard. A truthy handshake token wins; otherwise the header,
   * when present, with its first `Bearer ` removed; otherwise `undefined`.
   */
  function ExtractToken(authToken: Option<string>, authorization: Option<string>): (t: Option<string>)
    ensures Truthy(authToken) ==> t == authToken
    ensures !Truthy(authToken) ==> t == if authorization.Some? then Some(StripBearer(authorization.value)) else None
    ensures t.None? <==> !Truthy(authToken) && authorization.None?
    ensures Truthy(t) <==> Truthy(authToken) || (authorization.Some? && StripBearer(authorization.value) != "")
  {
    if Truthy(authToken) then authToken
    else if authorization.Some? then Some(StripBearer(authorization.value))
    else None
  }

  /** A header of the documented form `Bearer <token>` yields exactly `<token>`. */
  lemma StripBearerPrefix(token: string)
    ensures StripBearer(BearerPattern + token) == token
  {
    var h := BearerPattern + token;
    assert h[..|BearerPattern|] == BearerPattern;
    assert IndexOf(h, BearerPattern) == Some(0);
  }

  /** A header that contains no `Bearer ` at all is used unchanged as the token. */
  lemma StripBearerAbsent(authorization: string)
    requires forall j: nat :: !OccursAt(authorization, BearerPattern, j)
    ensures StripBearer(authorization) == authorization
  {
  }

  /** The pattern need not be a prefix: `xBearer y` becomes `xy`. */
  lemma StripBearerNotOnlyPrefix()
    ensures StripBearer("xBearer y") == "xy"
  {
    var h := "xBearer y";
    assert h[..|BearerPattern|] != BearerPattern by { assert h[0] != BearerPattern[0]; }
    assert h[1..] == BearerPattern + "y";
    assert h[1..][..|BearerPattern|] == BearerPattern;
    assert IndexOf(h[1..], BearerPattern) == Some(0);
    assert IndexOf(h, BearerPattern) == Some(1);
    assert h[..1] + h[1 + |BearerPattern|..] == "xy";
  }

  /** A header that is only `Bearer ` (and no handshake token) leaves an empty, hence missing, token. */
  lemma FullyStrippedHeaderIsNoToken(authToken: Option<string>)
    requires !Truthy(authToken)
    ensures ExtractToken(authToken, Some(BearerPattern)) == Some("")
    ensures !Truthy(ExtractToken(authToken, Some(BearerPattern)))
  {
    StripBearerPrefix("");
  }

  /** The two trust domains, each with its own secret. */
  datatype Secret = AdminSecret | TeamSecret

  /** The claims of a verified token that the gateway reads. */
  datatype Claims = Claims(teamId: Option<string>, adminId: Option<string>)

  /** `verifyAsync(token, {secret})`: the claims, or None where the library throws. */
  type Verifier = (string, Secret) -> Option<Claims>

  /** Which secret, if any, accepted the token. */
  datatype Match = AdminMatch(claims: Claims) | TeamMatch(claims: Claims) | NoMatch

  /** Admin secret first; the team secret only when the admin secret rejects; first match wins. */
  function Cascade(token: string, verify: Verifier): (m: Match)
    ensures m.AdminMatch? <==> verify(token, AdminSecret).Some?
    ensures m.AdminMatch? ==> verify(token, AdminSecret) == Some(m.claims)
    ensures m.TeamMatch? <==> verify(token, AdminSecret).None? && verify(token, TeamSecret).Some?
    ensures m.TeamMatch? ==> verify(token, TeamSecret) == Some(m.claims)
    ensures m.NoMatch? <==> verify(token, AdminSecret).None? && verify(token, TeamSecret).None?
  {
    match verify(token, AdminSecret)
    case Some(c) => AdminMatch(c)
    case None =>
      match verify(token, TeamSecret)
      case Some(c) => TeamMatch(c)
      case None => NoMatch
  }

  /** The secrets a cascade consults, in order. */
  function Tried(m: Match): (s: seq<Secret>)
    ensures |s| > 0 && s[0] == AdminSecret
    ensures TeamSecret in s <==> !m.AdminMatch?
  {
    if m.AdminMatch? then [AdminSecret] else [AdminSecret, TeamSecret]
  }

  /** An authentication decision together with the secrets consulted on the way to it. */
  datatype Decision<T> = Decision(tried: seq<Secret>, outcome: T)
}
