/**
 * `WebsocketAuthGuard.canActivate`: the per-message form of authentication.
 * It extracts the token exactly as the gateway does at connection time, tries
 * the admin secret and then the team secret, and either throws or writes the
 * resolved identity on the socket and returns true. The gateway imports it
 * but never attaches it to a handler, so it stands on its own here.
 */
module WebsocketAuthGuard {
  import opened Js
  import opened Credentials
  import opened Sockets

  const TokenNotProvided: string := "Authentication token not provided"
  const InvalidToken: string := "Invalid authentication token"

  /** The guard's decision: let the message through with an identity, or throw with a message. */
  datatype Verdict = Allow(teamId: Option<string>) | Deny(message: string)

  /** How `canActivate` completes: it resolves to a boolean or throws a `WsException`. */
  datatype Completion = Resolves(value: bool) | Throws(message: string)

  /** The guard's decision, and the secrets it consults, for a handshake and a verifier. */
  function GuardDecision(authToken: Option<string>, authorization: Option<string>, verify: Verifier): (d: Decision<Verdict>)
    ensures var t := ExtractToken(authToken, authorization);
      (!Truthy(t) <==> d.outcome == Deny(TokenNotProvided)) &&
      (!Truthy(t) ==> d.tried == []) &&
      (Truthy(t) ==> |d.tried| > 0 && d.tried[0] == AdminSecret && (TeamSecret in d.tried <==> verify(t.value, AdminSecret).None?)) &&
      (d.outcome == Deny(InvalidToken) <==>
         Truthy(t) && verify(t.value, AdminSecret).None? && verify(t.value, TeamSecret).None?) &&
      (Truthy(t) && verify(t.value, AdminSecret).Some? ==>
         d.outcome == Allow(Or(verify(t.value, AdminSecret).value.teamId, verify(t.value, AdminSecret).value.adminId))) &&
      (Truthy(t) && verify(t.value, AdminSecret).None? && verify(t.value, TeamSecret).Some? ==>
         d.outcome == Allow(verify(t.value, TeamSecret).value.teamId))
  {
    var t := ExtractToken(authToken, authorization);
    if !Truthy(t) then Decision([], Deny(TokenNotProvided))
    else
      var m := Cascade(t.value, verify);
      Decision(Tried(m),
        match m
        case AdminMatch(c) => Allow(Or(c.teamId, c.adminId))
        case TeamMatch(c) => Allow(c.teamId)
        case NoMatch => Deny(InvalidToken))
  }

  /**
   * `canActivate`: throws when the decision denies, otherwise writes the identity on
   * the socket and resolves to true. It never resolves to false. `attempts` records,
   * in order, the secret of every verification call made.
   */
  method CanActivate(client: Socket, verify: Verifier) returns (r: Completion, ghost attempts: seq<Secret>)
    modifies client
    ensures attempts == GuardDecision(client.authToken, client.authorization, verify).tried
    ensures var d := GuardDecision(client.authToken, client.authorization, verify);
      (d.outcome.Allow? ==> r == Resolves(true) && client.teamId == d.outcome.teamId) &&
      (d.outcome.Deny? ==> r == Throws(d.outcome.message) && client.teamId == old(client.teamId))
    ensures r.Resolves? ==> r.value
    ensures client.connected == old(client.connected)
  {
    attempts := [];
    var token := ExtractToken(client.authToken, client.authorization);
    if !Truthy(token) {
      return Throws(TokenNotProvided), attempts;
    }
    var admin := verify(token.value, AdminSecret);
    attempts := attempts + [AdminSecret];
    if admin.Some? {
      client.teamId := Or(admin.value.teamId, admin.value.adminId);
      return Resolves(true), attempts;
    }
    var team := verify(token.value, TeamSecret);
    attempts := attempts + [TeamSecret];
    if team.Some? {
      client.teamId := team.value.teamId;
      return Resolves(true), attempts;
    }
    return Throws(InvalidToken), attempts;
  }
}
