/**
 * The driver app's token provider: hands the Driver SDK a JWT for the
 * vehicle named in the authorization context, from its one-token cache
 * or from `token/driver/{vehicleID}` on the provider backend.
 */
module DriverAuthTokenProvider {
  import opened Wire
  import opened AuthTokenCore

  const TokenPath := "token/driver/"

  /**
   * The response handler: a transport error is passed to the SDK as it
   * is; a body without a string `jwt` and an integral
   * `expirationTimestamp` is `missingData`; otherwise the token is cached
   * for the vehicle and handed out.
   */
  function Respond(cached: Option<AuthToken>, vehicleID: string, reply: Reply): (r: (Option<AuthToken>, Result<string, TokenError>))
    ensures reply.TransportError? ==> r == (cached, Err(Transport(reply.code)))
    ensures reply.Received? && DecodeTokenBody(reply.body).None? ==> r == (cached, Err(MissingData))
    ensures reply.Received? && DecodeTokenBody(reply.body).Some? ==>
      r == (TokenFromBody(reply.body, vehicleID), Ok(DecodeTokenBody(reply.body).value.0))
  {
    match reply
    case TransportError(code) => (cached, Err(Transport(code)))
    case Received(body) =>
      match TokenFromBody(body, vehicleID)
      case None => (cached, Err(MissingData))
      case Some(token) => (Some(token), Ok(token.token))
  }

  /**
   * The token the backend just issued for a vehicle is what the next
   * request for that vehicle gets, straight from the cache, until it
   * expires.
   */
  lemma {:induction false} FetchAfterResponseUsesCache(cached: Option<AuthToken>, vehicleID: string, reply: Reply, now: real)
    requires Respond(cached, vehicleID, reply).1.Ok?
    requires now < Respond(cached, vehicleID, reply).0.value.expiration
    ensures Fetch(Respond(cached, vehicleID, reply).0, Some(vehicleID), now, TokenPath)
         == Completed(Respond(cached, vehicleID, reply).1)
  {
    StoredTokenIsReused(reply.body, vehicleID, now, TokenPath);
  }

  /**
   * The cache has one slot: once a token for one vehicle is stored, a
   * request for any other vehicle goes to the backend again.
   */
  lemma {:induction false} SuccessEvictsOtherVehicle(cached: Option<AuthToken>, vehicleID: string, reply: Reply, other: string, now: real)
    requires Respond(cached, vehicleID, reply).1.Ok?
    requires other != vehicleID
    ensures Respond(cached, vehicleID, reply).0.Some?
    ensures Fetch(Respond(cached, vehicleID, reply).0, Some(other), now, TokenPath)
         == Requested(TokenRequest(TokenPath, other), other)
  {
    var stored := Respond(cached, vehicleID, reply).0;
    StaleOrForeignTokenRefetched(stored.value, other, now, TokenPath);
  }

  class AuthTokenProvider {
    /** The cached token. */
    var authToken: Option<AuthToken>

    constructor()
      ensures authToken == None
    {
      authToken := None;
    }

    /**
     * `fetchToken(with:completion:)` up to the network call: it never
     * changes the cache.
     */
    method FetchToken(context: Option<string>, now: real) returns (outcome: FetchOutcome)
      ensures outcome == Fetch(authToken, context, now, TokenPath)
      ensures outcome.Requested? ==> outcome.request.url.path == "/token/driver/" + context.value
    {
      if context.None? {
        return Completed(Err(MissingAuthorizationContext));
      }
      var vehicleID := context.value;
      if authToken.Some? && authToken.value.expiration > now && authToken.value.subjectID == vehicleID {
        return Completed(Ok(authToken.value.token));
      }
      outcome := Requested(TokenRequest(TokenPath, vehicleID), vehicleID);
    }

    /** The data task's completion handler for a request made for `vehicleID`. */
    method OnTokenResponse(vehicleID: string, reply: Reply) returns (result: Result<string, TokenError>)
      modifies this
      ensures (authToken, result) == Respond(old(authToken), vehicleID, reply)
    {
      if reply.TransportError? {
        return Err(Transport(reply.code));
      }
      var decoded := DecodeTokenBody(reply.body);
      if decoded.None? {
        return Err(MissingData);
      }
      var (token, expirationInMilliseconds) := decoded.value;
      authToken := Some(AuthToken(token, ExpirationSeconds(expirationInMilliseconds), vehicleID));
      result := Ok(token);
    }
  }
}
