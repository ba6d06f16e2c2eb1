/**
 * The consumer app's token provider: hands the Consumer SDK a JWT for the
 * trip named in the authorization context, from its one-token cache
 * or from `token/consumer/{tripID}` on the provider backend.
 */
module ConsumerAuthTokenProvider {
  import opened Wire
  import opened AuthTokenCore

  const TokenPath := "token/consumer/"

  /**
   * The response handler: a transport error (which leaves no data) and a
   * body without a string `jwt` and an integral `expirationTimestamp` are
   * both `missingData`; otherwise the token is cached for the trip and
   * handed out.
   */
  function Respond(cached: Option<AuthToken>, tripID: string, reply: Reply): (r: (Option<AuthToken>, Result<string, TokenError>))
    ensures reply.TransportError? ==> r == (cached, Err(MissingData))
    ensures reply.Received? && DecodeTokenBody(reply.body).None? ==> r == (cached, Err(MissingData))
    ensures r.1.Err? ==> r.1.error == MissingData
    ensures reply.Received? && DecodeTokenBody(reply.body).Some? ==>
      r == (TokenFromBody(reply.body, tripID), Ok(DecodeTokenBody(reply.body).value.0))
  {
    match reply
    case TransportError(_) => (cached, Err(MissingData))
    case Received(body) =>
      match TokenFromBody(body, tripID)
      case None => (cached, Err(MissingData))
      case Some(token) => (Some(token), Ok(token.token))
  }

  /**
   * The token the backend just issued for a trip is what the next
   * request for that trip gets, straight from the cache, until it
   * expires.
   */
  lemma {:induction false} FetchAfterResponseUsesCache(cached: Option<AuthToken>, tripID: string, reply: Reply, now: real)
    requires Respond(cached, tripID, reply).1.Ok?
    requires now < Respond(cached, tripID, reply).0.value.expiration
    ensures Fetch(Respond(cached, tripID, reply).0, Some(tripID), now, TokenPath)
         == Completed(Respond(cached, tripID, reply).1)
  {
    StoredTokenIsReused(reply.body, tripID, now, TokenPath);
  }

  /**
   * The cache has one slot: once a token for one trip is stored, a
   * request for any other trip goes to the backend again.
   */
  lemma {:induction false} SuccessEvictsOtherTrip(cached: Option<AuthToken>, tripID: string, reply: Reply, other: string, now: real)
    requires Respond(cached, tripID, reply).1.Ok?
    requires other != tripID
    ensures Respond(cached, tripID, reply).0.Some?
    ensures Fetch(Respond(cached, tripID, reply).0, Some(other), now, TokenPath)
         == Requested(TokenRequest(TokenPath, other), other)
  {
    var stored := Respond(cached, tripID, reply).0;
    StaleOrForeignTokenRefetched(stored.value, other, now, TokenPath);
  }

  class AuthTokenProvider {
    /** The cached token. */
    var authToken: Option<AuthToken>

    constructor()
      ensures authToken == None
    {
      authToken := None;
    }

    /**
     * `fetchToken(with:completion:)` up to the network call: it never
     * changes the cache.
     */
    method FetchToken(context: Option<string>, now: real) returns (outcome: FetchOutcome)
      ensures outcome == Fetch(authToken, context, now, TokenPath)
      ensures outcome.Requested? ==> outcome.request.url.path == "/token/consumer/" + context.value
    {
      if context.None? {
        return Completed(Err(MissingAuthorizationContext));
      }
      var tripID := context.value;
      if authToken.Some? && authToken.value.expiration > now && authToken.value.subjectID == tripID {
        return Completed(Ok(authToken.value.token));
      }
      outcome := Requested(TokenRequest(TokenPath, tripID), tripID);
    }

    /** The data task's completion handler for a request made for `tripID`. */
    method OnTokenResponse(tripID: string, reply: Reply) returns (result: Result<string, TokenError>)
      modifies this
      ensures (authToken, result) == Respond(old(authToken), tripID, reply)
    {
      var decoded := if reply.Received? then DecodeTokenBody(reply.body) else None;
      if decoded.None? {
        return Err(MissingData);
      }
      var (token, expirationInMilliseconds) := decoded.value;
      authToken := Some(AuthToken(token, ExpirationSeconds(expirationInMilliseconds), tripID));
      result := Ok(token);
    }
  }
}
