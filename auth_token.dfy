/**
 * What the driver's and the consumer's token providers share: the cached
 * token, the decision between answering from the cache and asking the
 * provider backend, and the decoding of the backend's token response.
 * The two providers differ in the token path, in the ID the token is
 * scoped to (a vehicle or a trip) and in how a transport failure is
 * reported.
 */
module AuthTokenCore {
  import opened Wire
  import ProviderUtils

  const TokenKey := "jwt"
  const TokenExpirationKey := "expirationTimestamp"

  /**
   * A cached token: the JWT, its expiry in seconds since 1970 and the ID
   * (vehicle or trip) it was issued for.
   */
  datatype AuthToken = AuthToken(token: string, expiration: real, subjectID: string)

  datatype TokenError = MissingAuthorizationContext | MissingData | MissingURL | Transport(code: int)

  /**
   * What a call to fetchToken does before any response arrives: it
   * completes at once (from the cache, or with an error), or it sends a
   * request and completes when the response arrives.
   */
  datatype FetchOutcome = Completed(result: Result<string, TokenError>) | Requested(request: Request, subjectID: string)

  /** A cached token is reused while it has not expired and was issued for the same ID. */
  predicate IsReusable(cached: AuthToken, subjectID: string, now: real) {
    cached.expiration > now && cached.subjectID == subjectID
  }

  /** `URL(string: id, relativeTo: providerURL(path: tokenPath))`. */
  function TokenRequest(tokenPath: string, subjectID: string): (req: Request)
    ensures req.verb == GET && req.body.None? && req.headers == map[]
    ensures req.url == ProviderUtils.AppendSegment(ProviderUtils.ProviderURL(tokenPath), subjectID)
  {
    Request(GET, ProviderUtils.AppendSegment(ProviderUtils.ProviderURL(tokenPath), subjectID), map[], None)
  }

  /**
   * fetchToken up to the network call. The authorization context is
   * reduced to the ID it carries (`None` for a missing context).
   */
  function Fetch(cached: Option<AuthToken>, context: Option<string>, now: real, tokenPath: string): (r: FetchOutcome)
    ensures context.None? <==> r == Completed(Err(MissingAuthorizationContext))
    ensures context.Some? && cached.Some? && IsReusable(cached.value, context.value, now) ==>
      r == Completed(Ok(cached.value.token))
    ensures r.Requested? <==> context.Some? && !(cached.Some? && IsReusable(cached.value, context.value, now))
    ensures r.Requested? ==> r.subjectID == context.value && r.request == TokenRequest(tokenPath, context.value)
  {
    match context
    case None => Completed(Err(MissingAuthorizationContext))
    case Some(subjectID) =>
      if cached.Some? && IsReusable(cached.value, subjectID, now) then Completed(Ok(cached.value.token))
      else Requested(TokenRequest(tokenPath, subjectID), subjectID)
  }

  /**
   * The token response body: an object with a string `jwt` and an
   * integral `expirationTimestamp` in milliseconds.
   */
  function DecodeTokenBody(body: Option<Json>): (r: Option<(string, int)>)
    ensures r.Some? <==>
      BodyObject(body).Some? && StringField(BodyObject(body).value, TokenKey).Some? &&
      IntField(BodyObject(body).value, TokenExpirationKey).Some?
    ensures r.Some? ==>
      body.value.fields[TokenKey] == JString(r.value.0) &&
      body.value.fields[TokenExpirationKey] == JNumber(r.value.1 as real)
  {
    match BodyObject(body)
    case None => None
    case Some(fetchData) =>
      match (StringField(fetchData, TokenKey), IntField(fetchData, TokenExpirationKey))
      case (Some(token), Some(expirationInMilliseconds)) => Some((token, expirationInMilliseconds))
      case _ => None
  }

  /** Milliseconds since 1970 as the seconds the cache compares against. */
  function ExpirationSeconds(milliseconds: int): (seconds: real)
    ensures seconds * 1000.0 == milliseconds as real
  {
    milliseconds as real / 1000.0
  }

  /** The token a well-formed response is cached as. */
  function TokenFromBody(body: Option<Json>, subjectID: string): (t: Option<AuthToken>)
    ensures t.Some? <==> DecodeTokenBody(body).Some?
    ensures t.Some? ==>
      t.value.subjectID == subjectID && t.value.token == DecodeTokenBody(body).value.0 &&
      t.value.expiration * 1000.0 == DecodeTokenBody(body).value.1 as real
  {
    match DecodeTokenBody(body)
    case None => None
    case Some((token, ms)) => Some(AuthToken(token, ExpirationSeconds(ms), subjectID))
  }

  /**
   * A token just stored is served from the cache, without a second
   * request, to every later call for the same ID made before it expires.
   */
  lemma StoredTokenIsReused(body: Option<Json>, subjectID: string, now: real, tokenPath: string)
    requires TokenFromBody(body, subjectID).Some?
    requires now < TokenFromBody(body, subjectID).value.expiration
    ensures Fetch(TokenFromBody(body, subjectID), Some(subjectID), now, tokenPath)
         == Completed(Ok(DecodeTokenBody(body).value.0))
  {
  }

  /** A cached token for another ID, or an expired one, is never handed out. */
  lemma StaleOrForeignTokenRefetched(cached: AuthToken, subjectID: string, now: real, tokenPath: string)
    requires cached.subjectID != subjectID || cached.expiration <= now
    ensures Fetch(Some(cached), Some(subjectID), now, tokenPath) == Requested(TokenRequest(tokenPath, subjectID), subjectID)
  {
  }
}
