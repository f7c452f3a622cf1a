/** The backend's Spotify client: an app token obtained with the OAuth 2.0 client-credentials
    grant (section 4.4 of RFC 6749), cached with an expiry one minute early, and the track search
    that needs it. Time is the monotonic clock (`Instant`) read as an integer number of
    nanoseconds; every clock reading is a parameter. */
module Spotify {
  import opened Wrappers
  import SerdeJson

  const NanosPerSecond: int := 1_000_000_000
  /** The cached token is treated as expired this many seconds before the issuer says. */
  const EarlyExpirySeconds: int := 60

  /** `SpotifyError`, plus `SendPanic` for the `.expect` on a failed token request send. */
  datatype SpotifyError =
    | Http        // transport failure or a body that does not decode
    | Api(status: int)
    | MissingToken
    | SendPanic

  datatype CachedToken = CachedToken(token: string, expiresAt: int)

  /** A success body decoded as `SpotifyTokenResponse` (`expires_in` as in section 5.1 of
      RFC 6749), or a body that does not decode as one. */
  datatype TokenBody = Undecodable | TokenJson(accessToken: string, expiresIn: nat)

  /** What the token endpoint does with the request. */
  datatype TokenReply = SendFailed | Reply(status: int, body: TokenBody)

  /** reqwest's `StatusCode::is_success`: a 2xx status. */
  predicate IsSuccess(status: int) {
    200 <= status < 300
  }

  /** `request_new_token`: the status check, the empty-token check and the expiry computation.
      `now` is the clock reading taken once the reply has arrived. */
  function RequestNewToken(reply: TokenReply, now: int): (r: Result<CachedToken, SpotifyError>)
    ensures r.Success? <==>
      reply.Reply? && IsSuccess(reply.status) && reply.body.TokenJson? && reply.body.accessToken != ""
    ensures r.Success? ==> r.value.token == reply.body.accessToken && r.value.token != ""
    ensures r.Success? ==>
      r.value.expiresAt == now + (reply.body.expiresIn - EarlyExpirySeconds) * NanosPerSecond
    ensures reply.SendFailed? ==> r == Failure(SendPanic)
    ensures reply.Reply? && !IsSuccess(reply.status) ==> r == Failure(Api(reply.status))
    ensures reply.Reply? && IsSuccess(reply.status) && reply.body.Undecodable? ==> r == Failure(Http)
    ensures reply.Reply? && IsSuccess(reply.status) && reply.body.TokenJson? && reply.body.accessToken == "" ==>
      r == Failure(MissingToken)
  {
    match reply
    case SendFailed => Failure(SendPanic)
    case Reply(status, body) =>
      if !IsSuccess(status) then Failure(Api(status))
      else match body
        case Undecodable => Failure(Http)
        case TokenJson(accessToken, expiresIn) =>
          if accessToken == "" then Failure(MissingToken)
          else Success(CachedToken(accessToken,
                                   now + expiresIn * NanosPerSecond - EarlyExpirySeconds * NanosPerSecond))
  }

  /** The cache-hit test of `get_spotify_token`. */
  predicate IsFresh(cache: Option<CachedToken>, now: int) {
    cache.Some? && cache.value.token != "" && now < cache.value.expiresAt
  }

  /** The cache afterwards, the value returned, and whether a token request was sent. */
  datatype TokenStep = TokenStep(cache: Option<CachedToken>, result: Result<string, SpotifyError>, requested: bool)

  /** `get_spotify_token` as a function of the cache before the call. `now` is the reading of
      the freshness check, `fetchedAt` the one taken inside `request_new_token`. */
  function GetTokenStep(cache: Option<CachedToken>, now: int, reply: TokenReply, fetchedAt: int): (s: TokenStep)
    ensures s.requested <==> !IsFresh(cache, now)
    ensures !s.requested ==> s.cache == cache && s.result == Success(cache.value.token)
    ensures s.requested && RequestNewToken(reply, fetchedAt).Success? ==>
      s.cache == Some(RequestNewToken(reply, fetchedAt).value) && s.result == Success(s.cache.value.token)
    ensures s.requested && RequestNewToken(reply, fetchedAt).Failure? ==>
      s.cache == cache && s.result == Failure(RequestNewToken(reply, fetchedAt).error)
  {
    if IsFresh(cache, now) then TokenStep(cache, Success(cache.value.token), false)
    else match RequestNewToken(reply, fetchedAt)
      case Success(entry) => TokenStep(Some(entry), Success(entry.token), true)
      case Failure(e) => TokenStep(cache, Failure(e), true)
  }

  /** Whatever the cache held, a served token is never empty. */
  lemma ServedTokenNonEmpty(cache: Option<CachedToken>, now: int, reply: TokenReply, fetchedAt: int)
    ensures GetTokenStep(cache, now, reply, fetchedAt).result.Success? ==>
      GetTokenStep(cache, now, reply, fetchedAt).result.value != ""
  {
  }

  /** A token stored with a lifetime of at most 60 seconds is already expired: the next call,
      at any clock reading from the store on, sends a new request. */
  lemma ShortLifetimeAlwaysRefetches(cache: Option<CachedToken>, now: int, reply: TokenReply, fetchedAt: int,
                                     later: int, reply2: TokenReply, fetchedAt2: int)
    requires !IsFresh(cache, now) && RequestNewToken(reply, fetchedAt).Success?
    requires reply.body.expiresIn <= EarlyExpirySeconds
    requires fetchedAt <= later
    ensures GetTokenStep(GetTokenStep(cache, now, reply, fetchedAt).cache, later, reply2, fetchedAt2).requested
  {
  }

  /** A freshly stored token is served from the cache, without a request, until its expiry. */
  lemma StoredTokenServedUntilExpiry(cache: Option<CachedToken>, now: int, reply: TokenReply, fetchedAt: int,
                                     later: int, reply2: TokenReply, fetchedAt2: int)
    requires !IsFresh(cache, now) && RequestNewToken(reply, fetchedAt).Success?
    requires later < RequestNewToken(reply, fetchedAt).value.expiresAt
    ensures var first := GetTokenStep(cache, now, reply, fetchedAt);
            var second := GetTokenStep(first.cache, later, reply2, fetchedAt2);
            !second.requested && second.result == first.result && second.cache == first.cache
  {
  }

  /** What the search endpoint does with the request. */
  datatype SearchReply = SearchSendFailed | SearchResponse(status: int, body: Option<SerdeJson.Value>)

  /** The search request `search_tracks` sends: query `q`, `type=track`, bearer token. */
  datatype SearchRequest = SearchRequest(query: string, searchType: string, bearer: string)

  /** The tail of `search_tracks` once the request has been sent. */
  function SearchOutcome(reply: SearchReply): (r: Result<SerdeJson.Value, SpotifyError>)
    ensures r.Success? <==> reply.SearchResponse? && IsSuccess(reply.status) && reply.body.Some?
    ensures r.Success? ==> r.value == reply.body.value
    ensures reply.SearchResponse? && !IsSuccess(reply.status) ==> r == Failure(Api(reply.status))
    ensures reply.SearchSendFailed? ==> r == Failure(Http)
    ensures reply.SearchResponse? && IsSuccess(reply.status) && reply.body.None? ==> r == Failure(Http)
  {
    match reply
    case SearchSendFailed => Failure(Http)
    case SearchResponse(status, body) =>
      if !IsSuccess(status) then Failure(Api(status))
      else match body
        case None => Failure(Http)
        case Some(json) => Success(json)
  }

  class SpotifyClient {
    const clientId: string
    const clientSecret: string
    var tokenCache: Option<CachedToken>

    /** `SpotifyClient::new`, with the two environment variables passed in. */
    constructor (clientId: string, clientSecret: string)
      ensures this.clientId == clientId && this.clientSecret == clientSecret
      ensures tokenCache == None
    {
      this.clientId := clientId;
      this.clientSecret := clientSecret;
      tokenCache := None;
    }

    /** `get_spotify_token`: serve the cached token while fresh, otherwise request one, store it
        and return it. A failed request leaves the cache as it was. */
    method GetSpotifyToken(now: int, reply: TokenReply, fetchedAt: int)
      returns (r: Result<string, SpotifyError>, requested: bool)
      modifies this
      ensures TokenStep(tokenCache, r, requested) == GetTokenStep(old(tokenCache), now, reply, fetchedAt)
      ensures requested <==> !IsFresh(old(tokenCache), now)
      ensures r.Failure? ==> tokenCache == old(tokenCache)
      ensures r.Success? ==> tokenCache.Some? && r.value == tokenCache.value.token
    {
      if tokenCache.Some? {
        var cached := tokenCache.value;
        if cached.token != "" && now < cached.expiresAt {
          return Success(cached.token), false;
        }
      }
      requested := true;
      var fetched := RequestNewToken(reply, fetchedAt);
      if fetched.Failure? {
        return Failure(fetched.error), requested;
      }
      var newToken := fetched.value;
      var token := newToken.token;
      tokenCache := Some(newToken);
      r := Success(token);
    }

    /** `search_tracks`: obtain a token first; when none can be obtained its error is returned
        and no search is sent. */
    method SearchTracks(query: string, now: int, tokenReply: TokenReply, fetchedAt: int, searchReply: SearchReply)
      returns (r: Result<SerdeJson.Value, SpotifyError>, issued: Option<SearchRequest>)
      modifies this
      ensures var step := GetTokenStep(old(tokenCache), now, tokenReply, fetchedAt);
              && tokenCache == step.cache
              && (step.result.Failure? ==> issued == None && r == Failure(step.result.error))
              && (step.result.Success? ==>
                    issued == Some(SearchRequest(query, "track", step.result.value)) && r == SearchOutcome(searchReply))
    {
      var token, _ := GetSpotifyToken(now, tokenReply, fetchedAt);
      if token.Failure? {
        return Failure(token.error), None;
      }
      issued := Some(SearchRequest(query, "track", token.value));
      r := SearchOutcome(searchReply);
    }
  }
}
