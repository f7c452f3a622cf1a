/** The frontend's token refresher (`useAccessToken`): one token slot, one expiry slot and one
    timer slot. A fetch that succeeds stores the token and arms a refresh 5 s before expiry; a
    `null` token starts the consent-page redirect; a throw clears the token and arms a 5 s retry.
    Timers are ids held by the event loop (`pending`, id to delay in ms); `timeoutRef` is the id
    last armed, which stays set after its timer fires. Clock readings (`Date.now()`) are
    parameters. */
module AccessToken {
  import opened Wrappers
  import SpotifyOauth

  const RefreshMarginMs: int := 5000
  const RetryDelayMs: nat := 5000

  /** How one `fetchToken` call ends. `NullToken` carries the client id and redirect URI the
      redirect's own request returned, or `None` when that request threw. */
  datatype TokenFetch =
    | Token(accessToken: string, expiresInSeconds: int)
    | NullToken(oauthConfig: Option<(string, string)>)
    | Threw

  /** One `startSpotifyOauthFlow(href)` that got as far as assigning `window.location.href`:
      the client id and redirect URI its own fetch returned, and the path passed as state. The
      page is sent to `ConsentUrl(start)`. */
  datatype OauthStart = OauthStart(clientId: string, redirectUri: string, currentPath: string)

  /** The URL a redirect assigns to `window.location.href`. */
  function ConsentUrl(start: OauthStart): string {
    SpotifyOauth.StartSpotifyOauthFlow(start.clientId, start.redirectUri, start.currentPath)
  }

  /** `Math.max(expiresInSeconds * 1000 - 5000, 0)`. */
  function RefreshDelay(expiresInSeconds: int): (d: nat)
    ensures d >= expiresInSeconds * 1000 - RefreshMarginMs
    ensures d == expiresInSeconds * 1000 - RefreshMarginMs || d == 0
    ensures expiresInSeconds <= 5 <==> d == 0
  {
    var ms := expiresInSeconds * 1000 - RefreshMarginMs;
    if ms > 0 then ms else 0
  }

  /** Timers that all carry the id in `timeoutRef` number at most one. */
  lemma AtMostOnePending(pending: map<nat, nat>, timeoutRef: Option<nat>)
    requires forall id :: id in pending ==> timeoutRef == Some(id)
    ensures |pending| <= 1
    ensures pending != map[] ==> pending.Keys == {timeoutRef.value}
  {
    if pending != map[] {
      var id :| id in pending;
      assert pending.Keys == {timeoutRef.value};
      assert |pending.Keys| == 1;
    }
  }

  class AccessTokenHook {
    var accessToken: Option<string>
    var expiresAt: Option<int>
    var timeoutRef: Option<nat>
    var pending: map<nat, nat>
    var nextTimerId: nat
    /** `fetchToken` calls still awaiting their response. */
    var inFlight: nat
    /** Every consent-page redirect, oldest first. */
    var redirects: seq<OauthStart>

    /** No armed timer other than the one `timeoutRef` names. */
    ghost predicate Valid()
      reads this
    {
      forall id :: id in pending ==> timeoutRef == Some(id)
    }

    /** The state of a freshly rendered hook. */
    constructor ()
      ensures Valid()
      ensures accessToken == None && expiresAt == None && timeoutRef == None
      ensures pending == map[] && nextTimerId == 0 && inFlight == 0 && redirects == []
    {
      accessToken, expiresAt, timeoutRef := None, None, None;
      pending, nextTimerId, inFlight, redirects := map[], 0, 0, [];
    }

    /** The mount effect: one `fetchToken` call. */
    method Mount()
      modifies this
      ensures inFlight == old(inFlight) + 1
      ensures accessToken == old(accessToken) && expiresAt == old(expiresAt) && timeoutRef == old(timeoutRef)
      ensures pending == old(pending) && nextTimerId == old(nextTimerId) && redirects == old(redirects)
    {
      inFlight := inFlight + 1;
    }

    /** `clearTimeout(timeoutRef.current)` when set, then `setTimeout(fetchToken, delay)`. */
    method Rearm(delay: nat)
      requires Valid()
      modifies this`timeoutRef, this`pending, this`nextTimerId
      ensures Valid()
      ensures timeoutRef == Some(old(nextTimerId)) && nextTimerId == old(nextTimerId) + 1
      ensures pending == map[old(nextTimerId) := delay]
    {
      AtMostOnePending(pending, timeoutRef);
      if timeoutRef.Some? {
        pending := pending - {timeoutRef.value};
      }
      assert pending == map[];
      var id := nextTimerId;
      pending := pending[id := delay];
      timeoutRef := Some(id);
      nextTimerId := nextTimerId + 1;
    }

    /** The rest of one `fetchToken` call once its response (or its throw) is in; `now` is
        `Date.now()` and `href` is `window.location.href`. */
    method Resolve(now: int, outcome: TokenFetch, href: string)
      requires Valid() && inFlight > 0
      modifies this
      ensures Valid()
      ensures |pending| <= 1
      ensures inFlight == old(inFlight) - 1
      ensures outcome.Token? ==>
        && accessToken == Some(outcome.accessToken)
        && expiresAt == Some(now + outcome.expiresInSeconds * 1000)
        && pending == map[old(nextTimerId) := RefreshDelay(outcome.expiresInSeconds)]
        && timeoutRef == Some(old(nextTimerId)) && nextTimerId == old(nextTimerId) + 1
        && redirects == old(redirects)
      ensures (outcome.Threw? || outcome == NullToken(None)) ==>
        && accessToken == None && expiresAt == None
        && pending == map[old(nextTimerId) := RetryDelayMs]
        && timeoutRef == Some(old(nextTimerId)) && nextTimerId == old(nextTimerId) + 1
        && redirects == old(redirects)
      ensures outcome.NullToken? && outcome.oauthConfig.Some? ==>
        && accessToken == old(accessToken) && expiresAt == old(expiresAt)
        && pending == old(pending) && timeoutRef == old(timeoutRef) && nextTimerId == old(nextTimerId)
        && redirects == old(redirects) + [OauthStart(outcome.oauthConfig.value.0, outcome.oauthConfig.value.1, href)]
    {
      inFlight := inFlight - 1;
      match outcome {
        case Token(token, expiresInSeconds) =>
          accessToken := Some(token);
          expiresAt := Some(now + expiresInSeconds * 1000);
          Rearm(RefreshDelay(expiresInSeconds));
        case NullToken(Some((clientId, redirectUri))) =>
          redirects := redirects + [OauthStart(clientId, redirectUri, href)];
        case _ =>
          accessToken := None;
          expiresAt := None;
          Rearm(RetryDelayMs);
      }
      AtMostOnePending(pending, timeoutRef);
    }

    /** The event loop runs armed timer `id`: it leaves `pending` and calls `fetchToken`. */
    method TimerFired(id: nat)
      requires Valid() && id in pending
      modifies this
      ensures Valid()
      ensures pending == map[] && inFlight == old(inFlight) + 1
      ensures accessToken == old(accessToken) && expiresAt == old(expiresAt) && timeoutRef == old(timeoutRef)
      ensures nextTimerId == old(nextTimerId) && redirects == old(redirects)
    {
      AtMostOnePending(pending, timeoutRef);
      pending := pending - {id};
      inFlight := inFlight + 1;
    }

    /** The effect's teardown: clear the armed timer. A fetch already in flight is not stopped
        and may still arm a new one when it resolves. */
    method Unmount()
      requires Valid()
      modifies this
      ensures Valid()
      ensures pending == map[]
      ensures accessToken == old(accessToken) && expiresAt == old(expiresAt) && timeoutRef == old(timeoutRef)
      ensures inFlight == old(inFlight) && nextTimerId == old(nextTimerId) && redirects == old(redirects)
    {
      AtMostOnePending(pending, timeoutRef);
      if timeoutRef.Some? {
        pending := pending - {timeoutRef.value};
      }
    }
  }
}
