/** The frontend's playback hook (`useSpotifyPlayer`) as a state machine. Renders run React's
    two effects under their dependency lists; the Web Playback SDK's callbacks (the global ready
    callback, the player's `ready` event, `connect()` settling) are separate steps. Players are
    numbered in creation order. Requests are recorded, not sent. */
module SpotifyPlayer {
  import opened Wrappers
  import Js
  import QueryString

  const SdkScriptUrl := "https://sdk.scdn.co/spotify-player.js"
  const PlayEndpoint := "https://api.spotify.com/v1/me/player/play"

  /** One `new Spotify.Player(...)`: the token its `getOAuthToken` hands out, whether its
      `connect()` is still pending, its `canceled` local, and how often it was disconnected. */
  datatype Player = Player(token: string, connecting: bool, canceled: bool, disconnects: nat)

  /** One `PUT` to the play endpoint: URL, `Authorization` header and the `uris` of its body. */
  datatype PlayRequest = PlayRequest(url: string, authorization: string, uris: seq<string>)

  /** `${accessToken}` in a template literal. */
  function TokenText(accessToken: Option<string>): (t: string)
    ensures accessToken.Some? ==> t == accessToken.value
    ensures accessToken.None? ==> t == "null"
  {
    if accessToken.Some? then accessToken.value else "null"
  }

  /** `https://api.spotify.com/v1/me/player/play?device_id=${deviceId}`. */
  function PlayUrl(deviceId: string): string {
    PlayEndpoint + "?device_id=" + deviceId
  }

  /** The play effect's request, if its guard lets one through. */
  function PlayRequestFor(hasPlayer: bool, deviceId: Option<string>, accessToken: Option<string>,
                          trackId: string): (r: Option<PlayRequest>)
    ensures r.Some? <==> hasPlayer && Js.Truthy(Js.OfNullable(deviceId))
    ensures r.Some? ==> r.value.url == PlayUrl(deviceId.value)
    ensures r.Some? ==> r.value.authorization == "Bearer " + TokenText(accessToken)
    ensures r.Some? ==> r.value.uris == ["spotify:track:" + trackId]
  {
    if !hasPlayer || !Js.Truthy(Js.OfNullable(deviceId)) then None
    else Some(PlayRequest(PlayUrl(deviceId.value), "Bearer " + TokenText(accessToken),
                          ["spotify:track:" + trackId]))
  }

  lemma PlayUrlPieces()
    ensures "?device_id=" == "?" + ("device_id" + "=")
    ensures '?' !in PlayEndpoint
  {
  }

  /** The play URL carries exactly one query parameter, `device_id`, whose value is the device
      id as given (it is not encoded) as long as it holds no `&`. */
  lemma PlayUrlDeviceId(deviceId: string)
    requires '&' !in deviceId
    ensures QueryString.QueryParams(PlayUrl(deviceId)) == [("device_id", deviceId)]
  {
    var ps := [("device_id", deviceId)];
    assert QueryString.Render(ps) == "device_id" + "=" + deviceId;
    PlayUrlPieces();
    assert PlayUrl(deviceId) == PlayEndpoint + "?" + QueryString.Render(ps);
    QueryString.QueryOfRender(PlayEndpoint, ps);
  }

  class PlayerHook {
    var playerRef: Option<nat>
    var deviceId: Option<string>
    /** The `src` of every `<script>` appended to the document, oldest first. */
    var scripts: seq<string>
    /** The token captured by `window.onSpotifyWebPlaybackSDKReady`, once assigned. */
    var sdkReady: Option<string>
    var players: seq<Player>
    var playRequests: seq<PlayRequest>
    /** The last dependencies of each effect; `None` before the first render. */
    var connectDeps: Option<Option<string>>
    var playDeps: Option<(Option<string>, Option<string>, string)>
    /** Whether React holds the connect effect's teardown. */
    var teardownHeld: bool

    /** `canceled` is never set, since the SDK discards the ready callback's returned cleanup;
        every player was made with a truthy token; `playerRef` names a player. */
    ghost predicate Valid()
      reads this
    {
      && (forall p :: 0 <= p < |players| ==> !players[p].canceled && players[p].token != "")
      && (sdkReady.Some? ==> sdkReady.value != "")
      && (playerRef.Some? ==> playerRef.value < |players|)
    }

    constructor ()
      ensures Valid()
      ensures playerRef == None && deviceId == None && scripts == [] && sdkReady == None
      ensures players == [] && playRequests == [] && connectDeps == None && playDeps == None
      ensures !teardownHeld
    {
      playerRef, deviceId, scripts, sdkReady := None, None, [], None;
      players, playRequests, connectDeps, playDeps, teardownHeld := [], [], None, None, false;
    }

    /** `playerRef.current?.disconnect()`. */
    method DisconnectCurrent()
      requires Valid()
      modifies this`players
      ensures Valid() && |players| == |old(players)|
      ensures forall p :: 0 <= p < |players| && playerRef != Some(p) ==> players[p] == old(players[p])
      ensures playerRef.Some? ==>
        players[playerRef.value] == old(players[playerRef.value]).(disconnects := old(players[playerRef.value]).disconnects + 1)
    {
      if playerRef.Some? {
        var p := playerRef.value;
        players := players[p := players[p].(disconnects := players[p].disconnects + 1)];
      }
    }

    /** The connect effect, run when `accessToken` changed: the old teardown, then, with a
        truthy token, one more SDK script and a ready callback capturing this token. */
    method ConnectEffect(accessToken: Option<string>)
      requires Valid()
      modifies this
      ensures Valid()
      ensures connectDeps == Some(accessToken)
      ensures playerRef == old(playerRef) && deviceId == old(deviceId) && playRequests == old(playRequests)
      ensures playDeps == old(playDeps) && |players| == |old(players)|
      ensures !old(teardownHeld) ==> players == old(players)
      ensures old(teardownHeld) ==>
        forall p :: 0 <= p < |players| && playerRef != Some(p) ==> players[p] == old(players[p])
      ensures old(teardownHeld) && playerRef.Some? ==>
        players[playerRef.value] == old(players[playerRef.value]).(disconnects := old(players[playerRef.value]).disconnects + 1)
      ensures !Js.Truthy(Js.OfNullable(accessToken)) ==>
        scripts == old(scripts) && sdkReady == old(sdkReady) && !teardownHeld
      ensures Js.Truthy(Js.OfNullable(accessToken)) ==>
        scripts == old(scripts) + [SdkScriptUrl] && sdkReady == accessToken && teardownHeld
    {
      if teardownHeld {
        DisconnectCurrent();
      }
      connectDeps := Some(accessToken);
      if !Js.Truthy(Js.OfNullable(accessToken)) {
        teardownHeld := false;
        return;
      }
      scripts := scripts + [SdkScriptUrl];
      sdkReady := accessToken;
      teardownHeld := true;
    }

    /** The play effect, run when `accessToken`, `deviceId` or `trackId` changed. */
    method PlayEffect(accessToken: Option<string>, trackId: string)
      requires Valid()
      modifies this`playRequests, this`playDeps
      ensures Valid()
      ensures playDeps == Some((accessToken, deviceId, trackId))
      ensures var r := PlayRequestFor(playerRef.Some?, deviceId, accessToken, trackId);
        playRequests == old(playRequests) + (if r.Some? then [r.value] else [])
    {
      playDeps := Some((accessToken, deviceId, trackId));
      var r := PlayRequestFor(playerRef.Some?, deviceId, accessToken, trackId);
      if r.Some? {
        playRequests := playRequests + [r.value];
      }
    }

    /** One render: each effect whose dependencies changed runs, the connect effect first.
        `playerRef` is not a dependency, so a player connecting later does not by itself
        trigger a play request. */
    method Render(accessToken: Option<string>, trackId: string)
      requires Valid()
      modifies this
      ensures Valid()
      ensures playerRef == old(playerRef) && deviceId == old(deviceId) && |players| == |old(players)|
      ensures connectDeps == Some(accessToken) && playDeps == Some((accessToken, deviceId, trackId))
      ensures old(connectDeps) == Some(accessToken) ==>
        scripts == old(scripts) && sdkReady == old(sdkReady) && players == old(players)
        && teardownHeld == old(teardownHeld)
      ensures old(connectDeps) != Some(accessToken) ==> teardownHeld == Js.Truthy(Js.OfNullable(accessToken))
      ensures old(connectDeps) != Some(accessToken) && old(teardownHeld) ==>
        forall p :: 0 <= p < |players| && playerRef != Some(p) ==> players[p] == old(players[p])
      ensures old(connectDeps) != Some(accessToken) && old(teardownHeld) && playerRef.Some? ==>
        players[playerRef.value] == old(players[playerRef.value]).(disconnects := old(players[playerRef.value]).disconnects + 1)
      ensures !(old(connectDeps) != Some(accessToken) && old(teardownHeld)) ==> players == old(players)
      ensures !Js.Truthy(Js.OfNullable(accessToken)) ==> scripts == old(scripts) && sdkReady == old(sdkReady)
      ensures old(connectDeps) != Some(accessToken) && Js.Truthy(Js.OfNullable(accessToken)) ==>
        scripts == old(scripts) + [SdkScriptUrl] && sdkReady == accessToken
      ensures old(playDeps) == Some((accessToken, deviceId, trackId)) ==> playRequests == old(playRequests)
      ensures old(playDeps) != Some((accessToken, deviceId, trackId)) ==>
        var r := PlayRequestFor(playerRef.Some?, deviceId, accessToken, trackId);
        playRequests == old(playRequests) + (if r.Some? then [r.value] else [])
    {
      if connectDeps != Some(accessToken) {
        ConnectEffect(accessToken);
      }
      if playDeps != Some((accessToken, deviceId, trackId)) {
        PlayEffect(accessToken, trackId);
      }
    }

    /** The SDK calls `window.onSpotifyWebPlaybackSDKReady`: a new player with the captured
        token, its `ready` listener, and a pending `connect()`. */
    method SdkLoaded()
      requires Valid() && sdkReady.Some?
      modifies this`players
      ensures Valid()
      ensures players == old(players) + [Player(sdkReady.value, true, false, 0)]
    {
      players := players + [Player(sdkReady.value, true, false, 0)];
    }

    /** Player `p` fires `ready`: `deviceId` takes its id whether or not `p` is the current
        player or was canceled. */
    method ReadyEvent(p: nat, id: string)
      requires Valid() && p < |players|
      modifies this`deviceId
      ensures Valid() && deviceId == Some(id)
    {
      deviceId := Some(id);
    }

    /** Player `p`'s `connect()` resolves to `ok`: it becomes `playerRef` only when `ok` and not
        canceled; otherwise `playerRef` is unchanged. */
    method ConnectSettled(p: nat, ok: bool)
      requires Valid() && p < |players| && players[p].connecting
      modifies this`players, this`playerRef
      ensures Valid()
      ensures players == old(players)[p := old(players[p]).(connecting := false)]
      ensures ok && !old(players[p].canceled) ==> playerRef == Some(p)
      ensures !ok || old(players[p].canceled) ==> playerRef == old(playerRef)
    {
      players := players[p := players[p].(connecting := false)];
      if ok && !players[p].canceled {
        playerRef := Some(p);
      }
    }

    /** Unmount: the held connect teardown disconnects `playerRef.current` and nothing else. */
    method Unmount()
      requires Valid()
      modifies this`players, this`teardownHeld
      ensures Valid()
      ensures |players| == |old(players)|
      ensures forall p :: 0 <= p < |players| && (playerRef != Some(p) || !old(teardownHeld)) ==>
        players[p] == old(players[p])
      ensures old(teardownHeld) && playerRef.Some? ==>
        players[playerRef.value] == old(players[playerRef.value]).(disconnects := old(players[playerRef.value]).disconnects + 1)
      ensures !teardownHeld
    {
      if teardownHeld {
        DisconnectCurrent();
      }
      teardownHeld := false;
    }
  }
}
