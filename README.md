# chordmate Spotify session core in Dafny

This project models the part of chordmate that deals with Spotify. It has two halves.

**Backend (Rust).** The `SpotifyClient` runs the client-credentials flow:
- it caches one token and serves it while it is non-empty and not yet at its expiry;
- the expiry is set 60 s early;
- otherwise it asks the token endpoint again and stores the new token.

`search_tracks` sends a track search with that token. The GraphQL resolver `search_spotify_tracks` turns the JSON reply into `SpotifyTrack` records. It drops items without a string `id`, a string `name` or an `artists` array. `preview_url` and `album_art` are optional.

**Frontend (TypeScript/React).** The pieces are:
- `useAccessToken`: a refresh loop with a single timer slot. It refreshes 5 s before expiry, retries 5 s after a failure, and redirects to the consent page when the backend has no token.
- Two consent-page URL builders. One is in `spotifyoauth.ts`, the other in `SpotifySearchModal.tsx`. Both percent-encode their scope and state with `encodeURIComponent`.
- The search modal's error handler. It starts the consent flow when some GraphQL error is `UNAUTHENTICATED`.
- The search modal's blank-query guard.
- `useTrackInfo`: a track-metadata loader whose stale responses are ignored.
- `useSpotifyPlayer`: the Web Playback SDK connect lifecycle and the play request.

Modules and files:

| file | module | models |
|---|---|---|
| `wrappers.dfy` | `Wrappers` | `Option` and `Result` |
| `sequences.dfy` | `Sequences` | Rust's `filter_map`, with its algebra |
| `serde_json.dfy` | `SerdeJson` | `serde_json::Value` and the accessors the resolver uses: `[]`, `get`, `as_str`, `as_array`, `get(0)` |
| `spotify.dfy` | `Spotify` | `backend/src/spotify.rs`: the token cache as a `class` with a `tokenCache` field, plus pure step functions that specify it |
| `ql_query.dfy` | `QlQuery` | the `search_spotify_tracks` resolver |
| `uri_component.dfy` | `UriComponent` | ECMA-262 `encodeURIComponent` over full Unicode. A matching decoder (`decodeURIComponent`) serves as its inverse |
| `query_string.dfy` | `QueryString` | a plain `&`/`=` query-string reader, the partner of the URL templates |
| `spotify_oauth.dfy` | `SpotifyOauth` | `frontend/src/spotifyoauth.ts` |
| `js_value.dfy` | `Js` | JavaScript values and the operations the frontend relies on: truthiness, `typeof`, `in`, property reads that throw, `?.`, `??` |
| `search_modal.dfy` | `SearchModal` | `SpotifySearchModal.tsx`: the second URL builder, `handleError`, trimming, the search effect |
| `access_token.dfy` | `AccessToken` | `useAccessToken` as a class |
| `track_info.dfy` | `TrackInfo` | `useTrackInfo` as a class |
| `spotify_player.dfy` | `SpotifyPlayer` | `useSpotifyPlayer` as a class |

Time, network replies and SDK events are parameters of the operations:
- Backend clock: `Instant` is an integer count of nanoseconds.
- Backend clock readings: `get_spotify_token` reads the clock twice. `now` is the freshness check at line 85. `fetchedAt` is the `Instant::now()` at line 76, after the token reply arrives.
- Frontend clock: `Date.now()` is a parameter of `Resolve`.
- Frontend timers: each timer is an id in a `pending` map from id to delay.
- React: the hooks are classes whose `Render` methods apply React's dependency check. `setState` is an immediate field update.

Facts about the code that the model keeps as they are:
- The SDK script is appended again for every new truthy token; nothing guards against re-injection.
- The player's token callback hands out the token captured when the effect ran, not the latest one.
- The inner cleanup returned by `window.onSpotifyWebPlaybackSDKReady` is discarded by its caller, so `canceled` is never set. `SpotifyPlayer.PlayerHook.Valid` records this, and a player made for an old token can still become `playerRef`.
- On token loss only `playerRef.current` is disconnected. `deviceId` and `playerRef` are not cleared.
- `useAccessToken`'s in-flight fetch carries no liveness flag. A fetch that resolves after unmount still arms a timer.
- The code has no active-devices fallback, playback-state poll, seek/volume debouncer or volume curve.

## Model

| member | source | states |
|---|---|---|
| SerdeJson.Index | backend/src/ql_query.rs:52-60 | `v[key]` is the field when `v` is an object holding `key`, and `Null` otherwise |
| SerdeJson.Get | backend/src/ql_query.rs:65-72 | `get` is `Some` exactly when `v` is an object holding `key`, and then it is that field |
| SerdeJson.AsStr | backend/src/ql_query.rs:58-59 | `as_str` is `Some` exactly on strings, and yields the string |
| SerdeJson.AsArray | backend/src/ql_query.rs:52-54 | `as_array` is `Some` exactly on arrays, and yields the items |
| SerdeJson.First | backend/src/ql_query.rs:71 | `get(0)` is `Some` exactly on a non-empty array, and yields the first item |
| Sequences.FilterMap | backend/src/ql_query.rs:55-56 | `filter_map` never yields more elements than its input |
| Sequences.FilterMapAppend | backend/src/ql_query.rs:55-76 | `filter_map` over a concatenation is the concatenation of the two results, so input order is kept |
| Sequences.FilterMapSingleton | backend/src/ql_query.rs:56-75 | on one element, `filter_map` yields `f`'s value or nothing |
| Sequences.FilterMapMember | backend/src/ql_query.rs:56-76 | `y` is in the result exactly when `f` maps some input element to `Some(y)` |
| Sequences.FilterMapAllKept | backend/src/ql_query.rs:56-76 | when `f` keeps every element, the result follows the input one to one |
| Spotify.RequestNewToken | backend/src/spotify.rs:50-79 | Success comes exactly from a 2xx reply with a decodable body and a non-empty token. The stored expiry is `fetchedAt + (expires_in - 60) s`. A send failure is the `.expect` panic. A non-2xx status is `Api(status)`, an undecodable body is `Http`, an empty token is `MissingToken` |
| Spotify.GetTokenStep | backend/src/spotify.rs:81-96 | A request is made exactly when the cache holds no non-empty token with `now < expires_at`. A hit serves the cached token and leaves the cache alone. A successful miss stores and serves the new token. A failed miss returns the error and keeps the old cache |
| Spotify.ServedTokenNonEmpty | backend/src/spotify.rs:70-86 | every token `get_spotify_token` serves is non-empty |
| Spotify.ShortLifetimeAlwaysRefetches | backend/src/spotify.rs:74-87 | a token with `expires_in <= 60` is already stale when stored, so the next call requests again |
| Spotify.StoredTokenServedUntilExpiry | backend/src/spotify.rs:84-95 | after a successful refresh, any later call before the stored expiry serves the stored token without a request |
| Spotify.SearchOutcome | backend/src/spotify.rs:101-118 | the search succeeds exactly on a 2xx reply with a JSON body and returns that body. A non-2xx status is `Api(status)`; a send or decode failure is `Http` |
| Spotify.SpotifyClient.constructor | backend/src/spotify.rs:40-48 | the client stores its credentials and starts with an empty cache |
| Spotify.SpotifyClient.GetSpotifyToken | backend/src/spotify.rs:81-96 | the served result, the request flag and the new cache are exactly `GetTokenStep` of the old cache. A failure leaves the cache unchanged. A success serves the cached token |
| Spotify.SpotifyClient.SearchTracks | backend/src/spotify.rs:98-119 | The token is obtained first. If that fails, no search is issued and the token error is returned. Otherwise exactly one search `(query, "track", bearer token)` is issued and its reply decides the result |
| QlQuery.TrackOf | backend/src/ql_query.rs:56-75 | An item is kept exactly when it has string `id` and `name` and an `artists` array. `artists` are the string `name`s of the entries. `preview_url` is kept exactly when it is a string. `album_art` is kept exactly when `album.images[0].url` is a string, and is then that string |
| QlQuery.TracksOf | backend/src/ql_query.rs:52-76 | the resolver never yields more tracks than items |
| QlQuery.SearchItems | backend/src/ql_query.rs:52-55 | the items are exactly `tracks.items` when that is an array; a non-empty result always is `tracks.items`, so any other shape yields none |
| QlQuery.SearchSpotifyTracks | backend/src/ql_query.rs:43-78 | A client error becomes `FieldError("Spotify API error", error)`. A reply always succeeds, with at most one track per item, and with no tracks when there are no items |
| QlQuery.SearchResultMembers | backend/src/ql_query.rs:52-76 | a track is in the result exactly when some item maps to it |
| QlQuery.TracksOfAppend | backend/src/ql_query.rs:55-76 | tracks keep the order of their items |
| QlQuery.TracksOfAllKept | backend/src/ql_query.rs:56-76 | when every item is well-formed, nothing is dropped and result `i` comes from item `i` |
| QlQuery.TracksOfSingleton | backend/src/ql_query.rs:56-75 | one item yields its track or nothing |
| QlQuery.TrackArtists | backend/src/ql_query.rs:60-64 | a name is among a kept track's artists exactly when some artist entry carries it as a string `name`; other entries are skipped without dropping the track |
| QlQuery.ArtistNamesAppend | backend/src/ql_query.rs:60-64 | artist names keep the order of the entries |
| QlQuery.AlbumArtFirstImageOnly | backend/src/ql_query.rs:68-73 | only the first image counts: the images after it never change `album_art` |
| UriComponent.Encode | frontend/src/spotifyoauth.ts:10-14 | `encodeURIComponent` character by character, never shorter than its input; what it means is stated by the lemmas below |
| UriComponent.HexRoundTrip | frontend/src/spotifyoauth.ts:10-14 | an upper-case hex digit reads back as its value |
| UriComponent.Utf8RoundTrip | frontend/src/spotifyoauth.ts:10-14 | the UTF-8 form of every scalar value has the length its lead byte announces and decodes back to that value |
| UriComponent.ReadEscapesOfEscapeAll | frontend/src/spotifyoauth.ts:10-14 | a run of `%XY` escapes reads back as its bytes |
| UriComponent.DecodeOneOfEncodeChar | frontend/src/spotifyoauth.ts:10-14 | the encoding of one character decodes to that character and consumes exactly its own length |
| UriComponent.DecodeEncode | frontend/src/spotifyoauth.ts:10-14 | `decodeURIComponent(encodeURIComponent(s)) == s` for every string |
| UriComponent.EncodeInjective | frontend/src/spotifyoauth.ts:10-14 | distinct strings have distinct encodings |
| UriComponent.EncodeAlphabet | frontend/src/spotifyoauth.ts:10-14 | the encoding uses only the unreserved marks `A-Z a-z 0-9 - _ . ! ~ * ' ( )` and `%` |
| UriComponent.EncodeHasNoDelimiters | frontend/src/spotifyoauth.ts:10-14 | the encoding never contains `&`, `=`, `#` or a space |
| QueryString.QueryOfRender | frontend/src/spotifyoauth.ts:15 | parameters joined with `&` after a `?` read back through the plain `&`/`=` reader as the same list, provided the keys hold no `&`/`=` and the values no `&` |
| SpotifyOauth.AuthorizeUrl | frontend/src/spotifyoauth.ts:15 | the consent URL starts with the authorize endpoint and `?`, and ends with the encoded state |
| SpotifyOauth.AuthorizeUrlRenders | frontend/src/spotifyoauth.ts:15 | the consent URL is the authorize endpoint, `?`, and the five parameters `client_id`, `response_type=code`, `redirect_uri`, `scope`, `state` joined with `&` |
| SpotifyOauth.ParamsSeparable | frontend/src/spotifyoauth.ts:10-15 | with no `&` in the client id or redirect URI, every parameter can be read back |
| SpotifyOauth.AuthorizeUrlParams | frontend/src/spotifyoauth.ts:10-15 | a query reader recovers exactly the five parameters from the consent URL |
| SpotifyOauth.AuthorizeUrlDecodes | frontend/src/spotifyoauth.ts:10-15 | the `scope` and `state` values decode back to the scope list and the current path, and contain no `&`, `=`, `#` or space |
| SpotifyOauth.ClientIdIsNotEncoded | frontend/src/spotifyoauth.ts:15 | the client id is pasted in unencoded, so an `&` in it cuts the `client_id` parameter short |
| SpotifyOauth.StartSpotifyOauthFlow | frontend/src/spotifyoauth.ts:3-17 | the URL assigned to `location.href` carries the five consent parameters, with the player scopes and the current path as state |
| SearchModal.StartSpotifyOauthFlow | frontend/src/components/SpotifySearchModal.tsx:36-54 | the modal's URL carries the same five parameters, with the four search scopes, no `streaming` |
| SearchModal.CurrentPath | frontend/src/components/SpotifySearchModal.tsx:82-83 | the current path is origin, then path name, then search: each occupies its own slice and the lengths add up |
| SearchModal.StateIsCurrentPage | frontend/src/components/SpotifySearchModal.tsx:47-83 | with no `&` in the client id or redirect URI, the modal's consent URL has five parameters, and its `state` decodes back to `origin + pathname + search` |
| SearchModal.IsUnauthenticated | frontend/src/components/SpotifySearchModal.tsx:62-64 | the predicate is true exactly when `extensions.code` is `"UNAUTHENTICATED"`, and throws when the error or its `extensions` is nullish |
| SearchModal.HandleError | frontend/src/components/SpotifySearchModal.tsx:56-68 | A falsy or non-object error does nothing, and any action needs an object with an `errors` property. A non-array `errors` makes `.some` throw |
| SearchModal.SomeUnauthenticated | frontend/src/components/SpotifySearchModal.tsx:62-64 | `errors.some(…)` is `false` exactly when every error is checked without a throw and none is unauthenticated; a throw comes from some error's check |
| SearchModal.SomeUnauthenticatedTrue | frontend/src/components/SpotifySearchModal.tsx:61-64 | `some` is true exactly when some error is unauthenticated and every error before it was checked without throwing |
| SearchModal.SomeUnauthenticatedTotal | frontend/src/components/SpotifySearchModal.tsx:61-64 | when no predicate call throws, `some` returns and is true exactly when some error is unauthenticated |
| SearchModal.HandleErrorStartsFlow | frontend/src/components/SpotifySearchModal.tsx:56-68 | the consent flow starts exactly for an object whose `errors` array has an unauthenticated entry reached without a throw |
| SearchModal.TrimStartEmpty | frontend/src/components/SpotifySearchModal.tsx:87 | trimming the start leaves nothing exactly when every character is JavaScript whitespace |
| SearchModal.TrimEndEmpty | frontend/src/components/SpotifySearchModal.tsx:87 | the same for the end |
| SearchModal.TrimEmpty | frontend/src/components/SpotifySearchModal.tsx:87 | `trim() === ""` exactly when every character is JavaScript whitespace |
| SearchModal.TrimStartNonEmpty | frontend/src/components/SpotifySearchModal.tsx:87 | a non-empty start-trimmed string begins with a non-whitespace character |
| SearchModal.SearchEffect | frontend/src/components/SpotifySearchModal.tsx:86-91 | a search is sent exactly when the debounced query has a non-whitespace character, and it carries the untrimmed query |
| Js.Member | frontend/src/hooks/useTrackInfo.ts:30-34 | a property read throws exactly on `undefined` and `null`; on an object it yields the property or `undefined` |
| AccessToken.RefreshDelay | frontend/src/hooks/useAccessToken.ts:39 | the refresh delay is `Math.max(s*1000 - 5000, 0)`, the larger of the two, and is 0 exactly when the token lives at most 5 s |
| AccessToken.AtMostOnePending | frontend/src/hooks/useAccessToken.ts:35-40 | timers that all carry the id in `timeoutRef` number at most one |
| AccessToken.AccessTokenHook.constructor | frontend/src/hooks/useAccessToken.ts:10-12 | no token, no expiry, no timer, nothing in flight; the first timer armed gets id 0 |
| AccessToken.AccessTokenHook.Mount | frontend/src/hooks/useAccessToken.ts:53-55 | mounting starts one fetch and changes nothing else |
| AccessToken.AccessTokenHook.Rearm | frontend/src/hooks/useAccessToken.ts:35-40 | clearing then setting the timer leaves exactly one pending timer, the new one, with the given delay |
| AccessToken.AccessTokenHook.Resolve | frontend/src/hooks/useAccessToken.ts:14-51 | A token reply stores the token, sets the expiry to `now + s*1000` and arms only a refresh after `RefreshDelay(s)`, under the next timer id. A throw, including one from the redirect's own fetch, clears token and expiry and arms only a 5 s retry, under the next timer id. A `null` token with the consent config records one redirect `OauthStart(clientId, redirectUri, href)`, whose page is `ConsentUrl`, that is `SpotifyOauth.StartSpotifyOauthFlow` of those three, and changes nothing else. At most one timer is pending afterwards |
| AccessToken.AccessTokenHook.TimerFired | frontend/src/hooks/useAccessToken.ts:40 | a fired timer leaves no timer pending and starts one fetch |
| AccessToken.AccessTokenHook.Unmount | frontend/src/hooks/useAccessToken.ts:56-58 | the teardown clears the pending timer and nothing else; fetches in flight go on |
| TrackInfo.ArtistNames | frontend/src/hooks/useTrackInfo.ts:33 | `artists.map(a => a.name)` throws exactly when some artist is nullish; otherwise name `i` is artist `i`'s `name` |
| TrackInfo.ArtistNamesAppend | frontend/src/hooks/useTrackInfo.ts:33 | names keep the order of the artists |
| TrackInfo.TrackInfoOf | frontend/src/hooks/useTrackInfo.ts:30-35 | The mapping succeeds exactly when `data` and `data.album` are not nullish, `data.artists` is an array, and no artist is nullish. `title` is `data.name`, `artists` are the names, `albumArtUrl` is `images?.[0]?.url ?? null` |
| TrackInfo.AlbumArtFirstImage | frontend/src/hooks/useTrackInfo.ts:34 | the album art is null when `images` is missing, null or empty; otherwise it is the first image's `url`, or null when that is nullish |
| TrackInfo.AfterResponse | frontend/src/hooks/useTrackInfo.ts:21-35 | A live run's non-ok response clears `trackInfo`. A body that maps sets it. A network throw, a bad JSON body or a throwing mapping leaves it unchanged |
| TrackInfo.TrackInfoHook.constructor | frontend/src/hooks/useTrackInfo.ts:8 | `trackInfo` starts null, with no runs |
| TrackInfo.TrackInfoHook.Cleanup | frontend/src/hooks/useTrackInfo.ts:40-42 | the held cleanup cancels its own run and no other; every run keeps its URL, header and `settled` flag |
| TrackInfo.TrackInfoHook.Render | frontend/src/hooks/useTrackInfo.ts:10-43 | Unchanged `(trackId, token)` does nothing. Otherwise every earlier run is cancelled and keeps its URL, header and `settled` flag, so a late response can still arrive and be ignored. With no token (`null` or `""`), `trackInfo` becomes null and no request is made. With a token, exactly one request for `tracks/` + `trackId` is issued with `Bearer` + token, even when `trackId` is empty |
| TrackInfo.TrackInfoHook.Settle | frontend/src/hooks/useTrackInfo.ts:16-36 | a cancelled run never changes `trackInfo`, nor does any run older than the latest; a live run applies `AfterResponse` |
| TrackInfo.TrackInfoHook.Unmount | frontend/src/hooks/useTrackInfo.ts:40-43 | after unmount every run is cancelled and otherwise unchanged |
| SpotifyPlayer.TokenText | frontend/src/hooks/useSpotifyPlayer.ts:62 | a `null` token is spelled `null` in the header |
| SpotifyPlayer.PlayRequestFor | frontend/src/hooks/useSpotifyPlayer.ts:55-65 | A play request exists exactly when there is a player and a truthy `deviceId`. Its URL targets that device, its header is `Bearer` + token, and its body's `uris` is `["spotify:track:" + trackId]` |
| SpotifyPlayer.PlayUrlDeviceId | frontend/src/hooks/useSpotifyPlayer.ts:59 | the play URL carries exactly the `device_id` parameter, unencoded, when the id holds no `&` |
| SpotifyPlayer.PlayerHook.constructor | frontend/src/hooks/useSpotifyPlayer.ts:5-6 | no player, no device id, no script, nothing requested |
| SpotifyPlayer.PlayerHook.DisconnectCurrent | frontend/src/hooks/useSpotifyPlayer.ts:48 | only `playerRef.current` is disconnected |
| SpotifyPlayer.PlayerHook.ConnectEffect | frontend/src/hooks/useSpotifyPlayer.ts:8-50 | The previous teardown, when held, runs first and disconnects `playerRef.current` once. With no truthy token nothing is set up and no teardown is held. With one, another SDK script is appended, the ready callback captures this token, and `playerRef`, `deviceId` and all players except the current one are untouched |
| SpotifyPlayer.PlayerHook.PlayEffect | frontend/src/hooks/useSpotifyPlayer.ts:53-74 | the play effect appends exactly `PlayRequestFor(playerRef, deviceId, token, trackId)` when its guard passes, and nothing otherwise |
| SpotifyPlayer.PlayerHook.Render | frontend/src/hooks/useSpotifyPlayer.ts:50-74 | The connect effect re-runs only when `accessToken` changed; then the held teardown disconnects `playerRef.current` and a teardown is held afterwards exactly for a truthy token. The play effect re-runs only when `accessToken`, `deviceId` or `trackId` changed, never on `playerRef` alone. Both dependency lists are recorded for the next render |
| SpotifyPlayer.PlayerHook.SdkLoaded | frontend/src/hooks/useSpotifyPlayer.ts:18-25 | the SDK callback makes one new player that hands out the captured token and has a pending connect |
| SpotifyPlayer.PlayerHook.ReadyEvent | frontend/src/hooks/useSpotifyPlayer.ts:24 | `deviceId` takes the id of the latest `ready` event from any player, canceled or not |
| SpotifyPlayer.PlayerHook.ConnectSettled | frontend/src/hooks/useSpotifyPlayer.ts:26-39 | `playerRef` becomes the player only if `connect()` resolved true and `canceled` is false; a failed connect leaves `playerRef` unchanged |
| SpotifyPlayer.PlayerHook.Unmount | frontend/src/hooks/useSpotifyPlayer.ts:47-49 | unmount increments only `playerRef.current`'s disconnect count, drops the teardown, and changes no other field: the scripts, the captured SDK token, the play requests and the recorded dependencies stay, so a script still loading can make and connect a player afterwards |

## Left out

- Network I/O: real requests are left out. Replies are parameters, and requests are recorded as values.
- Base64 credentials: the `Basic` header (`backend/src/spotify.rs:52-57`) and the `Content-Type` header are not modelled.
- Concurrency: `Mutex` and concurrent `get_spotify_token` calls are not modelled. Each call runs without interleaving, so two callers racing between the lock at line 83 and the lock at line 92 are not covered.
- Spotify.RequestNewToken: models `.expect("Failed to send request")` (`backend/src/spotify.rs:61`) as the error value `SendPanic` instead of a task panic.
- Spotify.RequestNewToken: `Instant` arithmetic is unbounded, so its overflow panic is not modelled. `expires_in` is a `nat`; a body whose `expires_in` does not fit `u64` counts as undecodable.
- Spotify.SearchOutcome: the `Api` error carries the status only. The formatted message with the reply text is not modelled. Likewise the GraphQL error detail holds the error value, not its `to_string()` text.
- Spotify.SpotifyClient.SearchTracks: the request is recorded as `(query, "track", token)`. The way `reqwest` encodes the query string is not modelled.
- SerdeJson: JSON numbers are integers; floating-point values are not modelled.
- Js: JavaScript numbers are integers only, so NaN, fractions and `expiresInSeconds` as a float are not modelled. Properties are own data properties; getters and prototype lookups are not modelled.
- AccessToken.AccessTokenHook.Resolve: a reply whose `accessToken` is missing (read as `undefined`, not `null`) is not modelled. The values the redirect's fetch returns are modelled as strings, not stringified JSON values.
- Logging: `console.log` and `console.error` calls are not modelled.
- SpotifyPlayer.PlayRequestFor: the body is modelled as its `uris` list, not the text `JSON.stringify` produces.
- SDK listeners: the player's other listeners and the SDK's internal behaviour are not modelled. The SDK's callbacks are steps the caller invokes.
- `useDebounce` is not part of this model. `SearchModal.SearchEffect` takes the already-debounced query.
- SearchModal.SearchEffect: models one effect run; the dependency on `initialQuery` (line 91) is not modelled.
- SearchModal.HandleError: `.catch(console.error)` and the error effect's dependency list (lines 93-95) are not modelled.
- Browser environment: `window.location`, `document.body` and script loading are represented only by the values they supply. These are `href`, the current path pieces, and the list of appended script URLs.
- QueryString.QueryParams: a plain `&`/`=` reader. It does not end the query at a `#` fragment and does not percent-decode. So the read-back lemmas do not cover a `#` in the client id or redirect URI, which a real server would take as the start of a fragment.
- SearchModal.StartSpotifyOauthFlow: the values the modal's two fetches return (SpotifySearchModal.tsx:37-43) are modelled as strings, not as the parsed JSON values that are pasted into the URL. A failing fetch is not modelled either. Because `handleError` does not await the flow, such a failure would be an unhandled rejection rather than a rejection of `handleError`.
- UriComponent.Encode: works on Unicode scalar values. JavaScript strings are UTF-16; `encodeURIComponent` throws `URIError` on a lone surrogate, and that case is not modelled.
- AccessToken.RefreshDelay: unbounded. `setTimeout` fires at once for a delay above 2^31−1 ms (`frontend/src/hooks/useAccessToken.ts:40`), and that clamp is not modelled.
- Spotify.SpotifyClient.constructor: takes the credentials as arguments. The `.expect` panic of `SpotifyClient::new` when an environment variable is missing (`backend/src/spotify.rs:43-45`) is not modelled.
- Scope literals: the two scope literals are kept as separate constants. No lemma relates them; the second is the first without `streaming`, but showing that needs character-level reasoning about literals.
