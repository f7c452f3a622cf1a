/** The redirect to Spotify's consent page: an authorization-code request (section 4.1.1 of
    RFC 6749) built by string concatenation, with `scope` and `state` passed through
    `encodeURIComponent` and the client id and redirect URI inserted as they are. */
module SpotifyOauth {
  import opened Wrappers
  import UriComponent
  import QueryString

  const AuthorizeEndpoint: string := "https://accounts.spotify.com/authorize"

  /** The scopes the player's flow asks for. */
  const PlayerScopes: string :=
    "streaming user-read-private user-read-email user-modify-playback-state user-read-playback-state"

  /** The parameters an authorize URL carries, in the order it carries them. */
  function AuthorizeParams(clientId: string, redirectUri: string, scopes: string, currentPath: string)
    : seq<(string, string)>
  {
    [("client_id", clientId),
     ("response_type", "code"),
     ("redirect_uri", redirectUri),
     ("scope", UriComponent.Encode(scopes)),
     ("state", UriComponent.Encode(currentPath))]
  }

  /** The URL template shared by both flows. */
  function AuthorizeUrl(clientId: string, redirectUri: string, scopes: string, currentPath: string): (url: string)
    ensures |url| > |AuthorizeEndpoint| && url[..|AuthorizeEndpoint|] == AuthorizeEndpoint && url[|AuthorizeEndpoint|] == '?'
    ensures |url| >= |UriComponent.Encode(currentPath)|
            && url[|url| - |UriComponent.Encode(currentPath)|..] == UriComponent.Encode(currentPath)
  {
    AuthorizeEndpoint + "?client_id=" + clientId + "&response_type=code&redirect_uri=" + redirectUri
      + "&scope=" + UriComponent.Encode(scopes) + "&state=" + UriComponent.Encode(currentPath)
  }

  /** The template regrouped parameter by parameter; stated over variables so that no literal
      has to be taken apart character by character. */
  lemma Regroup(base: string, k0: string, v0: string, k1: string, v1: string, k2: string, v2: string,
                k3: string, v3: string, k4: string, v4: string)
    ensures base + ("?" + (k0 + "=")) + v0 + ("&" + (k1 + "=" + v1) + "&" + (k2 + "=")) + v2
              + ("&" + (k3 + "=")) + v3 + ("&" + (k4 + "=")) + v4
         == base + "?" + ((k0 + "=" + v0) + "&" + ((k1 + "=" + v1) + "&" + ((k2 + "=" + v2) + "&"
              + ((k3 + "=" + v3) + "&" + (k4 + "=" + v4)))))
  {
  }

  /** The literal pieces of the template, taken apart at `?`, `&` and `=`. */
  lemma TemplatePieces()
    ensures "?client_id=" == "?" + ("client_id" + "=")
    ensures "&response_type=code&redirect_uri=" == "&" + ("response_type" + "=" + "code") + "&" + ("redirect_uri" + "=")
    ensures "&scope=" == "&" + ("scope" + "=")
    ensures "&state=" == "&" + ("state" + "=")
    ensures '?' !in AuthorizeEndpoint
  {
  }

  /** `AuthorizeUrl` is the endpoint, `?`, and its parameters joined with `&`. */
  lemma AuthorizeUrlRenders(clientId: string, redirectUri: string, scopes: string, currentPath: string)
    ensures AuthorizeUrl(clientId, redirectUri, scopes, currentPath)
            == AuthorizeEndpoint + "?" + QueryString.Render(AuthorizeParams(clientId, redirectUri, scopes, currentPath))
  {
    var ps := AuthorizeParams(clientId, redirectUri, scopes, currentPath);
    var e1, e2 := UriComponent.Encode(scopes), UriComponent.Encode(currentPath);
    var r4 := QueryString.Render([ps[4]]);
    var r3 := QueryString.Render([ps[3], ps[4]]);
    var r2 := QueryString.Render([ps[2], ps[3], ps[4]]);
    var r1 := QueryString.Render([ps[1], ps[2], ps[3], ps[4]]);
    assert r4 == QueryString.Piece(ps[4]);
    assert [ps[3], ps[4]][1..] == [ps[4]];
    assert r3 == QueryString.Piece(ps[3]) + "&" + r4;
    assert [ps[2], ps[3], ps[4]][1..] == [ps[3], ps[4]];
    assert r2 == QueryString.Piece(ps[2]) + "&" + r3;
    assert [ps[1], ps[2], ps[3], ps[4]][1..] == [ps[2], ps[3], ps[4]];
    assert r1 == QueryString.Piece(ps[1]) + "&" + r2;
    assert ps[1..] == [ps[1], ps[2], ps[3], ps[4]];
    assert QueryString.Render(ps) == QueryString.Piece(ps[0]) + "&" + r1;
    TemplatePieces();
    Regroup(AuthorizeEndpoint, "client_id", clientId, "response_type", "code", "redirect_uri", redirectUri,
            "scope", e1, "state", e2);
  }

  lemma ParamsSeparable(clientId: string, redirectUri: string, scopes: string, currentPath: string)
    requires '&' !in clientId && '&' !in redirectUri
    ensures QueryString.Separable(AuthorizeParams(clientId, redirectUri, scopes, currentPath))
  {
    UriComponent.EncodeHasNoDelimiters(scopes);
    UriComponent.EncodeHasNoDelimiters(currentPath);
  }

  /** Read back, the URL carries `client_id`, `response_type=code`, `redirect_uri`, `scope` and
      `state`, in that order, provided the two unencoded values hold no `&`. */
  lemma AuthorizeUrlParams(clientId: string, redirectUri: string, scopes: string, currentPath: string)
    requires '&' !in clientId && '&' !in redirectUri
    ensures QueryString.QueryParams(AuthorizeUrl(clientId, redirectUri, scopes, currentPath))
            == AuthorizeParams(clientId, redirectUri, scopes, currentPath)
  {
    ParamsSeparable(clientId, redirectUri, scopes, currentPath);
    AuthorizeUrlRenders(clientId, redirectUri, scopes, currentPath);
    TemplatePieces();
    QueryString.QueryOfRender(AuthorizeEndpoint, AuthorizeParams(clientId, redirectUri, scopes, currentPath));
  }

  /** `scope` and `state` percent-decode to the scope list and the return path, and hold no
      `&`, `=`, `#` or space. */
  lemma AuthorizeUrlDecodes(clientId: string, redirectUri: string, scopes: string, currentPath: string)
    requires '&' !in clientId && '&' !in redirectUri
    ensures var params := QueryString.QueryParams(AuthorizeUrl(clientId, redirectUri, scopes, currentPath));
            && |params| == 5
            && params[3].0 == "scope" && UriComponent.Decode(params[3].1) == Some(scopes)
            && params[4].0 == "state" && UriComponent.Decode(params[4].1) == Some(currentPath)
            && (forall i | 3 <= i < 5 :: '&' !in params[i].1 && '=' !in params[i].1 && '#' !in params[i].1 && ' ' !in params[i].1)
  {
    AuthorizeUrlParams(clientId, redirectUri, scopes, currentPath);
    UriComponent.DecodeEncode(scopes);
    UriComponent.DecodeEncode(currentPath);
    UriComponent.EncodeHasNoDelimiters(scopes);
    UriComponent.EncodeHasNoDelimiters(currentPath);
  }

  lemma RegroupFirst(base: string, k0: string, a: string, b: string, x2: string, v2: string, x3: string, v3: string,
                     x4: string, v4: string)
    ensures base + ("?" + (k0 + "=")) + (a + "&" + b) + x2 + v2 + x3 + v3 + x4 + v4
         == base + "?" + ((k0 + "=" + a) + "&" + (b + x2 + v2 + x3 + v3 + x4 + v4))
  {
  }

  /** The client id is not encoded: one holding a `&` is cut short when the URL is read back. */
  lemma ClientIdIsNotEncoded(a: string, b: string, redirectUri: string, scopes: string, currentPath: string)
    requires '&' !in a && '=' !in a
    ensures QueryString.QueryParams(AuthorizeUrl(a + "&" + b, redirectUri, scopes, currentPath))[0] == ("client_id", a)
  {
    var e1, e2 := UriComponent.Encode(scopes), UriComponent.Encode(currentPath);
    var rest := b + "&response_type=code&redirect_uri=" + redirectUri + "&scope=" + e1 + "&state=" + e2;
    var query := QueryString.Piece(("client_id", a)) + "&" + rest;
    TemplatePieces();
    RegroupFirst(AuthorizeEndpoint, "client_id", a, b, "&response_type=code&redirect_uri=", redirectUri,
                 "&scope=", e1, "&state=", e2);
    assert AuthorizeUrl(a + "&" + b, redirectUri, scopes, currentPath) == AuthorizeEndpoint + "?" + query;
    QueryString.SplitFirstAt(AuthorizeEndpoint, '?', query);
    QueryString.PieceReadsBack(("client_id", a));
    QueryString.SplitAt(QueryString.Piece(("client_id", a)), '&', rest);
  }

  /** `AuthorizeUrlParams` for the inputs it applies to. */
  lemma SeparableAuthorizeUrlParams(clientId: string, redirectUri: string, scopes: string, currentPath: string)
    ensures '&' !in clientId && '&' !in redirectUri ==>
      QueryString.QueryParams(AuthorizeUrl(clientId, redirectUri, scopes, currentPath))
        == AuthorizeParams(clientId, redirectUri, scopes, currentPath)
  {
    if '&' !in clientId && '&' !in redirectUri {
      AuthorizeUrlParams(clientId, redirectUri, scopes, currentPath);
    }
  }

  /** `startSpotifyOauthFlow`: the URL assigned to `window.location.href`, given the client id
      and redirect URI the backend's `/spotify` endpoint returned. */
  function StartSpotifyOauthFlow(clientId: string, redirectUri: string, currentPath: string): (url: string)
    ensures '&' !in clientId && '&' !in redirectUri ==>
      QueryString.QueryParams(url) == AuthorizeParams(clientId, redirectUri, PlayerScopes, currentPath)
  {
    SeparableAuthorizeUrlParams(clientId, redirectUri, PlayerScopes, currentPath);
    AuthorizeUrl(clientId, redirectUri, PlayerScopes, currentPath)
  }
}
