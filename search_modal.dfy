/** The track-search dialog's share of the session logic: its own consent-page redirect, the
    decision to start it from a GraphQL error, and the guard on issuing a search. */
module SearchModal {
  import opened Wrappers
  import Js
  import QueryString
  import SpotifyOauth
  import UriComponent

  /** The scopes this dialog's flow asks for: the player's list without `streaming`. */
  const SearchScopes: string :=
    "user-read-private user-read-email user-modify-playback-state user-read-playback-state"

  /** The dialog's `startSpotifyOauthFlow`: the same URL template with `SearchScopes`, given the
      client id and redirect URI that two separate backend endpoints returned. */
  function StartSpotifyOauthFlow(clientId: string, redirectUri: string, currentPath: string): (url: string)
    ensures '&' !in clientId && '&' !in redirectUri ==>
      QueryString.QueryParams(url) == SpotifyOauth.AuthorizeParams(clientId, redirectUri, SearchScopes, currentPath)
  {
    SpotifyOauth.SeparableAuthorizeUrlParams(clientId, redirectUri, SearchScopes, currentPath);
    SpotifyOauth.AuthorizeUrl(clientId, redirectUri, SearchScopes, currentPath)
  }

  /** The state the dialog returns to: origin, path and query of the current page. */
  function CurrentPath(origin: string, pathname: string, search: string): (path: string)
    ensures |path| == |origin| + |pathname| + |search|
    ensures path[..|origin|] == origin && path[|origin|..|origin| + |pathname|] == pathname
    ensures path[|origin| + |pathname|..] == search
  {
    origin + pathname + search
  }

  /** The modal's consent URL carries the current page as its `state`: the parameter decodes
      back to `origin + pathname + search`. */
  lemma StateIsCurrentPage(clientId: string, redirectUri: string, origin: string, pathname: string, search: string)
    requires '&' !in clientId && '&' !in redirectUri
    ensures var params := QueryString.QueryParams(StartSpotifyOauthFlow(clientId, redirectUri, CurrentPath(origin, pathname, search)));
            && |params| == 5 && params[4].0 == "state"
            && UriComponent.Decode(params[4].1) == Some(origin + pathname + search)
  {
    SpotifyOauth.AuthorizeUrlDecodes(clientId, redirectUri, SearchScopes, CurrentPath(origin, pathname, search));
  }

  /** What `handleError` ends up doing; `Rejected` is a `TypeError` rejecting its promise. */
  datatype ErrorAction = DoNothing | StartOauthFlow | Rejected

  const Unauthenticated: string := "UNAUTHENTICATED"

  /** The `some` callback: `e.extensions.code === "UNAUTHENTICATED"`. */
  function IsUnauthenticated(e: Js.Value): (r: Result<bool, Js.TypeError>)
    ensures r == Success(true) <==>
      e.Object? && "extensions" in e.props && e.props["extensions"].Object?
      && "code" in e.props["extensions"].props && e.props["extensions"].props["code"] == Js.String(Unauthenticated)
    ensures r.Failure? <==> Js.IsNullish(e) || Js.IsNullish(Js.Member(e, "extensions").value)
  {
    match Js.Member(e, "extensions")
    case Failure(err) => Failure(err)
    case Success(extensions) =>
      match Js.Member(extensions, "code")
      case Failure(err) => Failure(err)
      case Success(code) => Success(code == Js.String(Unauthenticated))
  }

  /** `errors.some(IsUnauthenticated)`: stops at the first match; a throw ends it. */
  function SomeUnauthenticated(errors: seq<Js.Value>): (r: Result<bool, Js.TypeError>)
    ensures r == Success(false) <==> forall i :: 0 <= i < |errors| ==> IsUnauthenticated(errors[i]) == Success(false)
    ensures r.Failure? ==> exists i :: 0 <= i < |errors| && IsUnauthenticated(errors[i]).Failure?
    decreases |errors|
  {
    if errors == [] then Success(false)
    else match IsUnauthenticated(errors[0])
      case Failure(err) => Failure(err)
      case Success(true) => Success(true)
      case Success(false) => SomeUnauthenticated(errors[1..])
  }

  /** `handleError`. */
  function HandleError(error: Js.Value): (r: ErrorAction)
    ensures !Js.Truthy(error) || Js.TypeOf(error) != "object" ==> r == DoNothing
    ensures r != DoNothing ==> error.Object? && "errors" in error.props
    ensures error.Object? && "errors" in error.props && !error.props["errors"].Array? ==> r == Rejected
  {
    if !Js.Truthy(error) || Js.TypeOf(error) != "object" || !Js.HasProperty(error, "errors") then DoNothing
    else if !error.props["errors"].Array? then Rejected
    else match SomeUnauthenticated(error.props["errors"].items)
      case Success(found) => if found then StartOauthFlow else DoNothing
      case Failure(_) => Rejected
  }

  /** Entry `i` is the first that `some` visits with a match: it matches and every earlier
      entry was read without a match. */
  predicate FirstMatchAt(errors: seq<Js.Value>, i: int) {
    && 0 <= i < |errors|
    && IsUnauthenticated(errors[i]) == Success(true)
    && forall j :: 0 <= j < i ==> IsUnauthenticated(errors[j]) == Success(false)
  }

  lemma FirstMatchAtShift(errors: seq<Js.Value>, i: int)
    requires |errors| > 0 && 0 <= i
    ensures FirstMatchAt(errors, i + 1) <==>
      IsUnauthenticated(errors[0]) == Success(false) && FirstMatchAt(errors[1..], i)
  {
    if IsUnauthenticated(errors[0]) == Success(false) && FirstMatchAt(errors[1..], i) {
      forall j | 0 <= j < i + 1 ensures IsUnauthenticated(errors[j]) == Success(false) {
        if j > 0 { assert errors[j] == errors[1..][j - 1]; }
      }
    }
    if FirstMatchAt(errors, i + 1) {
      forall j | 0 <= j < i ensures IsUnauthenticated(errors[1..][j]) == Success(false) {
        assert errors[1..][j] == errors[j + 1];
      }
    }
  }

  /** `some` answers true exactly when some entry matches and none before it throws. */
  lemma {:induction false} SomeUnauthenticatedTrue(errors: seq<Js.Value>)
    ensures SomeUnauthenticated(errors) == Success(true) <==> exists i :: FirstMatchAt(errors, i)
    decreases |errors|
  {
    if errors != [] {
      SomeUnauthenticatedTrue(errors[1..]);
      if exists i :: FirstMatchAt(errors[1..], i) {
        var i :| FirstMatchAt(errors[1..], i);
        FirstMatchAtShift(errors, i);
        if IsUnauthenticated(errors[0]) == Success(false) {
          assert FirstMatchAt(errors, i + 1);
        }
      }
      if IsUnauthenticated(errors[0]) == Success(true) {
        assert FirstMatchAt(errors, 0);
      }
      if exists i :: FirstMatchAt(errors, i) {
        var i :| FirstMatchAt(errors, i);
        if i > 0 {
          FirstMatchAtShift(errors, i - 1);
        }
      }
    }
  }

  /** When no element throws, `some` answers whether some element has the code. */
  lemma {:induction false} SomeUnauthenticatedTotal(errors: seq<Js.Value>)
    requires forall i :: 0 <= i < |errors| ==> IsUnauthenticated(errors[i]).Success?
    ensures SomeUnauthenticated(errors).Success?
    ensures SomeUnauthenticated(errors).value <==>
      exists i :: 0 <= i < |errors| && IsUnauthenticated(errors[i]) == Success(true)
    decreases |errors|
  {
    if errors != [] {
      var tail := errors[1..];
      assert forall i :: 0 <= i < |tail| ==> tail[i] == errors[i + 1];
      SomeUnauthenticatedTotal(tail);
      if IsUnauthenticated(errors[0]) == Success(false) {
        if exists i :: 0 <= i < |errors| && IsUnauthenticated(errors[i]) == Success(true) {
          var i :| 0 <= i < |errors| && IsUnauthenticated(errors[i]) == Success(true);
          assert IsUnauthenticated(tail[i - 1]) == Success(true);
        }
      }
    }
  }

  /** The flow starts exactly when the error carries an `errors` array in which some entry has
      `extensions.code === "UNAUTHENTICATED"` and no earlier entry throws. */
  lemma HandleErrorStartsFlow(error: Js.Value)
    ensures HandleError(error) == StartOauthFlow <==>
      && error.Object? && "errors" in error.props && error.props["errors"].Array?
      && exists i :: FirstMatchAt(error.props["errors"].items, i)
  {
    if error.Object? && "errors" in error.props && error.props["errors"].Array? {
      SomeUnauthenticatedTrue(error.props["errors"].items);
    }
  }

  /** `String.prototype.trim`'s white space and line terminators. */
  predicate IsJsWhitespace(c: char) {
    c == '\t' || c == '\n' || c == '\U{000B}' || c == '\U{000C}' || c == '\r' || c == ' '
    || c == '\U{00A0}' || c == '\U{1680}' || ('\U{2000}' <= c <= '\U{200A}')
    || c == '\U{2028}' || c == '\U{2029}' || c == '\U{202F}' || c == '\U{205F}'
    || c == '\U{3000}' || c == '\U{FEFF}'
  }

  function TrimStart(s: string): (r: string)
    decreases |s|
  {
    if s != [] && IsJsWhitespace(s[0]) then TrimStart(s[1..]) else s
  }

  function TrimEnd(s: string): (r: string)
    decreases |s|
  {
    if s != [] && IsJsWhitespace(s[|s| - 1]) then TrimEnd(s[..|s| - 1]) else s
  }

  /** `s.trim()`. */
  function Trim(s: string): string {
    TrimEnd(TrimStart(s))
  }

  lemma {:induction false} TrimStartEmpty(s: string)
    ensures TrimStart(s) == [] <==> forall i :: 0 <= i < |s| ==> IsJsWhitespace(s[i])
    decreases |s|
  {
    if s != [] && IsJsWhitespace(s[0]) {
      TrimStartEmpty(s[1..]);
      assert forall i :: 1 <= i < |s| ==> s[i] == s[1..][i - 1];
    }
  }

  lemma {:induction false} TrimEndEmpty(s: string)
    ensures TrimEnd(s) == [] <==> forall i :: 0 <= i < |s| ==> IsJsWhitespace(s[i])
    decreases |s|
  {
    if s != [] && IsJsWhitespace(s[|s| - 1]) {
      TrimEndEmpty(s[..|s| - 1]);
    }
  }

  /** A query trims to nothing exactly when it is all white space. */
  lemma TrimEmpty(s: string)
    ensures Trim(s) == [] <==> forall i :: 0 <= i < |s| ==> IsJsWhitespace(s[i])
  {
    TrimStartEmpty(s);
    TrimEndEmpty(TrimStart(s));
    if TrimStart(s) != [] {
      TrimStartNonEmpty(s);
    }
  }

  lemma {:induction false} TrimStartNonEmpty(s: string)
    requires TrimStart(s) != []
    ensures !IsJsWhitespace(TrimStart(s)[0])
    decreases |s|
  {
    if s != [] && IsJsWhitespace(s[0]) {
      TrimStartNonEmpty(s[1..]);
    }
  }

  /** The search effect: the variables of the search it issues, if any. The query is sent as
      typed, untrimmed, and only when it holds a character that is not white space. */
  function SearchEffect(debouncedQuery: string): (sent: Option<string>)
    ensures sent.Some? <==> exists i :: 0 <= i < |debouncedQuery| && !IsJsWhitespace(debouncedQuery[i])
    ensures sent.Some? ==> sent.value == debouncedQuery
  {
    TrimEmpty(debouncedQuery);
    if Trim(debouncedQuery) == "" then None else Some(debouncedQuery)
  }
}
