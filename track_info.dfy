/** The frontend's track-info loader (`useTrackInfo`). Each change of `(trackId, accessToken)`
    re-runs an effect; with a token it issues one track request whose response may set
    `trackInfo` only while that run has not been cleaned up. React's dependency check, effect
    cleanup and state updates are spelled out; requests are recorded, not sent. */
module TrackInfo {
  import opened Wrappers
  import opened Js

  const TracksEndpoint := "https://api.spotify.com/v1/tracks/"

  /** What the effect stores: raw JSON values, since nothing checks their types at runtime. */
  datatype TrackInfo = TrackInfo(title: Js.Value, artists: seq<Js.Value>, albumArtUrl: Js.Value)

  /** How one run's `fetch` ends: a network throw, a non-2xx response, or a 2xx response whose
      JSON body parsed (`Some`) or did not (`None`). */
  datatype TrackResponse = FetchThrew | NotOk | Ok(body: Option<Js.Value>)

  /** One effect run that issued a request. */
  datatype Run = Run(url: string, authorization: string, cancelled: bool, settled: bool)

  /** `artists.map((artist) => artist.name)`: throws at the first nullish artist. */
  function ArtistNames(artists: seq<Js.Value>): (r: Result<seq<Js.Value>, TypeError>)
    ensures r.Success? <==> forall i :: 0 <= i < |artists| ==> !IsNullish(artists[i])
    ensures r.Success? ==> |r.value| == |artists|
    ensures r.Success? ==> forall i :: 0 <= i < |artists| ==> Member(artists[i], "name") == Success(r.value[i])
  {
    if artists == [] then Success([])
    else
      var head := Member(artists[0], "name");
      if head.Failure? then Failure(TypeError)
      else
        var tail := ArtistNames(artists[1..]);
        if tail.Failure? then
          assert exists i :: 1 <= i < |artists| && IsNullish(artists[i]) by {
            var j :| 0 <= j < |artists[1..]| && IsNullish(artists[1..][j]);
            assert artists[j + 1] == artists[1..][j];
          }
          Failure(TypeError)
        else Success([head.value] + tail.value)
  }

  /** `data.album.images?.[0]?.url ?? null`, once `data.album` is known not to throw. */
  function AlbumArtUrl(album: Js.Value): Js.Value {
    Coalesce(OptionalMember(OptionalIndex(OptionalMember(album, "images"), 0), "url"), Null)
  }

  /** The object literal built from the parsed body. It throws when `data` or `data.album` is
      nullish, when `data.artists` is not an array (it has no callable `map`), or when an artist
      is nullish. */
  function TrackInfoOf(data: Js.Value): (r: Result<TrackInfo, TypeError>)
    ensures r.Success? <==>
      && !IsNullish(data)
      && !IsNullish(Member(data, "album").value)
      && Member(data, "artists").value.Array?
      && ArtistNames(Member(data, "artists").value.items).Success?
    ensures r.Success? ==> r.value.title == Member(data, "name").value
    ensures r.Success? ==> Success(r.value.artists) == ArtistNames(Member(data, "artists").value.items)
    ensures r.Success? ==> r.value.albumArtUrl == AlbumArtUrl(Member(data, "album").value)
  {
    if IsNullish(data) then Failure(TypeError)
    else
      var album := Member(data, "album").value;
      var artists := Member(data, "artists").value;
      if IsNullish(album) || !artists.Array? then Failure(TypeError)
      else
        var names := ArtistNames(artists.items);
        if names.Failure? then Failure(TypeError)
        else Success(TrackInfo(Member(data, "name").value, names.value, AlbumArtUrl(album)))
  }

  /** The album art is the first image's `url`, and null when `images` is missing, null or empty
      or that `url` is. */
  lemma AlbumArtFirstImage(album: Js.Value)
    requires album.Object?
    ensures "images" !in album.props ==> AlbumArtUrl(album) == Null
    ensures "images" in album.props && album.props["images"] in {Null, Array([])} ==> AlbumArtUrl(album) == Null
    ensures "images" in album.props && album.props["images"].Array? && album.props["images"].items != [] ==>
      var first := album.props["images"].items[0];
      AlbumArtUrl(album) == Coalesce(OptionalMember(first, "url"), Null)
  {
  }

  /** The names of a concatenation are the names of its parts, in order. */
  lemma ArtistNamesAppend(a: seq<Js.Value>, b: seq<Js.Value>)
    requires ArtistNames(a).Success? && ArtistNames(b).Success?
    ensures ArtistNames(a + b) == Success(ArtistNames(a).value + ArtistNames(b).value)
  {
    var ab := a + b;
    forall i | 0 <= i < |ab|
      ensures !IsNullish(ab[i])
    {
      if i < |a| { assert ab[i] == a[i]; } else { assert ab[i] == b[i - |a|]; }
    }
    var r := ArtistNames(ab).value;
    var s := ArtistNames(a).value + ArtistNames(b).value;
    forall i | 0 <= i < |r|
      ensures r[i] == s[i]
    {
      if i < |a| {
        assert ab[i] == a[i];
      } else {
        assert ab[i] == b[i - |a|];
      }
    }
    assert r == s;
  }

  /** `trackInfo` after a live run's response: null on a non-ok response, the mapped track on a
      body that maps without throwing, and unchanged when the run rejects. */
  function AfterResponse(trackInfo: Option<TrackInfo>, response: TrackResponse): (r: Option<TrackInfo>)
    ensures response.NotOk? ==> r == None
    ensures response.Ok? && response.body.Some? && TrackInfoOf(response.body.value).Success? ==>
      r == Some(TrackInfoOf(response.body.value).value)
    ensures r != trackInfo ==>
      response.NotOk? || (response.Ok? && response.body.Some? && TrackInfoOf(response.body.value).Success?)
  {
    match response
    case NotOk => None
    case Ok(Some(data)) =>
      var info := TrackInfoOf(data);
      if info.Success? then Some(info.value) else trackInfo
    case _ => trackInfo
  }

  class TrackInfoHook {
    var trackInfo: Option<TrackInfo>
    /** Every run that issued a request, oldest first. */
    var runs: seq<Run>
    /** The dependencies of the last effect run; `None` before the first render. */
    var lastDeps: Option<(string, Option<string>)>
    /** The run whose cleanup React holds, if the last effect returned one. */
    var cleanup: Option<nat>

    /** Only the run React would clean up next is live, and it is the latest run. */
    ghost predicate Valid()
      reads this
    {
      && (forall i :: 0 <= i < |runs| && !runs[i].cancelled ==> cleanup == Some(i))
      && (cleanup.Some? ==> cleanup.value == |runs| - 1)
    }

    constructor ()
      ensures Valid()
      ensures trackInfo == None && runs == [] && lastDeps == None && cleanup == None
    {
      trackInfo, runs, lastDeps, cleanup := None, [], None, None;
    }

    /** Calls the held cleanup, which sets its run's `cancelled`. */
    method Cleanup()
      requires Valid()
      modifies this`runs, this`cleanup
      ensures Valid() && cleanup == None
      ensures |runs| == |old(runs)|
      ensures forall i :: 0 <= i < |runs| ==> runs[i].cancelled
      ensures forall i :: 0 <= i < |runs| ==> runs[i] == old(runs[i]).(cancelled := true)
      ensures forall i :: 0 <= i < |runs| && old(cleanup) != Some(i) ==> runs[i] == old(runs[i])
    {
      if cleanup.Some? {
        var i := cleanup.value;
        runs := runs[i := runs[i].(cancelled := true)];
        cleanup := None;
      }
    }

    /** One render with these hook arguments. When they differ from the last effect's, React
        cleans up the previous run and re-runs the effect: with no token (`null` or `""`) it
        clears `trackInfo`, otherwise it issues exactly one request for `trackId`. */
    method Render(trackId: string, accessToken: Option<string>)
      requires Valid()
      modifies this
      ensures Valid()
      ensures lastDeps == Some((trackId, accessToken))
      ensures old(lastDeps) == Some((trackId, accessToken)) ==>
        trackInfo == old(trackInfo) && runs == old(runs) && cleanup == old(cleanup)
      ensures old(lastDeps) != Some((trackId, accessToken)) && !Truthy(OfNullable(accessToken)) ==>
        trackInfo == None && |runs| == |old(runs)| && cleanup == None
      ensures old(lastDeps) != Some((trackId, accessToken)) && Truthy(OfNullable(accessToken)) ==>
        && trackInfo == old(trackInfo)
        && |runs| == |old(runs)| + 1
        && runs[|runs| - 1] == Run(TracksEndpoint + trackId, "Bearer " + accessToken.value, false, false)
        && cleanup == Some(|runs| - 1)
      ensures old(lastDeps) != Some((trackId, accessToken)) ==>
        forall i :: 0 <= i < |old(runs)| ==> runs[i] == old(runs[i]).(cancelled := true)
    {
      if lastDeps == Some((trackId, accessToken)) {
        return;
      }
      Cleanup();
      lastDeps := Some((trackId, accessToken));
      if !Truthy(OfNullable(accessToken)) {
        trackInfo := None;
        return;
      }
      runs := runs + [Run(TracksEndpoint + trackId, "Bearer " + accessToken.value, false, false)];
      cleanup := Some(|runs| - 1);
    }

    /** Run `i`'s request settles. Only a run that was not cleaned up touches `trackInfo`. */
    method Settle(i: nat, response: TrackResponse)
      requires Valid() && i < |runs| && !runs[i].settled
      modifies this
      ensures Valid()
      ensures runs == old(runs)[i := old(runs[i]).(settled := true)]
      ensures lastDeps == old(lastDeps) && cleanup == old(cleanup)
      ensures old(runs[i].cancelled) ==> trackInfo == old(trackInfo)
      ensures !old(runs[i].cancelled) ==> trackInfo == AfterResponse(old(trackInfo), response)
      ensures i + 1 < |runs| ==> trackInfo == old(trackInfo)
    {
      if !runs[i].cancelled {
        trackInfo := AfterResponse(trackInfo, response);
      }
      runs := runs[i := runs[i].(settled := true)];
    }

    /** Unmount: React calls the held cleanup. */
    method Unmount()
      requires Valid()
      modifies this
      ensures Valid() && cleanup == None
      ensures trackInfo == old(trackInfo) && lastDeps == old(lastDeps) && |runs| == |old(runs)|
      ensures forall i :: 0 <= i < |runs| ==> runs[i] == old(runs[i]).(cancelled := true)
    {
      Cleanup();
    }
  }
}
