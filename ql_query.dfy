/** The GraphQL query `searchSpotifyTracks`: the Spotify search reply turned into a list of
    `SpotifyTrack` records, malformed items dropped. */
module QlQuery {
  import opened Wrappers
  import opened SerdeJson
  import opened Sequences
  import Spotify

  /** The GraphQL output record. */
  datatype SpotifyTrack = SpotifyTrack(
    id: string,
    name: string,
    artists: seq<string>,
    previewUrl: Option<string>,
    albumArt: Option<string>)

  /** juniper's `FieldError`: a message and the display of the underlying error. */
  datatype FieldError = FieldError(message: string, detail: Spotify.SpotifyError)

  const SpotifyApiError: string := "Spotify API error"

  /** `a["name"].as_str()` for one artist entry. */
  function ArtistName(artist: Value): Option<string> {
    AsStr(Index(artist, "name"))
  }

  /** `album.images[0].url` as a string, through `get`, `as_array`, `get(0)` and `as_str`. */
  function AlbumArt(item: Value): Option<string> {
    match Get(item, "album")
    case None => None
    case Some(album) =>
      match Get(album, "images")
      case None => None
      case Some(images) =>
        match AsArray(images)
        case None => None
        case Some(list) =>
          match First(list)
          case None => None
          case Some(image) =>
            match Get(image, "url")
            case None => None
            case Some(url) => AsStr(url)
  }

  /** The `filter_map` closure: one search item to a track, or `None` to drop it. */
  function TrackOf(item: Value): (r: Option<SpotifyTrack>)
    ensures r.Some? <==>
      && item.Object?
      && "id" in item.fields && item.fields["id"].String?
      && "name" in item.fields && item.fields["name"].String?
      && "artists" in item.fields && item.fields["artists"].Array?
    ensures r.Some? ==>
      && r.value.id == item.fields["id"].s
      && r.value.name == item.fields["name"].s
      && r.value.artists == FilterMap(item.fields["artists"].items, ArtistName)
    ensures r.Some? ==>
      (r.value.previewUrl.Some? <==> "preview_url" in item.fields && item.fields["preview_url"].String?)
    ensures r.Some? && r.value.previewUrl.Some? ==> r.value.previewUrl.value == item.fields["preview_url"].s
    ensures r.Some? ==>
      (r.value.albumArt.Some? <==>
        && "album" in item.fields && item.fields["album"].Object?
        && "images" in item.fields["album"].fields
        && var images := item.fields["album"].fields["images"];
        && images.Array? && |images.items| > 0
        && images.items[0].Object? && "url" in images.items[0].fields
        && images.items[0].fields["url"].String?)
    ensures r.Some? && r.value.albumArt.Some? ==>
      r.value.albumArt.value == item.fields["album"].fields["images"].items[0].fields["url"].s
  {
    match AsStr(Index(item, "id"))
    case None => None
    case Some(id) =>
      match AsStr(Index(item, "name"))
      case None => None
      case Some(name) =>
        match AsArray(Index(item, "artists"))
        case None => None
        case Some(artists) =>
          var previewUrl := match Get(item, "preview_url") case Some(v) => AsStr(v) case None => None;
          Some(SpotifyTrack(id, name, FilterMap(artists, ArtistName), previewUrl, AlbumArt(item)))
  }

  /** The items of the reply, in order, with the malformed ones dropped. */
  function TracksOf(items: seq<Value>): (r: seq<SpotifyTrack>)
    ensures |r| <= |items|
  {
    FilterMap(items, TrackOf)
  }

  /** `json["tracks"]["items"]`, with a missing or non-array value read as no items. */
  function SearchItems(json: Value): (items: seq<Value>)
    ensures items != [] ==>
      && json.Object? && "tracks" in json.fields
      && json.fields["tracks"].Object? && "items" in json.fields["tracks"].fields
      && json.fields["tracks"].fields["items"] == Array(items)
    ensures json.Object? && "tracks" in json.fields && json.fields["tracks"].Object?
            && "items" in json.fields["tracks"].fields && json.fields["tracks"].fields["items"].Array? ==>
              items == json.fields["tracks"].fields["items"].items
  {
    match AsArray(Index(Index(json, "tracks"), "items"))
    case Some(items) => items
    case None => []
  }

  /** `search_spotify_tracks`: a client error becomes a "Spotify API error" field error with no
      tracks; otherwise the extracted tracks. */
  function SearchSpotifyTracks(response: Result<Value, Spotify.SpotifyError>): (r: Result<seq<SpotifyTrack>, FieldError>)
    ensures response.Failure? ==> r == Failure(FieldError(SpotifyApiError, response.error))
    ensures response.Success? ==> r.Success? && |r.value| <= |SearchItems(response.value)|
    ensures response.Success? && SearchItems(response.value) == [] ==> r == Success([])
  {
    match response
    case Failure(e) => Failure(FieldError(SpotifyApiError, e))
    case Success(json) => Success(TracksOf(SearchItems(json)))
  }

  /** A track is in the result exactly when some item converts to it. */
  lemma SearchResultMembers(json: Value, t: SpotifyTrack)
    ensures var items := SearchItems(json);
            t in SearchSpotifyTracks(Success(json)).value <==>
              exists i :: 0 <= i < |items| && TrackOf(items[i]) == Some(t)
  {
    FilterMapMember(SearchItems(json), TrackOf, t);
  }

  /** Kept tracks keep their relative order: the result on two runs of items is the result on
      the first run followed by the result on the second. */
  lemma TracksOfAppend(a: seq<Value>, b: seq<Value>)
    ensures TracksOf(a + b) == TracksOf(a) + TracksOf(b)
  {
    FilterMapAppend(a, b, TrackOf);
  }

  /** When every item has a string `id` and `name` and an `artists` array, no item is dropped and
      the tracks follow the items one to one. */
  lemma TracksOfAllKept(items: seq<Value>)
    requires forall i :: 0 <= i < |items| ==> TrackOf(items[i]).Some?
    ensures |TracksOf(items)| == |items|
    ensures forall i :: 0 <= i < |items| ==> TracksOf(items)[i] == TrackOf(items[i]).value
  {
    FilterMapAllKept(items, TrackOf);
  }

  /** One item contributes its track when well-formed, and nothing otherwise. */
  lemma TracksOfSingleton(item: Value)
    ensures TracksOf([item]) == if TrackOf(item).Some? then [TrackOf(item).value] else []
  {
    FilterMapSingleton(item, TrackOf);
  }

  /** A track's artists are the string names of its artist entries, in order; an entry without
      a string name is skipped and the track is still kept. */
  lemma TrackArtists(item: Value, n: string)
    requires TrackOf(item).Some?
    ensures n in TrackOf(item).value.artists <==>
      exists i :: 0 <= i < |item.fields["artists"].items| &&
        ArtistName(item.fields["artists"].items[i]) == Some(n)
  {
    FilterMapMember(item.fields["artists"].items, ArtistName, n);
  }

  /** Artists without a string name are skipped: appending entries keeps the earlier names. */
  lemma ArtistNamesAppend(a: seq<Value>, b: seq<Value>)
    ensures FilterMap(a + b, ArtistName) == FilterMap(a, ArtistName) + FilterMap(b, ArtistName)
  {
    FilterMapAppend(a, b, ArtistName);
  }

  /** Album art depends on the first image only: replacing the later images changes nothing. */
  lemma AlbumArtFirstImageOnly(item: Value, album: map<string, Value>, first: Value, rest: seq<Value>, rest': seq<Value>)
    requires item.Object? && "album" in item.fields && item.fields["album"] == Object(album)
    requires "images" in album && album["images"] == Array([first] + rest)
    ensures AlbumArt(item) ==
      AlbumArt(Object(item.fields["album" := Object(album["images" := Array([first] + rest')])]))
  {
    assert ([first] + rest)[0] == first == ([first] + rest')[0];
  }
}
