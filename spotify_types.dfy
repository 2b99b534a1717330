/** The records of frontend/downloader/backend/spotify_api.py (`SpotifyAlbum`,
    `SpotifyTrack`), the decoded JSON bodies the Web API answers with,
    `create_track`, the `open.spotify.com/<kind>/` prefix stripping and the URL
    dispatch of `Spotify.fetch`. */
module SpotifyTypes {
  import opened Base
  import opened Text

  // ---------------------------------------------------------------------------
  // Decoded bodies (only the keys the client reads)

  /** `album_data`: `name`, `artists[*].name`, `images[*].url`, `release_date`. */
  datatype AlbumPayload = AlbumPayload(
    name: string, artistNames: seq<string>, imageUrls: seq<string>, releaseDate: string)

  /** A track object: `name`, an optional `artist` key, `artists[*].name`,
      `album`, `external_ids.isrc` (absent for some tracks) and `track_number`. */
  datatype TrackPayload = TrackPayload(
    name: string, artistKey: Option<seq<string>>, artistNames: seq<string>,
    album: AlbumPayload, isrc: Option<string>, trackNumber: int)

  datatype SpotifyAlbum = SpotifyAlbum(name: string, artists: seq<string>, image: string, release: string)

  datatype SpotifyTrack = SpotifyTrack(
    name: string, artists: seq<string>, album: SpotifyAlbum, isrc: string, trackNumber: int)

  /** `create_track`: raises when the album has no image or the track no ISRC;
      otherwise copies the fields, taking the artist list from the `artist` key
      when the body has one and from `artists[*].name` (in order) otherwise. */
  function CreateTrack(data: TrackPayload): (r: Result<SpotifyTrack>)
    ensures r == Raise(NoAlbumImage) <==> data.album.imageUrls == []
    ensures r == Raise(NoIsrc) <==> data.album.imageUrls != [] && data.isrc == None
    ensures r.Ok? ==>
      && r.value.name == data.name
      && r.value.isrc == data.isrc.value
      && r.value.trackNumber == data.trackNumber
      && r.value.album == SpotifyAlbum(data.album.name, data.album.artistNames,
                                       data.album.imageUrls[0], data.album.releaseDate)
      && (data.artistKey.None? ==> r.value.artists == data.artistNames)
      && (data.artistKey.Some? ==> r.value.artists == data.artistKey.value)
  {
    if data.album.imageUrls == [] then Raise(NoAlbumImage)
    else
      var album := SpotifyAlbum(data.album.name, data.album.artistNames,
                                data.album.imageUrls[0], data.album.releaseDate);
      var artists := if data.artistKey.Some? then data.artistKey.value else data.artistNames;
      if data.isrc.None? then Raise(NoIsrc)
      else Ok(SpotifyTrack(data.name, artists, album, data.isrc.value, data.trackNumber))
  }

  // ---------------------------------------------------------------------------
  // Links

  datatype Kind = Playlist | Album | Track | Artist

  function KindName(k: Kind): (s: string)
    ensures s != [] && '/' !in s && ':' !in s
  {
    match k
    case Playlist => "playlist"
    case Album => "album"
    case Track => "track"
    case Artist => "artist"
  }

  const Host: string := "open.spotify.com/"

  /** The substring `fetch` and `get_*` test for: `open.spotify.com/<kind>/`. */
  function Marker(k: Kind): string {
    Host + KindName(k) + "/"
  }

  /** The share link of an entity: `https://open.spotify.com/<kind>/<id>`. */
  function Link(k: Kind, id: string): string {
    "https://" + Marker(k) + id
  }

  /** The two prefixes `get_track`, `get_playlist` and `get_artist` delete. */
  function HttpsPrefix(k: Kind): string { "https://" + Marker(k) }
  function HttpPrefix(k: Kind): string { "http://" + Marker(k) }

  /** `s.replace('https://open.spotify.com/<kind>/', '').replace('http://open.spotify.com/<kind>/', '')`. */
  function StripKind(s: string, k: Kind): string {
    DeleteAll(DeleteAll(s, HttpsPrefix(k)), HttpPrefix(k))
  }

  /** On a link `https://` or `http://open.spotify.com/<kind>/<rest>` whose rest
      holds no `:`, the stripping leaves exactly the rest. */
  lemma StripKindOfLink(k: Kind, rest: string)
    requires ':' !in rest
    ensures StripKind(HttpsPrefix(k) + rest, k) == rest
    ensures StripKind(HttpPrefix(k) + rest, k) == rest
  {
    assert HttpsPrefix(k)[5] == ':';
    assert HttpPrefix(k)[4] == ':';
    MissingCharBlocks(rest, HttpsPrefix(k), ':');
    MissingCharBlocks(rest, HttpPrefix(k), ':');
    DeleteAllLeading(HttpsPrefix(k), rest);
    DeleteAllLeading(HttpPrefix(k), rest);
    HttpLinkLacksHttps(k, rest);
  }

  /** The `https://` pattern cannot occur in an `http://` link. */
  lemma HttpLinkLacksHttps(k: Kind, rest: string)
    requires ':' !in rest
    ensures !Contains(HttpPrefix(k) + rest, HttpsPrefix(k))
  {
    var s := HttpPrefix(k) + rest;
    var p := HttpsPrefix(k);
    assert p[5] == ':';
    forall i | 0 <= i && i + |p| <= |s|
      ensures !OccursAt(s, p, i)
    {
      assert s[i..i + |p|][5] == s[i + 5];
      NoColonAfterScheme(k, rest, i + 5);
    }
    ContainsIff(s, p);
  }

  /** After the scheme's `:`, an `http://` link with a colon-free rest has
      no other `:`. */
  lemma NoColonAfterScheme(k: Kind, rest: string, j: int)
    requires ':' !in rest && 4 < j < |HttpPrefix(k) + rest|
    ensures (HttpPrefix(k) + rest)[j] != ':'
  {
    MarkerShape(k);
    var tail := "//" + Marker(k) + rest;
    assert HttpPrefix(k) + rest == "http:" + tail;
    assert tail[j - 5] in tail;
  }

  lemma MarkerShape(k: Kind)
    ensures |Marker(k)| == 18 + |KindName(k)|
    ensures Marker(k)[16] == '/' && Marker(k)[17 + |KindName(k)|] == '/'
    ensures Marker(k)[17..17 + |KindName(k)|] == KindName(k)
    ensures ':' !in Marker(k)
  {
    assert ':' !in Host;
  }

  // ---------------------------------------------------------------------------
  // The URL dispatch of `fetch`

  datatype UrlClass = Blank | Liked | LinkTo(kind: Kind) | SearchText

  /** The tests of `fetch`, in its order: empty, playlist, `liked`, album,
      track, artist, and otherwise a free-text search. */
  function Classify(url: string): UrlClass {
    if url == "" then Blank
    else if Contains(url, Marker(Playlist)) then LinkTo(Playlist)
    else if Contains(url, "liked") then Liked
    else if Contains(url, Marker(Album)) then LinkTo(Album)
    else if Contains(url, Marker(Track)) then LinkTo(Track)
    else if Contains(url, Marker(Artist)) then LinkTo(Artist)
    else SearchText
  }

  /** In a share link whose id has no `/`, the slashes are those of
      `https://open.spotify.com/<kind>/`. */
  lemma LinkSlashes(k: Kind, id: string, j: int)
    requires '/' !in id && 0 <= j < |Link(k, id)| && Link(k, id)[j] == '/'
    ensures j == 6 || j == 7 || j == 24 || j == 25 + |KindName(k)|
  {
    var name := KindName(k);
    var s := Link(k, id);
    assert s == "https:" + "//" + "open.spotify.com" + "/" + name + "/" + id;
  }

  /** A share link contains the marker of its own kind and of no other. */
  lemma LinkMarker(k: Kind, m: Kind, id: string)
    requires '/' !in id
    ensures Contains(Link(k, id), Marker(m)) <==> k == m
  {
    var s := Link(k, id);
    ContainsIff(s, Marker(m));
    if k == m {
      assert s == "https://" + Marker(k) + id;
      assert s[8..8 + |Marker(k)|] == Marker(k);
      assert OccursAt(s, Marker(m), 8);
    }
    if Contains(s, Marker(m)) {
      var i :| OccursAt(s, Marker(m), i);
      MarkerAt(k, m, id, i);
    }
  }

  /** Where a marker occurs in a share link, it is the link's own. */
  lemma MarkerAt(k: Kind, m: Kind, id: string, i: int)
    requires '/' !in id && OccursAt(Link(k, id), Marker(m), i)
    ensures i == 8 && k == m
  {
    var s := Link(k, id);
    var p := Marker(m);
    var n := |KindName(m)|;
    MarkerShape(k);
    MarkerShape(m);
    assert s[i..i + |p|] == p;
    assert s[i + 16] == '/' by { assert s[i..i + |p|][16] == s[i + 16]; }
    assert s[i + 17 + n] == '/' by { assert s[i..i + |p|][17 + n] == s[i + 17 + n]; }
    LinkSlashes(k, id, i + 16);
    LinkSlashes(k, id, i + 17 + n);
    assert i == 8 && n == |KindName(k)|;
    assert s == "https://" + Marker(k) + id;
    assert s[8..8 + |p|] == Marker(k);
    assert p == Marker(k);
    KindNameInjective(k, m);
  }

  lemma KindNameInjective(k: Kind, m: Kind)
    requires Marker(k) == Marker(m)
    ensures k == m
  {
    MarkerShape(k);
    MarkerShape(m);
    assert KindName(k) == Marker(k)[17..|Marker(k)| - 1];
  }

  /** Share links are routed by their kind, except that a `liked` anywhere in a
      non-playlist link sends it to the (undefined) liked-tracks branch. */
  lemma ClassifyLink(k: Kind, id: string)
    requires '/' !in id
    ensures Classify(Link(k, id)) ==
      if k != Playlist && Contains(Link(k, id), "liked") then Liked else LinkTo(k)
  {
    LinkMarker(k, Playlist, id);
    LinkMarker(k, Album, id);
    LinkMarker(k, Track, id);
    LinkMarker(k, Artist, id);
  }

  // ---------------------------------------------------------------------------
  // The catalog: what the Web API answers, as an oracle

  /** A page of playlist items; an item's `track` is None for a removed track. */
  datatype Paging = Paging(items: seq<Option<TrackPayload>>, next: Option<string>)

  /** The first page of a playlist comes wrapped in a playlist object
      (`data['tracks']`), later pages are paging objects; `NotAPage` is a JSON
      body with neither, such as the error object of an unknown playlist. */
  datatype PlaylistBody = NotJson | PlaylistObject(tracks: Paging) | PagingObject(page: Paging) | NotAPage

  /** `data['tracks']['items'][*]['id']` of an album, or a body without them. */
  datatype AlbumBody = AlbumTracks(itemIds: seq<string>) | AlbumError

  /** One entry of an artist's album listing: `artists[*].id` and
      `external_urls.spotify`. */
  datatype AlbumEntry = AlbumEntry(artistIds: seq<string>, url: string)

  /** A page of an artist's album listing with its `total` and, where the body
      carries one, an `id`; or a body that is not JSON or lacks those keys. */
  datatype ArtistReply = ArtistPage(items: seq<AlbumEntry>, total: int, id: Option<string>) | ArtistError

  /** The body of a search: track hits, a JSON body without them, or not JSON. */
  datatype SearchReply = SearchHits(items: seq<TrackPayload>) | SearchOther | SearchNotJson

  /** The Web API as seen by the client: each endpoint is a function from the
      request to the decoded body.  `rank` and `maxTotal` are proof devices: the
      server's `next` cursors strictly descend in `rank`, no album listing
      reports a `total` above `maxTotal`, and an `id` the server hands back is
      a plain id (it holds no `?si=`). */
  datatype Catalog = Catalog(
    track: string -> Option<TrackPayload>,   // GET v1/tracks/{id}/
    search: string -> SearchReply,           // GET v1/search?q={query}&type=track&limit=1
    album: string -> AlbumBody,              // GET v1/albums/{id}
    page: string -> PlaylistBody,            // GET of a playlist or a `next` cursor
    artistAlbums: (string, int) -> ArtistReply, // GET v1/artists/{id}/albums?limit=50&offset={offset}
    ghost rank: string -> nat,
    ghost maxTotal: nat)
  {
    ghost predicate Valid() {
      && (forall u :: NextOf(page(u)).Some? ==> rank(NextOf(page(u)).value) < rank(u))
      && (forall id, offset :: artistAlbums(id, offset).ArtistPage? ==>
            && artistAlbums(id, offset).total <= maxTotal
            && (artistAlbums(id, offset).id.Some? ==> !Contains(artistAlbums(id, offset).id.value, "?si=")))
    }
  }

  /** The body carries a page of items, directly or under `tracks`. */
  predicate IsPage(body: PlaylistBody) {
    body.PlaylistObject? || body.PagingObject?
  }

  /** `data['tracks']` when the body has it, the body itself otherwise. */
  function PageOf(body: PlaylistBody): Paging
    requires IsPage(body)
  {
    if body.PlaylistObject? then body.tracks else body.page
  }

  function NextOf(body: PlaylistBody): Option<string> {
    if IsPage(body) then PageOf(body).next else None
  }
}
