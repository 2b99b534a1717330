/** Track resolution of frontend/downloader/backend/spotify_api.py over an
    abstract catalog: `get_track` and both branches of `get_playlist`.  Each
    loop is a method proved equal to a recursive specification function; the
    lemmas state what the specifications promise (order, completeness, where
    the loops stop). */
module SpotifyResolve {
  import opened Base
  import opened Text
  import opened SpotifyTypes

  /** `head + rest` when the rest succeeded; an exception discards `head`. */
  function Prefixed<T>(head: seq<T>, rest: Result<seq<T>>): Result<seq<T>> {
    if rest.Ok? then Ok(head + rest.value) else rest
  }

  lemma PrefixedNothing<T>(r: Result<seq<T>>)
    ensures Prefixed([], r) == r
  {
    if r.Ok? {
      assert [] + r.value == r.value;
    }
  }

  lemma PrefixedTwice<T>(a: seq<T>, b: seq<T>, r: Result<seq<T>>)
    ensures Prefixed(a, Prefixed(b, r)) == Prefixed(a + b, r)
  {
    if r.Ok? {
      assert a + (b + r.value) == (a + b) + r.value;
    }
  }

  // ---------------------------------------------------------------------------
  // get_track

  /** `get_track(query)`: a query holding `open.spotify.com/track/` is looked up
      by the id left after prefix stripping, anything else by a one-hit search. */
  function GetTrack(c: Catalog, query: string): Result<SpotifyTrack> {
    if Contains(query, Marker(Track)) then
      match c.track(StripKind(query, Track))
      case None => Raise(BadTrackBody)
      case Some(data) => CreateTrack(data)
    else
      match c.search(query)
      case SearchHits(items) => if items == [] then Raise(NoSearchHit) else CreateTrack(items[0])
      case SearchOther => Raise(BadSearchBody)
      case SearchNotJson => Raise(BadSearchBody)
  }

  /** A track link whose id has no `:` or `/` is looked up by exactly that id. */
  lemma GetTrackOfLink(c: Catalog, id: string)
    requires ':' !in id && '/' !in id
    ensures GetTrack(c, Link(Track, id)) ==
      if c.track(id).None? then Raise(BadTrackBody) else CreateTrack(c.track(id).value)
  {
    LinkMarker(Track, Track, id);
    assert Link(Track, id) == HttpsPrefix(Track) + id;
    StripKindOfLink(Track, id);
  }

  // ---------------------------------------------------------------------------
  // get_playlist, album branch

  /** The tracks of an album's item ids, one `get_track` per id in item order;
      the first lookup that raises aborts the whole list. */
  function TracksOf(c: Catalog, ids: seq<string>): (r: Result<seq<SpotifyTrack>>)
    ensures r.Ok? <==> forall k :: 0 <= k < |ids| ==> GetTrack(c, Link(Track, ids[k])).Ok?
    ensures r.Ok? ==> (|r.value| == |ids| &&
      forall k :: 0 <= k < |ids| ==> r.value[k] == GetTrack(c, Link(Track, ids[k])).value)
    ensures r.Raise? ==> exists k :: 0 <= k < |ids| && GetTrack(c, Link(Track, ids[k])) == Raise(r.fault)
    decreases |ids|
  {
    if ids == [] then Ok([])
    else
      match GetTrack(c, Link(Track, ids[0]))
      case Raise(f) => Raise(f)
      case Ok(t) => Prefixed([t], TracksOf(c, ids[1..]))
  }

  /** The album branch of `get_playlist`. */
  function AlbumOf(c: Catalog, url: string): Result<seq<SpotifyTrack>> {
    match c.album(StripKind(url, Album))
    case AlbumError => Raise(BadAlbumBody)
    case AlbumTracks(ids) => TracksOf(c, ids)
  }

  /** The album branch of `get_playlist` as the loop it is. */
  method GetAlbum(c: Catalog, url: string) returns (r: Result<seq<SpotifyTrack>>)
    ensures r == AlbumOf(c, url)
  {
    var body := c.album(StripKind(url, Album));
    if body.AlbumError? {
      return Raise(BadAlbumBody);
    }
    var ids := body.itemIds;
    var tracks := [];
    assert ids[0..] == ids;
    PrefixedNothing(TracksOf(c, ids));
    for i := 0 to |ids|
      invariant TracksOf(c, ids) == Prefixed(tracks, TracksOf(c, ids[i..]))
    {
      assert ids[i..][1..] == ids[i + 1..];
      var t := GetTrack(c, Link(Track, ids[i]));
      if t.Raise? {
        return Raise(t.fault);
      }
      PrefixedTwice(tracks, [t.value], TracksOf(c, ids[i + 1..]));
      tracks := tracks + [t.value];
    }
    assert ids[|ids|..] == [];
    assert tracks + [] == tracks;
    return Ok(tracks);
  }

  // ---------------------------------------------------------------------------
  // get_playlist, playlist branch

  /** `create_track(item['track'])` for each item of a page, in order. */
  function ItemTracks(items: seq<Option<TrackPayload>>): (r: Result<seq<SpotifyTrack>>)
    ensures r.Ok? <==> forall k :: 0 <= k < |items| ==> items[k].Some? && CreateTrack(items[k].value).Ok?
    ensures r.Ok? ==> (|r.value| == |items| &&
      forall k :: 0 <= k < |items| ==> Ok(r.value[k]) == CreateTrack(items[k].value))
    decreases |items|
  {
    if items == [] then Ok([])
    else if items[0].None? then Raise(NullTrack)
    else
      match CreateTrack(items[0].value)
      case Raise(f) => Raise(f)
      case Ok(t) => Prefixed([t], ItemTracks(items[1..]))
  }

  lemma {:induction false} ItemTracksAppend(a: seq<Option<TrackPayload>>, b: seq<Option<TrackPayload>>)
    ensures ItemTracks(a + b) ==
      if ItemTracks(a).Raise? then ItemTracks(a) else Prefixed(ItemTracks(a).value, ItemTracks(b))
    decreases |a|
  {
    if a == [] {
      assert a + b == b;
      PrefixedNothing(ItemTracks(b));
    } else {
      assert (a + b)[1..] == a[1..] + b;
      ItemTracksAppend(a[1..], b);
      if a[0].Some? && CreateTrack(a[0].value).Ok? && ItemTracks(a[1..]).Ok? {
        PrefixedTwice([CreateTrack(a[0].value).value], ItemTracks(a[1..]).value, ItemTracks(b));
      }
    }
  }

  /** The inner `for item in data['items']` loop: create each item's track and
      append it to the running list; a null item or a failing `create_track`
      raises out of the loop. */
  method AppendItems(tracks: seq<SpotifyTrack>, items: seq<Option<TrackPayload>>) returns (r: Result<seq<SpotifyTrack>>)
    ensures r == Prefixed(tracks, ItemTracks(items))
  {
    var all := tracks;
    assert items[0..] == items;
    assert all[|tracks|..] == [];
    PrefixedNothing(ItemTracks(items));
    for i := 0 to |items|
      invariant |tracks| <= |all| && all == tracks + all[|tracks|..]
      invariant ItemTracks(items) == Prefixed(all[|tracks|..], ItemTracks(items[i..]))
    {
      assert items[i..][1..] == items[i + 1..];
      if items[i].None? {
        return Raise(NullTrack);
      }
      var t := CreateTrack(items[i].value);
      if t.Raise? {
        return Raise(t.fault);
      }
      PrefixedTwice(all[|tracks|..], [t.value], ItemTracks(items[i + 1..]));
      assert (all + [t.value])[|tracks|..] == all[|tracks|..] + [t.value];
      all := all + [t.value];
    }
    assert items[|items|..] == [];
    assert all[|tracks|..] + [] == all[|tracks|..];
    return Ok(all);
  }

  /** What a playlist expansion shows: the page URLs requested, in order, and
      the result (`None` when a page body was not JSON). */
  datatype Listing = Listing(pages: seq<string>, result: Result<Option<seq<SpotifyTrack>>>)

  function PrefixedList(head: seq<SpotifyTrack>, r: Result<Option<seq<SpotifyTrack>>>): Result<Option<seq<SpotifyTrack>>> {
    if r.Ok? && r.value.Some? then Ok(Some(head + r.value.value)) else r
  }

  /** Pages already requested and tracks already collected, in front of the
      listing of the rest. */
  function Resume(pages: seq<string>, head: seq<SpotifyTrack>, rest: Listing): Listing {
    Listing(pages + rest.pages, PrefixedList(head, rest.result))
  }

  lemma ResumeNothing(l: Listing)
    ensures Resume([], [], l) == l
  {
    assert [] + l.pages == l.pages;
    if l.result.Ok? && l.result.value.Some? {
      assert [] + l.result.value.value == l.result.value.value;
    }
  }

  lemma ResumeTwice(p1: seq<string>, h1: seq<SpotifyTrack>, p2: seq<string>, h2: seq<SpotifyTrack>, l: Listing)
    ensures Resume(p1, h1, Resume(p2, h2, l)) == Resume(p1 + p2, h1 + h2, l)
  {
    assert p1 + (p2 + l.pages) == (p1 + p2) + l.pages;
    if l.result.Ok? && l.result.value.Some? {
      assert h1 + (h2 + l.result.value.value) == (h1 + h2) + l.result.value.value;
    }
  }

  /** The `while True` loop of the playlist branch from cursor `url` on: request
      the page, give up with None on a body that is not JSON, raise on a JSON
      body without items, create its tracks, and go on with `next` until it is
      None. */
  function PlaylistFrom(c: Catalog, url: string): (l: Listing)
    requires c.Valid()
    decreases c.rank(url)
  {
    var body := c.page(url);
    if body.NotJson? then Listing([url], Ok(None))
    else if body.NotAPage? then Listing([url], Raise(BadPlaylistBody))
    else
      var here := ItemTracks(PageOf(body).items);
      if here.Raise? then Listing([url], Raise(here.fault))
      else if PageOf(body).next.None? then Listing([url], Ok(Some(here.value)))
      else Resume([url], here.value, PlaylistFrom(c, PageOf(body).next.value))
  }

  function PlaylistApiUrl(id: string): string {
    "https://api.spotify.com/v1/playlists/" + id
  }

  /** `get_playlist(url)`: the playlist branch when the url holds
      `open.spotify.com/playlist/`, the album branch otherwise. */
  function PlaylistOrAlbum(c: Catalog, url: string): Listing
    requires c.Valid()
  {
    if Contains(url, Marker(Playlist)) then PlaylistFrom(c, PlaylistApiUrl(StripKind(url, Playlist)))
    else
      var r := AlbumOf(c, url);
      Listing([], if r.Ok? then Ok(Some(r.value)) else Raise(r.fault))
  }

  method GetPlaylist(c: Catalog, url: string) returns (pages: seq<string>, r: Result<Option<seq<SpotifyTrack>>>)
    requires c.Valid()
    ensures Listing(pages, r) == PlaylistOrAlbum(c, url)
  {
    if !Contains(url, Marker(Playlist)) {
      var album := GetAlbum(c, url);
      pages := [];
      r := if album.Ok? then Ok(Some(album.value)) else Raise(album.fault);
      return;
    }
    var cursor := PlaylistApiUrl(StripKind(url, Playlist));
    ghost var first := cursor;
    var tracks := [];
    pages := [];
    ResumeNothing(PlaylistFrom(c, cursor));
    while true
      invariant PlaylistFrom(c, first) == Resume(pages, tracks, PlaylistFrom(c, cursor))
      decreases c.rank(cursor)
    {
      var body := c.page(cursor);
      pages := pages + [cursor];
      if body.NotJson? {
        return pages, Ok(None);
      }
      if body.NotAPage? {
        return pages, Raise(BadPlaylistBody);
      }
      var appended := AppendItems(tracks, PageOf(body).items);
      if appended.Raise? {
        return pages, Raise(appended.fault);
      }
      ghost var before := tracks;
      tracks := appended.value;
      var next := PageOf(body).next;
      if next.None? {
        return pages, Ok(Some(tracks));
      }
      ResumeTwice(pages[..|pages| - 1], before, [cursor], ItemTracks(PageOf(body).items).value, PlaylistFrom(c, next.value));
      assert pages[..|pages| - 1] + [cursor] == pages;
      cursor := next.value;
    }
  }

  /** The items of a page body; a body that is not a page has none. */
  function ItemsOf(body: PlaylistBody): seq<Option<TrackPayload>> {
    if IsPage(body) then PageOf(body).items else []
  }

  /** The items of the requested pages, concatenated in request order. */
  function AllItems(c: Catalog, pages: seq<string>): seq<Option<TrackPayload>>
    decreases |pages|
  {
    if pages == [] then [] else ItemsOf(c.page(pages[0])) + AllItems(c, pages[1..])
  }

  /** The playlist loop starts at the given cursor and follows each page's
      `next`: every page after the first is the `next` of the one before, and
      a run that ends normally ends on a page without `next`. */
  lemma {:induction false} PlaylistFollowsCursors(c: Catalog, url: string)
    requires c.Valid()
    ensures var l := PlaylistFrom(c, url);
      && |l.pages| >= 1 && l.pages[0] == url
      && (forall k :: 0 <= k < |l.pages| - 1 ==> NextOf(c.page(l.pages[k])) == Some(l.pages[k + 1]))
      && (l.result.Ok? ==> NextOf(c.page(l.pages[|l.pages| - 1])) == None)
    decreases c.rank(url)
  {
    var body := c.page(url);
    if IsPage(body) && ItemTracks(PageOf(body).items).Ok? && PageOf(body).next.Some? {
      var next := PageOf(body).next.value;
      PlaylistFollowsCursors(c, next);
      var rest := PlaylistFrom(c, next);
      var l := PlaylistFrom(c, url);
      assert l.pages == [url] + rest.pages;
      forall k | 0 <= k < |l.pages| - 1
        ensures NextOf(c.page(l.pages[k])) == Some(l.pages[k + 1])
      {
        if k > 0 {
          assert l.pages[k] == rest.pages[k - 1] && l.pages[k + 1] == rest.pages[k];
        }
      }
    }
  }

  /** A run that ends normally returns None exactly when its last page was
      not JSON; a run whose last page is JSON without items raises. */
  lemma {:induction false} PlaylistNoneOnlyOnNonJson(c: Catalog, url: string)
    requires c.Valid()
    ensures var l := PlaylistFrom(c, url);
      && |l.pages| >= 1
      && (l.result.Ok? ==> (l.result.value.None? <==> c.page(l.pages[|l.pages| - 1]).NotJson?))
      && (c.page(l.pages[|l.pages| - 1]).NotAPage? ==> l.result == Raise(BadPlaylistBody))
    decreases c.rank(url)
  {
    var body := c.page(url);
    if IsPage(body) && ItemTracks(PageOf(body).items).Ok? && PageOf(body).next.Some? {
      var next := PageOf(body).next.value;
      PlaylistNoneOnlyOnNonJson(c, next);
      var rest := PlaylistFrom(c, next);
      var l := PlaylistFrom(c, url);
      assert l == Resume([url], ItemTracks(PageOf(body).items).value, rest);
      assert l.pages == [url] + rest.pages;
      assert l.pages[|l.pages| - 1] == rest.pages[|rest.pages| - 1];
      assert l.result == PrefixedList(ItemTracks(PageOf(body).items).value, rest.result);
    }
  }

  /** Nothing is dropped: a run that returns tracks returns those of every
      item of every page requested, in page order and item order. */
  lemma {:induction false} PlaylistCollectsEveryPage(c: Catalog, url: string)
    requires c.Valid()
    ensures var l := PlaylistFrom(c, url);
      l.result.Ok? && l.result.value.Some? ==> ItemTracks(AllItems(c, l.pages)) == Ok(l.result.value.value)
    decreases c.rank(url)
  {
    var body := c.page(url);
    if !IsPage(body) || ItemTracks(PageOf(body).items).Raise? {
    } else if PageOf(body).next.None? {
      var items := PageOf(body).items;
      assert AllItems(c, [url]) == items + [];
      assert items + [] == items;
    } else {
      var items := PageOf(body).items;
      var next := PageOf(body).next.value;
      PlaylistCollectsEveryPage(c, next);
      var rest := PlaylistFrom(c, next);
      var l := PlaylistFrom(c, url);
      assert l == Resume([url], ItemTracks(items).value, rest);
      if l.result.Ok? && l.result.value.Some? {
        assert ([url] + rest.pages)[1..] == rest.pages;
        assert AllItems(c, l.pages) == items + AllItems(c, rest.pages);
        ItemTracksAppend(items, AllItems(c, rest.pages));
      }
    }
  }
}
