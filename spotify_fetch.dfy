/** `get_artist` and `fetch` of frontend/downloader/backend/spotify_api.py over
    the abstract catalog: the artist's album listing is walked page by page,
    every album that credits the artist is expanded with `get_playlist`, and
    `fetch` dispatches each input line on the link it holds. */
module SpotifyFetch {
  import opened Base
  import opened Text
  import opened SpotifyTypes
  import opened SpotifyResolve

  /** `tracks.extend(fetched)` / `track_list += fetched` of a `get_playlist`
      result: a None result cannot be iterated and raises. */
  function Extension(r: Result<Option<seq<SpotifyTrack>>>): (e: Result<seq<SpotifyTrack>>)
    ensures e.Ok? <==> r.Ok? && r.value.Some?
    ensures e.Ok? ==> e.value == r.value.value
    ensures r.Raise? ==> e == Raise(r.fault)
  {
    match r
    case Raise(f) => Raise(f)
    case Ok(None) => Raise(ExtendedWithNone)
    case Ok(Some(ts)) => Ok(ts)
  }

  // ---------------------------------------------------------------------------
  // get_artist

  /** The album credits the queried artist: one of its artists has the id.
      An empty id never matches, since `artist == ''` is then the outcome either way. */
  predicate Credited(album: AlbumEntry, id: string) {
    id != "" && id in album.artistIds
  }

  /** The inner `for a in album_data['artists']` loop. */
  method FindCredit(artistIds: seq<string>, id: string) returns (artist: string)
    ensures artist == if id in artistIds then id else ""
  {
    artist := "";
    for m := 0 to |artistIds|
      invariant artist == if id in artistIds[..m] then id else ""
    {
      assert artistIds[..m + 1] == artistIds[..m] + [artistIds[m]];
      if artistIds[m] == id {
        artist := artistIds[m];
      }
    }
    assert artistIds[..|artistIds|] == artistIds;
  }

  /** The tracks one listing page contributes: the albums are expanded in
      order until the first one that does not credit the artist (`break`). */
  function PageTracks(c: Catalog, items: seq<AlbumEntry>, id: string): Result<seq<SpotifyTrack>>
    requires c.Valid()
    decreases |items|
  {
    if items == [] || !Credited(items[0], id) then Ok([])
    else
      match Extension(PlaylistOrAlbum(c, items[0].url).result)
      case Raise(f) => Raise(f)
      case Ok(ts) => Prefixed(ts, PageTracks(c, items[1..], id))
  }

  /** The longest run of leading albums that credit the artist. */
  function CreditedPrefix(items: seq<AlbumEntry>, id: string): (p: seq<AlbumEntry>)
    ensures |p| <= |items| && p == items[..|p|]
    ensures forall k :: 0 <= k < |p| ==> Credited(p[k], id)
    ensures |p| < |items| ==> !Credited(items[|p|], id)
    decreases |items|
  {
    if items == [] || !Credited(items[0], id) then []
    else [items[0]] + CreditedPrefix(items[1..], id)
  }

  /** Every album's `get_playlist` tracks, concatenated in order. */
  function AlbumsTracks(c: Catalog, albums: seq<AlbumEntry>): Result<seq<SpotifyTrack>>
    requires c.Valid()
    decreases |albums|
  {
    if albums == [] then Ok([])
    else
      match Extension(PlaylistOrAlbum(c, albums[0].url).result)
      case Raise(f) => Raise(f)
      case Ok(ts) => Prefixed(ts, AlbumsTracks(c, albums[1..]))
  }

  /** A page contributes exactly the tracks of its leading credited albums:
      everything from the first album that does not credit the artist on is
      skipped, even albums after it that do. */
  lemma {:induction false} PageStopsAtFirstUncredited(c: Catalog, items: seq<AlbumEntry>, id: string)
    requires c.Valid()
    ensures PageTracks(c, items, id) == AlbumsTracks(c, CreditedPrefix(items, id))
    decreases |items|
  {
    if items != [] && Credited(items[0], id) {
      PageStopsAtFirstUncredited(c, items[1..], id);
      assert CreditedPrefix(items, id)[1..] == CreditedPrefix(items[1..], id);
    }
  }

  /** One pass of the album loop, on `items[j]`: whether the album credits
      the artist and, if it does, what its `get_playlist` result extends the
      list by; in each case, what that leaves of the page's contribution. */
  method ExtendByAlbum(c: Catalog, items: seq<AlbumEntry>, j: nat, id: string)
    returns (credited: bool, r: Result<seq<SpotifyTrack>>)
    requires c.Valid() && j < |items|
    ensures !credited ==> PageTracks(c, items[j..], id) == Ok([])
    ensures credited && r.Raise? ==> PageTracks(c, items[j..], id) == Raise(r.fault)
    ensures credited && r.Ok? ==> PageTracks(c, items[j..], id) == Prefixed(r.value, PageTracks(c, items[j + 1..], id))
  {
    assert items[j..][1..] == items[j + 1..];
    var artist := FindCredit(items[j].artistIds, id);
    if artist == "" {
      return false, Ok([]);
    }
    var _, fetched := GetPlaylist(c, items[j].url);
    if fetched.Raise? {
      return true, Raise(fetched.fault);
    }
    if fetched.value.None? {
      return true, Raise(ExtendedWithNone);
    }
    return true, Ok(fetched.value.value);
  }

  /** The `for album_data in data['items']` loop, extending the running list. */
  method ExtendWithPage(c: Catalog, tracks: seq<SpotifyTrack>, items: seq<AlbumEntry>, id: string)
    returns (r: Result<seq<SpotifyTrack>>)
    requires c.Valid()
    ensures r == Prefixed(tracks, PageTracks(c, items, id))
  {
    var added := [];
    var j := 0;
    assert items[0..] == items;
    PrefixedNothing(PageTracks(c, items, id));
    while j < |items|
      invariant 0 <= j <= |items|
      invariant PageTracks(c, items, id) == Prefixed(added, PageTracks(c, items[j..], id))
    {
      var credited, extension := ExtendByAlbum(c, items, j, id);
      if !credited {
        break;
      }
      if extension.Raise? {
        return Raise(extension.fault);
      }
      PrefixedTwice(added, extension.value, PageTracks(c, items[j + 1..], id));
      added := added + extension.value;
      j := j + 1;
    }
    if j == |items| {
      assert items[j..] == [];
    }
    assert added + [] == added;
    return Ok(tracks + added);
  }

  /** What an artist expansion shows: the `(id, offset)` of each listing
      request, in order, and the result. */
  datatype ArtistRun = ArtistRun(requests: seq<(string, int)>, result: Result<seq<SpotifyTrack>>)

  function ResumeArtist(requests: seq<(string, int)>, head: seq<SpotifyTrack>, rest: ArtistRun): ArtistRun {
    ArtistRun(requests + rest.requests, Prefixed(head, rest.result))
  }

  lemma ResumeArtistNothing(run: ArtistRun)
    ensures ResumeArtist([], [], run) == run
  {
    assert [] + run.requests == run.requests;
    PrefixedNothing(run.result);
  }

  lemma ResumeArtistTwice(q1: seq<(string, int)>, h1: seq<SpotifyTrack>, q2: seq<(string, int)>, h2: seq<SpotifyTrack>, run: ArtistRun)
    ensures ResumeArtist(q1, h1, ResumeArtist(q2, h2, run)) == ResumeArtist(q1 + q2, h1 + h2, run)
  {
    assert q1 + (q2 + run.requests) == (q1 + q2) + run.requests;
    PrefixedTwice(h1, h2, run.result);
  }

  /** The `api_url` of one `get_artist` request. */
  function ArtistAlbumsUrl(id: string, offset: nat): string {
    "https://api.spotify.com/v1/artists/" + id + "/albums?limit=50&offset=" + Decimal(offset)
  }

  /** The fixed parts of an `api_url`: no `?` before the id, and after it a
      `/` and a single `?`, followed by `l`. */
  lemma ArtistUrlParts(id: string, offset: nat)
    ensures var u := ArtistAlbumsUrl(id, offset);
      && |u| == 35 + |id| + 24 + |Decimal(offset)|
      && u[..35] == "https://api.spotify.com/v1/artists/" && u[35..35 + |id|] == id
      && u[35 + |id|] == '/' && u[35 + |id| + 7] == '?' && u[35 + |id| + 8] == 'l'
      && (forall j :: 0 <= j < 35 ==> u[j] != '?')
      && (forall j :: 35 + |id| <= j < |u| && j != 35 + |id| + 7 ==> u[j] != '?')
  {
    var pre, fixed, digits := "https://api.spotify.com/v1/artists/", "/albums?limit=50&offset=", Decimal(offset);
    var u := ArtistAlbumsUrl(id, offset);
    assert u == pre + id + fixed + digits;
    forall j | 35 + |id| <= j < |u| && j != 35 + |id| + 7
      ensures u[j] != '?'
    {
      if j < 35 + |id| + 24 {
        assert u[j] == fixed[j - 35 - |id|];
      } else {
        assert u[j] == digits[j - 59 - |id|] && digits[j - 59 - |id|] in digits;
      }
    }
  }

  /** `'?si=' in api_url` tests the id only: no occurrence starts in the
      fixed parts or runs from the id into them. */
  lemma {:induction false} ArtistUrlSiIsIdSi(id: string, offset: nat)
    ensures Contains(ArtistAlbumsUrl(id, offset), "?si=") <==> Contains(id, "?si=")
  {
    var u, p := ArtistAlbumsUrl(id, offset), "?si=";
    ArtistUrlParts(id, offset);
    var b := 35 + |id|;
    forall i | 0 <= i && i + |p| <= |u| && !(35 <= i && i + |p| <= b)
      ensures !OccursAt(u, p, i)
    {
      if i < 35 || (b <= i && i != b + 7) {
        MismatchAt(u, p, i, 0);
      } else if i < b {
        MismatchAt(u, p, i, b - i);
      } else {
        MismatchAt(u, p, i, 1);
      }
    }
    ContainsIff(u, p);
    ContainsIff(id, p);
    if Contains(u, p) {
      var i :| OccursAt(u, p, i);
      assert u[i..i + |p|] == u[35..b][i - 35..i - 35 + |p|];
      assert OccursAt(id, p, i - 35);
    }
    if Contains(id, p) {
      var i :| OccursAt(id, p, i);
      assert u[35 + i..35 + i + |p|] == u[35..b][i..i + |p|];
      assert OccursAt(u, p, 35 + i);
    }
  }

  /** The `while True` loop of `get_artist` from `offset` on.  An id holding
      `?si=` is replaced by the `id` of the reply and the same offset is asked
      again (`ArtistUrlSiIsIdSi`: testing the request URL is testing the id).  Otherwise the page's tracks are collected and
      the offset advances by 49; the loop ends once `total` is below the new
      offset. */
  function ArtistFrom(c: Catalog, id: string, offset: int): ArtistRun
    requires c.Valid() && 0 <= offset <= c.maxTotal
    decreases c.maxTotal - offset, if Contains(id, "?si=") then 1 else 0
  {
    var data := c.artistAlbums(id, offset);
    if Contains(id, "?si=") then
      if data.ArtistError? || data.id.None? then ArtistRun([(id, offset)], Raise(BadArtistBody))
      else ResumeArtist([(id, offset)], [], ArtistFrom(c, data.id.value, offset))
    else if data.ArtistError? then ArtistRun([(id, offset)], Raise(BadArtistBody))
    else
      var here := PageTracks(c, data.items, id);
      if here.Raise? || data.total < offset + 49 then ArtistRun([(id, offset)], here)
      else ResumeArtist([(id, offset)], here.value, ArtistFrom(c, id, offset + 49))
  }

  /** `get_artist(url)`. */
  method GetArtist(c: Catalog, url: string) returns (requests: seq<(string, int)>, r: Result<seq<SpotifyTrack>>)
    requires c.Valid()
    ensures ArtistRun(requests, r) == ArtistFrom(c, StripKind(url, Artist), 0)
  {
    var tracks := [];
    var offset := 0;
    var id := StripKind(url, Artist);
    ghost var first := id;
    requests := [];
    ResumeArtistNothing(ArtistFrom(c, id, 0));
    while true
      invariant 0 <= offset <= c.maxTotal
      invariant ArtistFrom(c, first, 0) == ResumeArtist(requests, tracks, ArtistFrom(c, id, offset))
      decreases c.maxTotal - offset, if Contains(id, "?si=") then 1 else 0
    {
      var data := c.artistAlbums(id, offset);
      requests := requests + [(id, offset)];
      if Contains(id, "?si=") {
        if data.ArtistError? || data.id.None? {
          return requests, Raise(BadArtistBody);
        }
        ResumeArtistTwice(requests[..|requests| - 1], tracks, [(id, offset)], [], ArtistFrom(c, data.id.value, offset));
        assert requests[..|requests| - 1] + [(id, offset)] == requests;
        assert tracks + [] == tracks;
        id := data.id.value;
        continue;
      }
      if data.ArtistError? {
        return requests, Raise(BadArtistBody);
      }
      var extended := ExtendWithPage(c, tracks, data.items, id);
      if extended.Raise? {
        return requests, extended;
      }
      ghost var before := tracks;
      ghost var here := PageTracks(c, data.items, id).value;
      tracks := extended.value;
      offset := offset + 49;
      if data.total < offset {
        return requests, Ok(tracks);
      }
      ResumeArtistTwice(requests[..|requests| - 1], before, [(id, offset - 49)], here, ArtistFrom(c, id, offset));
      assert requests[..|requests| - 1] + [(id, offset - 49)] == requests;
    }
  }

  /** With a plain id, the listing is requested at `offset`, `offset + 49`,
      `offset + 98`, … (pages of 50 that overlap by one album). */
  lemma {:induction false} ArtistOffsets(c: Catalog, id: string, offset: int)
    requires c.Valid() && 0 <= offset <= c.maxTotal && !Contains(id, "?si=")
    ensures var run := ArtistFrom(c, id, offset);
      && |run.requests| >= 1
      && forall k :: 0 <= k < |run.requests| ==> run.requests[k] == (id, offset + 49 * k)
    decreases c.maxTotal - offset
  {
    var data := c.artistAlbums(id, offset);
    if data.ArtistPage? && PageTracks(c, data.items, id).Ok? && data.total >= offset + 49 {
      ArtistOffsets(c, id, offset + 49);
      var rest := ArtistFrom(c, id, offset + 49);
      var run := ArtistFrom(c, id, offset);
      assert run.requests == [(id, offset)] + rest.requests;
      forall k | 0 <= k < |run.requests|
        ensures run.requests[k] == (id, offset + 49 * k)
      {
        if k > 0 {
          assert run.requests[k] == rest.requests[k - 1];
        }
      }
    }
  }

  /** With a plain id, the loop goes on exactly while the listing's `total`
      reaches the next offset: every page but the last reported
      `total >= offset + 49`, and a run that ends normally ends on a page
      reporting `total < offset + 49`. */
  lemma {:induction false} ArtistStopsAtTotal(c: Catalog, id: string, offset: int)
    requires c.Valid() && 0 <= offset <= c.maxTotal && !Contains(id, "?si=")
    ensures var run := ArtistFrom(c, id, offset);
      && |run.requests| >= 1
      && (forall k :: 0 <= k < |run.requests| - 1 ==>
            c.artistAlbums(id, run.requests[k].1).ArtistPage?
            && c.artistAlbums(id, run.requests[k].1).total >= run.requests[k].1 + 49)
      && (run.result.Ok? ==>
            var last := run.requests[|run.requests| - 1].1;
            c.artistAlbums(id, last).ArtistPage? && c.artistAlbums(id, last).total < last + 49)
    decreases c.maxTotal - offset
  {
    var data := c.artistAlbums(id, offset);
    if data.ArtistPage? && PageTracks(c, data.items, id).Ok? && data.total >= offset + 49 {
      ArtistStopsAtTotal(c, id, offset + 49);
      var rest := ArtistFrom(c, id, offset + 49);
      var run := ArtistFrom(c, id, offset);
      assert run.requests == [(id, offset)] + rest.requests;
      assert run.result.Ok? ==> rest.result.Ok?;
      forall k | 0 <= k < |run.requests| - 1
        ensures c.artistAlbums(id, run.requests[k].1).ArtistPage?
        ensures c.artistAlbums(id, run.requests[k].1).total >= run.requests[k].1 + 49
      {
        if k > 0 {
          assert run.requests[k] == rest.requests[k - 1];
        }
      }
    }
  }

  /** The listing of an artist whose every page reports the same `total`. */
  ghost predicate SteadyTotal(c: Catalog, id: string, total: int) {
    forall offset :: c.artistAlbums(id, offset).ArtistPage? && c.artistAlbums(id, offset).total == total
  }

  /** Against a steady `total`, a run that ends normally makes
      `(total - offset) / 49 + 1` listing requests. */
  lemma {:induction false} ArtistRequestCount(c: Catalog, id: string, offset: int, total: int)
    requires c.Valid() && 0 <= offset <= total <= c.maxTotal && !Contains(id, "?si=") && SteadyTotal(c, id, total)
    ensures var run := ArtistFrom(c, id, offset);
      run.result.Ok? ==> |run.requests| == (total - offset) / 49 + 1
    decreases total - offset
  {
    var data := c.artistAlbums(id, offset);
    assert data.ArtistPage? && data.total == total;
    assert offset <= c.maxTotal;
    if PageTracks(c, data.items, id).Ok? && total >= offset + 49 {
      ArtistRequestCount(c, id, offset + 49, total);
      assert (total - offset) / 49 == (total - (offset + 49)) / 49 + 1;
    }
  }

  /** An artist with 60 albums is listed with exactly two requests, at
      offsets 0 and 49. */
  lemma SixtyAlbums(c: Catalog, id: string)
    requires c.Valid() && !Contains(id, "?si=") && SteadyTotal(c, id, 60)
    ensures var run := ArtistFrom(c, id, 0);
      run.result.Ok? ==> run.requests == [(id, 0), (id, 49)]
  {
    assert c.artistAlbums(id, 0).total == 60;
    ArtistRequestCount(c, id, 0, 60);
    ArtistOffsets(c, id, 0);
  }

  // ---------------------------------------------------------------------------
  // fetch

  /** An element of `fetch`'s result: a track, or the raw body of a search
      reply, which `fetch` appends unconverted for free text. */
  datatype Entry = TrackEntry(track: SpotifyTrack) | RawSearch(reply: SearchReply)

  function AsEntries(ts: seq<SpotifyTrack>): (es: seq<Entry>)
    ensures |es| == |ts| && forall k :: 0 <= k < |ts| ==> es[k] == TrackEntry(ts[k])
  {
    seq(|ts|, k requires 0 <= k < |ts| => TrackEntry(ts[k]))
  }

  function EntriesOf(r: Result<seq<SpotifyTrack>>): Result<seq<Entry>> {
    if r.Ok? then Ok(AsEntries(r.value)) else Raise(r.fault)
  }

  /** What one input line contributes, dispatched in the order of `fetch`'s
      tests. */
  function Resolve(c: Catalog, url: string): Result<seq<Entry>>
    requires c.Valid()
  {
    match Classify(url)
    case Blank => Ok([])
    case Liked => Raise(NoLikedTracks)
    case SearchText => Ok([RawSearch(c.search(url))])
    case LinkTo(k) =>
      if k == Track then
        var t := GetTrack(c, url);
        if t.Ok? then Ok([TrackEntry(t.value)]) else Raise(t.fault)
      else if k == Artist then EntriesOf(ArtistFrom(c, StripKind(url, Artist), 0).result)
      else EntriesOf(Extension(PlaylistOrAlbum(c, url).result))
  }

  /** `fetch(url_list)`: each line's entries, concatenated in input order; the
      first line that raises aborts the whole call. */
  function FetchAll(c: Catalog, urls: seq<string>): (r: Result<seq<Entry>>)
    requires c.Valid()
    ensures r.Ok? <==> forall k :: 0 <= k < |urls| ==> Resolve(c, urls[k]).Ok?
    decreases |urls|
  {
    if urls == [] then Ok([])
    else
      match Resolve(c, urls[0])
      case Raise(f) => Raise(f)
      case Ok(es) => Prefixed(es, FetchAll(c, urls[1..]))
  }

  /** One pass of the `for url in url_list` loop: the if-chain on one line. */
  method ResolveLine(c: Catalog, url: string) returns (r: Result<seq<Entry>>)
    requires c.Valid()
    ensures r == Resolve(c, url)
  {
    if url == "" {
      return Ok([]);
    } else if Contains(url, Marker(Playlist)) {
      var _, listed := GetPlaylist(c, url);
      if listed.Raise? {
        return Raise(listed.fault);
      } else if listed.value.None? {
        return Raise(ExtendedWithNone);
      }
      return Ok(AsEntries(listed.value.value));
    } else if Contains(url, "liked") {
      return Raise(NoLikedTracks);
    } else if Contains(url, Marker(Album)) {
      var _, listed := GetPlaylist(c, url);
      if listed.Raise? {
        return Raise(listed.fault);
      } else if listed.value.None? {
        return Raise(ExtendedWithNone);
      }
      return Ok(AsEntries(listed.value.value));
    } else if Contains(url, Marker(Track)) {
      var t := GetTrack(c, url);
      if t.Raise? {
        return Raise(t.fault);
      }
      return Ok([TrackEntry(t.value)]);
    } else if Contains(url, Marker(Artist)) {
      var _, artist := GetArtist(c, url);
      if artist.Raise? {
        return Raise(artist.fault);
      }
      return Ok(AsEntries(artist.value));
    } else {
      return Ok([RawSearch(c.search(url))]);
    }
  }

  method Fetch(c: Catalog, urls: seq<string>) returns (r: Result<seq<Entry>>)
    requires c.Valid()
    ensures r == FetchAll(c, urls)
  {
    var trackList := [];
    assert urls[0..] == urls;
    PrefixedNothing(FetchAll(c, urls));
    for i := 0 to |urls|
      invariant FetchAll(c, urls) == Prefixed(trackList, FetchAll(c, urls[i..]))
    {
      assert urls[i..][1..] == urls[i + 1..];
      var added := ResolveLine(c, urls[i]);
      if added.Raise? {
        return Raise(added.fault);
      }
      PrefixedTwice(trackList, added.value, FetchAll(c, urls[i + 1..]));
      trackList := trackList + added.value;
    }
    assert urls[|urls|..] == [];
    assert trackList + [] == trackList;
    return Ok(trackList);
  }

  /** Fetching two lists is fetching the first and then the second. */
  lemma {:induction false} FetchAppend(c: Catalog, a: seq<string>, b: seq<string>)
    requires c.Valid()
    ensures FetchAll(c, a + b) ==
      if FetchAll(c, a).Raise? then FetchAll(c, a) else Prefixed(FetchAll(c, a).value, FetchAll(c, b))
    decreases |a|
  {
    if a == [] {
      assert a + b == b;
      PrefixedNothing(FetchAll(c, b));
    } else {
      assert (a + b)[1..] == a[1..] + b;
      FetchAppend(c, a[1..], b);
      if Resolve(c, a[0]).Ok? && FetchAll(c, a[1..]).Ok? {
        PrefixedTwice(Resolve(c, a[0]).value, FetchAll(c, a[1..]).value, FetchAll(c, b));
      }
    }
  }

  /** The input lines without the empty ones. */
  function NonBlank(urls: seq<string>): (r: seq<string>)
    ensures |r| <= |urls|
    ensures forall u :: u in r <==> u in urls && u != ""
    decreases |urls|
  {
    if urls == [] then []
    else if urls[0] == "" then NonBlank(urls[1..])
    else [urls[0]] + NonBlank(urls[1..])
  }

  /** The non-empty lines keep their order: those of `a` come before those
      of `b`. */
  lemma {:induction false} NonBlankAppend(a: seq<string>, b: seq<string>)
    ensures NonBlank(a + b) == NonBlank(a) + NonBlank(b)
    decreases |a|
  {
    if a == [] {
      assert a + b == b;
    } else {
      assert (a + b)[1..] == a[1..] + b;
      NonBlankAppend(a[1..], b);
    }
  }

  /** Empty lines contribute nothing. */
  lemma {:induction false} FetchSkipsBlanks(c: Catalog, urls: seq<string>)
    requires c.Valid()
    ensures FetchAll(c, urls) == FetchAll(c, NonBlank(urls))
    decreases |urls|
  {
    if urls != [] {
      FetchSkipsBlanks(c, urls[1..]);
      if urls[0] == "" {
        PrefixedNothing(FetchAll(c, urls[1..]));
      } else {
        assert ([urls[0]] + NonBlank(urls[1..]))[1..] == NonBlank(urls[1..]);
      }
    }
  }

  /** A single track link resolves to that track alone. */
  lemma FetchOneTrack(c: Catalog, id: string)
    requires c.Valid() && ':' !in id && '/' !in id && c.track(id).Some?
    requires !Contains(Link(Track, id), "liked")
    ensures FetchAll(c, [Link(Track, id)]) ==
      if CreateTrack(c.track(id).value).Ok? then Ok([TrackEntry(CreateTrack(c.track(id).value).value)])
      else Raise(CreateTrack(c.track(id).value).fault)
  {
    ClassifyLink(Track, id);
    GetTrackOfLink(c, id);
    assert [Link(Track, id)][1..] == [];
    var t := GetTrack(c, Link(Track, id));
    if t.Ok? {
      assert Resolve(c, Link(Track, id)) == Ok([TrackEntry(t.value)]);
      assert [TrackEntry(t.value)] + [] == [TrackEntry(t.value)];
    }
  }
}
