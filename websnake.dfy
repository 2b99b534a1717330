/** The web backend downloader/backend/spotisnake.py: newline-separated
    links are resolved through `fetch`, every track is downloaded below a
    fixed output directory (no existence check here), and the directory is
    then zipped under a name derived from the first link. */
module WebSnake {
  import opened Base
  import opened Text
  import opened SpotifyTypes
  import opened SpotifyResolve
  import opened SpotifyFetch
  import opened Media

  /** `Path("/home/spotsnake.helioho.st") / "output"`. */
  const OutputDir := "/home/spotsnake.helioho.st/output"

  // ---------------------------------------------------------------------------
  // create_archive_id

  /** The `replace` chain applied to the first line. */
  function StripLinkParts(line: string): string {
    var noHost := DeleteAll(line, "https://open.spotify.com/");
    var noAlbum := DeleteAll(noHost, "album/");
    var noTrack := DeleteAll(noAlbum, "track/");
    var noArtist := DeleteAll(noTrack, "artist/");
    DeleteAll(DeleteAll(noArtist, "?"), "=")
  }

  /** `create_archive_id(urls)`. */
  function CreateArchiveId(urls: string): string {
    StripLinkParts(Split(DeleteAll(urls, " "), '\n')[0])
  }

  /** `url.replace(' ', '')` then `url.split('\n')`. */
  function LineBatch(url: string): seq<string> {
    Split(DeleteAll(url, " "), '\n')
  }

  /** Lines after the first do not matter. */
  lemma ArchiveIdIgnoresLaterLines(first: string, rest: string)
    requires '\n' !in first
    ensures CreateArchiveId(first + "\n" + rest) == CreateArchiveId(first)
  {
    DeleteCharAppend(first + "\n", rest, ' ');
    DeleteCharAppend(first, "\n", ' ');
    MissingCharBlocks("\n", " ", ' ');
    var a := DeleteAll(first, " ");
    DeleteCharIsKeep(first, ' ');
    assert DeleteAll(first + "\n" + rest, " ") == a + ['\n'] + DeleteAll(rest, " ");
    SplitFirst(a, DeleteAll(rest, " "), '\n');
    SplitNone(a, '\n');
  }

  /** The archive name holds no `?`, `=`, space or newline. */
  lemma ArchiveIdClean(urls: string)
    ensures var id := CreateArchiveId(urls);
      '?' !in id && '=' !in id && ' ' !in id && '\n' !in id
  {
    var compact := DeleteAll(urls, " ");
    DeleteCharIsKeep(urls, ' ');
    var first := Split(compact, '\n')[0];
    SplitPiecesLack(compact, '\n', ' ');
    var url := DeleteAll(DeleteAll(DeleteAll(DeleteAll(first, "https://open.spotify.com/"), "album/"), "track/"), "artist/");
    var noQuery := DeleteAll(url, "?");
    DeleteCharIsKeep(url, '?');
    DeleteCharIsKeep(noQuery, '=');
  }

  predicate IsAlnum(c: char) {
    'a' <= c <= 'z' || 'A' <= c <= 'Z' || '0' <= c <= '9'
  }

  /** In `track/<id>` with a `/`-free id, the only `/` is the one at index 5,
      so a pattern of six or more characters ending in its only `/` cannot
      occur unless it is `track/` itself. */
  lemma OnlyTrackSlash(id: string, p: string)
    requires '/' !in id && |p| >= 6 && p[|p| - 1] == '/' && p != "track/"
    ensures !Contains("track/" + id, p)
  {
    var s := "track/" + id;
    forall i | 0 <= i && i + |p| <= |s|
      ensures !OccursAt(s, p, i)
    {
      var j := i + |p| - 1;
      if j >= 6 {
        assert s[i..i + |p|][|p| - 1] == id[j - 6];
      } else {
        assert s[i..i + |p|] == "track/";
      }
    }
    ContainsIff(s, p);
  }

  /** A character that is not alphanumeric is not in an alphanumeric id. */
  lemma AlnumLacks(id: string, c: char)
    requires forall x :: x in id ==> IsAlnum(x)
    requires !IsAlnum(c)
    ensures c !in id
  {
  }

  /** A track link's fixed part holds no space and no newline. */
  lemma TrackLinkPrefixPlain()
    ensures ' ' !in "https://open.spotify.com/track/" && '\n' !in "https://open.spotify.com/track/"
  {
  }

  /** The first line of a plain track link is the whole link. */
  lemma TrackLinkLine(id: string)
    requires forall c :: c in id ==> IsAlnum(c)
    ensures Split(DeleteAll("https://open.spotify.com/track/" + id, " "), '\n')[0]
      == "https://open.spotify.com/" + ("track/" + id)
  {
    var link := "https://open.spotify.com/track/" + id;
    AlnumLacks(id, ' ');
    AlnumLacks(id, '\n');
    TrackLinkPrefixPlain();
    assert ' ' !in link && '\n' !in link;
    MissingCharBlocks(link, " ", ' ');
    SplitNone(link, '\n');
    assert link == "https://open.spotify.com/" + ("track/" + id);
  }

  /** The archive name of a plain track link with an alphanumeric id is the id. */
  lemma ArchiveIdOfTrackLink(id: string)
    requires forall c :: c in id ==> IsAlnum(c)
    ensures CreateArchiveId("https://open.spotify.com/track/" + id) == id
  {
    var tail := "track/" + id;
    TrackLinkLine(id);
    DeleteAllLeading("https://open.spotify.com/", tail);
    AlnumLacks(id, ':');
    assert ':' !in tail;
    MissingCharBlocks(tail, "https://open.spotify.com/", ':');
    AlnumLacks(id, '/');
    OnlyTrackSlash(id, "album/");
    DeleteAllLeading("track/", id);
    MissingCharBlocks(id, "track/", '/');
    MissingCharBlocks(id, "artist/", '/');
    AlnumLacks(id, '?');
    MissingCharBlocks(id, "?", '?');
    AlnumLacks(id, '=');
    MissingCharBlocks(id, "=", '=');
  }

  /** The batch lines hold no space and no newline, and joined by newlines
      they give back the input without its spaces. */
  lemma LineBatchShape(url: string)
    ensures var lines := LineBatch(url);
      && lines != []
      && (forall k :: 0 <= k < |lines| ==> ' ' !in lines[k] && '\n' !in lines[k])
      && JoinWith(lines, '\n') == DeleteAll(url, " ")
  {
    DeleteCharIsKeep(url, ' ');
    SplitPiecesLack(DeleteAll(url, " "), '\n', ' ');
  }

  // ---------------------------------------------------------------------------
  // Downloads

  /** `download_track(track, index)` of the web backend: no existence check,
      so for a track the acquisition, and with it the ISRC query, always runs. */
  method DownloadTrack(disk: Disk, entry: Entry) returns (r: Result<Outcome>)
    modifies disk
    ensures Handled(false, OutputDir, entry, old(disk.Snap()), disk.Snap(), r)
  {
    if entry.RawSearch? {
      return Raise(NotATrack);
    }
    r := disk.Acquire(entry.track, OutputDir);
  }

  /** The two lines that turn the input into a batch, then `fetch`. */
  method FetchLines(c: Catalog, url: string) returns (r: Result<seq<Entry>>)
    requires c.Valid()
    ensures r == FetchAll(c, LineBatch(url))
  {
    var compact := DeleteAll(url, " ");
    var lines := Split(compact, '\n');
    r := Fetch(c, lines);
  }

  /** One pass of the batch loop: the next entry is handled from the disk
      the run left, and the run grows by that step. */
  method HandleNext(disk: Disk, tracks: seq<Entry>, k: nat, ghost snaps: seq<Snapshot>,
                    ghost outcomes: seq<Result<Outcome>>)
    returns (outcome: Result<Outcome>, ghost snaps': seq<Snapshot>, ghost outcomes': seq<Result<Outcome>>)
    requires Ran(false, OutputDir, tracks, snaps, outcomes) && k == |outcomes| < |tracks|
    requires snaps[|snaps| - 1] == disk.Snap()
    modifies disk
    ensures Ran(false, OutputDir, tracks, snaps', outcomes')
    ensures snaps' == snaps + [disk.Snap()] && outcomes' == outcomes + [outcome]
  {
    outcome := DownloadTrack(disk, tracks[k]);
    RanStep(false, OutputDir, tracks, snaps, outcomes, disk.Snap(), outcome);
    snaps', outcomes' := snaps + [disk.Snap()], outcomes + [outcome];
  }

  /** The submit loop and the wait loop: every track is submitted, numbered
      1..n, and an exception from one download is swallowed, so every entry
      is handled whatever happened to the ones before.  The pool's tasks are
      run one after the other in submission order. */
  method DownloadAll(disk: Disk, tracks: seq<Entry>)
    returns (ghost calls: seq<(int, int)>, ghost snaps: seq<Snapshot>,
             ghost outcomes: seq<Result<Outcome>>)
    modifies disk
    ensures |outcomes| == |tracks| && Ran(false, OutputDir, tracks, snaps, outcomes)
    ensures snaps[0] == old(disk.Snap()) && snaps[|snaps| - 1] == disk.Snap()
    ensures calls == Numbered(|tracks|)
  {
    calls, snaps, outcomes := [], [disk.Snap()], [];
    var i := 1;
    for k := 0 to |tracks|
      invariant i == k + 1 && |outcomes| == k
      invariant Ran(false, OutputDir, tracks, snaps, outcomes)
      invariant snaps[0] == old(disk.Snap()) && snaps[|snaps| - 1] == disk.Snap()
      invariant calls == Numbered(|tracks|)[..k]
    {
      var outcome;
      outcome, snaps, outcomes := HandleNext(disk, tracks, k, snaps, outcomes);
      calls := calls + [(i, |tracks|)];
      i := i + 1;
    }
    assert Numbered(|tracks|)[..|tracks|] == Numbered(|tracks|);
  }

  /** `download_tracks_threaded(url)`: the archive name is taken first, the
      batch is fetched, `spotify_tracks[0].name` raises on an empty result or
      a first entry that is not a track, then every entry is downloaded.  The
      result is the base name `make_archive` is given. */
  method DownloadTracksThreaded(disk: Disk, c: Catalog, url: string)
    returns (r: Result<string>, ghost entries: seq<Entry>, ghost calls: seq<(int, int)>, ghost snaps: seq<Snapshot>,
             ghost outcomes: seq<Result<Outcome>>)
    requires c.Valid()
    modifies disk
    ensures Ran(false, OutputDir, entries, snaps, outcomes)
    ensures snaps[0] == old(disk.Snap()) && snaps[|snaps| - 1] == disk.Snap()
    ensures FetchAll(c, LineBatch(url)).Raise? ==>
      r == Raise(FetchAll(c, LineBatch(url)).fault) && calls == [] && outcomes == []
    ensures FetchAll(c, LineBatch(url)) == Ok([]) ==>
      r == Raise(EmptyBatch) && calls == [] && outcomes == []
    ensures FetchAll(c, LineBatch(url)).Ok? && FetchAll(c, LineBatch(url)).value != [] ==>
      && entries == FetchAll(c, LineBatch(url)).value
      && (entries[0].RawSearch? ==> r == Raise(NotATrack) && calls == [] && outcomes == [])
      && (entries[0].TrackEntry? ==>
            r == Ok(CreateArchiveId(url)) && calls == Numbered(|entries|) && |outcomes| == |entries|)
  {
    var urlId := CreateArchiveId(url);
    var fetched := FetchLines(c, url);
    entries, calls, snaps, outcomes := [], [], [disk.Snap()], [];
    if fetched.Raise? {
      return Raise(fetched.fault), entries, calls, snaps, outcomes;
    }
    var tracks := fetched.value;
    entries := tracks;
    if tracks == [] {
      return Raise(EmptyBatch), entries, calls, snaps, outcomes;
    }
    if tracks[0].RawSearch? {
      return Raise(NotATrack), entries, calls, snaps, outcomes;
    }
    calls, snaps, outcomes := DownloadAll(disk, tracks);
    return Ok(urlId), entries, calls, snaps, outcomes;
  }
}
