/** The command-line downloader spotisnake.py: comma-separated links are
    resolved through `fetch` and each track is downloaded into
    `<output_dir>/<album>/<name>.mp3`, one after the other
    (`download_tracks`) or all submitted at once (`download_tracks_threaded`).
    A track whose `.mp3` already exists is skipped. */
module SpotiSnake {
  import opened Base
  import opened Text
  import opened SpotifyTypes
  import opened SpotifyResolve
  import opened SpotifyFetch
  import opened Media

  /** `url += ','`, `url = url.replace(' ', '')`, `url = url.split(',')`. */
  function CommaBatch(url: string): seq<string> {
    Split(DeleteAll(url + ",", " "), ',')
  }

  /** The appended comma only adds an empty last piece. */
  lemma CommaBatchPieces(url: string)
    ensures CommaBatch(url) == Split(DeleteAll(url, " "), ',') + [""]
  {
    DeleteCharAppend(url, ",", ' ');
    MissingCharBlocks(",", " ", ' ');
    SplitTrailing(DeleteAll(url, " "), ',');
  }

  /** The batch holds the comma-separated pieces of the input without its
      spaces, followed by one empty piece; no piece holds a space or a comma. */
  lemma CommaBatchShape(url: string)
    ensures var pieces := CommaBatch(url);
      && |pieces| >= 2 && pieces[|pieces| - 1] == ""
      && (forall k :: 0 <= k < |pieces| ==> ' ' !in pieces[k] && ',' !in pieces[k])
      && pieces[..|pieces| - 1] == Split(DeleteAll(url, " "), ',')
      && JoinWith(pieces[..|pieces| - 1], ',') == DeleteAll(url, " ")
  {
    var x := DeleteAll(url, " ");
    CommaBatchPieces(url);
    DeleteCharIsKeep(url, ' ');
    SplitPiecesLack(x, ',', ' ');
    var pieces := CommaBatch(url);
    assert pieces[..|pieces| - 1] == Split(x, ',');
  }

  lemma FetchBlank(c: Catalog)
    requires c.Valid()
    ensures FetchAll(c, [""]) == Ok([])
  {
    assert Resolve(c, "") == Ok([]);
    assert [""][1..] == [];
    assert FetchAll(c, []) == Ok([]);
    var none: seq<Entry> := [];
    assert none + none == none;
  }

  lemma FetchBlankTail(c: Catalog, pieces: seq<string>)
    requires c.Valid()
    ensures FetchAll(c, pieces + [""]) == FetchAll(c, pieces)
  {
    FetchAppend(c, pieces, [""]);
    FetchBlank(c);
    var head := FetchAll(c, pieces);
    if head.Ok? {
      assert head.value + [] == head.value;
    }
  }

  /** The trailing empty piece is harmless: `fetch` skips it. */
  lemma FetchCommaBatch(c: Catalog, url: string)
    requires c.Valid()
    ensures FetchAll(c, CommaBatch(url)) == FetchAll(c, Split(DeleteAll(url, " "), ','))
  {
    CommaBatchPieces(url);
    FetchBlankTail(c, Split(DeleteAll(url, " "), ','));
  }

  /** The three statements that turn the input into a batch, then `fetch`. */
  method FetchBatch(c: Catalog, url: string) returns (r: Result<seq<Entry>>)
    requires c.Valid()
    ensures r == FetchAll(c, CommaBatch(url))
  {
    var pieces := url + ",";
    pieces := DeleteAll(pieces, " ");
    var batch := Split(pieces, ',');
    r := Fetch(c, batch);
  }

  /** `download_track(track, index)` of the root script: an entry that is
      not a track fails on its first attribute access; an existing `.mp3`
      is skipped with nothing else done; otherwise the acquisition runs. */
  method DownloadTrack(disk: Disk, outputDir: string, entry: Entry) returns (r: Result<Outcome>)
    modifies disk
    ensures Handled(true, outputDir, entry, old(disk.Snap()), disk.Snap(), r)
  {
    if entry.RawSearch? {
      return Raise(NotATrack);
    }
    var track := entry.track;
    if Mp3(outputDir, track) in disk.files {
      return Ok(AlreadyThere);
    }
    r := disk.Acquire(track, outputDir);
  }

  /** One pass of a batch loop: the next entry is handled from the disk the
      run left, and the run grows by that step. */
  method HandleNext(disk: Disk, outputDir: string, tracks: seq<Entry>, k: nat, ghost snaps: seq<Snapshot>,
                    ghost outcomes: seq<Result<Outcome>>)
    returns (outcome: Result<Outcome>, ghost snaps': seq<Snapshot>, ghost outcomes': seq<Result<Outcome>>)
    requires Ran(true, outputDir, tracks, snaps, outcomes) && k == |outcomes| < |tracks|
    requires snaps[|snaps| - 1] == disk.Snap()
    modifies disk
    ensures Ran(true, outputDir, tracks, snaps', outcomes')
    ensures snaps' == snaps + [disk.Snap()] && outcomes' == outcomes + [outcome]
  {
    outcome := DownloadTrack(disk, outputDir, tracks[k]);
    RanStep(true, outputDir, tracks, snaps, outcomes, disk.Snap(), outcome);
    snaps', outcomes' := snaps + [disk.Snap()], outcomes + [outcome];
  }

  /** The `for track in spotify_tracks` loop of `download_tracks`: tracks
      are downloaded in order, numbered 1..n, each from the disk the one
      before left, until one raises. */
  method DownloadInOrder(disk: Disk, outputDir: string, tracks: seq<Entry>)
    returns (r: Result<()>, ghost calls: seq<(int, int)>, ghost snaps: seq<Snapshot>,
             ghost outcomes: seq<Result<Outcome>>)
    modifies disk
    ensures Ran(true, outputDir, tracks, snaps, outcomes)
    ensures snaps[0] == old(disk.Snap()) && snaps[|snaps| - 1] == disk.Snap()
    ensures calls == Numbered(|tracks|)[..|outcomes|]
    ensures forall k :: 0 <= k < |outcomes| - 1 ==> outcomes[k].Ok?
    ensures r.Ok? ==> |outcomes| == |tracks| && (forall k :: 0 <= k < |outcomes| ==> outcomes[k].Ok?)
    ensures r.Raise? ==> outcomes != [] && outcomes[|outcomes| - 1] == Raise(r.fault)
  {
    calls, snaps, outcomes := [], [disk.Snap()], [];
    var i := 1;
    for k := 0 to |tracks|
      invariant i == k + 1 && |outcomes| == k
      invariant Ran(true, outputDir, tracks, snaps, outcomes)
      invariant snaps[0] == old(disk.Snap()) && snaps[|snaps| - 1] == disk.Snap()
      invariant calls == Numbered(|tracks|)[..k]
      invariant forall m :: 0 <= m < k ==> outcomes[m].Ok?
    {
      var outcome;
      outcome, snaps, outcomes := HandleNext(disk, outputDir, tracks, k, snaps, outcomes);
      calls := calls + [(i, |tracks|)];
      if outcome.Raise? {
        return Raise(outcome.fault), calls, snaps, outcomes;
      }
      i := i + 1;
    }
    return Ok(()), calls, snaps, outcomes;
  }

  /** `download_tracks(url)`: fetch the batch, then download the fetched
      entries in order; an exception from `fetch` or from any download ends
      the run. */
  method DownloadTracks(disk: Disk, c: Catalog, outputDir: string, url: string)
    returns (r: Result<()>, ghost entries: seq<Entry>, ghost calls: seq<(int, int)>, ghost snaps: seq<Snapshot>,
             ghost outcomes: seq<Result<Outcome>>)
    requires c.Valid()
    modifies disk
    ensures Ran(true, outputDir, entries, snaps, outcomes)
    ensures snaps[0] == old(disk.Snap()) && snaps[|snaps| - 1] == disk.Snap()
    ensures calls == Numbered(|entries|)[..|outcomes|]
    ensures FetchAll(c, CommaBatch(url)).Raise? ==>
      r == Raise(FetchAll(c, CommaBatch(url)).fault) && outcomes == []
    ensures FetchAll(c, CommaBatch(url)).Ok? ==>
      && entries == FetchAll(c, CommaBatch(url)).value
      && (forall k :: 0 <= k < |outcomes| - 1 ==> outcomes[k].Ok?)
      && (r.Ok? ==> |outcomes| == |entries| && (forall k :: 0 <= k < |outcomes| ==> outcomes[k].Ok?))
      && (r.Raise? ==> outcomes != [] && outcomes[|outcomes| - 1] == Raise(r.fault))
  {
    var fetched := FetchBatch(c, url);
    if fetched.Raise? {
      return Raise(fetched.fault), [], [], [disk.Snap()], [];
    }
    var tracks := fetched.value;
    entries := tracks;
    r, calls, snaps, outcomes := DownloadInOrder(disk, outputDir, tracks);
  }

  /** The submit loop and the wait loop of `download_tracks_threaded`:
      every track is submitted, numbered 1..n, and an exception from one
      download is caught and does not stop the others.  The pool's tasks are
      run one after the other in submission order. */
  method DownloadAll(disk: Disk, outputDir: string, tracks: seq<Entry>)
    returns (ghost calls: seq<(int, int)>, ghost snaps: seq<Snapshot>,
             ghost outcomes: seq<Result<Outcome>>)
    modifies disk
    ensures |outcomes| == |tracks| && Ran(true, outputDir, tracks, snaps, outcomes)
    ensures snaps[0] == old(disk.Snap()) && snaps[|snaps| - 1] == disk.Snap()
    ensures calls == Numbered(|tracks|)
  {
    calls, snaps, outcomes := [], [disk.Snap()], [];
    var i := 1;
    for k := 0 to |tracks|
      invariant i == k + 1 && |outcomes| == k
      invariant Ran(true, outputDir, tracks, snaps, outcomes)
      invariant snaps[0] == old(disk.Snap()) && snaps[|snaps| - 1] == disk.Snap()
      invariant calls == Numbered(|tracks|)[..k]
    {
      var outcome;
      outcome, snaps, outcomes := HandleNext(disk, outputDir, tracks, k, snaps, outcomes);
      calls := calls + [(i, |tracks|)];
      i := i + 1;
    }
    assert Numbered(|tracks|)[..|tracks|] == Numbered(|tracks|);
  }

  /** `download_tracks_threaded(url)`: fetch the batch, then download every
      fetched entry; a failed download does not stop the batch. */
  method DownloadTracksThreaded(disk: Disk, c: Catalog, outputDir: string, url: string)
    returns (r: Result<()>, ghost entries: seq<Entry>, ghost calls: seq<(int, int)>, ghost snaps: seq<Snapshot>,
             ghost outcomes: seq<Result<Outcome>>)
    requires c.Valid()
    modifies disk
    ensures Ran(true, outputDir, entries, snaps, outcomes)
    ensures snaps[0] == old(disk.Snap()) && snaps[|snaps| - 1] == disk.Snap()
    ensures FetchAll(c, CommaBatch(url)).Raise? ==>
      r == Raise(FetchAll(c, CommaBatch(url)).fault) && calls == [] && outcomes == []
    ensures FetchAll(c, CommaBatch(url)).Ok? ==>
      && r == Ok(())
      && entries == FetchAll(c, CommaBatch(url)).value
      && calls == Numbered(|entries|)
      && |outcomes| == |entries|
  {
    var fetched := FetchBatch(c, url);
    if fetched.Raise? {
      return Raise(fetched.fault), [], [], [disk.Snap()], [];
    }
    var tracks := fetched.value;
    entries := tracks;
    calls, snaps, outcomes := DownloadAll(disk, outputDir, tracks);
    r := Ok(());
  }
}
