/** What the two download scripts, spotisnake.py and
    downloader/backend/spotisnake.py, have in common: `sanitize` (the two
    copies are identical), `os.path.join`, and the filesystem, the yt_dlp
    downloader and the mutagen tagger that `download_track` and
    `apply_metadata` act on.  The downloader and the tagger are
    nondeterministic: the model says what they may do, not what they will. */
module Media {
  import opened Base
  import opened Text
  import opened SpotifyTypes
  import opened SpotifyFetch

  // ---------------------------------------------------------------------------
  // sanitize

  /** `illegal_chars`, in the order they are removed. */
  const IllegalChars: seq<char> := ['*', '"', '/', '\\', '<', '>', ':', '|', '?', '.']

  /** The `for char in illegal_chars: text = text.replace(char, '')` fold. */
  function RemoveEach(text: string, chars: seq<char>): string
    decreases |chars|
  {
    if chars == [] then text else RemoveEach(DeleteAll(text, [chars[0]]), chars[1..])
  }

  /** Removing the characters one after the other filters them all out at once. */
  lemma {:induction false} RemoveEachIsKeep(text: string, chars: seq<char>)
    ensures RemoveEach(text, chars) == Keep(text, set c | c in chars)
    decreases |chars|
  {
    if chars == [] {
      assert (set c | c in chars) == {};
      KeepClean(text, {});
    } else {
      RemoveEachIsKeep(DeleteAll(text, [chars[0]]), chars[1..]);
      DeleteCharIsKeep(text, chars[0]);
      KeepTwice(text, {chars[0]}, set c | c in chars[1..]);
      assert {chars[0]} + (set c | c in chars[1..]) == set c | c in chars;
    }
  }

  /** `sanitize(text)`: lowercase, then drop the illegal characters. */
  function Sanitize(text: string): string {
    Keep(Lower(text), set c | c in IllegalChars)
  }

  /** The loop of `replace` calls over `illegal_chars` computes `sanitize`. */
  lemma SanitizeIsFold(text: string)
    ensures RemoveEach(Lower(text), IllegalChars) == Sanitize(text)
  {
    RemoveEachIsKeep(Lower(text), IllegalChars);
  }

  /** The result holds no illegal character and no upper-case letter, and is
      no longer than the input. */
  lemma SanitizeClean(text: string)
    ensures forall c :: c in Sanitize(text) ==> c !in IllegalChars && !IsUpper(c)
    ensures |Sanitize(text)| <= |text|
  {
    forall c | c in Sanitize(text)
      ensures c !in IllegalChars && !IsUpper(c)
    {
      assert c in Lower(text);
      var i :| 0 <= i < |Lower(text)| && Lower(text)[i] == c;
    }
  }

  /** Sanitizing twice changes nothing more. */
  lemma SanitizeIdempotent(text: string)
    ensures Sanitize(Sanitize(text)) == Sanitize(text)
  {
    var once := Sanitize(text);
    SanitizeClean(text);
    LowerClean(once);
    KeepClean(once, set c | c in IllegalChars);
  }

  /** Sanitizing works character by character: each character is lowercased
      and kept unless it is illegal, and the kept ones stay in order. */
  lemma SanitizeAppend(a: string, b: string)
    ensures Sanitize(a + b) == Sanitize(a) + Sanitize(b)
    ensures Sanitize([]) == []
  {
    LowerAppend(a, b);
    KeepAppend(Lower(a), Lower(b), set c | c in IllegalChars);
  }

  lemma SanitizeChar(ch: char)
    ensures Sanitize([ch]) == if LowerChar(ch) in IllegalChars then [] else [LowerChar(ch)]
  {
    assert Lower([ch]) == [LowerChar(ch)];
    assert [LowerChar(ch)][1..] == [];
  }

  // ---------------------------------------------------------------------------
  // Paths

  /** POSIX `os.path.join(a, b)`: an absolute `b` replaces `a`, otherwise a
      `/` is inserted unless `a` is empty or already ends with one. */
  function PathJoin(a: string, b: string): string {
    if b != [] && b[0] == '/' then b
    else if a == [] || a[|a| - 1] == '/' then a + b
    else a + "/" + b
  }

  /** `final_output`: `<output_dir>/<sanitize(album)>/<sanitize(name)>`. */
  function Destination(outputDir: string, track: SpotifyTrack): string {
    PathJoin(PathJoin(outputDir, Sanitize(track.album.name)), Sanitize(track.name))
  }

  /** The file the scripts test for and tag. */
  function Mp3(outputDir: string, track: SpotifyTrack): string {
    Destination(outputDir, track) + ".mp3"
  }

  lemma NoSlashInSanitized(text: string)
    ensures '/' !in Sanitize(text)
  {
    SanitizeClean(text);
    assert '/' in IllegalChars;
  }

  lemma PathJoinBelow(a: string, b: string)
    requires a != [] && a[|a| - 1] != '/' && '/' !in b
    ensures PathJoin(a, b) == a + "/" + b
  {
    if b != [] {
      assert b[0] in b;
    }
  }

  /** Below an output directory without a trailing `/`, the destination is the
      sanitized album and track names joined by `/` (an album name that
      sanitizes to nothing leaves no directory level of its own). */
  lemma DestinationShape(outputDir: string, track: SpotifyTrack)
    requires outputDir != [] && outputDir[|outputDir| - 1] != '/'
    ensures var album := Sanitize(track.album.name);
      var name := Sanitize(track.name);
      Destination(outputDir, track) ==
        if album == [] then outputDir + "/" + name else outputDir + "/" + album + "/" + name
  {
    var album := Sanitize(track.album.name);
    var name := Sanitize(track.name);
    NoSlashInSanitized(track.album.name);
    NoSlashInSanitized(track.name);
    PathJoinBelow(outputDir, album);
    var dir := outputDir + "/" + album;
    if album == [] {
      assert dir == outputDir + "/";
    } else {
      assert dir[|dir| - 1] == album[|album| - 1];
      assert album[|album| - 1] in album;
      PathJoinBelow(dir, name);
    }
  }

  // ---------------------------------------------------------------------------
  // Tags

  /** The ID3 frames `apply_metadata` adds: TIT2, TPE1, TPE2, TALB, TDRC,
      TRCK (the track number, written as its decimal string) and APIC (the
      cover fetched from the album image URL). */
  datatype Frame =
    | Title(text: string)
    | Performers(names: seq<string>)
    | AlbumArtists(names: seq<string>)
    | AlbumTitle(text: string)
    | Recorded(text: string)
    | TrackNo(number: int)
    | Cover(imageUrl: string)

  function TagsOf(track: SpotifyTrack): seq<Frame> {
    [Title(track.name), Performers(track.artists), AlbumArtists(track.album.artists),
     AlbumTitle(track.album.name), Recorded(track.album.release), TrackNo(track.trackNumber),
     Cover(track.album.image)]
  }

  // ---------------------------------------------------------------------------
  // The acquisition of one track

  /** What `download_track` reports: the file was already there (root
      script only), could not be downloaded, or was added and then tagged or
      not. */
  datatype Outcome = AlreadyThere | Unavailable | Added(tagged: bool)

  function IsrcQuery(track: SpotifyTrack): string {
    "ytsearch:" + track.isrc
  }

  function FallbackQuery(track: SpotifyTrack): string
    requires track.artists != []
  {
    "ytsearch:" + track.name + " by " + track.artists[0]
  }

  /** One `ydl.download` call: its query, and whether the target's `.mp3`
      exists once the call is over. */
  datatype Download = Download(query: string, saved: bool)

  /** The observable state of the disk. */
  datatype Snapshot = Snapshot(files: set<string>, dirs: set<string>, tags: map<string, seq<Frame>>, queries: seq<Download>)

  /** The relation between the disk before (`s`) and after (`t`) the
      acquisition part of `download_track` (everything after the root
      script's existence check).
        - The output directory exists afterwards.
        - At most the track's `.mp3` is added, nothing else is written.
        - The calls logged are the ISRC query, then the name-by-first-artist
          query only when the ISRC query left the file missing; a run that
          ends normally with the file missing after the ISRC query has made
          the name query.
        - The last call's flag is whether the file exists at the end.
        - The outcome is Unavailable exactly when the file is missing at
          the end, and the file is tagged only if it exists. */
  ghost predicate Acquired(track: SpotifyTrack, outputDir: string, s: Snapshot, t: Snapshot, r: Result<Outcome>)
  {
    var mp3 := Mp3(outputDir, track);
    && t.dirs == s.dirs + {outputDir}
    && (t.files == s.files || t.files == s.files + {mp3})
    && s.queries <= t.queries
    && var calls := t.queries[|s.queries|..];
    && (|calls| == 1 || |calls| == 2)
    && calls[0].query == IsrcQuery(track)
    && (|calls| == 2 ==> !calls[0].saved && track.artists != [] && calls[1].query == FallbackQuery(track))
    && (r.Ok? && !calls[0].saved ==> |calls| == 2)
    && calls[|calls| - 1].saved == (mp3 in t.files)
    && (r.Raise? ==>
          r.fault == DownloadFailed || (r.fault == NoArtist && track.artists == [] && !calls[0].saved))
    && (r.Ok? ==> (r.value.Unavailable? || r.value.Added?) && (r.value.Unavailable? <==> mp3 !in t.files))
    && (if r == Ok(Added(true)) then t.tags == s.tags[mp3 := TagsOf(track)] else t.tags == s.tags)
  }

  /** The order of the queries, read off an acquisition: the ISRC query
      goes out first; when it leaves the file in place nothing else is
      asked; when it does not and the run ends normally, the name query
      follows. */
  lemma AcquiredFallbackOnlyIfMissing(track: SpotifyTrack, outputDir: string, s: Snapshot, t: Snapshot, r: Result<Outcome>)
    requires Acquired(track, outputDir, s, t, r)
    ensures |t.queries| > |s.queries| && t.queries[|s.queries|].query == IsrcQuery(track)
    ensures t.queries[|s.queries|].saved ==> |t.queries| == |s.queries| + 1 && Mp3(outputDir, track) in t.files
    ensures !t.queries[|s.queries|].saved && r.Ok? ==>
      |t.queries| == |s.queries| + 2 && track.artists != [] && t.queries[|s.queries| + 1].query == FallbackQuery(track)
  {
    var calls := t.queries[|s.queries|..];
    assert calls[0] == t.queries[|s.queries|];
    if |calls| == 2 {
      assert calls[1] == t.queries[|s.queries| + 1];
    }
  }

  /** The filesystem, with the downloader and the tagger acting on it.
      `queries` logs the yt_dlp downloads, in order. */
  class Disk {
    var files: set<string>
    var dirs: set<string>
    var tags: map<string, seq<Frame>>
    ghost var queries: seq<Download>

    constructor (files: set<string>, dirs: set<string>)
      ensures Snap() == Snapshot(files, dirs, map[], [])
    {
      this.files := files;
      this.dirs := dirs;
      this.tags := map[];
      this.queries := [];
    }

    ghost function Snap(): Snapshot
      reads this
    {
      Snapshot(files, dirs, tags, queries)
    }

    /** `ydl.download(query)` with `outtmpl` set to `target`: yt_dlp may save
        `target.mp3` or not, and may raise. */
    method YtDownload(query: string, target: string) returns (raised: bool)
      modifies this
      ensures queries == old(queries) + [Download(query, target + ".mp3" in files)]
      ensures files == old(files) || files == old(files) + {target + ".mp3"}
      ensures dirs == old(dirs) && tags == old(tags)
    {
      var saved: bool :| true;
      if saved {
        files := files + {target + ".mp3"};
      }
      queries := queries + [Download(query, target + ".mp3" in files)];
      raised :| true;
    }

    /** `apply_metadata(track, output, index)`: fetch the cover, open
        `output.mp3`, add the frames and save; any exception (a missing
        file, a failed request, a failed save) makes it return False. */
    method ApplyMetadata(track: SpotifyTrack, output: string) returns (ok: bool)
      modifies this
      ensures ok ==> output + ".mp3" in files && tags == old(tags)[output + ".mp3" := TagsOf(track)]
      ensures !ok ==> tags == old(tags)
      ensures files == old(files) && dirs == old(dirs) && queries == old(queries)
    {
      var failed: bool :| true;
      var mp3 := output + ".mp3";
      if failed || mp3 !in files {
        return false;
      }
      tags := tags[mp3 := TagsOf(track)];
      return true;
    }

    /** `download_track` from the `os.makedirs` on: create the output
        directory if missing, try the ISRC query, then the name-by-first-
        artist query if the file is still missing, give up if it is still
        missing, tag it otherwise. */
    method Acquire(track: SpotifyTrack, outputDir: string) returns (r: Result<Outcome>)
      modifies this
      ensures Acquired(track, outputDir, old(Snap()), Snap(), r)
    {
      var dest := Destination(outputDir, track);
      var mp3 := dest + ".mp3";
      if outputDir !in dirs {
        dirs := dirs + {outputDir};
      }
      var raised := YtDownload(IsrcQuery(track), dest);
      ghost var isrc := Download(IsrcQuery(track), mp3 in files);
      assert queries[|old(queries)|..] == [isrc];
      if raised {
        return Raise(DownloadFailed);
      }
      if mp3 !in files {
        if track.artists == [] {
          return Raise(NoArtist);
        }
        raised := YtDownload(FallbackQuery(track), dest);
        assert queries[|old(queries)|..] == [isrc, Download(FallbackQuery(track), mp3 in files)];
        if raised {
          return Raise(DownloadFailed);
        }
      }
      if mp3 !in files {
        return Ok(Unavailable);
      }
      var tagged := ApplyMetadata(track, dest);
      return Ok(Added(tagged));
    }
  }

  // ---------------------------------------------------------------------------
  // Batches

  /** One `download_track` call on an entry of `fetch`'s result, from disk
      `s` to disk `t`: a raw search reply fails on its first attribute access
      and touches nothing; in the root script (`skipExisting`) an existing
      `.mp3` is skipped and nothing is touched; otherwise the track is
      acquired. */
  ghost predicate Handled(skipExisting: bool, outputDir: string, entry: Entry, s: Snapshot, t: Snapshot,
                          r: Result<Outcome>)
  {
    match entry
    case RawSearch(_) => r == Raise(NotATrack) && t == s
    case TrackEntry(track) =>
      if skipExisting && Mp3(outputDir, track) in s.files then r == Ok(AlreadyThere) && t == s
      else Acquired(track, outputDir, s, t, r)
  }

  /** The first `|outcomes|` entries of `tracks` were handled one after the
      other: call `k` took the disk from `snaps[k]` to `snaps[k + 1]` and
      reported `outcomes[k]`. */
  ghost predicate Ran(skipExisting: bool, outputDir: string, tracks: seq<Entry>, snaps: seq<Snapshot>,
                      outcomes: seq<Result<Outcome>>)
  {
    && |outcomes| <= |tracks| && |snaps| == |outcomes| + 1
    && forall k {:trigger Handled(skipExisting, outputDir, tracks[k], snaps[k], snaps[k + 1], outcomes[k])} ::
         0 <= k < |outcomes| ==>
           Handled(skipExisting, outputDir, tracks[k], snaps[k], snaps[k + 1], outcomes[k])
  }

  /** Handling the next entry extends a run. */
  lemma RanStep(skipExisting: bool, outputDir: string, tracks: seq<Entry>, snaps: seq<Snapshot>,
                outcomes: seq<Result<Outcome>>, t: Snapshot, r: Result<Outcome>)
    requires Ran(skipExisting, outputDir, tracks, snaps, outcomes) && |outcomes| < |tracks|
    requires Handled(skipExisting, outputDir, tracks[|outcomes|], snaps[|outcomes|], t, r)
    ensures Ran(skipExisting, outputDir, tracks, snaps + [t], outcomes + [r])
  {
    var snaps', outcomes' := snaps + [t], outcomes + [r];
    forall k | 0 <= k < |outcomes'|
      ensures Handled(skipExisting, outputDir, tracks[k], snaps'[k], snaps'[k + 1], outcomes'[k])
    {
      if k < |outcomes| {
        assert snaps'[k] == snaps[k] && snaps'[k + 1] == snaps[k + 1] && outcomes'[k] == outcomes[k];
        assert Handled(skipExisting, outputDir, tracks[k], snaps[k], snaps[k + 1], outcomes[k]);
      } else {
        assert snaps'[k] == snaps[k] && snaps'[k + 1] == t && outcomes'[k] == r;
      }
    }
  }

  /** One call only adds files, and the only file it can add is the `.mp3`
      of its own track. */
  lemma HandledAddsOnlyItsFile(skipExisting: bool, outputDir: string, entry: Entry, s: Snapshot, t: Snapshot,
                               r: Result<Outcome>)
    requires Handled(skipExisting, outputDir, entry, s, t, r)
    ensures s.files <= t.files
    ensures forall f :: f in t.files && f !in s.files ==> entry.TrackEntry? && f == Mp3(outputDir, entry.track)
  {
  }

  /** A run only adds files, and every file it adds is the `.mp3` of one of
      the tracks it handled. */
  lemma {:induction false} RunAddsOnlyTrackFiles(skipExisting: bool, outputDir: string, tracks: seq<Entry>,
                                                 snaps: seq<Snapshot>, outcomes: seq<Result<Outcome>>, n: nat)
    requires Ran(skipExisting, outputDir, tracks, snaps, outcomes) && n <= |outcomes|
    ensures snaps[0].files <= snaps[n].files
    ensures forall f :: f in snaps[n].files && f !in snaps[0].files ==>
      exists k :: 0 <= k < n && tracks[k].TrackEntry? && f == Mp3(outputDir, tracks[k].track)
    decreases n
  {
    if n > 0 {
      RunAddsOnlyTrackFiles(skipExisting, outputDir, tracks, snaps, outcomes, n - 1);
      var k := n - 1;
      HandledAddsOnlyItsFile(skipExisting, outputDir, tracks[k], snaps[k], snaps[k + 1], outcomes[k]);
      forall f | f in snaps[n].files && f !in snaps[0].files
        ensures exists j :: 0 <= j < n && tracks[j].TrackEntry? && f == Mp3(outputDir, tracks[j].track)
      {
        if f !in snaps[k].files {
          assert tracks[k].TrackEntry? && f == Mp3(outputDir, tracks[k].track);
        }
      }
    }
  }

  /** Every track of a run that went through the acquisition had its ISRC
      query issued before anything else it asked for. */
  lemma RunQueriesIsrcFirst(skipExisting: bool, outputDir: string, tracks: seq<Entry>,
                            snaps: seq<Snapshot>, outcomes: seq<Result<Outcome>>, k: int)
    requires Ran(skipExisting, outputDir, tracks, snaps, outcomes) && 0 <= k < |outcomes|
    requires tracks[k].TrackEntry? && !(skipExisting && Mp3(outputDir, tracks[k].track) in snaps[k].files)
    ensures |snaps[k + 1].queries| > |snaps[k].queries|
    ensures snaps[k + 1].queries[|snaps[k].queries|].query == IsrcQuery(tracks[k].track)
  {
    assert Handled(skipExisting, outputDir, tracks[k], snaps[k], snaps[k + 1], outcomes[k]);
  }

  /** The `[i, len(spotify_tracks)]` index handed to each `download_track`
      call of a batch of `n` tracks. */
  function Numbered(n: nat): (r: seq<(int, int)>)
    ensures |r| == n
    ensures forall k :: 0 <= k < n ==> r[k] == (k + 1, n)
  {
    seq(n, k requires 0 <= k < n => (k + 1, n))
  }
}
