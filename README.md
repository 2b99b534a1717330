# spotsnake, modelled in Dafny

spotsnake turns Spotify links into tagged `.mp3` files. A batch of links is
resolved through the Spotify Web API client (`Spotify.fetch`). The batch may hold
tracks, albums, playlists, artists, or free text to search for. Each resulting
track is then looked up on YouTube by its ISRC, downloaded with yt_dlp,
and tagged with ID3 frames. There are two front ends:

- `spotisnake.py`: a command-line script. It reads comma-separated links,
  skips tracks whose `.mp3` already exists, and downloads in order or on a
  thread pool.
- `downloader/backend/spotisnake.py`: a web back end. It reads
  newline-separated links, has no existence check, and zips the output
  directory under a name derived from the first link.

This project models the deterministic logic of both front ends and of the API
client:

- string handling: `sanitize`, `create_archive_id`, batch splitting, prefix
  stripping and the URL dispatch of `fetch`;
- track resolution over an abstract catalog: the playlist cursor loop, the
  album branch, the artist's offset loop, and `fetch`;
- the flattening of lyrics payloads;
- the per-track download procedure, run against a modelled filesystem with a
  nondeterministic downloader and tagger.

Modules:

| module | file | models |
|---|---|---|
| `Base` | base.dfy | `Option`, `Result`, and `Fault`, which names the statement that raises |
| `Text` | text.dfy | Python `in`, `str.replace(p, '')`, `split`, `strip`, `lower`, `join` |
| `SpotifyTypes` | spotify_types.dfy | payload records, `create_track`, prefix stripping, URL dispatch, the catalog oracle |
| `SpotifyResolve` | spotify_resolve.dfy | `get_track`, `get_playlist` (playlist and album branches) |
| `SpotifyFetch` | spotify_fetch.dfy | `get_artist`, `fetch` |
| `Lyrics` | lyrics.dfy | `fetch_lyrics` |
| `Media` | media.dfy | `sanitize`, `os.path.join`, the disk with yt_dlp and mutagen, `apply_metadata` and the common part of `download_track` |
| `SpotiSnake` | spotisnake.dfy | comma batches, `download_track` with the skip, `download_tracks`, `download_tracks_threaded` |
| `WebSnake` | websnake.dfy | `create_archive_id`, newline batches, `download_track` without the skip, `download_tracks_threaded` |

A Python exception that escapes is `Raise(fault)`. The loops of the API client
(`get_playlist`, `get_artist`, `fetch`, `fetch_lyrics`) are methods. Each is
proved equal to a recursive specification function (`PlaylistFrom`,
`ArtistFrom`, `FetchAll`, `LyricsOf`, …), and lemmas state what those
functions promise. The `replace` loop of `sanitize` rebinds a string only, so it
is the function `RemoveEach`. Each batch loop of the download scripts is a
method that returns the chain of disk snapshots it passed through. The submit
loop and the wait loop of a thread pool form one such method.

The catalog carries two proof devices, stated by `Catalog.Valid()`:

- a ghost `rank` on which playlist `next` cursors strictly descend;
- a ghost bound `maxTotal` on the artist listings' `total`.

Both express that the server's chains are finite.

## Model

| member | source | states |
|---|---|---|
| SpotifyTypes.CreateTrack | frontend/downloader/backend/spotify_api.py:68-94 | raises exactly when the album has no image or the track no ISRC; otherwise copies name, ISRC, track number and the album fields, with the first image; artists come from the `artist` key when present, else from `artists[*].name` in order |
| SpotifyTypes.StripKindOfLink | frontend/downloader/backend/spotify_api.py:131-132 | on `https://` or `http://open.spotify.com/<kind>/<rest>` with a colon-free rest, the two `replace` calls leave exactly the rest |
| SpotifyTypes.ClassifyLink | frontend/downloader/backend/spotify_api.py:256-276 | a share link is dispatched to the branch of its own kind and of no other, except that a non-playlist link containing `liked` goes to the liked-tracks branch (playlist is tested first) |
| SpotifyResolve.GetTrackOfLink | frontend/downloader/backend/spotify_api.py:125-137 | a track link is looked up by exactly its id; a non-track body raises, otherwise the result is `create_track` of the body |
| SpotifyResolve.TracksOf | frontend/downloader/backend/spotify_api.py:190-198 | the album branch succeeds iff every item's `get_track` does; then the output has one track per item, in item order, each that item's `get_track`; a failure is the fault of some item |
| SpotifyResolve.GetAlbum | frontend/downloader/backend/spotify_api.py:184-198 | the album loop returns exactly the album specification `AlbumOf` (a body without items raises) |
| SpotifyResolve.ItemTracks | frontend/downloader/backend/spotify_api.py:172-175 | a page's items succeed iff none is null and every `create_track` succeeds; then one track per item, in order |
| SpotifyResolve.ItemTracksAppend | frontend/downloader/backend/spotify_api.py:172-175 | the tracks of two item runs are those of the first followed by those of the second |
| SpotifyResolve.AppendItems | frontend/downloader/backend/spotify_api.py:172-175 | the inner item loop appends exactly the page's tracks to the running list, or raises as the specification does |
| SpotifyResolve.GetPlaylist | frontend/downloader/backend/spotify_api.py:146-198 | the pages requested and the result equal `PlaylistOrAlbum`: the cursor loop for playlist links, the album branch otherwise; a JSON page without items raises |
| SpotifyResolve.PlaylistFollowsCursors | frontend/downloader/backend/spotify_api.py:158-182 | the first page requested is the start URL; each next page is the `next` of the one before; a run that ends normally ends on a page whose `next` is None |
| SpotifyResolve.PlaylistNoneOnlyOnNonJson | frontend/downloader/backend/spotify_api.py:162-172 | a run that ends normally returns None exactly when its last page was not JSON, never a partial list; a run whose last page is JSON without items raises |
| SpotifyResolve.PlaylistCollectsEveryPage | frontend/downloader/backend/spotify_api.py:158-182 | a run that returns tracks returns those of every item of every page requested, in page order and item order |
| SpotifyFetch.Extension | frontend/downloader/backend/spotify_api.py:257 | extending by a `get_playlist` result succeeds iff it is a list, and adds exactly that list; extending by None raises |
| SpotifyFetch.FindCredit | frontend/downloader/backend/spotify_api.py:227-231 | the artist loop yields the queried id iff some album artist has it, and `''` otherwise |
| SpotifyFetch.CreditedPrefix | frontend/downloader/backend/spotify_api.py:225-234 | the leading albums that credit the artist: a prefix of the page, all credited, and followed by an uncredited album when shorter than the page |
| SpotifyFetch.PageStopsAtFirstUncredited | frontend/downloader/backend/spotify_api.py:225-238 | a listing page contributes exactly the tracks of its leading credited albums; from the first uncredited album on, everything is skipped |
| SpotifyFetch.ExtendWithPage | frontend/downloader/backend/spotify_api.py:225-238 | the album loop with its `break` appends exactly the page's contribution to the running list |
| SpotifyFetch.ExtendByAlbum | frontend/downloader/backend/spotify_api.py:227-238 | one album of the loop: not credited means the rest of the page contributes nothing; otherwise a raise or the `get_playlist` list it extends by, followed by the rest of the page |
| SpotifyFetch.GetArtist | frontend/downloader/backend/spotify_api.py:202-245 | the listing requests made and the result equal `ArtistFrom` from offset 0 with the stripped id; this includes the `?si=` branch, which retries with the reply's `id` |
| SpotifyFetch.ArtistUrlSiIsIdSi | frontend/downloader/backend/spotify_api.py:214-220 | `'?si=' in api_url` holds exactly when the id holds `?si=`, whatever the offset: no occurrence starts in the fixed parts of the URL or runs from the id into them |
| SpotifyFetch.ArtistOffsets | frontend/downloader/backend/spotify_api.py:207-243 | with a plain id, the listing is requested at offsets 0, 49, 98, … in order |
| SpotifyFetch.ArtistStopsAtTotal | frontend/downloader/backend/spotify_api.py:240-243 | every page but the last reported `total >= offset + 49`; a run that ends normally ends on a page with `total < offset + 49` |
| SpotifyFetch.ArtistRequestCount | frontend/downloader/backend/spotify_api.py:240-243 | against a steady `total`, a run that ends normally makes `(total - offset) / 49 + 1` requests |
| SpotifyFetch.SixtyAlbums | frontend/downloader/backend/spotify_api.py:240-243 | an artist with 60 albums is listed with exactly two requests, at offsets 0 and 49 |
| SpotifyFetch.FetchAll | frontend/downloader/backend/spotify_api.py:247-278 | `fetch` succeeds iff every line resolves |
| SpotifyFetch.Fetch | frontend/downloader/backend/spotify_api.py:247-278 | the loop with its if-chain computes exactly `FetchAll`: each line's entries, concatenated in input order, with the first raise aborting |
| SpotifyFetch.ResolveLine | frontend/downloader/backend/spotify_api.py:253-276 | the if-chain on one line yields exactly that line's entries under the dispatch order, or its fault |
| SpotifyFetch.FetchAppend | frontend/downloader/backend/spotify_api.py:251-276 | fetching `a + b` is fetching `a` followed by fetching `b` |
| SpotifyFetch.NonBlank | frontend/downloader/backend/spotify_api.py:253-254 | a line is kept iff it is a line of the input and not empty; no more lines than the input |
| SpotifyFetch.NonBlankAppend | frontend/downloader/backend/spotify_api.py:251-254 | the kept lines keep their order: those of `a` come before those of `b` |
| SpotifyFetch.FetchSkipsBlanks | frontend/downloader/backend/spotify_api.py:253-254 | empty lines contribute nothing: fetching a list is fetching its non-empty lines |
| SpotifyFetch.FetchOneTrack | frontend/downloader/backend/spotify_api.py:268-270 | a single track link fetches exactly that track, or the fault of `create_track` |
| Lyrics.StaticLines | frontend/downloader/backend/spotify_api.py:39-42 | Static lyrics give one plain line per `Lines` entry, in order |
| Lyrics.VocalLines | frontend/downloader/backend/spotify_api.py:44-50 | Line lyrics give no more lines than entries, each the stripped, timed text of a `Vocal` entry, and every `Vocal` entry yields its stripped, timed line |
| Lyrics.VocalLinesOne | frontend/downloader/backend/spotify_api.py:46-49 | a single entry gives its stripped, timed line if it is `Vocal` and nothing otherwise; with `VocalLinesAppend` this fixes the Line result entry by entry, in order |
| Lyrics.VocalLinesAppend | frontend/downloader/backend/spotify_api.py:44-50 | the vocal lines of two runs of entries are those of the first followed by those of the second (order is kept) |
| Lyrics.NoVocalNoLines | frontend/downloader/backend/spotify_api.py:44-50 | content without a `Vocal` entry gives no lines |
| Lyrics.SyllableTextAppend | frontend/downloader/backend/spotify_api.py:56-60 | the text of two syllable runs is the first's text followed by the second's |
| Lyrics.SyllableWords | frontend/downloader/backend/spotify_api.py:54-62 | the syllable rule yields the words, separated by single spaces; a word runs up to and including the next syllable that is not part of a word |
| Lyrics.SyllableLines | frontend/downloader/backend/spotify_api.py:52-64 | Syllable lyrics give one line per lead, in order, each the stripped space-joined words, timed by the lead |
| Lyrics.LyricsOf | frontend/downloader/backend/spotify_api.py:31-66 | a non-200 reply, a `content-length` of `0` or a non-JSON body give no lines and type None; only a malformed body raises; a Static result has one line per `Lines` entry; a Dynamic result comes from Line or Syllable lyrics |
| Lyrics.TimedLinesTrimmed | frontend/downloader/backend/spotify_api.py:48-62 | every timed line starts and ends with a non-space character |
| Lyrics.JoinSyllables | frontend/downloader/backend/spotify_api.py:54-60 | the `line +=` loop builds exactly the syllable text of the lead |
| Lyrics.CollectStatic | frontend/downloader/backend/spotify_api.py:40-41 | the Static loop collects exactly `StaticLines` of the `Lines` entries |
| Lyrics.CollectVocal | frontend/downloader/backend/spotify_api.py:45-49 | the Line loop collects exactly `VocalLines` of the content |
| Lyrics.CollectSyllables | frontend/downloader/backend/spotify_api.py:53-63 | the Syllable loop collects exactly `SyllableLines` of the leads |
| Lyrics.FetchLyrics | frontend/downloader/backend/spotify_api.py:25-66 | `fetch_lyrics` returns exactly `LyricsOf` of the server's reply to the lyrics URL of the track |
| Text.StripEnds | frontend/downloader/backend/spotify_api.py:48 | the result of `strip()` starts and ends with a non-space character |
| Text.StripTrailingSpace | frontend/downloader/backend/spotify_api.py:62 | the space appended after a lead's last syllable does not survive `strip()` |
| Text.Split | spotisnake.py:104 | `split` on one character gives one more piece than separators, no piece holds the separator, and joining gives the input back |
| Text.SplitTrailing | spotisnake.py:102-104 | a trailing separator adds exactly one empty last piece |
| Text.DeleteCharIsKeep | spotisnake.py:103 | `replace(c, '')` of one character removes exactly that character and keeps the others in order |
| Media.RemoveEachIsKeep | spotisnake.py:16-18 | removing the illegal characters one after the other removes them all at once, keeping the others in order |
| Media.SanitizeIsFold | spotisnake.py:12-20 | the loop of `replace` calls after `lower()` computes `Sanitize` |
| Media.SanitizeClean | spotisnake.py:12-20 | the result holds none of `* " / \ < > : \| ? .` and no upper-case letter, and is no longer than the input |
| Media.SanitizeIdempotent | downloader/backend/spotisnake.py:33-41 | `sanitize(sanitize(x)) == sanitize(x)` |
| Media.SanitizeAppend | spotisnake.py:12-20 | sanitizing works character by character: the result for `a + b` is that of `a` followed by that of `b` |
| Media.SanitizeChar | spotisnake.py:12-20 | a character is lowercased and kept, unless it is illegal |
| Media.NoSlashInSanitized | spotisnake.py:24-25 | a sanitized name holds no `/`, so it cannot make a path absolute or add a level |
| Media.PathJoinBelow | spotisnake.py:24-25 | `os.path.join` of a directory without a trailing `/` and a slash-free name inserts exactly one `/` |
| Media.DestinationShape | spotisnake.py:24-25 | the destination is `<out>/<sanitize(album)>/<sanitize(name)>`, or `<out>/<sanitize(name)>` when the album sanitizes to nothing |
| Media.RanStep | spotisnake.py:117-119 | handling the next entry from the disk the previous call left extends a run by one step |
| Media.RunAddsOnlyTrackFiles | spotisnake.py:22-62 | a batch run never removes a file, and every file it adds is the `.mp3` destination of one of the track entries it handled |
| Media.RunQueriesIsrcFirst | spotisnake.py:51-52 | in a batch run, every track that is not skipped has the ISRC query as the first download of its call |
| Media.Disk.YtDownload | spotisnake.py:51-55 | a yt_dlp call logs its query together with whether the target's `.mp3` exists once it is over, may add at most that `.mp3`, and touches nothing else |
| Media.Disk.ApplyMetadata | spotisnake.py:64-98 | True only for an existing file, whose recorded frames become the seven frames of the track; False leaves the tags unchanged; no file, directory or query changes |
| Media.Disk.Acquire | spotisnake.py:31-60 | `Acquired`: the output directory exists; at most the track's `.mp3` is added; the ISRC download is logged first; the name-by-first-artist download is logged only after an ISRC download that left the file missing, and a normal run after such a miss always makes it; the last logged flag is whether the file exists at the end; Unavailable iff the file is missing at the end; tags are written only to an existing file |
| Media.AcquiredFallbackOnlyIfMissing | spotisnake.py:51-55 | an acquisition asks the ISRC query first; when that saved the file nothing else is asked; when it did not and the run ends normally, the name query follows |
| SpotiSnake.CommaBatchPieces | spotisnake.py:102-104 | the appended comma only adds an empty last piece to the split of the space-free input |
| SpotiSnake.CommaBatchShape | spotisnake.py:102-104 | the batch has at least two pieces and the last is empty; no piece holds a space or a comma; the other pieces rejoined by commas give the input without its spaces |
| SpotiSnake.FetchCommaBatch | spotisnake.py:102-106 | the trailing empty piece is harmless: fetching the batch is fetching the comma-separated pieces |
| SpotiSnake.FetchBatch | spotisnake.py:102-106 | the three statements and `fetch` compute `FetchAll` of the comma batch |
| SpotiSnake.DownloadTrack | spotisnake.py:22-62 | `Handled` with the skip: a raw search reply raises with the disk unchanged; an existing `.mp3` returns before any download with the disk unchanged; otherwise the acquisition runs (`Acquired`) |
| SpotiSnake.DownloadInOrder | spotisnake.py:140-144 | call k handles `tracks[k]`, numbered `(k + 1, n)`, from the disk call k - 1 left, ending on the final disk; every call before the last succeeded; success means every track was handled; a raise ends the run with the fault of the last call |
| SpotiSnake.DownloadTracks | spotisnake.py:130-146 | a raising `fetch` raises with no download and the disk unchanged; otherwise the fetched entries are handled in order from the initial disk to the final one, numbered 1..n, until one raises |
| SpotiSnake.DownloadAll | spotisnake.py:111-126 | every track is handled, call k on `tracks[k]` numbered `(k + 1, n)` from the disk call k - 1 left, ending on the final disk; a call that raises does not stop the later ones |
| SpotiSnake.DownloadTracksThreaded | spotisnake.py:100-126 | a raising `fetch` raises with no download and the disk unchanged; otherwise every fetched entry is handled in order, numbered 1..n, from the initial disk to the final one, and the run completes |
| WebSnake.ArchiveIdIgnoresLaterLines | downloader/backend/spotisnake.py:19-23 | only the first line counts: lines after the first newline do not change the archive name |
| WebSnake.ArchiveIdClean | downloader/backend/spotisnake.py:19-31 | the archive name holds no `?`, `=`, space or newline |
| WebSnake.ArchiveIdOfTrackLink | downloader/backend/spotisnake.py:24-29 | for `https://open.spotify.com/track/<id>` with an alphanumeric id, the archive name is the id |
| WebSnake.LineBatchShape | downloader/backend/spotisnake.py:116-117 | the batch is non-empty; no line holds a space or a newline; the lines rejoined by newlines give the input without its spaces |
| WebSnake.DownloadTrack | downloader/backend/spotisnake.py:43-77 | `Handled` without the skip: a track always goes through the acquisition, so the ISRC query is always issued first; a raw search reply raises with the disk unchanged |
| WebSnake.FetchLines | downloader/backend/spotisnake.py:116-119 | the two statements and `fetch` compute `FetchAll` of the newline batch |
| WebSnake.DownloadAll | downloader/backend/spotisnake.py:124-139 | every entry is handled, call k on `tracks[k]` numbered `(k + 1, n)` from the disk call k - 1 left, ending on the final disk; one download's failure is swallowed and does not stop the others |
| WebSnake.DownloadTracksThreaded | downloader/backend/spotisnake.py:113-142 | a raising `fetch`, an empty result or a first entry that is not a track raises before any download, with the disk unchanged; otherwise every entry is handled in order from the initial disk to the final one, and the archive is named `create_archive_id(url)` |

## Left out

- HTTP and authentication are not modelled: `get_access_token`, the aiohttp and requests calls, and `search`. Each endpoint is a function in `Catalog` from request to decoded body. A body without the keys read becomes an error variant (`NotAPage`, `AlbumError`, `ArtistError`, `Malformed`, `SearchOther`).
- yt_dlp and mutagen are foreign libraries. They are nondeterministic methods of `Disk`: a download may or may not save the target and may raise; tagging may fail. The ID3 frames are modelled as a list of `Frame` values; encodings and the image bytes are not modelled.
- The `ThreadPoolExecutor` of both `download_tracks_threaded` is modelled as running its tasks one after another, in submission order. Interleavings of concurrent downloads are not modelled.
- `os.makedirs` is modelled only as adding the output directory to a set of directories.
- `shutil.make_archive` and `shutil.rmtree` are not modelled. `WebSnake.DownloadTracksThreaded` returns the archive base name instead.
- downloader/views.py (the Django view), the dotenv loading, the `input`/`print` driver of spotisnake.py and all printed messages are I/O. They are not modelled.
- `apply_metadata_to_tracks` in both scripts is not modelled. It is not part of the download path, and it passes a string where `fetch` expects a list.
- `get_liked_tracks` is called by `fetch` but defined nowhere, so that branch is modelled as raising `NoLikedTracks`.
- `StartTime` values are taken as integer milliseconds. The float product `int(StartTime * 1000)` is not modelled.
- Text.Lower: lowercases ASCII letters only; Unicode case mapping is not modelled.
- Media.SanitizeClean: its clause that the result is no longer than the input rests on the ASCII-only lowering. Python's `lower()` can lengthen a string (`'İ'.lower()` has two code points), so `sanitize` can too.
- Media.Disk.ApplyMetadata: the tags of a file are recorded as the frames of the last successful `apply_metadata`. Frames the file already had, and how `tags.add` merges with them, are not modelled.
- SpotifyResolve.GetPlaylist: a page that has `items` but no `next` key raises a KeyError after its tracks are created. `Paging` always has a `next`, so this case is not modelled.
- `track.artists` is a list of names. When a track body has an `artist` key holding a string, `artists[0]` would be its first character; that case is not distinguished.
- SpotifyResolve.PlaylistFollowsCursors, PlaylistCollectsEveryPage and the `get_artist` lemmas hold only for a catalog that satisfies `Catalog.Valid()`. Under it, cursor chains end and no listing reports a `total` above a fixed bound. A server with an endless cursor chain is not modelled.
- `Catalog.Valid()` also assumes that an `id` returned in an artist listing holds no `?si=`. Without this, the `?si=` branch of `get_artist` could loop forever.
- The index `[i, n]` passed to `download_track` is used only in printed messages, so it is kept as a ghost log (`calls`) and not as an effect.
