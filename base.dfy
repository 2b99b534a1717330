/** Shared result types.  A Python exception that escapes a call is modelled as
    `Raise(fault)`, where the fault names the statement that raised. */
module Base {

  datatype Option<+T> = None | Some(value: T)

  /** What raised, named after the failing statement of the source. */
  datatype Fault =
    | NullTrack          // `create_track(item['track'])` on a removed playlist entry (None)
    | NoAlbumImage       // `album_data['images'][0]` on an album without images
    | NoIsrc             // `data['external_ids']['isrc']` missing
    | BadTrackBody       // a track lookup whose body is not a track object
    | BadPlaylistBody    // `get_items['items']` on a playlist page without items
    | BadAlbumBody       // an album lookup whose body has no `tracks.items`
    | BadSearchBody      // `resp.json()` of a search inside `get_track` failed
    | BadArtistBody      // an album listing that is not JSON or lacks `items`, `total` or `id`
    | BadLyricsBody      // a lyrics body without `Type` or with a line lacking an expected key
    | NoSearchHit        // `data['tracks']['items'][0]` on an empty search result
    | ExtendedWithNone   // `track_list += None` after `get_playlist` returned None
    | NoLikedTracks      // `self.get_liked_tracks()` is not defined
    | NotATrack          // attribute access on a raw search reply that is not a track
    | NoArtist           // `track.artists[0]` on an empty artist list
    | DownloadFailed     // `ydl.download(...)` raised
    | EmptyBatch         // `spotify_tracks[0].name` on an empty result

  datatype Result<+T> = Ok(value: T) | Raise(fault: Fault)
}
