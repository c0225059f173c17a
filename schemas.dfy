/** The vendor API's records that the core reads (the fields the logic looks at). */
module Schemas {
  import opened Wrappers

  datatype Track = Track(id: string, name: string)

  /** A playlist; `total` is `tracks.total`, the number of tracks it holds. */
  datatype Playlist = Playlist(id: string, name: string, total: int)

  /** One entry of a playlist page: `track` is null for removed or unavailable tracks. */
  datatype PlaylistItem = PlaylistItem(track: Option<Track>)

  datatype Device = Device(id: string, isActive: bool, name: string, kind: string)
}
