/**
  Records shared by several components: what the catalog returns for a track, the song
  snapshot a playlist stores, a stored playlist, a favourite, and a profile; and the
  playlist table the backend keeps for the active profile.
*/
module Entities {
  import opened Wrappers

  /** A catalog track: its id, name, artist names and album image URLs (largest first). */
  datatype CatalogTrack = CatalogTrack(
    id: string,
    name: string,
    artistNames: seq<string>,
    albumImages: seq<string>)

  /**
    A playlist line item, a denormalised snapshot of a catalog track. `localId` is the
    server's `_id` (absent on a snapshot the client builds); `spotifyId` may be absent on
    entries that did not come from the catalog.
  */
  datatype Song = Song(
    localId: Option<string>,
    spotifyId: Option<string>,
    title: string,
    artist: string,
    cover: Option<string>)

  /** A playlist as the backend lists it for a profile. */
  datatype StoredPlaylist = StoredPlaylist(
    id: string,
    name: string,
    songs: seq<Song>,
    cover: Option<string>)

  /** A favourite artist or album, as stored on the profile. */
  datatype Favorite = Favorite(id: string, name: string, images: seq<string>)

  /**
    A profile. JavaScript's falsy `_id` and `language` are the empty string here; an
    `avatar` that is missing or not a string is `None`; an `ageRestriction` that is missing
    or `NaN` is `None`.
  */
  datatype Profile = Profile(
    id: string,
    name: string,
    kind: string,
    avatar: Option<string>,
    language: string,
    ageRestriction: Option<int>,
    favoriteAlbum: Option<string>)

  /** No two playlists of the table share an id. */
  predicate UniqueIds(pls: seq<StoredPlaylist>) {
    forall i, j :: 0 <= i < j < |pls| ==> pls[i].id != pls[j].id
  }

  /**
    The table after `PUT /api/playlists/edit/:id` with body `{ name, songs }`: every playlist
    with that id takes the new name and song list, every other playlist is unchanged.
  */
  function ApplyEdit(pls: seq<StoredPlaylist>, id: string, name: string, songs: seq<Song>): (r: seq<StoredPlaylist>)
    ensures |r| == |pls|
    ensures forall i :: 0 <= i < |pls| ==> r[i].id == pls[i].id && r[i].cover == pls[i].cover
    ensures forall i :: 0 <= i < |pls| && pls[i].id == id ==> r[i].name == name && r[i].songs == songs
    ensures forall i :: 0 <= i < |pls| && pls[i].id != id ==> r[i] == pls[i]
  {
    seq(|pls|, i requires 0 <= i < |pls| =>
      if pls[i].id == id then pls[i].(name := name, songs := songs) else pls[i])
  }

  /** The table after `PUT /api/playlists/edit/:id` with body `{ name }`: a rename that keeps the songs. */
  function ApplyRename(pls: seq<StoredPlaylist>, id: string, name: string): (r: seq<StoredPlaylist>)
    ensures |r| == |pls|
    ensures forall i :: 0 <= i < |pls| ==> r[i].id == pls[i].id && r[i].songs == pls[i].songs && r[i].cover == pls[i].cover
    ensures forall i :: 0 <= i < |pls| ==> r[i].name == if pls[i].id == id then name else pls[i].name
  {
    seq(|pls|, i requires 0 <= i < |pls| =>
      if pls[i].id == id then pls[i].(name := name) else pls[i])
  }

  /** Edits keep the set of ids, so a table with unique ids keeps them. */
  lemma EditKeepsUniqueIds(pls: seq<StoredPlaylist>, id: string, name: string, songs: seq<Song>)
    requires UniqueIds(pls)
    ensures UniqueIds(ApplyEdit(pls, id, name, songs))
    ensures UniqueIds(ApplyRename(pls, id, name))
  {
  }
}
