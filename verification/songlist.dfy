/**
  The catalog list (SongList.jsx): adding a catalog track to one of the active profile's
  playlists without duplicates, marking artists and albums as favourites, and creating a
  playlist from the add-to-playlist dialog.
*/
module SongList {
  import opened Wrappers
  import opened Entities
  import Text

  /** `album?.images?.[0]?.url`: the first album image, if any. */
  function FirstImage(urls: seq<string>): Option<string> {
    if urls == [] then None else Some(urls[0])
  }

  /** The song snapshot built from a catalog track (`songData`). */
  function Snapshot(t: CatalogTrack): (s: Song)
    ensures s.localId.None? && s.spotifyId == Some(t.id) && s.title == t.name
    ensures s.artist == Text.Join(t.artistNames, ", ")
    ensures s.cover.Some? <==> t.albumImages != []
    ensures s.cover.Some? ==> s.cover.value == t.albumImages[0]
  {
    Song(None, Some(t.id), t.name, Text.Join(t.artistNames, ", "), FirstImage(t.albumImages))
  }

  /** `songs.some(s => s.spotifyId === id)`. */
  function HasSpotifyId(songs: seq<Song>, id: string): (b: bool)
    ensures b <==> exists k :: 0 <= k < |songs| && songs[k].spotifyId == Some(id)
  {
    if songs == [] then false
    else songs[0].spotifyId == Some(id) || HasSpotifyId(songs[1..], id)
  }

  /** How many entries of `songs` carry the catalog id `id`. */
  function CountSpotifyId(songs: seq<Song>, id: string): nat {
    if songs == [] then 0
    else (if songs[0].spotifyId == Some(id) then 1 else 0) + CountSpotifyId(songs[1..], id)
  }

  /** Within one playlist no two entries share a catalog id. */
  predicate NoDuplicateSpotifyIds(songs: seq<Song>) {
    forall i, j :: 0 <= i < j < |songs| && songs[i].spotifyId.Some? ==> songs[i].spotifyId != songs[j].spotifyId
  }

  /**
    The song list `handleAddSong` writes: unchanged when the track's id is already there,
    otherwise the old list with the snapshot appended at the end.
  */
  function AddSongTo(songs: seq<Song>, t: CatalogTrack): (r: seq<Song>)
    ensures songs <= r && |r| <= |songs| + 1
    ensures HasSpotifyId(r, t.id)
    ensures HasSpotifyId(songs, t.id) ==> r == songs
    ensures !HasSpotifyId(songs, t.id) ==> |r| == |songs| + 1 && r[|songs|] == Snapshot(t)
  {
    if HasSpotifyId(songs, t.id) then songs
    else
      var r := songs + [Snapshot(t)];
      assert r[|songs|].spotifyId == Some(t.id);
      r
  }

  /** Appending one entry adds one to the count of its catalog id and nothing to the others. */
  lemma {:induction false} CountSnoc(songs: seq<Song>, s: Song, id: string)
    ensures CountSpotifyId(songs + [s], id) == CountSpotifyId(songs, id) + (if s.spotifyId == Some(id) then 1 else 0)
  {
    if songs != [] {
      assert (songs + [s])[1..] == songs[1..] + [s];
      CountSnoc(songs[1..], s, id);
    }
  }

  /** The count is positive exactly when the id is present. */
  lemma {:induction false} CountPositive(songs: seq<Song>, id: string)
    ensures CountSpotifyId(songs, id) > 0 <==> HasSpotifyId(songs, id)
  {
    if songs != [] {
      CountPositive(songs[1..], id);
    }
  }

  /** Adding a track a second time changes nothing. */
  lemma AddSongIdempotent(songs: seq<Song>, t: CatalogTrack)
    ensures AddSongTo(AddSongTo(songs, t), t) == AddSongTo(songs, t)
  {
  }

  /**
    After an add the track's id occurs exactly once when it did not occur before, and as
    often as before otherwise: adding the same track twice to a playlist without it gives
    exactly one entry.
  */
  lemma AddSongCount(songs: seq<Song>, t: CatalogTrack)
    ensures CountSpotifyId(AddSongTo(songs, t), t.id) ==
      if HasSpotifyId(songs, t.id) then CountSpotifyId(songs, t.id) else 1
  {
    CountPositive(songs, t.id);
    if !HasSpotifyId(songs, t.id) {
      CountSnoc(songs, Snapshot(t), t.id);
    }
  }

  /** Adding keeps a playlist free of duplicate catalog ids. */
  lemma AddSongKeepsNoDuplicates(songs: seq<Song>, t: CatalogTrack)
    requires NoDuplicateSpotifyIds(songs)
    ensures NoDuplicateSpotifyIds(AddSongTo(songs, t))
  {
    var r := AddSongTo(songs, t);
    if !HasSpotifyId(songs, t.id) {
      forall i, j | 0 <= i < j < |r| && r[i].spotifyId.Some?
        ensures r[i].spotifyId != r[j].spotifyId
      {
        if j == |songs| {
          assert r[i] == songs[i];
        }
      }
    }
  }

  /** `playlists.find(p => p._id === id)`: the first playlist with that id. */
  function FindPlaylist(pls: seq<StoredPlaylist>, id: string): (r: Option<StoredPlaylist>)
    ensures r.None? <==> forall i :: 0 <= i < |pls| ==> pls[i].id != id
    ensures r.Some? ==> exists i :: 0 <= i < |pls| && pls[i] == r.value && pls[i].id == id
                                      && forall j :: 0 <= j < i ==> pls[j].id != id
  {
    if pls == [] then None
    else if pls[0].id == id then Some(pls[0])
    else
      var r := FindPlaylist(pls[1..], id);
      assert r.Some? ==> exists i :: 0 <= i < |pls| && pls[i] == r.value && pls[i].id == id
                                      && forall j :: 0 <= j < i ==> pls[j].id != id by {
        if r.Some? {
          var i :| 0 <= i < |pls[1..]| && pls[1..][i] == r.value && pls[1..][i].id == id
                   && forall j :: 0 <= j < i ==> pls[1..][j].id != id;
          assert pls[i + 1] == r.value;
          assert forall j :: 0 <= j < i + 1 ==> pls[j].id != id by {
            forall j | 0 <= j < i + 1 ensures pls[j].id != id {
              if j > 0 {
                assert pls[j] == pls[1..][j - 1];
              }
            }
          }
        }
      }
      r
  }

  /** `isSongInPlaylist(songId, playlistId)`. */
  predicate IsSongInPlaylist(pls: seq<StoredPlaylist>, songId: string, playlistId: string) {
    match FindPlaylist(pls, playlistId)
    case None => false
    case Some(pl) => HasSpotifyId(pl.songs, songId)
  }

  /**
    When playlist ids are unique, a song is in a playlist exactly when a playlist with that
    id exists and one of its entries carries the song's catalog id.
  */
  lemma IsSongInPlaylistMeaning(pls: seq<StoredPlaylist>, songId: string, playlistId: string)
    requires UniqueIds(pls)
    ensures IsSongInPlaylist(pls, songId, playlistId) <==>
      exists i, k :: 0 <= i < |pls| && pls[i].id == playlistId
                     && 0 <= k < |pls[i].songs| && pls[i].songs[k].spotifyId == Some(songId)
  {
    var r := FindPlaylist(pls, playlistId);
    if r.Some? {
      var i :| 0 <= i < |pls| && pls[i] == r.value && pls[i].id == playlistId;
      assert forall i' :: 0 <= i' < |pls| && pls[i'].id == playlistId ==> i' == i;
    }
  }

  /** `isArtistFavorite` / `isAlbumFavorite`: some favourite has that id. */
  function IsFavorite(favs: seq<Favorite>, id: string): (b: bool)
    ensures b <==> exists k :: 0 <= k < |favs| && favs[k].id == id
  {
    if favs == [] then false else favs[0].id == id || IsFavorite(favs[1..], id)
  }

  /** The body of the edit request `handleAddSong` sends. */
  datatype EditRequest = EditRequest(playlistId: string, name: string, songs: seq<Song>)

  /** What the profile read returns for the favourites (`favoriteArtists || []`, ...). */
  datatype FavoritesResponse = FavoritesResponse(artists: Option<seq<Favorite>>, albums: Option<seq<Favorite>>)

  /** The outcome of the write and the re-read in `handleCreatePlaylist`. */
  datatype CreateOutcome = Created(refetched: seq<StoredPlaylist>) | CreateFailed

  /** The state of the catalog list component for the active profile `profileId`. */
  class SongListView {
    const profileId: string
    var playlists: seq<StoredPlaylist>
    var selectedPlaylist: string
    var modalSong: Option<CatalogTrack>
    var favoriteArtists: seq<Favorite>
    var favoriteAlbums: seq<Favorite>
    var showCreate: bool
    var newPlaylistName: string

    constructor (profileId: string)
      ensures this.profileId == profileId
      ensures playlists == [] && selectedPlaylist == "" && modalSong.None?
      ensures favoriteArtists == [] && favoriteAlbums == []
      ensures !showCreate && newPlaylistName == ""
    {
      this.profileId := profileId;
      playlists, selectedPlaylist, modalSong := [], "", None;
      favoriteArtists, favoriteAlbums := [], [];
      showCreate, newPlaylistName := false, "";
    }

    /** The playlist read: the response, or the empty list when it fails. */
    method LoadPlaylists(response: Option<seq<StoredPlaylist>>)
      modifies this
      ensures playlists == response.GetOr([])
      ensures selectedPlaylist == old(selectedPlaylist) && modalSong == old(modalSong)
      ensures favoriteArtists == old(favoriteArtists) && favoriteAlbums == old(favoriteAlbums)
      ensures showCreate == old(showCreate) && newPlaylistName == old(newPlaylistName)
    {
      playlists := response.GetOr([]);
    }

    /** `fetchFavorites`: both lists from the profile read, each `[]` when missing, both `[]` on failure. */
    method LoadFavorites(response: Option<FavoritesResponse>)
      modifies this
      ensures response.None? ==> favoriteArtists == [] && favoriteAlbums == []
      ensures response.Some? ==> favoriteArtists == response.value.artists.GetOr([])
                                 && favoriteAlbums == response.value.albums.GetOr([])
      ensures playlists == old(playlists) && selectedPlaylist == old(selectedPlaylist)
      ensures modalSong == old(modalSong)
      ensures showCreate == old(showCreate) && newPlaylistName == old(newPlaylistName)
    {
      match response {
        case None =>
          favoriteArtists, favoriteAlbums := [], [];
        case Some(r) =>
          favoriteArtists, favoriteAlbums := r.artists.GetOr([]), r.albums.GetOr([]);
      }
    }

    /** "Agregar a Playlist": the track becomes the dialog's song. */
    method OpenDialog(t: CatalogTrack)
      modifies this`modalSong
      ensures modalSong == Some(t)
    {
      modalSong := Some(t);
    }

    /** Choosing a playlist in the dialog. */
    method SelectPlaylist(id: string)
      modifies this`selectedPlaylist
      ensures selectedPlaylist == id
    {
      selectedPlaylist := id;
    }

    /** The dialog's add button is enabled: a playlist is chosen and the song is not in it. */
    predicate AddEnabled()
      reads this
      requires modalSong.Some?
    {
      selectedPlaylist != "" && !IsSongInPlaylist(playlists, modalSong.value.id, selectedPlaylist)
    }

    /**
      `handleAddSong`. Nothing happens without a dialog song, a chosen playlist, or a
      playlist with the chosen id. Otherwise the edit request appends the snapshot when the
      track's id is not yet in that playlist (and no request is sent when it is); the
      re-read table reflects the write. After the attempt, duplicate or not, the dialog
      song and the chosen playlist are cleared, unless the write failed, which leaves the
      handler before it clears them.
    */
    method HandleAddSong(writeOk: bool) returns (req: Option<EditRequest>)
      modifies this
      ensures favoriteArtists == old(favoriteArtists) && favoriteAlbums == old(favoriteAlbums)
      ensures showCreate == old(showCreate) && newPlaylistName == old(newPlaylistName)
      ensures old(modalSong).None? || old(selectedPlaylist) == "" || FindPlaylist(old(playlists), old(selectedPlaylist)).None? ==>
        req.None? && playlists == old(playlists)
        && modalSong == old(modalSong) && selectedPlaylist == old(selectedPlaylist)
      ensures old(modalSong).Some? && old(selectedPlaylist) != "" && FindPlaylist(old(playlists), old(selectedPlaylist)).Some? ==>
        var pl := FindPlaylist(old(playlists), old(selectedPlaylist)).value;
        var t := old(modalSong).value;
        var duplicate := HasSpotifyId(pl.songs, t.id);
        && (duplicate ==> req.None? && playlists == old(playlists))
        && (!duplicate ==> req == Some(EditRequest(old(selectedPlaylist), pl.name, AddSongTo(pl.songs, t))))
        && (!duplicate && writeOk ==>
              playlists == ApplyEdit(old(playlists), old(selectedPlaylist), pl.name, AddSongTo(pl.songs, t)))
        && (!duplicate && !writeOk ==> playlists == old(playlists))
        && (duplicate || writeOk ==> modalSong.None? && selectedPlaylist == "")
        && (!duplicate && !writeOk ==> modalSong == old(modalSong) && selectedPlaylist == old(selectedPlaylist))
    {
      req := None;
      if modalSong.None? || selectedPlaylist == "" {
        return;
      }
      var found := FindPlaylist(playlists, selectedPlaylist);
      if found.None? {
        return;
      }
      var pl := found.value;
      var t := modalSong.value;
      var songData := Snapshot(t);
      if !HasSpotifyId(pl.songs, t.id) {
        var songs := pl.songs + [songData];
        req := Some(EditRequest(selectedPlaylist, pl.name, songs));
        if !writeOk {
          return;
        }
        playlists := ApplyEdit(playlists, selectedPlaylist, pl.name, songs);
      }
      modalSong := None;
      selectedPlaylist := "";
    }

    /**
      `handleAddArtistFavorite`: an artist already among the favourites returns at once with
      no request; otherwise the artist is sent and, when the write succeeds, both favourite
      lists are read again. A failed write is only logged.
    */
    method HandleAddArtistFavorite(artist: Favorite, putOk: bool, reread: Option<FavoritesResponse>)
      returns (req: Option<Favorite>)
      modifies this
      ensures IsFavorite(old(favoriteArtists), artist.id) ==>
        req.None? && favoriteArtists == old(favoriteArtists) && favoriteAlbums == old(favoriteAlbums)
      ensures !IsFavorite(old(favoriteArtists), artist.id) ==> req == Some(artist)
      ensures !IsFavorite(old(favoriteArtists), artist.id) && putOk ==>
        favoriteArtists == (if reread.Some? then reread.value.artists.GetOr([]) else [])
        && favoriteAlbums == (if reread.Some? then reread.value.albums.GetOr([]) else [])
      ensures !putOk ==> favoriteArtists == old(favoriteArtists) && favoriteAlbums == old(favoriteAlbums)
      ensures playlists == old(playlists) && selectedPlaylist == old(selectedPlaylist) && modalSong == old(modalSong)
      ensures showCreate == old(showCreate) && newPlaylistName == old(newPlaylistName)
    {
      req := None;
      if IsFavorite(favoriteArtists, artist.id) {
        return;
      }
      req := Some(artist);
      if putOk {
        LoadFavorites(reread);
      }
    }

    /** `handleAddAlbumFavorite`: the same rule for albums. */
    method HandleAddAlbumFavorite(album: Favorite, putOk: bool, reread: Option<FavoritesResponse>)
      returns (req: Option<Favorite>)
      modifies this
      ensures IsFavorite(old(favoriteAlbums), album.id) ==>
        req.None? && favoriteArtists == old(favoriteArtists) && favoriteAlbums == old(favoriteAlbums)
      ensures !IsFavorite(old(favoriteAlbums), album.id) ==> req == Some(album)
      ensures !IsFavorite(old(favoriteAlbums), album.id) && putOk ==>
        favoriteArtists == (if reread.Some? then reread.value.artists.GetOr([]) else [])
        && favoriteAlbums == (if reread.Some? then reread.value.albums.GetOr([]) else [])
      ensures !putOk ==> favoriteArtists == old(favoriteArtists) && favoriteAlbums == old(favoriteAlbums)
      ensures playlists == old(playlists) && selectedPlaylist == old(selectedPlaylist) && modalSong == old(modalSong)
      ensures showCreate == old(showCreate) && newPlaylistName == old(newPlaylistName)
    {
      req := None;
      if IsFavorite(favoriteAlbums, album.id) {
        return;
      }
      req := Some(album);
      if putOk {
        LoadFavorites(reread);
      }
    }

    /** "Crear nueva playlist" and its cancel button. */
    method ShowCreateForm(show: bool)
      modifies this`showCreate, this`newPlaylistName
      ensures showCreate == show
      ensures newPlaylistName == if show then old(newPlaylistName) else ""
    {
      showCreate := show;
      if !show {
        newPlaylistName := "";
      }
    }

    /** Typing the new playlist's name. */
    method EditNewPlaylistName(name: string)
      modifies this`newPlaylistName
      ensures newPlaylistName == name
    {
      newPlaylistName := name;
    }

    /**
      `handleCreatePlaylist`: a blank name does nothing. Otherwise the name is sent as typed
      (untrimmed); on success the list is the re-read one and the create form is closed and
      emptied; on failure nothing changes.
    */
    method HandleCreatePlaylist(outcome: CreateOutcome) returns (req: Option<string>)
      modifies this
      ensures Text.IsBlank(old(newPlaylistName)) ==>
        req.None? && playlists == old(playlists) && showCreate == old(showCreate) && newPlaylistName == old(newPlaylistName)
      ensures !Text.IsBlank(old(newPlaylistName)) ==> req == Some(old(newPlaylistName))
      ensures !Text.IsBlank(old(newPlaylistName)) && outcome.Created? ==>
        playlists == outcome.refetched && !showCreate && newPlaylistName == ""
      ensures outcome.CreateFailed? ==>
        playlists == old(playlists) && showCreate == old(showCreate) && newPlaylistName == old(newPlaylistName)
      ensures selectedPlaylist == old(selectedPlaylist) && modalSong == old(modalSong)
      ensures favoriteArtists == old(favoriteArtists) && favoriteAlbums == old(favoriteAlbums)
    {
      req := None;
      if Text.IsBlank(newPlaylistName) {
        return;
      }
      req := Some(newPlaylistName);
      if outcome.Created? {
        playlists := outcome.refetched;
        showCreate := false;
        newPlaylistName := "";
      }
    }
  }

  /** The add handler appends exactly when the dialog's add button is enabled (for a known playlist). */
  lemma AddEnabledMeansAppend(pls: seq<StoredPlaylist>, selected: string, t: CatalogTrack)
    requires selected != "" && FindPlaylist(pls, selected).Some?
    ensures !IsSongInPlaylist(pls, t.id, selected) <==>
      AddSongTo(FindPlaylist(pls, selected).value.songs, t) != FindPlaylist(pls, selected).value.songs
  {
  }

  /**
    Adding the same track twice through the dialog leaves one entry for it in the
    playlist: the second attempt finds it and sends nothing.
  */
  method AddSameSongTwice(pl: StoredPlaylist, t: CatalogTrack) returns (count: nat, second: Option<EditRequest>)
    requires pl.id != "" && !HasSpotifyId(pl.songs, t.id)
    ensures count == 1 && second.None?
  {
    var view := new SongListView("profile");
    view.LoadPlaylists(Some([pl]));
    view.OpenDialog(t);
    view.SelectPlaylist(pl.id);
    var first := view.HandleAddSong(true);
    view.OpenDialog(t);
    view.SelectPlaylist(pl.id);
    second := view.HandleAddSong(true);
    var after := FindPlaylist(view.playlists, pl.id);
    AddSongCount(pl.songs, t);
    count := CountSpotifyId(after.value.songs, t.id);
  }
}
