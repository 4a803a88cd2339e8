/**
  The playlists page (Playlist.jsx): creating and renaming the active profile's playlists,
  importing a catalog playlist (its tracks flattened into song snapshots), importing a
  community playlist (its songs copied verbatim), and the key a song is removed by.
*/
module Playlists {
  import opened Wrappers
  import opened Entities
  import Text
  import Seqs
  import SongList

  /** A catalog search hit for a playlist: its id (falsy when empty), name and cover images. */
  datatype CatalogPlaylist = CatalogPlaylist(id: string, name: string, images: seq<string>)

  /** A community playlist as the backend's search returns it; `ownerName` is `profile?.name`. */
  datatype CommunityPlaylist = CommunityPlaylist(
    id: string,
    name: string,
    ownerName: Option<string>,
    songs: Option<seq<Song>>,
    cover: Option<string>)

  /** Where a created playlist comes from, as its create body says. */
  datatype Origin = Manual | FromCatalog(catalogId: string) | FromCommunity(originalId: string)

  /**
    The body of `POST /api/playlists/:profileId`. `songs` and `cover` are `None` where the
    body leaves them out (or copies an undefined value).
  */
  datatype CreateBody = CreateBody(name: string, songs: Option<seq<Song>>, cover: Option<string>, origin: Origin)

  /** A request the page sends. */
  datatype Request =
    | Create(profileId: string, body: CreateBody)
    | Rename(playlistId: string, name: string)
    | Delete(playlistId: string)
    | RemoveSong(playlistId: string, segment: string)
    | CatalogSearch(term: string, kind: string, limit: nat)
    | CommunitySearch(term: string)

  /** Which of `song._id || song.spotifyId || idx` a song removal uses. */
  datatype RemovalKey = ById(id: string) | BySpotifyId(spotifyId: string) | ByIndex(index: nat)

  /**
    The tracks of a catalog track listing, whose items may have `track: null`: `None` when
    some item has no track (reading `item.track.id` then throws), otherwise every track in order.
  */
  function PresentTracks(items: seq<Option<CatalogTrack>>): (r: Option<seq<CatalogTrack>>)
    ensures r.Some? <==> forall i :: 0 <= i < |items| ==> items[i].Some?
    ensures r.Some? ==> |r.value| == |items| && forall i :: 0 <= i < |items| ==> items[i] == Some(r.value[i])
  {
    if items == [] then Some([])
    else if items[0].None? then None
    else
      var rest := PresentTracks(items[1..]);
      if rest.None? then None else Some([items[0].value] + rest.value)
  }

  /** `items.map(item => ({ spotifyId, title, artist, cover }))`. */
  function SnapshotAll(tracks: seq<CatalogTrack>): (r: seq<Song>)
    ensures |r| == |tracks|
  {
    if tracks == [] then [] else [SongList.Snapshot(tracks[0])] + SnapshotAll(tracks[1..])
  }

  /** Each imported song is the snapshot of the track at the same position. */
  lemma {:induction false} SnapshotAllAt(tracks: seq<CatalogTrack>, i: nat)
    requires i < |tracks|
    ensures SnapshotAll(tracks)[i] == SongList.Snapshot(tracks[i])
    ensures SnapshotAll(tracks)[i].spotifyId == Some(tracks[i].id)
    ensures SnapshotAll(tracks)[i].artist == Text.Join(tracks[i].artistNames, ", ")
  {
    if i > 0 {
      SnapshotAllAt(tracks[1..], i - 1);
    }
  }

  /** The mapping distributes over concatenation: the import keeps the source's track order. */
  lemma {:induction false} SnapshotAllConcat(xs: seq<CatalogTrack>, ys: seq<CatalogTrack>)
    ensures SnapshotAll(xs + ys) == SnapshotAll(xs) + SnapshotAll(ys)
  {
    if xs == [] {
      assert xs + ys == ys;
    } else {
      assert (xs + ys)[1..] == xs[1..] + ys;
      SnapshotAllConcat(xs[1..], ys);
    }
  }

  /** The import and the catalog list's add dialog build the same snapshot for a track. */
  lemma ImportAgreesWithAdd(t: CatalogTrack)
    ensures SnapshotAll([t]) == [SongList.Snapshot(t)]
  {
  }

  /** The create body of a catalog import (`handleAddSpotifyPlaylist`, step 3). */
  function CatalogImportBody(pl: CatalogPlaylist, tracks: seq<CatalogTrack>): (b: CreateBody)
    ensures b.name == pl.name && b.origin == FromCatalog(pl.id)
    ensures b.songs == Some(SnapshotAll(tracks))
    ensures b.cover == Some(if pl.images != [] then pl.images[0] else "")
  {
    CreateBody(pl.name, Some(SnapshotAll(tracks)), Some(if pl.images == [] then "" else pl.images[0]), FromCatalog(pl.id))
  }

  /** `pl.profile?.name || "Anónimo"`. */
  function OwnerLabel(ownerName: Option<string>): (s: string)
    ensures s != ""
  {
    if ownerName.Some? && ownerName.value != "" then ownerName.value else "Anónimo"
  }

  /** The name of a community import: `name + " (de " + owner + ")"`. */
  function CommunityName(name: string, ownerName: Option<string>): string {
    name + " (de " + OwnerLabel(ownerName) + ")"
  }

  /**
    A community import's name starts with the source name and ends with ")"; between the
    marker " (de " and that parenthesis stands the owner's name or "Anónimo", so the
    source name and the owner label can both be read back from it.
  */
  lemma CommunityNameParts(name: string, ownerName: Option<string>)
    ensures var n := CommunityName(name, ownerName);
      && |n| == |name| + 5 + |OwnerLabel(ownerName)| + 1
      && n[..|name|] == name
      && n[|name|..|name| + 5] == " (de "
      && n[|name| + 5..|n| - 1] == OwnerLabel(ownerName)
      && n[|n| - 1] == ')'
  {
    var n := CommunityName(name, ownerName);
    assert n == name + " (de " + OwnerLabel(ownerName) + ")";
  }

  /** Two community imports get the same name only when source names and owner labels agree. */
  lemma CommunityNameInjective(name1: string, owner1: Option<string>, name2: string, owner2: Option<string>)
    requires |name1| == |name2|
    requires CommunityName(name1, owner1) == CommunityName(name2, owner2)
    ensures name1 == name2 && OwnerLabel(owner1) == OwnerLabel(owner2)
  {
    CommunityNameParts(name1, owner1);
    CommunityNameParts(name2, owner2);
  }

  /** The create body of a community import (the "Agregar" button of a community result). */
  function CommunityImportBody(pl: CommunityPlaylist): (b: CreateBody)
    ensures b.songs == pl.songs && b.cover == pl.cover
    ensures b.origin == FromCommunity(pl.id)
    ensures b.name == CommunityName(pl.name, pl.ownerName)
  {
    CreateBody(CommunityName(pl.name, pl.ownerName), pl.songs, pl.cover, FromCommunity(pl.id))
  }

  /** The key a song at position `idx` is removed by: its `_id`, else its catalog id, else its index. */
  function RemovalKeyFor(song: Song, idx: nat): (k: RemovalKey)
    ensures k.ById? <==> song.localId.Some? && song.localId.value != ""
    ensures k.ById? ==> k.id == song.localId.value
    ensures k.BySpotifyId? <==> !k.ById? && song.spotifyId.Some? && song.spotifyId.value != ""
    ensures k.BySpotifyId? ==> k.spotifyId == song.spotifyId.value
    ensures k.ByIndex? ==> k.index == idx
  {
    if song.localId.Some? && song.localId.value != "" then ById(song.localId.value)
    else if song.spotifyId.Some? && song.spotifyId.value != "" then BySpotifyId(song.spotifyId.value)
    else ByIndex(idx)
  }

  /** The second path segment of `DELETE /api/playlists/:id/song/:songId`: the key as the URL writes it. */
  function Segment(k: RemovalKey): string {
    match k
    case ById(id) => id
    case BySpotifyId(spotifyId) => spotifyId
    case ByIndex(index) => Text.Digits(index)
  }

  /** The id a song is known by, when it has one (its `_id`, else its catalog id). */
  function StableId(song: Song): Option<string> {
    if song.localId.Some? && song.localId.value != "" then song.localId
    else if song.spotifyId.Some? && song.spotifyId.value != "" then song.spotifyId
    else None
  }

  /** A string of decimal digits, which the URL cannot tell apart from an index. */
  predicate IsNumeral(s: string) {
    forall i :: 0 <= i < |s| ==> Text.IsDigit(s[i])
  }

  /** Two index fallbacks give the same segment only for the same index. */
  lemma IndexSegmentsDistinct(i: nat, j: nat)
    requires i != j
    ensures Text.Digits(i) != Text.Digits(j)
  {
    Text.ParseDigits(i);
    Text.ParseDigits(j);
  }

  /**
    Removal segments single out one song when the ids the songs are known by differ from
    one another and none of them is a decimal numeral: the segments of any two positions
    differ, including those that fall back to the index.
  */
  lemma RemovalKeysDistinct(songs: seq<Song>)
    requires forall i, j :: 0 <= i < j < |songs| && StableId(songs[i]).Some? ==> StableId(songs[i]) != StableId(songs[j])
    requires forall i :: 0 <= i < |songs| && StableId(songs[i]).Some? ==> !IsNumeral(StableId(songs[i]).value)
    ensures forall i, j :: 0 <= i < j < |songs| ==> Segment(RemovalKeyFor(songs[i], i)) != Segment(RemovalKeyFor(songs[j], j))
  {
    forall i, j | 0 <= i < j < |songs|
      ensures Segment(RemovalKeyFor(songs[i], i)) != Segment(RemovalKeyFor(songs[j], j))
    {
      if StableId(songs[i]).Some? {
        assert StableId(songs[i]) != StableId(songs[j]);
      } else if StableId(songs[j]).None? {
        IndexSegmentsDistinct(i, j);
      }
    }
  }

  /**
    Without the numeral condition the fallback collides: a song with no id at position 0
    and a song whose `_id` is "0" are both removed by the segment "0".
  */
  lemma IndexCollidesWithNumeralId(title: string, artist: string)
    ensures var songs := [Song(None, None, title, artist, None), Song(Some("0"), None, title, artist, None)];
      Segment(RemovalKeyFor(songs[0], 0)) == Segment(RemovalKeyFor(songs[1], 1)) == "0"
  {
  }

  /** A catalog search hit is shown when it is present and has an id (`pl && pl.id`). */
  predicate Displayable(hit: Option<CatalogPlaylist>) {
    hit.Some? && hit.value.id != ""
  }

  /** The catalog results the page shows. */
  function DisplayedResults(hits: seq<Option<CatalogPlaylist>>): (r: seq<Option<CatalogPlaylist>>)
    ensures |r| <= |hits|
    ensures forall h :: h in r <==> h in hits && h.Some? && h.value.id != ""
  {
    Seqs.Filter(hits, Displayable)
  }

  /** The outcome of the catalog search request: failed, or the `playlists.items` field, if any. */
  datatype SearchResponse = SearchFailed | SearchResult(items: Option<seq<Option<CatalogPlaylist>>>)

  /** The state of the playlists page for the active profile `profileId`. */
  class PlaylistPage {
    const profileId: string
    var playlists: seq<StoredPlaylist>
    var loading: bool
    var error: string
    var formName: string
    var editId: Option<string>
    var catalogResults: seq<Option<CatalogPlaylist>>
    var searchTerm: string
    var hasSearchedCatalog: bool
    var communityTerm: string
    var communityResults: seq<CommunityPlaylist>

    constructor (profileId: string)
      ensures this.profileId == profileId
      ensures playlists == [] && loading && error == ""
      ensures formName == "" && editId.None?
      ensures catalogResults == [] && searchTerm == "" && !hasSearchedCatalog
      ensures communityTerm == "" && communityResults == []
    {
      this.profileId := profileId;
      playlists, loading, error := [], true, "";
      formName, editId := "", None;
      catalogResults, searchTerm, hasSearchedCatalog := [], "", false;
      communityTerm, communityResults := "", [];
    }

    /** `fetchPlaylists` once its read completes: the response, or an error message. */
    method FetchPlaylists(response: Option<seq<StoredPlaylist>>)
      modifies this`playlists, this`error, this`loading
      ensures !loading
      ensures response.Some? ==> playlists == response.value && error == old(error)
      ensures response.None? ==> playlists == old(playlists) && error == "No se pudieron cargar las playlists"
    {
      if response.Some? {
        playlists := response.value;
      } else {
        error := "No se pudieron cargar las playlists";
      }
      loading := false;
    }

    /** The edit button of a playlist: its name fills the form and its id is remembered. */
    method StartEdit(pl: StoredPlaylist)
      modifies this`formName, this`editId
      ensures formName == pl.name && editId == Some(pl.id)
    {
      formName, editId := pl.name, Some(pl.id);
    }

    /** The cancel button of the form. */
    method CancelEdit()
      modifies this`formName, this`editId
      ensures formName == "" && editId.None?
    {
      formName, editId := "", None;
    }

    /**
      `handleSubmit`, which runs only once the name is non-empty (the input is `required`): a rename carrying only the name when an edit is under way, a create
      otherwise. On success the form is emptied and the edit forgotten; on failure they are
      kept and the error is set.
    */
    method HandleSubmit(ok: bool) returns (req: Request)
      requires formName != ""
      modifies this`formName, this`editId, this`error
      ensures old(editId).Some? && old(editId).value != "" ==> req == Rename(old(editId).value, old(formName))
      ensures !(old(editId).Some? && old(editId).value != "") ==>
        req == Create(profileId, CreateBody(old(formName), None, None, Manual))
      ensures ok ==> formName == "" && editId.None? && error == old(error)
      ensures !ok ==> formName == old(formName) && editId == old(editId) && error == "No se pudo guardar la playlist"
    {
      if editId.Some? && editId.value != "" {
        req := Rename(editId.value, formName);
      } else {
        req := Create(profileId, CreateBody(formName, None, None, Manual));
      }
      if ok {
        formName, editId := "", None;
      } else {
        error := "No se pudo guardar la playlist";
      }
    }

    /**
      `handleSpotifySearch`: a blank term sends nothing and changes nothing; otherwise the
      page remembers it searched, and the results are the response's playlist items, or
      none when the field is missing or the request fails.
    */
    method HandleCatalogSearch(response: SearchResponse) returns (req: Option<Request>)
      modifies this`catalogResults, this`hasSearchedCatalog
      ensures Text.IsBlank(searchTerm) ==>
        req.None? && catalogResults == old(catalogResults) && hasSearchedCatalog == old(hasSearchedCatalog)
      ensures !Text.IsBlank(searchTerm) ==>
        req == Some(CatalogSearch(searchTerm, "playlist", 12)) && hasSearchedCatalog
        && catalogResults == (if response.SearchResult? then response.items.GetOr([]) else [])
    {
      if Text.IsBlank(searchTerm) {
        return None;
      }
      hasSearchedCatalog := true;
      req := Some(CatalogSearch(searchTerm, "playlist", 12));
      match response {
        case SearchFailed => catalogResults := [];
        case SearchResult(items) => catalogResults := items.GetOr([]);
      }
    }

    /** `handleGlobalSearch`: no blank guard; a failed request gives no results. */
    method HandleCommunitySearch(response: Option<seq<CommunityPlaylist>>) returns (req: Request)
      modifies this`communityResults
      ensures req == CommunitySearch(communityTerm)
      ensures communityResults == response.GetOr([])
    {
      req := CommunitySearch(communityTerm);
      communityResults := response.GetOr([]);
    }

    /**
      `handleAddSpotifyPlaylist`: the track read comes first; when it fails the whole import
      stops with no create request. A listing without `items` has no tracks, and one with an
      item whose `track` is null throws while the songs are built, so again nothing is
      created. Otherwise the create body carries the snapshots of the tracks, the first cover
      image (or ""), the catalog id and the unchanged name.
    */
    method HandleCatalogImport(pl: CatalogPlaylist, listing: Option<Option<seq<Option<CatalogTrack>>>>) returns (req: Option<Request>)
      ensures listing.None? ==> req.None?
      ensures listing.Some? ==> (req.Some? <==> PresentTracks(listing.value.GetOr([])).Some?)
      ensures listing.Some? && PresentTracks(listing.value.GetOr([])).Some? ==>
        req == Some(Create(profileId, CatalogImportBody(pl, PresentTracks(listing.value.GetOr([])).value)))
    {
      if listing.None? {
        return None;
      }
      var tracks := PresentTracks(listing.value.GetOr([]));
      if tracks.None? {
        return None;
      }
      var songs := SnapshotAll(tracks.value);
      var cover := if pl.images != [] then pl.images[0] else "";
      req := Some(Create(profileId, CreateBody(pl.name, Some(songs), Some(cover), FromCatalog(pl.id))));
    }

    /** The "Agregar" button of a community result. */
    method HandleCommunityImport(pl: CommunityPlaylist) returns (req: Request)
      ensures req == Create(profileId, CommunityImportBody(pl))
      ensures req.body.songs == pl.songs && req.body.name[..|pl.name|] == pl.name
    {
      CommunityNameParts(pl.name, pl.ownerName);
      req := Create(profileId, CreateBody(CommunityName(pl.name, pl.ownerName), pl.songs, pl.cover, FromCommunity(pl.id)));
    }

    /** `handleDelete`: nothing without confirmation; a failed delete sets the error. */
    method HandleDelete(id: string, confirmed: bool, ok: bool) returns (req: Option<Request>)
      modifies this`error
      ensures req == if confirmed then Some(Delete(id)) else None
      ensures error == if confirmed && !ok then "No se pudo eliminar la playlist" else old(error)
    {
      req := if confirmed then Some(Delete(id)) else None;
      if confirmed && !ok {
        error := "No se pudo eliminar la playlist";
      }
    }

    /** `handleRemoveSong` for the song at position `idx` of a playlist: nothing without confirmation. */
    method HandleRemoveSong(pl: StoredPlaylist, idx: nat, confirmed: bool) returns (req: Option<Request>)
      requires idx < |pl.songs|
      ensures !confirmed ==> req.None?
      ensures confirmed ==> req == Some(RemoveSong(pl.id, Segment(RemovalKeyFor(pl.songs[idx], idx))))
    {
      if !confirmed {
        return None;
      }
      req := Some(RemoveSong(pl.id, Segment(RemovalKeyFor(pl.songs[idx], idx))));
    }
  }

  /**
    A rename submitted from the page and the re-read that follows it, with a backend that
    stores what it was sent: the re-read table is the old one with `Entities.ApplyRename`
    applied, so only the edited playlist's name changes, and the form is reset.
  */
  method SubmitRenameAndReread(page: PlaylistPage) returns (req: Request)
    requires page.editId.Some? && page.editId.value != "" && page.formName != ""
    modifies page
    ensures req == Rename(old(page.editId).value, old(page.formName))
    ensures page.playlists == ApplyRename(old(page.playlists), old(page.editId).value, old(page.formName))
    ensures !page.loading && page.formName == "" && page.editId.None? && page.error == old(page.error)
  {
    req := page.HandleSubmit(true);
    page.FetchPlaylists(Some(ApplyRename(page.playlists, req.playlistId, req.name)));
  }
}
