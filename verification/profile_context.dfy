/**
  The active-profile session (ProfileContext.jsx): the profile state, kept together with
  the `"profile"` storage entry, and the favourite actions that call the profile endpoints.
*/
module ProfileContext {
  import opened Wrappers
  import opened Entities
  import opened Storage

  /** `localStorage.getItem("profile")`, parsed: the stored profile, or `null`. */
  function StoredProfile(entries: map<string, Stored>): Option<Profile> {
    if ProfileKey in entries && entries[ProfileKey].ProfileJson? then Some(entries[ProfileKey].profile) else None
  }

  /** The profile state and the storage agree: a profile is stored exactly when one is set. */
  predicate ProfileSynced(profile: Option<Profile>, entries: map<string, Stored>) {
    match profile
    case Some(p) => ProfileKey in entries && entries[ProfileKey] == ProfileJson(p)
    case None => ProfileKey !in entries
  }

  /** The storage after `setProfile(p)`. */
  function StoreProfile(entries: map<string, Stored>, p: Option<Profile>): (r: map<string, Stored>)
    ensures ProfileSynced(p, r)
    ensures StoredProfile(r) == p
    ensures forall k :: k != ProfileKey ==> (k in r <==> k in entries)
    ensures forall k :: k != ProfileKey && k in entries ==> r[k] == entries[k]
  {
    match p
    case Some(v) => entries[ProfileKey := ProfileJson(v)]
    case None => entries - {ProfileKey}
  }

  /** On load the state is the stored profile, so state and storage agree from the start. */
  lemma InitialSynced(entries: map<string, Stored>)
    requires WellFormed(entries)
    ensures ProfileSynced(StoredProfile(entries), entries)
  {
  }

  /** Setting the profile twice leaves what the second call leaves. */
  lemma StoreProfileLastWins(entries: map<string, Stored>, p: Option<Profile>, q: Option<Profile>)
    ensures StoreProfile(StoreProfile(entries, p), q) == StoreProfile(entries, q)
  {
    var a := StoreProfile(StoreProfile(entries, p), q);
    var b := StoreProfile(entries, q);
    assert a.Keys == b.Keys;
  }

  /** The body of `PUT /api/profiles/:id/favorite-artist`. */
  datatype ArtistRequest = ArtistRequest(profileId: string, artist: Favorite)

  /** The body of `PUT /api/profiles/:id/favorite-album`. */
  datatype AlbumRequest = AlbumRequest(profileId: string, albumId: string)

  /** An artist as the catalog returns it; only some of its fields are sent. */
  datatype CatalogArtist = CatalogArtist(
    id: string,
    name: string,
    images: seq<string>,
    genres: seq<string>,
    followers: nat,
    popularity: nat)

  /** `saveFavoriteArtist`: the request carries the artist's id, name and images and nothing else. */
  function FavoriteArtistRequest(profileId: string, artist: CatalogArtist): (r: ArtistRequest)
    ensures r.profileId == profileId
    ensures r.artist.id == artist.id && r.artist.name == artist.name && r.artist.images == artist.images
  {
    ArtistRequest(profileId, Favorite(artist.id, artist.name, artist.images))
  }

  /** Two artists that agree on id, name and images produce the same request. */
  lemma FavoriteArtistIgnoresOtherFields(profileId: string, a: CatalogArtist, b: CatalogArtist)
    requires a.id == b.id && a.name == b.name && a.images == b.images
    ensures FavoriteArtistRequest(profileId, a) == FavoriteArtistRequest(profileId, b)
  {
  }

  /** What `saveFavoriteAlbum` sends and leaves behind. */
  datatype AlbumSave = AlbumSave(request: Option<AlbumRequest>, profile: Option<Profile>, threw: bool)

  /**
    `saveFavoriteAlbum` as written: with no profile, reading `profile._id` throws before any
    request; otherwise the request is sent and the following update names `setProfileState`,
    which is not in scope in `useFavoriteActions`, so it throws and the profile is unchanged.
  */
  function SavedAlbumAsWritten(prev: Option<Profile>, albumId: string): (r: AlbumSave)
    ensures r.threw && r.profile == prev
    ensures r.request.Some? <==> prev.Some?
    ensures prev.Some? ==> r.request == Some(AlbumRequest(prev.value.id, albumId))
  {
    match prev
    case None => AlbumSave(None, prev, true)
    case Some(p) => AlbumSave(Some(AlbumRequest(p.id, albumId)), prev, true)
  }

  /** `{ ...prev, favoriteAlbum: albumId }`. */
  function WithFavoriteAlbum(p: Profile, albumId: string): (r: Profile)
    ensures r.favoriteAlbum == Some(albumId)
    ensures r.id == p.id && r.name == p.name && r.kind == p.kind && r.avatar == p.avatar
    ensures r.language == p.language && r.ageRestriction == p.ageRestriction
  {
    p.(favoriteAlbum := Some(albumId))
  }

  /**
    `saveFavoriteAlbum` as intended: after a successful request the active profile records
    the album and keeps its other fields; a failed request throws and changes nothing.
  */
  function SavedAlbum(prev: Option<Profile>, albumId: string, putOk: bool): (r: AlbumSave)
    ensures r.request.Some? <==> prev.Some?
    ensures prev.Some? ==> r.request == Some(AlbumRequest(prev.value.id, albumId))
    ensures !r.threw <==> prev.Some? && putOk
    ensures !r.threw ==> r.profile == Some(WithFavoriteAlbum(prev.value, albumId))
    ensures r.threw ==> r.profile == prev
  {
    match prev
    case None => AlbumSave(None, prev, true)
    case Some(p) =>
      if putOk then AlbumSave(Some(AlbumRequest(p.id, albumId)), Some(WithFavoriteAlbum(p, albumId)), false)
      else AlbumSave(Some(AlbumRequest(p.id, albumId)), prev, true)
  }

  /** Saving the same album again changes nothing more. */
  lemma SavedAlbumIdempotent(prev: Option<Profile>, albumId: string)
    requires prev.Some?
    ensures SavedAlbum(SavedAlbum(prev, albumId, true).profile, albumId, true).profile
         == SavedAlbum(prev, albumId, true).profile
  {
  }

  /**
    The discrepancy: for an active profile whose favourite album is something else, a
    successful request still leaves the album unrecorded as written, where the intended
    update records it.
  */
  lemma AlbumLostAsWritten()
    ensures var p := Profile("p1", "Ana", "adult", None, "es", Some(18), None);
      && SavedAlbumAsWritten(Some(p), "alb1").request == SavedAlbum(Some(p), "alb1", true).request
      && SavedAlbumAsWritten(Some(p), "alb1").profile.value.favoriteAlbum == None
      && SavedAlbum(Some(p), "alb1", true).profile.value.favoriteAlbum == Some("alb1")
  {
  }

  /** The profile context. `store` is the browser storage it shares with the auth context. */
  class ProfileSession {
    var profile: Option<Profile>
    const store: LocalStorage

    ghost predicate Valid()
      reads this, store
    {
      ProfileSynced(profile, store.entries)
    }

    /** The state is initialised from storage. */
    constructor (store: LocalStorage)
      requires WellFormed(store.entries)
      ensures this.store == store
      ensures profile == StoredProfile(store.entries)
      ensures Valid()
    {
      this.store := store;
      profile := if ProfileKey in store.entries && store.entries[ProfileKey].ProfileJson?
        then Some(store.entries[ProfileKey].profile) else None;
    }

    /** `setProfile(p)`: the state and the `"profile"` entry change together; no other entry changes. */
    method SetProfile(p: Option<Profile>)
      modifies this, store
      ensures profile == p
      ensures store.entries == StoreProfile(old(store.entries), p)
      ensures Valid()
    {
      profile := p;
      if p.Some? {
        store.SetItem(ProfileKey, ProfileJson(p.value));
      } else {
        store.RemoveItem(ProfileKey);
      }
    }

    /** `saveFavoriteArtist` for the active profile; with no profile `profile._id` throws and nothing is sent. */
    method SaveFavoriteArtist(artist: CatalogArtist) returns (req: Option<ArtistRequest>)
      ensures profile.Some? ==> req == Some(FavoriteArtistRequest(profile.value.id, artist))
      ensures profile.None? ==> req.None?
    {
      if profile.Some? {
        req := Some(FavoriteArtistRequest(profile.value.id, artist));
      } else {
        req := None;
      }
    }

    /**
      `saveFavoriteAlbum` as corrected. The hook can reach the profile only through the
      context's `setProfile`, the one setter the provider hands out, so the corrected update
      goes through it: the new profile is also written to the stored `"profile"` entry. The
      raw `setProfileState` of the source would have left that entry stale.
    */
    method SaveFavoriteAlbum(albumId: string, putOk: bool) returns (req: Option<AlbumRequest>)
      requires Valid()
      modifies this, store
      ensures req == SavedAlbum(old(profile), albumId, putOk).request
      ensures profile == SavedAlbum(old(profile), albumId, putOk).profile
      ensures store.entries == if SavedAlbum(old(profile), albumId, putOk).threw then old(store.entries)
        else StoreProfile(old(store.entries), profile)
      ensures Valid()
    {
      var outcome := SavedAlbum(profile, albumId, putOk);
      req := outcome.request;
      if !outcome.threw {
        SetProfile(outcome.profile);
      }
    }
  }
}
