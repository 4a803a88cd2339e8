# MySpotify web client — a Dafny model

MySpotify is a music web application. A user logs in and picks one of their profiles. They
then browse the music catalog, add catalog tracks to the active profile's playlists, mark
artists and albums as favourites, and import playlists from the catalog or from other users
(the "community"). This project models the client's own decisions:

- **Catalog list** (`SongList`). Adding a catalog track to a playlist builds a song snapshot
  and never adds a duplicate. The module also covers the favourite markers and creating a
  playlist from the dialog.
- **Playlists page** (`Playlists`). Creating and renaming playlists, the request body of a
  catalog import and of a community import, the key a song is removed by, and the search
  guards.
- **Catalog playlist page** (`PlaylistDetail`). Total duration and whole minutes, the
  search filter over track and artist names, and each row's number and `m:ss` duration.
- **Profile picker** (`ProfileSelector`). Avatar checking and regeneration, the six-seed
  avatar gallery, the profile form, edit and create dispatch, and the form reset.
- **Session contexts** (`AuthContext`, `ProfileContext`, over the shared `Storage`). Login,
  logout and the user fetch; setting and clearing the active profile. Each keeps its
  in-memory state and its browser storage entry in step.
- **Frame and guard** (`Layout`, `PrivateRoute`). Which menus show, the effect that clears
  the active profile on the profiles page, logout, switching profile, and the three-way
  redirect decision.
- **Password reset** (`ResetPasswordForm`). The ordered checks, then the request outcome.
- **Catalog container** (`App`). The result list shown for the selected type, the random
  browse search, and the `hasSearched` and `loading` flags.

Mutable component and context state is modelled as classes. Their fields are the React
state variables, and their methods change them as the event handlers do. Network answers
are method parameters and requests are return values.

A handler that writes and then re-reads the playlist table has two forms here:

- In the catalog list, `HandleAddSong` applies the edit to the table with
  `Entities.ApplyEdit`. On the playlists page, `SubmitRenameAndReread` applies a rename with
  `Entities.ApplyRename`. Both assume the backend stores what it was sent.
- In the catalog list, `HandleCreatePlaylist` takes the re-read list as a parameter.
- On the playlists page, every other write is followed by a separate call to
  `FetchPlaylists`, which takes the re-read list as a parameter. This covers creates,
  deletes, song removals and imports.

Decisions that are pure expressions in the source are functions, each with lemmas that
relate it to a partner: an inverse, a reference definition, or an invariant.

## Model

| member | source | states |
|---|---|---|
| Text.Contains | frontend/src/components/PlaylistDetail.jsx:51 | `includes` holds exactly when the term occurs at some position of the string |
| Text.BlankIffAllSpace | frontend/src/components/SongList.jsx:125 | a name is blank after `trim` exactly when every character is white space |
| Text.JoinLength | frontend/src/components/SongList.jsx:72 | the length of the joined artist string is the names' total length plus one separator between each pair of neighbours |
| Text.NameOffsetNext | frontend/src/components/SongList.jsx:72 | in the joined string each name starts after the previous name and one separator |
| Text.JoinNameAt | frontend/src/components/SongList.jsx:72 | the k-th name of the list stands in the joined string at its offset, in list order |
| Text.JoinSeparatorAt | frontend/src/components/SongList.jsx:72 | exactly the separator stands between each name and the next one |
| Text.ParseDigits | frontend/src/components/PlaylistDetail.jsx:154 | the decimal rendering of a number reads back as that number |
| Text.TwoDigitField | frontend/src/components/PlaylistDetail.jsx:155-159 | a number below 100 padded to two digits is two digits that read back as the number |
| Entities.ApplyEdit | frontend/src/components/SongList.jsx:77-87 | after the edit the playlist with that id has the new name and songs; every other playlist and every id and cover are unchanged |
| Entities.ApplyRename | frontend/src/components/Playlist.jsx:65-70 | a rename changes only the name of the playlist with that id |
| Entities.EditKeepsUniqueIds | frontend/src/components/SongList.jsx:77-87 | edits and renames keep playlist ids unique |
| SongList.Snapshot | frontend/src/components/SongList.jsx:69-74 | the snapshot carries the track's id, its name, its artists joined by ", ", and its first album image when there is one |
| SongList.HasSpotifyId | frontend/src/components/SongList.jsx:76 | holds exactly when some entry carries that catalog id |
| SongList.AddSongTo | frontend/src/components/SongList.jsx:76-80 | the old list is a prefix of the result; a present id leaves the list unchanged, otherwise the snapshot is appended at the end; afterwards the id is present |
| SongList.AddSongIdempotent | frontend/src/components/SongList.jsx:76-80 | adding the same track twice is adding it once |
| SongList.AddSongCount | frontend/src/components/SongList.jsx:76-80 | after an add an id that was absent occurs exactly once, and a present id keeps its count |
| SongList.CountPositive | frontend/src/components/SongList.jsx:76 | the count of an id is positive exactly when the id is present |
| SongList.AddSongKeepsNoDuplicates | frontend/src/components/SongList.jsx:76-80 | a playlist without duplicate catalog ids keeps that property after an add |
| SongList.FindPlaylist | frontend/src/components/SongList.jsx:55 | the result is the first playlist with that id; it is absent exactly when no playlist has that id |
| SongList.IsSongInPlaylistMeaning | frontend/src/components/SongList.jsx:54-57 | with unique playlist ids, a song is in a playlist exactly when that playlist exists and one of its entries has the song's id |
| SongList.IsFavorite | frontend/src/components/SongList.jsx:60-61 | holds exactly when some favourite has that id |
| SongList.SongListView.constructor | frontend/src/components/SongList.jsx:7-13 | initial state: no playlists, no selection, no dialog song, no favourites, create form hidden and empty |
| SongList.SongListView.LoadPlaylists | frontend/src/components/SongList.jsx:18-31 | the list is the response, or empty when the read fails |
| SongList.SongListView.LoadFavorites | frontend/src/components/SongList.jsx:34-46 | both favourite lists come from the profile read, each empty when missing, both empty on failure |
| SongList.SongListView.OpenDialog | frontend/src/components/SongList.jsx:170 | the track becomes the dialog's song |
| SongList.SongListView.SelectPlaylist | frontend/src/components/SongList.jsx:227 | the chosen playlist id is stored |
| SongList.SongListView.HandleAddSong | frontend/src/components/SongList.jsx:64-91 | the three guards change nothing; a duplicate sends nothing; otherwise the request carries `AddSongTo` and a successful write updates the table with it; the dialog is cleared unless the write failed; favourites and the create form are untouched |
| SongList.SongListView.HandleAddArtistFavorite | frontend/src/components/SongList.jsx:94-106 | an artist already marked sends nothing; otherwise the artist is sent and, on success, both lists are read again; a failed write changes nothing |
| SongList.SongListView.HandleAddAlbumFavorite | frontend/src/components/SongList.jsx:109-121 | the same rule for albums |
| SongList.SongListView.ShowCreateForm | frontend/src/components/SongList.jsx:268 | showing keeps the typed name; hiding empties it |
| SongList.SongListView.EditNewPlaylistName | frontend/src/components/SongList.jsx:255 | the typed name is stored |
| SongList.SongListView.HandleCreatePlaylist | frontend/src/components/SongList.jsx:124-142 | a blank name does nothing; otherwise the untrimmed name is sent; success takes the re-read list and closes and empties the form; failure changes nothing |
| SongList.AddEnabledMeansAppend | frontend/src/components/SongList.jsx:279 | the dialog's add button is enabled exactly when the handler would append to the playlist |
| SongList.AddSameSongTwice | frontend/src/components/SongList.jsx:64-91 | adding a track twice through the dialog leaves one entry and sends no second request |
| Playlists.PresentTracks | frontend/src/components/Playlist.jsx:143-148 | the tracks are read exactly when every item has a track (a null `track` throws at `item.track.id`); they are then the items' tracks, in order |
| Playlists.SnapshotAll | frontend/src/components/Playlist.jsx:143-148 | one song per track item |
| Playlists.SnapshotAllAt | frontend/src/components/Playlist.jsx:143-148 | each imported song is the snapshot of the track at the same position |
| Playlists.SnapshotAllConcat | frontend/src/components/Playlist.jsx:143-148 | the mapping distributes over concatenation, so the track order is kept |
| Playlists.ImportAgreesWithAdd | frontend/src/components/Playlist.jsx:143-148 | an import builds the same snapshot as the catalog list's add dialog |
| Playlists.CatalogImportBody | frontend/src/components/Playlist.jsx:153-159 | the body has the playlist's name, the imported songs, the first cover image or "", and the catalog id |
| Playlists.OwnerLabel | frontend/src/components/Playlist.jsx:337 | the owner label is never empty ("Anónimo" when there is no owner name) |
| Playlists.CommunityNameParts | frontend/src/components/Playlist.jsx:334-338 | the imported name is the source name, " (de ", the owner label and ")", each readable back by position |
| Playlists.CommunityNameInjective | frontend/src/components/Playlist.jsx:334-338 | two imports with equally long source names get the same name only when the names and owner labels agree |
| Playlists.CommunityImportBody | frontend/src/components/Playlist.jsx:334-342 | the body copies the songs and cover verbatim and records the original playlist id |
| Playlists.RemovalKeyFor | frontend/src/components/Playlist.jsx:475 | the key is the `_id` when non-empty, else the catalog id when non-empty, else the index |
| Playlists.IndexSegmentsDistinct | frontend/src/components/Playlist.jsx:172 | two different index fallbacks give different URL segments |
| Playlists.RemovalKeysDistinct | frontend/src/components/Playlist.jsx:172 | when the ids songs are known by differ and none is a decimal numeral, no two positions share the URL segment `/song/${songId}` is sent with |
| Playlists.IndexCollidesWithNumeralId | frontend/src/components/Playlist.jsx:172 | without the numeral condition, a song with no id at position 0 and a song whose `_id` is "0" are removed by the same segment "0" |
| Playlists.DisplayedResults | frontend/src/components/Playlist.jsx:275 | a hit is shown exactly when it is present and has a non-empty id |
| Playlists.PlaylistPage.constructor | frontend/src/components/Playlist.jsx:11-29 | initial state: no playlists, loading, no error, empty form, no edit, no search results |
| Playlists.PlaylistPage.FetchPlaylists | frontend/src/components/Playlist.jsx:35-48 | the list becomes the response, or the error is set; loading ends either way |
| Playlists.PlaylistPage.StartEdit | frontend/src/components/Playlist.jsx:425-428 | the form takes the playlist's name and the edit id its id |
| Playlists.PlaylistPage.CancelEdit | frontend/src/components/Playlist.jsx:398-402 | the form is emptied and the edit forgotten |
| Playlists.PlaylistPage.HandleSubmit | frontend/src/components/Playlist.jsx:62-84 | runs only with a non-empty name, as the `required` input (line 386) ensures; a rename with only the name when an edit id is set, a create otherwise; success resets the form, failure sets the error |
| Playlists.PlaylistPage.HandleCatalogSearch | frontend/src/components/Playlist.jsx:99-114 | a blank term changes nothing; otherwise it searches playlists with limit 12, and the results are the items, or empty when missing or failed |
| Playlists.PlaylistPage.HandleCommunitySearch | frontend/src/components/Playlist.jsx:117-131 | the term is sent with no blank guard; a failure gives no results |
| Playlists.PlaylistPage.HandleCatalogImport | frontend/src/components/Playlist.jsx:134-167 | a failed track read sends no create, and neither does a listing with a null track; otherwise the create carries `CatalogImportBody` of the listing's tracks (none when `items` is missing) |
| Playlists.PlaylistPage.HandleCommunityImport | frontend/src/components/Playlist.jsx:331-343 | the create carries `CommunityImportBody`, whose name starts with the source name |
| Playlists.PlaylistPage.HandleDelete | frontend/src/components/Playlist.jsx:86-96 | nothing without confirmation; a failed delete sets the error |
| Playlists.PlaylistPage.HandleRemoveSong | frontend/src/components/Playlist.jsx:169-179 | nothing without confirmation; otherwise the removal is sent with the URL segment of `RemovalKeyFor` |
| Playlists.SubmitRenameAndReread | frontend/src/components/Playlist.jsx:62-80 | a submitted rename sends the edit id and the typed name; with a backend that stores it, the re-read table is `ApplyRename` of the old one, and the form is reset |
| PlaylistDetail.TotalMsAsWritten | frontend/src/components/PlaylistDetail.jsx:41-44 | the reduce as written fails exactly when some item has no track |
| PlaylistDetail.TotalMs | frontend/src/components/PlaylistDetail.jsx:41-44 | wherever the reduce as written yields a value, the total equals it |
| PlaylistDetail.TotalMsConcat | frontend/src/components/PlaylistDetail.jsx:41-44 | the total of a concatenation is the sum of the totals |
| PlaylistDetail.TotalMsBounds | frontend/src/components/PlaylistDetail.jsx:41-44 | every track's duration is at most the total |
| PlaylistDetail.AsWrittenAgreesWithoutGaps | frontend/src/components/PlaylistDetail.jsx:41-44 | when every item has a track, the reduce as written gives the total |
| PlaylistDetail.NullTrackBreaksTotal | frontend/src/components/PlaylistDetail.jsx:41-55 | a playlist with one unavailable track makes the reduce fail, while the total and the listed count are defined |
| PlaylistDetail.TotalMinutes | frontend/src/components/PlaylistDetail.jsx:45 | the whole minutes m satisfy m·60000 ≤ total < (m+1)·60000 |
| PlaylistDetail.AnyArtistMatches | frontend/src/components/PlaylistDetail.jsx:52-54 | holds exactly when some artist's lower-cased name contains the term |
| PlaylistDetail.FilteredTracksMeaning | frontend/src/components/PlaylistDetail.jsx:48-55 | an item is listed exactly when it has a track whose name or some artist's name contains the term, ignoring case; the listed count is at most the count of items with a track |
| PlaylistDetail.FilteredTracksConcat | frontend/src/components/PlaylistDetail.jsx:48-55 | filtering keeps playlist order |
| PlaylistDetail.FilteredTracksOneFilter | frontend/src/components/PlaylistDetail.jsx:48-55 | the two chained filters equal one filter by the combined condition |
| PlaylistDetail.EmptySearchKeepsAll | frontend/src/components/PlaylistDetail.jsx:97 | an empty search lists every item that has a track |
| PlaylistDetail.MinutesSeconds | frontend/src/components/PlaylistDetail.jsx:154-158 | whole minutes and the remaining seconds recombine to the whole seconds |
| PlaylistDetail.RowDurationReadsBack | frontend/src/components/PlaylistDetail.jsx:154-159 | the duration cell is digits, ":" and exactly two digits, reading back as minutes and seconds below 60 that recombine to the whole seconds |
| PlaylistDetail.Rows | frontend/src/components/PlaylistDetail.jsx:128 | row i is numbered i+1 and shows the i-th listed track and its duration cell |
| PlaylistDetail.RowsOfFiltered | frontend/src/components/PlaylistDetail.jsx:128 | the filtered list always has tracks, and its rows are numbered 1..n |
| ProfileSelector.SeedBase | frontend/src/components/ProfileSelector.jsx:30 | the seed is the name, or "profile" when the name is empty; it is never empty |
| ProfileSelector.LoadedAvatar | frontend/src/components/ProfileSelector.jsx:52-54 | a usable avatar is kept; any other avatar is replaced by one generated from the seed |
| ProfileSelector.SubmitAgreesWithLoad | frontend/src/components/ProfileSelector.jsx:88-90 | submitting applies the same avatar rule as loading |
| ProfileSelector.EmptyAvatarUnusable | frontend/src/components/ProfileSelector.jsx:88-90 | an empty avatar does not pass the `<svg` check |
| ProfileSelector.LoadedAvatarValid | frontend/src/components/ProfileSelector.jsx:53-54 | with a generator of SVG markup, the resulting avatar is usable and applying the rule again keeps it |
| ProfileSelector.AvatarSeeds | frontend/src/components/ProfileSelector.jsx:30-31 | the six seeds are the base and the base followed by 1 to 5 |
| ProfileSelector.AvatarSeedsDistinct | frontend/src/components/ProfileSelector.jsx:31 | the six seeds are pairwise distinct |
| ProfileSelector.AvatarOptions | frontend/src/components/ProfileSelector.jsx:32 | the gallery has one generated avatar per seed, in seed order |
| ProfileSelector.GalleryPickIsKept | frontend/src/components/ProfileSelector.jsx:239 | an avatar picked from the gallery is the one a submit saves |
| ProfileSelector.ToNumber | frontend/src/components/ProfileSelector.jsx:38 | a blank value is 0, and a number read is never negative |
| ProfileSelector.ToNumberDigits | frontend/src/components/ProfileSelector.jsx:38 | the decimal text of a number converts back to it |
| ProfileSelector.DigitsUntrimmed | frontend/src/components/ProfileSelector.jsx:38 | the decimal text of a number is unchanged by `trim` |
| ProfileSelector.ToNumberOfDigitString | frontend/src/components/ProfileSelector.jsx:38 | a non-empty string of digits that `trim` leaves unchanged converts to its decimal value |
| ProfileSelector.Changed | frontend/src/components/ProfileSelector.jsx:36-40 | only the named field changes, and the age is converted to a number |
| ProfileSelector.AgeOptionStoresNumber | frontend/src/components/ProfileSelector.jsx:263-265 | choosing 18, 13 or 7 stores that number |
| ProfileSelector.EditForm | frontend/src/components/ProfileSelector.jsx:133-139 | the form copies the profile, with language "es" and age 18 as defaults for falsy values |
| ProfileSelector.EditFormKeepsCompleteProfile | frontend/src/components/ProfileSelector.jsx:133-139 | a profile with every field set is copied unchanged |
| ProfileSelector.SubmitRequest | frontend/src/components/ProfileSelector.jsx:92-100 | an update of the edit id when it is set, a create otherwise, carrying the form with the checked avatar |
| ProfileSelector.EditThenSubmitUpdates | frontend/src/components/ProfileSelector.jsx:92-93 | editing a profile and saving sends an update of that profile |
| ProfileSelector.Normalized | frontend/src/components/ProfileSelector.jsx:63 | a listed profile keeps its fields, with the avatar chosen by the load rule |
| ProfileSelector.NormalizeAll | frontend/src/components/ProfileSelector.jsx:50-65 | every profile is normalised and the order is kept |
| ProfileSelector.NormalizeAllValid | frontend/src/components/ProfileSelector.jsx:50-65 | every listed avatar is usable, and loading again changes nothing |
| ProfileSelector.Repairs | frontend/src/components/ProfileSelector.jsx:53-58 | exactly the profiles with unusable avatars get a repair request carrying the generated avatar |
| ProfileSelector.NoRepairsWhenAllValid | frontend/src/components/ProfileSelector.jsx:53-58 | a list with usable avatars sends no repair |
| ProfileSelector.ProfileSelectorView.constructor | frontend/src/components/ProfileSelector.jsx:10-22 | initial state: no profiles, loading, the empty form, no edit, form hidden |
| ProfileSelector.ProfileSelectorView.RefreshGallery | frontend/src/components/ProfileSelector.jsx:28-34 | while the form is shown, the gallery follows the form's name |
| ProfileSelector.ProfileSelectorView.FetchProfiles | frontend/src/components/ProfileSelector.jsx:43-74 | success lists the normalised profiles, clears the error and sends the repairs; failure sets the message or the fixed text; loading ends |
| ProfileSelector.ProfileSelectorView.HandleChange | frontend/src/components/ProfileSelector.jsx:36-40 | the form becomes `Changed` of the old form; nothing else changes |
| ProfileSelector.ProfileSelectorView.PickAvatar | frontend/src/components/ProfileSelector.jsx:239 | only the form's avatar changes |
| ProfileSelector.ProfileSelectorView.HandleSubmit | frontend/src/components/ProfileSelector.jsx:85-118 | runs only with a non-empty name, as the `required` input (line 219) ensures; sends `SubmitRequest`; success resets and hides the form and forgets the edit id; failure sets the error and keeps the form |
| ProfileSelector.ProfileSelectorView.HandleEdit | frontend/src/components/ProfileSelector.jsx:132-142 | the form is `EditForm` of the profile, the edit id is its id, and the form is shown |
| ProfileSelector.ProfileSelectorView.OpenNewForm | frontend/src/components/ProfileSelector.jsx:155-159 | an empty, shown form with no edit id |
| ProfileSelector.ProfileSelectorView.CancelForm | frontend/src/components/ProfileSelector.jsx:278-282 | an empty, hidden form with no edit id |
| ProfileSelector.ProfileSelectorView.HandleDelete | frontend/src/components/ProfileSelector.jsx:120-130 | nothing without confirmation; a failed delete sets the error |
| ProfileSelector.ProfileSelectorView.HandleSelect | frontend/src/components/ProfileSelector.jsx:80-83 | the profile becomes active in state and storage, and the page moves to "/songs" |
| AuthContext.InitialAuth | frontend/src/context/AuthContext.jsx:6-8 | the token is the stored one; authenticated exactly when it is present and non-empty; no user |
| AuthContext.LoggedIn | frontend/src/context/AuthContext.jsx:35-40 | the token is stored and held, the user counts as authenticated, and no other storage entry changes |
| AuthContext.LoggedOut | frontend/src/context/AuthContext.jsx:42-47 | the stored token is removed; token, authentication and user are cleared; no other storage entry changes |
| AuthContext.AfterUserFetch | frontend/src/context/AuthContext.jsx:16-25 | success sets the user and authentication; a non-ok answer or an error gives the logout state |
| AuthContext.LogoutThenLogin | frontend/src/context/AuthContext.jsx:35-47 | logout followed by login equals login for token, authentication and storage |
| AuthContext.LogoutIdempotent | frontend/src/context/AuthContext.jsx:42-47 | logging out twice is logging out once |
| AuthContext.TransitionsKeepTokenSynced | frontend/src/context/AuthContext.jsx:35-47 | every transition keeps the held token equal to the stored one |
| AuthContext.AuthSession.constructor | frontend/src/context/AuthContext.jsx:6-8 | the state is `InitialAuth` of the storage |
| AuthContext.AuthSession.Login | frontend/src/context/AuthContext.jsx:35-40 | the new state is `LoggedIn` of the old one |
| AuthContext.AuthSession.Logout | frontend/src/context/AuthContext.jsx:42-47 | the new state is `LoggedOut` of the old one |
| AuthContext.AuthSession.FetchUser | frontend/src/context/AuthContext.jsx:11-26 | the new state is `AfterUserFetch` of the old one |
| AuthContext.AuthSession.OnTokenChange | frontend/src/context/AuthContext.jsx:28-33 | the user is fetched only while a non-empty token is held |
| ProfileContext.StoreProfile | frontend/src/context/ProfileContext.jsx:14-21 | setting a profile stores it and clearing removes the key; storage then agrees with the state, and no other key changes |
| ProfileContext.InitialSynced | frontend/src/context/ProfileContext.jsx:8-11 | the initial state is the stored profile, so state and storage agree |
| ProfileContext.StoreProfileLastWins | frontend/src/context/ProfileContext.jsx:14-21 | two settings leave what the second leaves |
| ProfileContext.FavoriteArtistRequest | frontend/src/context/ProfileContext.jsx:36-43 | the request carries the artist's id, name and images |
| ProfileContext.FavoriteArtistIgnoresOtherFields | frontend/src/context/ProfileContext.jsx:36-40 | artists that agree on id, name and images give the same request |
| ProfileContext.SavedAlbumAsWritten | frontend/src/context/ProfileContext.jsx:49-56 | as written: the request goes out for an active profile, then the update throws and the profile stays as it was |
| ProfileContext.WithFavoriteAlbum | frontend/src/context/ProfileContext.jsx:55 | the favourite album is set and every other field is kept |
| ProfileContext.SavedAlbum | frontend/src/context/ProfileContext.jsx:49-56 | as intended: after a successful request the profile records the album; otherwise nothing changes |
| ProfileContext.SavedAlbumIdempotent | frontend/src/context/ProfileContext.jsx:55 | saving the same album again changes nothing more |
| ProfileContext.AlbumLostAsWritten | frontend/src/context/ProfileContext.jsx:49-56 | the same request leaves the album unrecorded as written but recorded as intended |
| ProfileContext.ProfileSession.constructor | frontend/src/context/ProfileContext.jsx:8-11 | the state is the stored profile, in step with storage |
| ProfileContext.ProfileSession.SetProfile | frontend/src/context/ProfileContext.jsx:14-21 | the state and the storage change together, and state and storage stay in step |
| ProfileContext.ProfileSession.SaveFavoriteArtist | frontend/src/context/ProfileContext.jsx:35-47 | an active profile sends `FavoriteArtistRequest`; with none, nothing is sent |
| ProfileContext.ProfileSession.SaveFavoriteAlbum | frontend/src/context/ProfileContext.jsx:49-56 | follows `SavedAlbum`; as corrected it goes through `setProfile`, the setter the provider hands out (line 24), so on success the stored `"profile"` entry is also rewritten, which the `setProfileState` call as written would not do; when the save throws, storage is unchanged |
| PrivateRoute.Decide | frontend/src/components/PrivateRoute.jsx:10-12 | unauthenticated goes to "/login" whatever the profile; authenticated without an active profile goes to "/profiles"; the page renders exactly when authenticated with an active profile |
| PrivateRoute.DecideOnlyByActive | frontend/src/components/PrivateRoute.jsx:11 | the decision depends on the profile only through whether it is active |
| Layout.AppNavMeansPrivatePagesRender | frontend/src/components/Layout.jsx:19 | the menu shows only where the mobile button shows and the private pages render; off the profiles pages the converse holds |
| Layout.ProfilesPagesHideMenus | frontend/src/components/Layout.jsx:17-19 | paths under "/profiles" show neither the menu nor the mobile button |
| Layout.LayoutView.constructor | frontend/src/components/Layout.jsx:11-15 | the frame starts with the dropdown closed and no profiles, over the two sessions |
| Layout.LayoutView.LoadProfiles | frontend/src/components/Layout.jsx:22-28 | profiles load only while authenticated with a token; a failure empties the list |
| Layout.LayoutView.ClearProfileEffect | frontend/src/components/Layout.jsx:31-36 | on a profiles page an authenticated user's active profile is cleared in state and storage; private pages then redirect to "/profiles" |
| Layout.LayoutView.HandleLogout | frontend/src/components/Layout.jsx:38-42 | profile and session are cleared, both storage entries are gone, nothing else in storage changes, and the page is "/login" |
| Layout.LayoutView.ToggleDropdown | frontend/src/components/Layout.jsx:79 | a click on the avatar opens a closed dropdown and closes an open one |
| Layout.LayoutView.SelectProfile | frontend/src/components/Layout.jsx:106-110 | the profile becomes active, the dropdown closes, and the page is "/songs", where the menu shows |
| Layout.LayoutView.ManageProfiles | frontend/src/components/Layout.jsx:131-134 | the dropdown closes and the page is "/profiles", where the menu is hidden |
| ResetPasswordForm.Validate | frontend/src/components/ResetPasswordForm.jsx:19-30 | the token is checked first, then the length of at least 6, then the confirmation; the request is allowed exactly when all three hold |
| ResetPasswordForm.FailureText | frontend/src/components/ResetPasswordForm.jsx:19-30 | every failed check has a non-empty error text |
| ResetPasswordForm.FailureTextsDistinct | frontend/src/components/ResetPasswordForm.jsx:19-30 | the three error texts are different |
| ResetPasswordForm.ResetForm.constructor | frontend/src/components/ResetPasswordForm.jsx:4-12 | empty fields, not loading, and the token from the URL |
| ResetPasswordForm.ResetForm.HandleSubmit | frontend/src/components/ResetPasswordForm.jsx:14-49 | runs only with both fields non-empty, as the `required` inputs (lines 61 and 69) ensure; message and error are cleared; a failed check sets its error and sends nothing; otherwise the request is sent, and its outcome sets the success message or an error, never both; loading ends |
| App.ShownItems | frontend/src/App.jsx:70-78 | the list for "track", "artist" or "album" is that list, or empty when missing; any other type shows nothing |
| App.NoResultsShowNothing | frontend/src/App.jsx:25 | before any answer, and after a failed browse, nothing is shown |
| App.ShownItemsFromAnswer | frontend/src/App.jsx:70-78 | the shown list is one of the answer's lists, or empty |
| App.CatalogContainer.constructor | frontend/src/App.jsx:25-28 | type "track", not searched, loading, nothing shown |
| App.CatalogContainer.BrowseStart | frontend/src/App.jsx:38-42 | until the user searches, loading starts and one of the fixed non-empty terms is sent with the current type |
| App.CatalogContainer.BrowseLoaded | frontend/src/App.jsx:43-51 | the browse answer, or nothing on failure, replaces the results and loading ends |
| App.CatalogContainer.HandleResults | frontend/src/App.jsx:55-59 | the results replace the list, marked searched and not loading |
| App.CatalogContainer.HandleTypeChange | frontend/src/App.jsx:61-64 | the type changes, a browse is due again, and the results stay |
| App.TypeRoundTrip | frontend/src/App.jsx:38-63 | switching to a different type and back, with the browse effect each change triggers, sends a random browse for each type selected (even after the user's own search); the type is restored, the list is loading, and the old results stay until an answer arrives |

## Left out

- Network transport, status codes other than ok and not-ok, headers, and the backend. Answers are parameters and requests are returned values. The client shows no child-profile restriction, server-side dedup or cascade delete, and none is modelled.
- React scheduling. Effects are methods called explicitly, and races between overlapping requests are not modelled. An example: a browse answer that arrives after the user's own search overwrites its results (`App.CatalogContainer.BrowseLoaded`).
- JSX rendering, CSS, `alert`, `console.error`, sidebar and modal visibility, the mobile menu toggle and the theme toggle. `window.confirm` is a boolean parameter.
- `localStorage` values are typed (a token text or a profile record). JSON serialisation and parsing are not modelled, and neither is a malformed stored value.
- The avatar generator (`createAvatar`) is a function parameter. Properties that need usable avatars assume the generator returns SVG markup.
- The `required` attribute of the playlist name, profile name and password inputs is a precondition of `Playlists.PlaylistPage.HandleSubmit`, `ProfileSelector.ProfileSelectorView.HandleSubmit` and `ResetPasswordForm.ResetForm.HandleSubmit`: the browser does not run those handlers while such a field is empty. A name of white space only passes that check and is modelled.
- `App.TypeRoundTrip`: does not cover choosing the type already selected. React then re-runs no effect, because no dependency changed, and the model's methods have no notion of an unchanged dependency.
- `Math.random` in App.jsx is replaced by a term index parameter below 15.
- `Text.ToLower`: does not model Unicode case mapping, only ASCII letters.
- `Text.Trim`: does not model Unicode white space; only the ASCII space, tab, line feed, carriage return, vertical tab and form feed are removed.
- `ProfileSelector.ToNumber`: does not model signs, fractions, exponents or hexadecimal, all of which become `None` (`NaN`). The age select offers only 18, 13 and 7.
- `ResetPasswordForm.Validate`: does not model `password.length` counting UTF-16 code units. Length here is in Unicode characters, so a password containing characters outside the Basic Multilingual Plane is measured shorter than the source measures it.
- `SongList.SongListView.HandleAddSong`: does not model the backend's answer to the re-read. It assumes the re-read table is the old table with the edit applied (`Entities.ApplyEdit`).
- `Playlists.SubmitRenameAndReread`: does not model the backend's answer to the re-read either. It assumes the re-read table is the old table with the rename applied (`Entities.ApplyRename`).
- Crash paths on missing fields are not modelled, because the model's types rule them out:
  - a playlist without `songs` (SongList.jsx:76);
  - a track item without `artists` in a catalog import (Playlist.jsx:146). A track item whose `track` is null is modelled: the import sends nothing;
  - reading `profile._id` with no active profile in the catalog list and on the playlists page.
- `ProfileSelector.EditForm`: does not model a non-string truthy avatar, which the source would copy into the form. Here a non-string avatar is `None` and becomes "".
- `useFavoriteActions` (ProfileContext.jsx:32-59) is used by no component. It is modelled as functions of the active profile and as methods on the profile session.
- Display-only components, thin fetch wrappers, mock data, and the login, register and forgot-password forms are not part of this model.

## Findings

| source | as written | input that shows it | evidently intended | confidence | as-written member | corrected member |
|---|---|---|---|---|---|---|
| frontend/src/components/PlaylistDetail.jsx:41-44 | the duration `reduce` reads `item.track.duration_ms` for every item, so an item whose `track` is null throws, although the list and its count skip such items | a playlist with one track of 180000 ms and one item with `track: null` | sum the durations of the items that have a track (180000 here) | not executed | PlaylistDetail.NullTrackBreaksTotal | PlaylistDetail.TotalMs |
| frontend/src/context/ProfileContext.jsx:55 | `saveFavoriteAlbum` calls `setProfileState`, which is local to `ProfileProvider` and not in scope in `useFavoriteActions`, so it throws a ReferenceError after the request and the album is never recorded in the profile | active profile `p1` without a favourite album, `saveFavoriteAlbum("alb1")` with a successful request | the active profile records `favoriteAlbum: "alb1"` and keeps its other fields; the correction updates it through the context's `setProfile`, so the stored `"profile"` entry is rewritten too | not executed | ProfileContext.AlbumLostAsWritten | ProfileContext.SavedAlbum |
