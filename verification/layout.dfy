/**
  The page frame (Layout.jsx): which navigation is shown, the effect that clears the
  active profile on the profiles page, logout, and switching profile from the dropdown.
*/
module Layout {
  import opened Wrappers
  import opened Entities
  import opened Storage
  import Text
  import AuthContext
  import ProfileContext
  import PrivateRoute

  /** `location.pathname.startsWith("/profiles")`. */
  predicate IsOnProfiles(path: string) {
    Text.StartsWith(path, "/profiles")
  }

  /** The application menu: authenticated, with an active profile, and off the profiles pages. */
  predicate ShowAppNav(isAuthenticated: bool, profile: Option<Profile>, path: string) {
    isAuthenticated && PrivateRoute.HasActiveProfile(profile) && !IsOnProfiles(path)
  }

  /** The mobile menu button: authenticated and off the profiles pages. */
  predicate ShowMobileButton(isAuthenticated: bool, path: string) {
    isAuthenticated && !IsOnProfiles(path)
  }

  /**
    Whenever the application menu shows, the mobile button shows and the private pages
    render; the converse holds off the profiles pages.
  */
  lemma AppNavMeansPrivatePagesRender(isAuthenticated: bool, profile: Option<Profile>, path: string)
    ensures ShowAppNav(isAuthenticated, profile, path) ==>
      ShowMobileButton(isAuthenticated, path) && PrivateRoute.Decide(isAuthenticated, profile) == PrivateRoute.RenderChildren
    ensures !IsOnProfiles(path) && PrivateRoute.Decide(isAuthenticated, profile) == PrivateRoute.RenderChildren ==>
      ShowAppNav(isAuthenticated, profile, path)
  {
  }

  /** Paths under "/profiles" never show the application menu or the mobile button. */
  lemma ProfilesPagesHideMenus(isAuthenticated: bool, profile: Option<Profile>, suffix: string)
    ensures !ShowAppNav(isAuthenticated, profile, "/profiles" + suffix)
    ensures !ShowMobileButton(isAuthenticated, "/profiles" + suffix)
  {
    assert Text.StartsWith("/profiles" + suffix, "/profiles");
  }

  /** The frame's state, over the two session contexts that share one storage. */
  class LayoutView {
    var path: string
    var showDropdown: bool
    var profiles: seq<Profile>
    const auth: AuthContext.AuthSession
    const session: ProfileContext.ProfileSession

    ghost predicate Valid()
      reads this, auth, session, session.store
    {
      auth.store == session.store && session.Valid()
    }

    constructor (auth: AuthContext.AuthSession, session: ProfileContext.ProfileSession, path: string)
      requires auth.store == session.store && session.Valid()
      ensures this.auth == auth && this.session == session && this.path == path
      ensures !showDropdown && profiles == []
      ensures Valid()
    {
      this.auth, this.session, this.path := auth, session, path;
      showDropdown, profiles := false, [];
    }

    /** A click on the profile avatar opens or closes the dropdown. */
    method ToggleDropdown()
      modifies this`showDropdown
      ensures showDropdown == !old(showDropdown)
    {
      showDropdown := !showDropdown;
    }

    /** The profile list effect: loaded only while authenticated with a non-empty token; a failed load empties it. */
    method LoadProfiles(response: Option<seq<Profile>>)
      modifies this
      ensures auth.isAuthenticated && auth.token.Some? && auth.token.value != "" ==> profiles == response.GetOr([])
      ensures !(auth.isAuthenticated && auth.token.Some? && auth.token.value != "") ==> profiles == old(profiles)
      ensures path == old(path) && showDropdown == old(showDropdown)
    {
      if auth.isAuthenticated && auth.token.Some? && auth.token.value != "" {
        profiles := response.GetOr([]);
      }
    }

    /**
      The clear-profile effect: on a profiles page, an authenticated user's active profile is
      cleared, in state and storage; afterwards every private page sends the user to "/profiles".
    */
    method ClearProfileEffect()
      requires Valid()
      modifies session, session.store
      ensures Valid()
      ensures auth.isAuthenticated && IsOnProfiles(path) && PrivateRoute.HasActiveProfile(old(session.profile)) ==>
        session.profile.None? && session.store.entries == old(session.store.entries) - {ProfileKey}
      ensures !(auth.isAuthenticated && IsOnProfiles(path) && PrivateRoute.HasActiveProfile(old(session.profile))) ==>
        session.profile == old(session.profile) && session.store.entries == old(session.store.entries)
      ensures auth.isAuthenticated && IsOnProfiles(path) ==>
        PrivateRoute.Decide(auth.isAuthenticated, session.profile) == PrivateRoute.ToProfiles
    {
      if auth.isAuthenticated && IsOnProfiles(path) && PrivateRoute.HasActiveProfile(session.profile) {
        session.SetProfile(None);
      }
    }

    /**
      `handleLogout`: the active profile is cleared, then the session, then the page moves
      to "/login"; both storage entries are gone and nothing else in storage changes.
    */
    method HandleLogout()
      requires Valid()
      modifies this, auth, session, session.store
      ensures Valid()
      ensures session.profile.None?
      ensures auth.token.None? && !auth.isAuthenticated && auth.user.None?
      ensures session.store.entries == old(session.store.entries) - {ProfileKey, TokenKey}
      ensures path == "/login"
      ensures PrivateRoute.Decide(auth.isAuthenticated, session.profile) == PrivateRoute.ToLogin
      ensures !ShowAppNav(auth.isAuthenticated, session.profile, path)
      ensures showDropdown == old(showDropdown) && profiles == old(profiles)
    {
      var store := session.store;
      session.SetProfile(None);
      auth.Logout();
      assert store.entries == old(store.entries) - {ProfileKey, TokenKey};
      path := "/login";
    }

    /**
      Picking a profile in the dropdown: it becomes active, the dropdown closes and the page
      moves to "/songs", where an authenticated user with that profile sees the menu.
    */
    method SelectProfile(p: Profile)
      requires Valid()
      modifies this, session, session.store
      ensures Valid()
      ensures session.profile == Some(p)
      ensures session.store.entries == ProfileContext.StoreProfile(old(session.store.entries), Some(p))
      ensures !showDropdown && path == "/songs" && profiles == old(profiles)
      ensures auth.isAuthenticated && p.id != "" ==>
        ShowAppNav(auth.isAuthenticated, session.profile, path)
        && PrivateRoute.Decide(auth.isAuthenticated, session.profile) == PrivateRoute.RenderChildren
    {
      session.SetProfile(Some(p));
      showDropdown := false;
      path := "/songs";
      assert !IsOnProfiles(path);
    }

    /** "Gestionar perfiles": the dropdown closes and the page moves to "/profiles". */
    method ManageProfiles()
      modifies this
      ensures !showDropdown && path == "/profiles" && profiles == old(profiles)
      ensures !ShowAppNav(auth.isAuthenticated, session.profile, path)
    {
      showDropdown := false;
      path := "/profiles";
      assert IsOnProfiles(path);
    }
  }
}
