/** The guard around the private pages (PrivateRoute.jsx). */
module PrivateRoute {
  import opened Wrappers
  import opened Entities

  /** Where the guard sends the user. */
  datatype Decision = ToLogin | ToProfiles | RenderChildren

  /** A profile is active when one is set and its `_id` is non-empty. */
  predicate HasActiveProfile(profile: Option<Profile>) {
    profile.Some? && profile.value.id != ""
  }

  /**
    Authentication is checked first: an unauthenticated user always goes to "/login"; an
    authenticated one without an active profile goes to "/profiles"; otherwise the page renders.
  */
  function Decide(isAuthenticated: bool, profile: Option<Profile>): (d: Decision)
    ensures !isAuthenticated ==> d == ToLogin
    ensures isAuthenticated && !HasActiveProfile(profile) ==> d == ToProfiles
    ensures d == RenderChildren <==> isAuthenticated && HasActiveProfile(profile)
  {
    if !isAuthenticated then ToLogin
    else if profile.None? || profile.value.id == "" then ToProfiles
    else RenderChildren
  }

  /** The decision depends on the profile only through whether it is active. */
  lemma DecideOnlyByActive(isAuthenticated: bool, p: Option<Profile>, q: Option<Profile>)
    requires HasActiveProfile(p) == HasActiveProfile(q)
    ensures Decide(isAuthenticated, p) == Decide(isAuthenticated, q)
  {
  }
}
