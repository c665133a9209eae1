/**
 * The route guard of the root layout (app/layout.tsx): once loading is over, a visitor
 * without a profile is sent to the login screen unless already in the `auth` group, and a
 * signed-in user found in the `auth` group is sent home.
 */
module RootLayout {
  import opened Wrappers

  const LoginRoute: string := "/auth/login"
  const HomeRoute: string := "/"

  /** `segments[0] === "auth"`; an empty route has no first segment. */
  predicate InAuthGroup(segments: seq<string>) {
    |segments| > 0 && segments[0] == "auth"
  }

  /** The route the effect replaces the current one with, if any. */
  function Redirect(isLoading: bool, hasProfile: bool, segments: seq<string>): (r: Option<string>)
    ensures isLoading ==> r == None
    ensures r == Some(LoginRoute) <==> !isLoading && !hasProfile && !InAuthGroup(segments)
    ensures r == Some(HomeRoute) <==> !isLoading && hasProfile && InAuthGroup(segments)
    ensures r == None <==> isLoading || hasProfile != InAuthGroup(segments)
  {
    if isLoading then None
    else if !hasProfile && !InAuthGroup(segments) then Some(LoginRoute)
    else if hasProfile && InAuthGroup(segments) then Some(HomeRoute)
    else None
  }

  /** The segments of the two targets. */
  const LoginSegments: seq<string> := ["auth", "login"]
  const HomeSegments: seq<string> := []

  /** Each target is a fixed point: arriving there causes no further redirect. */
  lemma RedirectTargetsAreFixed(hasProfile: bool, segments: seq<string>)
    ensures Redirect(false, hasProfile, segments) == Some(LoginRoute) ==>
      Redirect(false, hasProfile, LoginSegments) == None
    ensures Redirect(false, hasProfile, segments) == Some(HomeRoute) ==>
      Redirect(false, hasProfile, HomeSegments) == None
  {
  }
}
