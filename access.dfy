/** The guard the administration pages run when their inputs change: a visitor without a
    session is sent to the sign-in page, and a signed-in visitor whose role turns out not
    to allow the page is sent home. */
module Access {
  import opened Wrappers

  /** Where the page navigates, if anywhere. `allowed` is the role flag the page asks
      for (`isAdmin` on the statistics page, `canApproveAds` on the review pages). */
  function Redirect(authLoading: bool, hasUser: bool, roleLoading: bool, allowed: bool): (r: Option<string>)
    ensures r == Some("/auth") <==> !authLoading && !hasUser
    ensures r == Some("/") <==> !(!authLoading && !hasUser) && !roleLoading && !allowed
    ensures r.None? ==> (authLoading || hasUser) && (roleLoading || allowed)
  {
    if !authLoading && !hasUser then Some("/auth")
    else if !roleLoading && !allowed then Some("/")
    else None
  }

  /** Once both the session and the role are known, the page stays open exactly for a
      signed-in visitor with the flag. */
  lemma RedirectSettled(hasUser: bool, allowed: bool)
    ensures Redirect(false, hasUser, false, allowed).None? <==> hasUser && allowed
    ensures !hasUser ==> Redirect(false, hasUser, false, allowed) == Some("/auth")
  {
  }
}
