/** frontend/app/components/auth/protected-route.tsx: the page guard. The
    outcome is a function of the session flags; `router.push` in the effect is
    returned as a redirect value. */
module ProtectedRoute {

  datatype View = Spinner | Nothing | Children

  datatype Redirect = NoRedirect | ToLogin | ToHome

  /** The effect, which re-runs whenever one of its four inputs changes; as a
      function of exactly those inputs it gives the same answer on every run. */
  function Effect(isAuthenticated: bool, isAdmin: bool, loading: bool, requireAdmin: bool := false): (r: Redirect)
    ensures loading ==> r == NoRedirect
    ensures r == ToLogin <==> !loading && !isAuthenticated
    ensures r == ToHome <==> !loading && isAuthenticated && requireAdmin && !isAdmin
  {
    if !loading then
      if !isAuthenticated then ToLogin
      else if requireAdmin && !isAdmin then ToHome
      else NoRedirect
    else NoRedirect
  }

  /** What the guard renders. */
  function Render(isAuthenticated: bool, isAdmin: bool, loading: bool, requireAdmin: bool := false): (v: View)
    ensures v == Spinner <==> loading
    ensures v == Nothing <==> Effect(isAuthenticated, isAdmin, loading, requireAdmin) != NoRedirect
    ensures v == Children ==> Effect(isAuthenticated, isAdmin, loading, requireAdmin) == NoRedirect
  {
    if loading then Spinner
    else if !isAuthenticated || (requireAdmin && !isAdmin) then Nothing
    else Children
  }

  /** Children are shown exactly to a settled, authenticated session that also
      satisfies the admin requirement. */
  lemma ChildrenIff(isAuthenticated: bool, isAdmin: bool, loading: bool, requireAdmin: bool)
    ensures Render(isAuthenticated, isAdmin, loading, requireAdmin) == Children
        <==> !loading && isAuthenticated && (!requireAdmin || isAdmin)
  {
  }

  /** Without `requireAdmin` (its default is false) the admin flag is irrelevant. */
  lemma DefaultIgnoresAdmin(isAuthenticated: bool, loading: bool)
    ensures Render(isAuthenticated, true, loading) == Render(isAuthenticated, false, loading)
    ensures Effect(isAuthenticated, true, loading) == Effect(isAuthenticated, false, loading)
  {
  }
}
