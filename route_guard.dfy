/**
 * The guard around the pages that need a signed-in user (and, for the admin page,
 * an owner): it waits while the authentication context loads, sends a visitor to
 * the login page, sends a non-owner away from owner-only pages, and otherwise
 * shows the page.
 */
module RouteGuard {
  import opened Wrappers
  import opened Auth

  /** What the guard renders. */
  datatype GuardView = ShowLoading | RedirectTo(path: string) | RenderChildren

  /** The guard's decision for the context's state; routes are not owner-only unless marked. */
  function Decide(auth: AuthState, ownerOnly: bool := false): GuardView {
    if auth.isLoading then ShowLoading
    else if auth.currentUser.None? then RedirectTo("/login")
    else if ownerOnly && !auth.isOwner then RedirectTo("/")
    else RenderChildren
  }

  /** Who may see a page, stated on its own: a signed-in user, and an owner if the page is owner-only. */
  predicate MayEnter(auth: AuthState, ownerOnly: bool) {
    auth.currentUser.Some? && (ownerOnly ==> auth.isOwner)
  }

  /** The four outcomes, each with exactly the states that lead to it. */
  lemma DecideCases(auth: AuthState, ownerOnly: bool)
    ensures Decide(auth, ownerOnly) == ShowLoading <==> auth.isLoading
    ensures Decide(auth, ownerOnly) == RedirectTo("/login") <==> !auth.isLoading && auth.currentUser.None?
    ensures Decide(auth, ownerOnly) == RedirectTo("/") <==>
              !auth.isLoading && auth.currentUser.Some? && ownerOnly && !auth.isOwner
    ensures Decide(auth, ownerOnly) == RenderChildren <==> !auth.isLoading && MayEnter(auth, ownerOnly)
  {
  }

  /** A page that is not owner-only lets in every signed-in user, owner or not. */
  lemma SignedInPassesPlainRoutes(auth: AuthState)
    requires !auth.isLoading && auth.currentUser.Some?
    ensures Decide(auth) == RenderChildren
  {
  }

  /** An owner-only page lets in fewer states than a plain one. */
  lemma OwnerOnlyIsStricter(auth: AuthState)
    ensures Decide(auth, true) == RenderChildren ==> Decide(auth) == RenderChildren
  {
  }

  /**
   * Tied to the context's transitions: before the first report every page waits;
   * after a report of nobody every guarded page goes to the login page; after a
   * report of a user whose role was found, an owner-only page opens exactly for the
   * owner roles.
   */
  lemma GuardAfterReports(ownerOnly: bool, s: AuthState, u: User, role: string, lookup: RoleLookup)
    ensures Decide(InitialAuth, ownerOnly) == ShowLoading
    ensures Decide(OnAuthChange(s, None, lookup), ownerOnly) == RedirectTo("/login")
    ensures Decide(OnAuthChange(s, Some(u), RoleIs(role)), true) == RenderChildren <==> IsOwnerRole(role)
  {
  }
}
