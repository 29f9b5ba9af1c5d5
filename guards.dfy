/**
 * The access decisions of the route guards and the sidebar, each a function
 * of the authentication snapshot, and lemmas that compare them: they do not
 * agree on administrators, on subscriptions or on missing data.
 */
module Guards {
  import opened Wrappers
  import opened Types
  import opened Auth
  import opened Views

  // ---------------------------------------------------------------------------
  // ProtectedRoute: loading, then login, then admin, then subscription
  // ---------------------------------------------------------------------------

  datatype RouteOutcome = ShowLoading | RedirectTo(path: string) | RenderChildren

  function ProtectedRoute(s: AuthState, requireAdmin: bool, requireSubscription: bool): (o: RouteOutcome)
    ensures s.isLoading ==> o == ShowLoading
    ensures !s.isLoading && !s.isAuthenticated ==> o == RedirectTo("/login")
    ensures !s.isLoading && s.isAuthenticated && requireAdmin && !s.isAdmin ==> o == RedirectTo("/not-allowed")
    ensures !s.isLoading && s.isAuthenticated && (!requireAdmin || s.isAdmin) && requireSubscription && !s.isSubscribed
            ==> o == RedirectTo("/pricing")
    ensures o == RenderChildren
        <==> !s.isLoading && s.isAuthenticated && (!requireAdmin || s.isAdmin) && (!requireSubscription || s.isSubscribed)
  {
    if s.isLoading then ShowLoading
    else if !s.isAuthenticated then RedirectTo("/login")
    else if requireAdmin && !s.isAdmin then RedirectTo("/not-allowed")
    else if requireSubscription && !s.isSubscribed then RedirectTo("/pricing")
    else RenderChildren
  }

  // ---------------------------------------------------------------------------
  // LockCard: no user, then admin, then the two requirements
  // ---------------------------------------------------------------------------

  function LockCardIsLocked(s: AuthState, requireSubscription: bool, requireCoupon: bool): (locked: bool)
    ensures s.user.None? ==> locked
    ensures s.user.Some? && s.isAdmin ==> !locked
    ensures locked <==> s.user.None? || (!s.isAdmin && ((requireSubscription && !s.isSubscribed) || (requireCoupon && !s.isCouponUsed)))
  {
    if s.user.None? then true
    else if s.isAdmin then false
    else if requireSubscription && !s.isSubscribed then true
    else if requireCoupon && !s.isCouponUsed then true
    else false
  }

  /** `handleClick`: the page a click on the card navigates to, if any. */
  function LockCardClick(s: AuthState, requireSubscription: bool, requireCoupon: bool): (target: Option<string>)
    ensures target.Some? <==> LockCardIsLocked(s, requireSubscription, requireCoupon)
    ensures target.Some? ==> target.value == "/paywall"
  {
    if LockCardIsLocked(s, requireSubscription, requireCoupon) then Some("/paywall") else None
  }

  // ---------------------------------------------------------------------------
  // PrivateRoute: loading, then login; the subscription check is disabled
  // ---------------------------------------------------------------------------

  datatype PrivateOutcome = RenderNothing | Redirect(path: string) | RenderOutlet

  function PrivateRoute(s: AuthState): (o: PrivateOutcome)
    ensures s.isLoading ==> o == RenderNothing
    ensures !s.isLoading && !s.isAuthenticated ==> o == Redirect("/signin")
    ensures o == RenderOutlet <==> !s.isLoading && s.isAuthenticated
  {
    if s.isLoading then RenderNothing
    else if !s.isAuthenticated then Redirect("/signin")
    else RenderOutlet
  }

  // ---------------------------------------------------------------------------
  // The guard in ScriptGenerator.tsx: loading, then user, then premium profile
  // ---------------------------------------------------------------------------

  datatype Profile = Profile(isPremium: bool)

  datatype ScriptOutcome = ShowChecking | ShowLoginModal | ShowPaywall | ShowChildren

  /** `loading` and `profile` are inputs: the provider in this app supplies neither. */
  function ScriptGuard(loading: bool, user: Option<User>, profile: Option<Profile>): (o: ScriptOutcome)
    ensures loading ==> o == ShowChecking
    ensures !loading && user.None? ==> o == ShowLoginModal
    ensures o == ShowPaywall <==> !loading && user.Some? && profile.Some? && !profile.value.isPremium
    ensures o == ShowChildren <==> !loading && user.Some? && (profile.None? || profile.value.isPremium)
  {
    if loading then ShowChecking
    else if user.None? then ShowLoginModal
    else if profile.Some? && !profile.value.isPremium then ShowPaywall
    else ShowChildren
  }

  // ---------------------------------------------------------------------------
  // Sidebar
  // ---------------------------------------------------------------------------

  datatype NavAction = OpenLoginModal | OpenPricingModal | ChangeView(view: View)

  function HandleProtectedNav(user: Option<User>, isSubscribed: bool, view: View): (a: NavAction)
    ensures user.None? ==> a == OpenLoginModal
    ensures user.Some? && !isSubscribed ==> a == OpenPricingModal
    ensures a.ChangeView? <==> user.Some? && isSubscribed
    ensures a.ChangeView? ==> a.view == view
  {
    if user.None? then OpenLoginModal
    else if !isSubscribed then OpenPricingModal
    else ChangeView(view)
  }

  function HandleNormalNav(user: Option<User>, view: View): (a: NavAction)
    ensures a.ChangeView? <==> user.Some? || IsPublic(view)
    ensures a.ChangeView? ==> a.view == view
    ensures !a.ChangeView? ==> a == OpenLoginModal
  {
    if user.None? && view != Home && view != Notice then OpenLoginModal else ChangeView(view)
  }

  function SidebarIsLocked(user: Option<User>, isSubscribed: bool): (locked: bool)
    ensures locked <==> user.None? || !isSubscribed
  {
    user.None? || !isSubscribed
  }

  // ---------------------------------------------------------------------------
  // How the rules compare
  // ---------------------------------------------------------------------------

  /**
   * An administrator without a subscription: LockCard unlocks a
   * subscription-only card, while ProtectedRoute sends them to /pricing and
   * the sidebar shows its items locked.
   */
  lemma AdminExemptOnlyInLockCard(s: AuthState)
    requires SessionConsistent(s) && s.user.Some? && s.isAdmin && !s.isSubscribed && !s.isLoading
    ensures !LockCardIsLocked(s, true, false)
    ensures ProtectedRoute(s, false, true) == RedirectTo("/pricing")
    ensures ProtectedRoute(s, true, true) == RedirectTo("/pricing")
    ensures SidebarIsLocked(s.user, s.isSubscribed)
  {
  }

  /** PrivateRoute decides on loading and authentication alone. */
  lemma PrivateRouteIgnoresSubscription(s1: AuthState, s2: AuthState)
    requires s1.isLoading == s2.isLoading && s1.isAuthenticated == s2.isAuthenticated
    ensures PrivateRoute(s1) == PrivateRoute(s2)
  {
  }

  /** Any logged-in user passes PrivateRoute, whereas ProtectedRoute with a subscription requirement stops them. */
  lemma PrivateRouteAdmitsUnsubscribed(s: AuthState)
    requires !s.isLoading && s.isAuthenticated && !s.isSubscribed
    ensures PrivateRoute(s) == RenderOutlet
    ensures ProtectedRoute(s, false, true) != RenderChildren
  {
  }

  /** Without a profile the script guard lets any logged-in user through. */
  lemma ScriptGuardFailsOpen(user: User)
    ensures ScriptGuard(false, Some(user), None) == ShowChildren
  {
  }

  /** The sidebar's lock is exactly the condition under which protected navigation does not switch views. */
  lemma SidebarLockMatchesProtectedNav(user: Option<User>, isSubscribed: bool, view: View)
    ensures SidebarIsLocked(user, isSubscribed) <==> !HandleProtectedNav(user, isSubscribed, view).ChangeView?
  {
  }

  /** With no requirements a card is locked exactly when nobody is logged in. */
  lemma LockCardDefaults(s: AuthState)
    ensures LockCardIsLocked(s, false, false) <==> s.user.None?
  {
  }

  /**
   * Under the mock provider no administrator exists, so a route that
   * requires one is never rendered, whatever has happened.
   */
  lemma AdminRoutesUnreachable(ops: seq<AuthOp>, requireSubscription: bool)
    ensures ProtectedRoute(Run(Initial, ops), true, requireSubscription) != RenderChildren
  {
    ReachableInvariants(ops);
  }

  /** Until somebody logs in, both route guards show only their loading state. */
  lemma GuardsLoadUntilLogin(ops: seq<AuthOp>, requireAdmin: bool, requireSubscription: bool)
    requires forall k :: 0 <= k < |ops| ==> !ops[k].Login?
    ensures ProtectedRoute(Run(Initial, ops), requireAdmin, requireSubscription) == ShowLoading
    ensures PrivateRoute(Run(Initial, ops)) == RenderNothing
  {
    LoadingUntilLogin(Initial, ops);
  }
}
