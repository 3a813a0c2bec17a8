/**
  Route selection and role-gated panels: the effect that pushes routes whenever the session
  flags change, and which panel the router renders.
*/
module PanelsWrapper {
  import opened Wrappers
  import opened Session

  datatype Route = Login | AdminDashboard | UserDisposition

  function Path(r: Route): string {
    match r
    case Login => "/login"
    case AdminDashboard => "/admin/dashboard"
    case UserDisposition => "/user/disposition"
  }

  /** The routes the effect pushes, in order; three independent tests, so several may fire. */
  function Pushes(f: Flags): (r: seq<Route>)
    ensures AdminDashboard in r <==> f.authAdmin && f.currentUser.Some?
    ensures UserDisposition in r <==> f.authUser && f.currentUser.Some?
    ensures Login in r <==> !f.authUser && !f.authAdmin && f.currentUser.None?
    ensures |r| <= 2
  {
    var hasUser := f.currentUser.Some?;
    (if f.authAdmin && hasUser then [AdminDashboard] else [])
    + (if f.authUser && hasUser then [UserDisposition] else [])
    + (if !f.authUser && !f.authAdmin && !hasUser then [Login] else [])
  }

  /** The location after the pushes: the last one pushed, or `current` when nothing is pushed. */
  function Navigate(current: string, pushes: seq<Route>): (r: string)
    ensures pushes == [] ==> r == current
    ensures pushes != [] ==> r == Path(pushes[|pushes| - 1])
    decreases |pushes|
  {
    if pushes == [] then current else Navigate(Path(pushes[0]), pushes[1..])
  }

  /**
    The route the session calls for, as a decision table: an admin or user session with an
    identity goes to its home, a session with nothing goes to log-in, anything in between waits.
  */
  function Target(f: Flags): Option<Route> {
    match (f.currentUser.Some?, f.authAdmin, f.authUser)
    case (true, _, true) => Some(UserDisposition)
    case (true, true, false) => Some(AdminDashboard)
    case (false, false, false) => Some(Login)
    case _ => None
  }

  /** The effect lands exactly where the decision table says, and stays put when it says nothing. */
  lemma NavigateMatchesTarget(current: string, f: Flags)
    ensures Navigate(current, Pushes(f)) == match Target(f) case Some(r) => Path(r) case None => current
  {
  }

  /** The three routes are told apart by their paths. */
  lemma PathInjective(a: Route, b: Route)
    ensures Path(a) == Path(b) <==> a == b
  {
    assert Path(Login)[1] == 'l' && Path(AdminDashboard)[1] == 'a' && Path(UserDisposition)[1] == 'u';
  }

  /** An identity whose role is still unresolved keeps the current route. */
  lemma UnresolvedKeepsRoute(current: string, uid: Uid)
    ensures Navigate(current, Pushes(Flags(Some(uid), false, false))) == current
  {
  }

  /** Flags left raised after the identity went away also keep the current route. */
  lemma StaleFlagsKeepRoute(current: string, f: Flags)
    requires f.currentUser.None? && Authorized(f)
    ensures Navigate(current, Pushes(f)) == current
  {
  }

  /** With both roles raised, the admin dashboard is pushed first and the user route wins. */
  lemma BothRolesEndAtUserRoute(current: string, uid: Uid)
    ensures Pushes(Flags(Some(uid), true, true)) == [AdminDashboard, UserDisposition]
    ensures Navigate(current, Pushes(Flags(Some(uid), true, true))) == Path(UserDisposition)
  {
  }

  predicate AdminPanelShown(f: Flags) {
    f.authAdmin && f.currentUser.Some?
  }

  predicate UserPanelShown(f: Flags) {
    f.authUser && f.currentUser.Some?
  }

  /**
    Routing and rendering agree: the effect moves to a panel's route only when that panel is
    rendered, and a rendered panel means the effect moved away from the log-in page.
  */
  lemma RouteAgreesWithPanels(current: string, f: Flags)
    ensures Navigate(current, Pushes(f)) == Path(AdminDashboard) && current != Path(AdminDashboard) ==> AdminPanelShown(f)
    ensures Navigate(current, Pushes(f)) == Path(UserDisposition) && current != Path(UserDisposition) ==> UserPanelShown(f)
    ensures AdminPanelShown(f) && !UserPanelShown(f) ==> Navigate(current, Pushes(f)) == Path(AdminDashboard)
    ensures UserPanelShown(f) ==> Navigate(current, Pushes(f)) == Path(UserDisposition)
    ensures Navigate(current, Pushes(f)) == Path(Login) && current != Path(Login) ==> !AdminPanelShown(f) && !UserPanelShown(f)
  {
    PathInjective(Login, AdminDashboard);
    PathInjective(Login, UserDisposition);
    PathInjective(AdminDashboard, UserDisposition);
  }

  /** After a successful log-out and the identity going away, any session ends at the log-in page. */
  lemma LogOutEndsAtLogin(current: string, f: Flags)
    ensures Navigate(current, Pushes(Session.Run(f, [LogOutSucceeded, IdentityNone]))) == Path(Login)
  {
    LogOutThenNoneSignsOut(f);
  }
}
