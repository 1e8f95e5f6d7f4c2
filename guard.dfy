/** The route guard (`AuthGuard.canActivate`). */
module Guard {
  import opened Events
  import opened Service

  /** Whether navigation may proceed, and the navigations the guard issued. */
  datatype Decision = Decision(allowed: bool, navigations: seq<Event>)

  /**
   * `canActivate(route, state)`: allows iff the service reports a logged-in
   * session; otherwise redirects to the login view once and denies. The route
   * and the router state are not consulted, and nothing is modified.
   */
  function CanActivate<R, S>(service: AppService, route: R, state: S): (d: Decision)
    reads service
    ensures d.allowed <==> service.currentUser.Some? && service.GetToken().Some?
    ensures d.allowed ==> d.navigations == []
    ensures !d.allowed ==> d.navigations == [ToLogin]
  {
    if service.IsLoggedIn() then Decision(true, [])
    else Decision(false, [ToLogin])
  }

  /** The decision is the same for every route and router state. */
  lemma DecisionIgnoresRoute<R, S>(service: AppService, r1: R, s1: S, r2: R, s2: S)
    ensures CanActivate(service, r1, s1) == CanActivate(service, r2, s2)
  {
  }

  /**
   * Once the storage is what `logout()` leaves behind, the guard denies and
   * redirects, whoever the current user is.
   */
  lemma DeniedAfterLogout<R, S>(service: AppService, before: Stores, route: R, state: S)
    requires service.Storage() == Cleared(before)
    ensures CanActivate(service, route, state) == Decision(false, [ToLogin])
  {
    LogoutLogsOut(before, service.currentUser, service.codec);
  }
}
