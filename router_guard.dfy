/** frontend/vue-project/src/router/index.js: the route table's access rules and the
    navigation guard that enforces them, as decisions over a snapshot of the session. */
module RouterGuard {
  import opened Wrappers
  import opened AuthStore

  const LoginRoute: string := "login"
  const EmployeeDashboard: string := "dashboard.employee"
  const ManagerDashboard: string := "dashboard.manager"
  const HrDashboard: string := "dashboard.hr"

  /** `roleToRoute`: the dashboard of a role; every role but manager and hr, and no role
      at all, gets the employee dashboard. */
  function RoleToRoute(role: Option<string>): (name: string)
    ensures role == Some("manager") ==> name == ManagerDashboard
    ensures role == Some("hr") ==> name == HrDashboard
    ensures role != Some("manager") && role != Some("hr") ==> name == EmployeeDashboard
  {
    if role == Some("manager") then ManagerDashboard
    else if role == Some("hr") then HrDashboard
    else EmployeeDashboard
  }

  /** The `meta` of a route: `roles` empty when the route has none. */
  datatype RouteMeta = RouteMeta(requiresAuth: bool, guestOnly: bool, roles: seq<string>)

  /** The meta of the named routes of the table. */
  function MetaOf(name: string): (m: Option<RouteMeta>)
    ensures m.Some? <==> name in {LoginRoute, "register", EmployeeDashboard, ManagerDashboard, HrDashboard}
  {
    if name == LoginRoute || name == "register" then Some(RouteMeta(false, true, []))
    else if name == EmployeeDashboard then Some(RouteMeta(true, false, ["employee"]))
    else if name == ManagerDashboard then Some(RouteMeta(true, false, ["manager"]))
    else if name == HrDashboard then Some(RouteMeta(true, false, ["hr"]))
    else None
  }

  /** What `resolveAuthSnapshot` returns, without the store reference. */
  datatype Snapshot = Snapshot(token: string, role: Option<string>, isAuthenticated: bool)

  /** `resolveAuthSnapshot`: the store's token, else the stored one; authenticated when the
      store says so or a token string is there; the store's role, else the stored user's.
      `store` is `None` when the store cannot be reached. */
  function ResolveAuthSnapshot(store: Option<AuthState>, storage: Storage, nowMs: int): (s: Snapshot)
    ensures s.isAuthenticated <==> s.token != ""
    ensures s.token != "" <==> (store.Some? && store.value.token != "") || Truthy(storage.token).Some?
    ensures s.role.Some? ==> s.role.value != ""
    ensures store.Some? && Role(store.value).Some? ==> s.role == Role(store.value)
    ensures !(store.Some? && Role(store.value).Some?) ==>
      s.role == (if storage.user.Some? then Truthy(storage.user.value.role) else None)
    ensures store.Some? && store.value.token != "" ==> s.token == store.value.token
    ensures !(store.Some? && store.value.token != "") && Truthy(storage.token).Some? ==>
      s.token == storage.token.value
  {
    var localRole := if storage.user.Some? then Truthy(storage.user.value.role) else None;
    var token := if store.Some? && store.value.token != "" then store.value.token
                 else if Truthy(storage.token).Some? then storage.token.value
                 else "";
    var live := (store.Some? && IsAuthenticated(store.value, nowMs)) || token != "";
    var role := if store.Some? && Role(store.value).Some? then Role(store.value) else localRole;
    Snapshot(token, role, live)
  }

  /** A token whose expiry has passed still lets the guard through: the snapshot counts any
      token string as authenticated. */
  lemma ExpiredTokenCountsAsSignedIn(s: AuthState, storage: Storage, nowMs: int)
    requires s.token != "" && s.expiresAt.Some? && s.expiresAt.value != 0 && s.expiresAt.value * 1000 <= nowMs
    ensures !IsAuthenticated(s, nowMs)
    ensures ResolveAuthSnapshot(Some(s), storage, nowMs).isAuthenticated
  {
  }

  /** The guard's answer: go on, or go to a named route, with the `redirect` query when the
      guard sends the user to log in first. */
  datatype Navigation = Proceed | Redirect(name: string, redirect: Option<string>)

  /** The `beforeEach` callback: the sign-in check, then the guests-only check, then the
      role check. */
  function BeforeEach(meta: RouteMeta, fullPath: string, snap: Snapshot): (nav: Navigation)
    ensures meta.requiresAuth && !snap.isAuthenticated ==> nav == Redirect(LoginRoute, Some(fullPath))
    ensures !(meta.requiresAuth && !snap.isAuthenticated) && meta.guestOnly && snap.isAuthenticated ==>
      nav == Redirect(RoleToRoute(snap.role), None)
    ensures nav == Proceed <==>
      ((!meta.requiresAuth || snap.isAuthenticated) && !(meta.guestOnly && snap.isAuthenticated)
       && (meta.roles == [] || (snap.role.Some? && snap.role.value in meta.roles)))
    ensures nav.Redirect? && nav.redirect.None? ==>
      (nav.name == LoginRoute <==> !snap.isAuthenticated)
    ensures !(meta.requiresAuth && !snap.isAuthenticated) && !(meta.guestOnly && snap.isAuthenticated) &&
            meta.roles != [] && (snap.role.None? || snap.role.value !in meta.roles) ==>
      nav == (if snap.isAuthenticated then Redirect(RoleToRoute(snap.role), None) else Redirect(LoginRoute, None))
  {
    if meta.requiresAuth && !snap.isAuthenticated then Redirect(LoginRoute, Some(fullPath))
    else if meta.guestOnly && snap.isAuthenticated then Redirect(RoleToRoute(snap.role), None)
    else if meta.roles != [] && (snap.role.None? || snap.role.value !in meta.roles) then
      (if snap.isAuthenticated then Redirect(RoleToRoute(snap.role), None) else Redirect(LoginRoute, None))
    else Proceed
  }

  /** A signed-in employee, manager or hr user sent to their dashboard is let through there. */
  lemma OwnDashboardAdmits(role: string, fullPath: string, token: string)
    requires role in {"employee", "manager", "hr"} && token != ""
    ensures MetaOf(RoleToRoute(Some(role))).Some?
    ensures BeforeEach(MetaOf(RoleToRoute(Some(role))).value, fullPath, Snapshot(token, Some(role), true)) == Proceed
  {
  }

  /** A signed-in user whose role is none of the three, or who has no role, is sent from the
      employee dashboard back to the employee dashboard: the guard never lets them in. */
  lemma OtherRoleRedirectsToItself(role: Option<string>, fullPath: string, token: string)
    requires role != Some("employee") && role != Some("manager") && role != Some("hr") && token != ""
    ensures BeforeEach(MetaOf(EmployeeDashboard).value, fullPath, Snapshot(token, role, true))
      == Redirect(EmployeeDashboard, None)
  {
  }
}
