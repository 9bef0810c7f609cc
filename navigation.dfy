/** The start-up `Router`: once the session is authenticated and a profile
    is loaded, the profile's role selects the screen to open. */
module Navigation {
  import opened Kotlin
  import opened Data
  import opened Auth

  /** `Screen.Login.route`. */
  const LoginRoute: string := "login_screen"

  /** The roles the router recognises. */
  const KnownRoles: set<string> :=
    {"student", "lost_and_found_admin", "cafeteria_staff", "admin"}

  /** Every route the router can open. */
  const RouterRoutes: set<string> :=
    {"student_dashboard", "lostandfound_admin_dashboard", "cafeteria_staff_dashboard",
     "admin_dashboard", LoginRoute}

  /** The role-to-route `when`: each known role has its dashboard,
      anything else sends the user back to the login screen. */
  function Destination(role: string): (route: string)
    ensures route in RouterRoutes
    ensures route == LoginRoute <==> role !in KnownRoles
  {
    match role
    case "student" => "student_dashboard"
    case "lost_and_found_admin" => "lostandfound_admin_dashboard"
    case "cafeteria_staff" => "cafeteria_staff_dashboard"
    case "admin" => "admin_dashboard"
    case _ => LoginRoute
  }

  /** The navigation guard: the route to open, if any, for the observed
      session state and profile. */
  function NavigationTarget(state: AuthState, user: Option<User>): (target: Option<string>)
    ensures target.Some? <==> state == Authenticated && user.Some?
    ensures target.Some? ==> target.value == Destination(user.value.role)
  {
    if state == Authenticated && user.Some? then Some(Destination(user.value.role)) else None
  }

  /** The four known roles reach four different dashboards. */
  lemma DashboardsDistinct(r1: string, r2: string)
    requires r1 in KnownRoles && r2 in KnownRoles && r1 != r2
    ensures Destination(r1) != Destination(r2)
    ensures Destination(r1) != LoginRoute
  {
  }

  /** Every route in the table is reached by some role. */
  lemma EveryRouteReached(route: string)
    requires route in RouterRoutes
    ensures exists role :: Destination(role) == route
  {
    if route == LoginRoute {
      assert Destination("") == route;
    } else if route == "student_dashboard" {
      assert Destination("student") == route;
    } else if route == "lostandfound_admin_dashboard" {
      assert Destination("lost_and_found_admin") == route;
    } else if route == "cafeteria_staff_dashboard" {
      assert Destination("cafeteria_staff") == route;
    } else {
      assert Destination("admin") == route;
    }
  }

  /** A freshly registered account, once signed in and loaded, lands on the
      student dashboard. */
  lemma NewAccountOpensStudentDashboard(uid: string, specializedId: string, contactEmail: string, fullName: string)
    ensures NavigationTarget(Authenticated, Some(NewProfile(uid, specializedId, contactEmail, fullName)))
      == Some("student_dashboard")
  {
  }
}
