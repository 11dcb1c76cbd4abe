/** The route table and its guards (src/App.tsx): which view a path shows
    for the session's current `user` and `isLoading`. */
module Routes {
  import opened Wrappers
  import opened Types
  import opened AuthSession

  datatype Page = IndexPage | LoginPage | DashboardPage | AdminPage | InvoiceCreatePage | NotFoundPage

  /** What a route renders: the loading spinner, a replacing redirect, or a page. */
  datatype View = Spinner | Redirect(to: string) | Render(page: Page)

  /** The part of the session the routes read. */
  datatype AuthState = AuthState(user: Option<User>, isLoading: bool)

  /** `ProtectedRoute`: wait while loading, then require a signed-in user. */
  function ProtectedRoute(auth: AuthState, page: Page): (r: View)
    ensures r.Render? ==> r.page == page && !auth.isLoading && auth.user.Some?
    ensures r.Redirect? ==> r.to == "/login" && auth.user.None?
  {
    if auth.isLoading then Spinner
    else if auth.user.None? then Redirect("/login")
    else Render(page)
  }

  /** `AdminRoute`: wait while loading, then require the admin account. */
  function AdminRoute(auth: AuthState, page: Page): (r: View)
    ensures r.Render? ==> r.page == page && !auth.isLoading && IsAdminUser(auth.user)
    ensures r.Redirect? ==> r.to == "/dashboard" && !IsAdminUser(auth.user)
  {
    if auth.isLoading then Spinner
    else if auth.user.None? || !IsAdminUser(auth.user) then Redirect("/dashboard")
    else Render(page)
  }

  /** The element the route table picks for a path. */
  function RouteElement(path: string, auth: AuthState): (r: View)
    ensures r.Redirect? ==> r.to == "/login" || r.to == "/dashboard"
    ensures r == Render(AdminPage) ==> path == "/admin"
  {
    if path == "/" then Render(IndexPage)
    else if path == "/login" || path == "/register" then
      (if auth.user.Some? then Redirect("/dashboard") else Render(LoginPage))
    else if path == "/dashboard" then ProtectedRoute(auth, DashboardPage)
    else if path == "/admin" then AdminRoute(auth, AdminPage)
    else if path == "/invoices/new" then ProtectedRoute(auth, InvoiceCreatePage)
    else Render(NotFoundPage)
  }

  /** The spinner shows exactly while loading, whoever is signed in;
      afterwards a missing user is sent to sign in and a present one sees
      the page. */
  lemma ProtectedRouteCases(auth: AuthState, page: Page)
    ensures ProtectedRoute(auth, page) == Spinner <==> auth.isLoading
    ensures ProtectedRoute(auth, page) == Redirect("/login") <==> !auth.isLoading && auth.user.None?
    ensures ProtectedRoute(auth, page) == Render(page) <==> !auth.isLoading && auth.user.Some?
  {
  }

  /** After loading, only the admin account sees the page; anyone else,
      signed in or not, is sent to the dashboard. */
  lemma AdminRouteCases(auth: AuthState, page: Page)
    ensures AdminRoute(auth, page) == Spinner <==> auth.isLoading
    ensures AdminRoute(auth, page) == Render(page) <==>
              !auth.isLoading && auth.user.Some? && auth.user.value.email == ADMIN_EMAIL
    ensures AdminRoute(auth, page) == Redirect("/dashboard") <==>
              !auth.isLoading && (auth.user.None? || auth.user.value.email != ADMIN_EMAIL)
  {
  }

  /** The table itself: the sign-in paths bounce a signed-in user to the
      dashboard, the application pages are always guarded, and every
      other path is the not-found page. */
  lemma RouteTable(path: string, auth: AuthState)
    ensures path == "/login" || path == "/register" ==>
              RouteElement(path, auth) == (if auth.user.Some? then Redirect("/dashboard") else Render(LoginPage))
    ensures path == "/dashboard" ==> RouteElement(path, auth) == ProtectedRoute(auth, DashboardPage)
    ensures path == "/invoices/new" ==> RouteElement(path, auth) == ProtectedRoute(auth, InvoiceCreatePage)
    ensures path == "/admin" ==> RouteElement(path, auth) == AdminRoute(auth, AdminPage)
    ensures path !in ["/", "/login", "/register", "/dashboard", "/admin", "/invoices/new"] ==>
              RouteElement(path, auth) == Render(NotFoundPage)
  {
  }

  /** The guarded pages render only once loading is over and someone is
      signed in, and the admin page only for the admin email. */
  lemma GuardedPagesNeedUser(path: string, auth: AuthState)
    ensures RouteElement(path, auth) in {Render(DashboardPage), Render(InvoiceCreatePage), Render(AdminPage)} ==>
              !auth.isLoading && auth.user.Some?
    ensures RouteElement(path, auth) == Render(AdminPage) <==>
              path == "/admin" && !auth.isLoading && IsAdminUser(auth.user)
  {
  }

  /** Redirects settle: following the table's redirects from any path
      reaches a spinner or a page within two hops (the longest chain is
      /admin to /dashboard to /login for a visitor). */
  lemma {:induction false} RedirectsSettle(path: string, auth: AuthState)
    ensures RouteElement(path, auth).Redirect? ==>
              var next := RouteElement(RouteElement(path, auth).to, auth);
              !next.Redirect? || !RouteElement(next.to, auth).Redirect?
  {
    if RouteElement(path, auth).Redirect? {
      var to := RouteElement(path, auth).to;
      assert to == "/login" || to == "/dashboard";
      assert RouteElement("/login", auth).Redirect? ==> auth.user.Some?;
    }
  }
}
