/** The route table of the admin front end (admin-frontend/src/App.jsx):
    the login record read from local storage, the role guard in front of
    the two dashboards, and the redirects of every other path. */
module AdminApp {
  import opened Wrappers
  import opened Records
  import opened BrowserStorage
  import opened Text

  /** `getAuth()`: the parsed "adminAuth" entry, `None` when it is absent. */
  function GetAuth(storage: LocalStorage): (r: Option<Auth>)
    reads storage
    ensures r.Some? <==> storage.auth.Some?
    ensures r.Some? ==> r.value == storage.auth.value
  {
    storage.auth
  }

  /** The pages the table can render. */
  datatype Page = LoginPage | AdminDashboardPage | DistributorDashboardPage

  /** What a route renders: a page, or a `<Navigate replace>` to a path. */
  datatype Outcome = Render(page: Page) | Navigate(to: string)

  const LoginPath := "/login"
  const AdminPath := "/admin"
  const DistributorPath := "/distributor"

  /** `RequireAuth` around `page`; `allow` is "" when the guard names no role. */
  function RequireAuth(auth: Option<Auth>, allow: string, page: Page): (r: Outcome)
    ensures auth.None? <==> r == Navigate(LoginPath)
    ensures r.Render? <==> auth.Some? && (allow == "" || auth.value.role == allow)
    ensures r.Render? ==> r.page == page
    ensures r.Navigate? && auth.Some? ==> r.to == (if auth.value.role == AdminRole then AdminPath else DistributorPath)
  {
    if auth.None? then Navigate(LoginPath)
    else if allow != "" && auth.value.role != allow then
      Navigate(if auth.value.role == AdminRole then AdminPath else DistributorPath)
    else Render(page)
  }

  /** `path` without its trailing slashes. */
  function DropTrailingSlashes(path: string): (r: string)
    ensures |r| <= |path| && r == path[..|r|]
    ensures r == [] || r[|r| - 1] != '/'
    ensures forall i :: |r| <= i < |path| ==> path[i] == '/'
    decreases |path|
  {
    if path != [] && path[|path| - 1] == '/' then DropTrailingSlashes(path[..|path| - 1]) else path
  }

  /** What a route pattern is compared with: route matching ignores case
      and trailing slashes. */
  function RouteKey(path: string): (key: string)
    ensures |key| <= |path| && key == ToLower(path)[..|key|]
    ensures key == [] || key[|key| - 1] != '/'
    ensures forall i :: |key| <= i < |path| ==> path[i] == '/'
  {
    ToLowerAt(path);
    DropTrailingSlashes(ToLower(path))
  }

  /** The three paths of the table are their own keys. */
  lemma TablePathsAreKeys()
    ensures RouteKey(LoginPath) == LoginPath
    ensures RouteKey(AdminPath) == AdminPath
    ensures RouteKey(DistributorPath) == DistributorPath
  {
    LoginPathIsKey();
    AdminPathIsKey();
    DistributorPathIsKey();
  }

  lemma LoginPathIsKey()
    ensures RouteKey(LoginPath) == LoginPath
  {
    LowerPathIsKey(LoginPath);
  }

  lemma AdminPathIsKey()
    ensures RouteKey(AdminPath) == AdminPath
  {
    LowerPathIsKey(AdminPath);
  }

  lemma DistributorPathIsKey()
    ensures RouteKey(DistributorPath) == DistributorPath
  {
    LowerPathIsKey(DistributorPath);
  }

  /** A path without upper-case letters or a trailing slash is its own key. */
  lemma LowerPathIsKey(path: string)
    requires forall i :: 0 <= i < |path| ==> !('A' <= path[i] <= 'Z')
    requires path != [] && path[|path| - 1] != '/'
    ensures RouteKey(path) == path
  {
    ToLowerOfLower(path);
  }

  /** The element the table gives for `path`. */
  function Route(path: string, auth: Option<Auth>): (r: Outcome)
    ensures RouteKey(path) == LoginPath ==> r == Render(LoginPage)
    ensures RouteKey(path) != LoginPath && RouteKey(path) != AdminPath && RouteKey(path) != DistributorPath ==> r == Navigate(LoginPath)
    ensures r.Render? && r.page == AdminDashboardPage ==> auth.Some? && auth.value.role == AdminRole
    ensures r.Render? && r.page == DistributorDashboardPage ==> auth.Some? && auth.value.role == DistributorRole
  {
    var key := RouteKey(path);
    if key == LoginPath then Render(LoginPage)
    else if key == AdminPath then RequireAuth(auth, AdminRole, AdminDashboardPage)
    else if key == DistributorPath then RequireAuth(auth, DistributorRole, DistributorDashboardPage)
    else Navigate(LoginPath)
  }

  /** The three paths of the table lead to their own elements. */
  lemma TableRoutes(auth: Option<Auth>)
    ensures Route(LoginPath, auth) == Render(LoginPage)
    ensures Route(AdminPath, auth) == RequireAuth(auth, AdminRole, AdminDashboardPage)
    ensures Route(DistributorPath, auth) == RequireAuth(auth, DistributorRole, DistributorDashboardPage)
  {
    TablePathsAreKeys();
  }

  /** Upper-case letters and a trailing slash do not change where a path leads. */
  lemma RouteIgnoresCaseAndTrailingSlash(path: string, auth: Option<Auth>)
    ensures Route(ToLower(path), auth) == Route(path, auth)
    ensures Route(path + "/", auth) == Route(path, auth)
  {
    ToLowerIdempotent(path);
    ToLowerConcat(path, "/");
    assert ToLower("/") == "/";
    var l := ToLower(path) + "/";
    assert l[..|l| - 1] == ToLower(path);
  }

  /** `/ADMIN/` is the administrator's dashboard. */
  lemma UpperCaseAdminPath(auth: Option<Auth>)
    ensures Route("/ADMIN/", auth) == RequireAuth(auth, AdminRole, AdminDashboardPage)
  {
    RouteIgnoresCaseAndTrailingSlash("/ADMIN", auth);
    assert "/ADMIN" + "/" == "/ADMIN/";
    UpperAdminLowers();
    TableRoutes(auth);
  }

  lemma UpperAdminLowers()
    ensures ToLower("/ADMIN") == AdminPath
  {
    var upper := "/ADMIN";
    ToLowerAt(upper);
    forall i | 0 <= i < |upper|
      ensures ToLower(upper)[i] == AdminPath[i]
    {
    }
  }

  /** Without a login record every path ends on the login page after at
      most one redirect. */
  lemma NoAuthEndsOnLogin(path: string)
    ensures Route(path, None) == Render(LoginPage) || Route(path, None) == Navigate(LoginPath)
    ensures Route(LoginPath, None) == Render(LoginPage)
  {
    TableRoutes(None);
  }

  /** An administrator or a distributor reaches a page on every path after
      at most one redirect: the redirect leads to a path that renders. */
  lemma KnownRoleSettles(path: string, auth: Auth)
    requires auth.role == AdminRole || auth.role == DistributorRole
    ensures Route(path, Some(auth)).Navigate? ==> Route(Route(path, Some(auth)).to, Some(auth)).Render?
  {
    var r := Route(path, Some(auth));
    if r.Navigate? {
      assert r.to == LoginPath || r.to == AdminPath || r.to == DistributorPath;
      TableRoutes(Some(auth));
      assert AdminRole != DistributorRole by {
        assert AdminRole[0] != DistributorRole[0];
      }
      if r.to == AdminPath {
        assert auth.role == AdminRole;
      } else if r.to == DistributorPath {
        assert auth.role == DistributorRole;
      }
    }
  }

  /** A role that is neither is sent from the distributor dashboard to the
      distributor dashboard again: the redirect's target is the path it
      came from, so the guard never lets it through. */
  lemma UnknownRoleRedirectsToItself(auth: Auth)
    requires auth.role != AdminRole && auth.role != DistributorRole
    ensures Route(DistributorPath, Some(auth)) == Navigate(DistributorPath)
    ensures Route(AdminPath, Some(auth)) == Navigate(DistributorPath)
  {
    TableRoutes(Some(auth));
  }
}
