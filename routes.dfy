/** The route table: which page each path shows and which guards stand in front of it. */
module Routes {
  import opened Wrappers
  import opened Strings
  import opened Auth
  import opened ProtectedRoute

  /** The lazily loaded pages (`ProductsPage` is the events page). */
  datatype Page = DashboardPage | CategoryPage | UserPage | ApprovalPage | CityPage | ProductsPage | SignInPage | Page404

  /** The pages inside the dashboard layout. */
  predicate IsDashboardPage(p: Page)
  {
    p != SignInPage && p != Page404
  }

  /** A leaf of the route tree: its full path, the `ProtectedRoute` wrappers on the way to
      it from the outermost in (each with its `allowedRoles`), and its page. */
  datatype RouteEntry = RouteEntry(path: string, guards: seq<Option<seq<int>>>, page: Page)

  const AdminAndOrganizer: seq<int> := [1, 3]
  const AdminOnly: seq<int> := [1]

  /** `routesSection`: the dashboard children sit under an outer guard without roles and
      an inner guard with their own roles; `sign-in` and `404` have no guard. */
  const RoutesSection: seq<RouteEntry> := [
    RouteEntry("/", [None, Some(AdminAndOrganizer)], DashboardPage),
    RouteEntry("/category", [None, Some(AdminOnly)], CategoryPage),
    RouteEntry("/user", [None, Some(AdminOnly)], UserPage),
    RouteEntry("/approvals", [None, Some(AdminOnly)], ApprovalPage),
    RouteEntry("/city", [None, Some(AdminOnly)], CityPage),
    RouteEntry("/events", [None, Some(AdminAndOrganizer)], ProductsPage),
    RouteEntry("/sign-in", [], SignInPage),
    RouteEntry("/404", [], Page404)
  ]

  /** `{ path: '*', element: <Page404 /> }` */
  const CatchAll := RouteEntry("*", [], Page404)

  /** The first entry of `table` whose path is `pathname`, else the catch-all. */
  function MatchIn(table: seq<RouteEntry>, pathname: string): (e: RouteEntry)
    ensures (e in table && e.path == pathname)
      || (e == CatchAll && forall i :: 0 <= i < |table| ==> table[i].path != pathname)
    decreases |table|
  {
    if table == [] then CatchAll
    else if table[0].path == pathname then table[0]
    else MatchIn(table[1..], pathname)
  }

  function Match(pathname: string): RouteEntry
  {
    MatchIn(RoutesSection, pathname)
  }

  /** What a navigation ends in: a page on screen, or a redirect. */
  datatype NavResult = Show(page: Page) | Redirected(to: string, from: Option<string>)

  /** The nested guards, outermost first: the first that does not render decides. */
  function RunGuards(guards: seq<Option<seq<int>>>, token: Option<string>, location: string, decode: Decoder, nowMs: int): (o: GuardOutcome)
    ensures guards != [] && o == RenderChildren ==> SessionUsable(token, decode, nowMs)
    ensures o == RenderChildren <==> forall i :: 0 <= i < |guards| ==> Guard(token, guards[i], location, decode, nowMs) == RenderChildren
    decreases |guards|
  {
    if guards == [] then RenderChildren
    else
      var first := Guard(token, guards[0], location, decode, nowMs);
      if first != RenderChildren then first else RunGuards(guards[1..], token, location, decode, nowMs)
  }

  /** Navigating to `pathname` with the token currently stored. */
  function Navigate(pathname: string, token: Option<string>, decode: Decoder, nowMs: int): NavResult
  {
    var entry := Match(pathname);
    match RunGuards(entry.guards, token, pathname, decode, nowMs)
    case RenderChildren => Show(entry.page)
    case Redirect(to, from) => Redirected(to, from)
  }

  /** The roles each dashboard page admits. */
  function RolesOf(p: Page): seq<int>
  {
    if p == DashboardPage || p == ProductsPage then AdminAndOrganizer else AdminOnly
  }

  /** Every dashboard page sits under an outer guard without roles and an inner guard
      with its own roles, and no page outside the dashboard has a guard. */
  lemma GuardLayout(e: RouteEntry)
    requires e in RoutesSection || e == CatchAll
    ensures IsDashboardPage(e.page) ==> e.guards == [None, Some(RolesOf(e.page))]
    ensures !IsDashboardPage(e.page) ==> e.guards == []
  {
  }

  /** No two entries of the table share a path. */
  predicate PathsDistinct(table: seq<RouteEntry>)
  {
    forall i, j :: 0 <= i < j < |table| ==> table[i].path != table[j].path
  }

  lemma {:induction false} MatchInEntry(table: seq<RouteEntry>, i: nat)
    requires i < |table| && PathsDistinct(table)
    ensures MatchIn(table, table[i].path) == table[i]
    decreases i
  {
    if i > 0 {
      assert table[0].path != table[i].path;
      assert table[1..][i - 1] == table[i];
      MatchInEntry(table[1..], i - 1);
    }
  }

  lemma RoutePathsDistinct()
    ensures PathsDistinct(RoutesSection)
  {
    var t := RoutesSection;
    assert t[4].path[1] == 'c' && t[2].path[1] == 'u';
  }

  /** Each path of the table matches its own entry. */
  lemma MatchEntry(i: nat)
    requires i < |RoutesSection|
    ensures Match(RoutesSection[i].path) == RoutesSection[i]
  {
    RoutePathsDistinct();
    MatchInEntry(RoutesSection, i);
  }

  /** The two nested guards in front of a dashboard page. */
  lemma TwoGuards(roles: seq<int>, token: Option<string>, location: string, decode: Decoder, nowMs: int)
    ensures !SessionUsable(token, decode, nowMs) ==>
      RunGuards([None, Some(roles)], token, location, decode, nowMs) == Redirect(SignInPath, None)
    ensures SessionUsable(token, decode, nowMs) ==>
      RunGuards([None, Some(roles)], token, location, decode, nowMs) ==
        (if RoleListed(roles, SessionClaims(token, decode, nowMs).roleId) then RenderChildren
         else Redirect(NotFoundPath, Some(location)))
  {
    var g := [None, Some(roles)];
    assert g[1..] == [Some(roles)];
    assert g[1..][1..] == [];
  }

  /** Navigating to a path whose entry is a dashboard page. */
  lemma NavigateDashboard(pathname: string, token: Option<string>, decode: Decoder, nowMs: int)
    requires IsDashboardPage(Match(pathname).page)
    ensures Navigate(pathname, token, decode, nowMs) ==
      (if !SessionUsable(token, decode, nowMs) then Redirected(SignInPath, None)
       else if RoleListed(RolesOf(Match(pathname).page), SessionClaims(token, decode, nowMs).roleId) then Show(Match(pathname).page)
       else Redirected(NotFoundPath, Some(pathname)))
  {
    GuardLayout(Match(pathname));
    TwoGuards(RolesOf(Match(pathname).page), token, pathname, decode, nowMs);
  }

  /** The role lists of the dashboard paths. */
  lemma RouteRoles()
    ensures Match("/").guards == [None, Some([1, 3])] && Match("/").page == DashboardPage
    ensures Match("/category").guards == [None, Some([1])] && Match("/category").page == CategoryPage
    ensures Match("/user").guards == [None, Some([1])] && Match("/user").page == UserPage
    ensures Match("/approvals").guards == [None, Some([1])] && Match("/approvals").page == ApprovalPage
    ensures Match("/city").guards == [None, Some([1])] && Match("/city").page == CityPage
    ensures Match("/events").guards == [None, Some([1, 3])] && Match("/events").page == ProductsPage
  {
    MatchEntry(0);
    MatchEntry(1);
    MatchEntry(2);
    MatchEntry(3);
    MatchEntry(4);
    MatchEntry(5);
  }

  /** A dashboard page shows only over a usable session. */
  lemma DashboardNeedsSession(pathname: string, token: Option<string>, decode: Decoder, nowMs: int)
    requires Navigate(pathname, token, decode, nowMs).Show?
    requires IsDashboardPage(Navigate(pathname, token, decode, nowMs).page)
    ensures SessionUsable(token, decode, nowMs)
  {
    GuardLayout(Match(pathname));
    if IsDashboardPage(Match(pathname).page) {
      NavigateDashboard(pathname, token, decode, nowMs);
    }
  }

  /** Without a usable session, every dashboard path redirects to sign-in. */
  lemma NoSessionRedirectsToSignIn(pathname: string, token: Option<string>, decode: Decoder, nowMs: int)
    requires IsDashboardPage(Match(pathname).page)
    requires !SessionUsable(token, decode, nowMs)
    ensures Navigate(pathname, token, decode, nowMs) == Redirected(SignInPath, None)
  {
    NavigateDashboard(pathname, token, decode, nowMs);
  }

  /** The sign-in and not-found pages show for everyone, and so does any unknown path. */
  lemma PublicPaths(pathname: string, token: Option<string>, decode: Decoder, nowMs: int)
    ensures Navigate("/sign-in", token, decode, nowMs) == Show(SignInPage)
    ensures Navigate("/404", token, decode, nowMs) == Show(Page404)
    ensures (forall i :: 0 <= i < |RoutesSection| ==> RoutesSection[i].path != pathname) ==>
      Navigate(pathname, token, decode, nowMs) == Show(Page404)
  {
    MatchEntry(6);
    MatchEntry(7);
  }

  /** `/login` is not a route: it falls through to the catch-all. */
  lemma LoginIsNotFound(token: Option<string>, decode: Decoder, nowMs: int)
    ensures Navigate("/login", token, decode, nowMs) == Show(Page404)
  {
    var e := Match("/login");
    if e != CatchAll {
      assert false;
    }
  }

  /** Role 3 reaches the dashboard and the events page and no other dashboard page. */
  lemma OrganizerReach(pathname: string, token: Option<string>, decode: Decoder, nowMs: int)
    requires SessionUsable(token, decode, nowMs) && SessionClaims(token, decode, nowMs).roleId == Some(3)
    requires IsDashboardPage(Match(pathname).page)
    ensures Navigate(pathname, token, decode, nowMs).Show? <==> Match(pathname).page in {DashboardPage, ProductsPage}
  {
    NavigateDashboard(pathname, token, decode, nowMs);
    assert RoleListed(AdminAndOrganizer, Some(3));
    assert !RoleListed(AdminOnly, Some(3));
  }

  /** Role 1 reaches every dashboard page. */
  lemma AdminReach(pathname: string, token: Option<string>, decode: Decoder, nowMs: int)
    requires SessionUsable(token, decode, nowMs) && SessionClaims(token, decode, nowMs).roleId == Some(1)
    requires IsDashboardPage(Match(pathname).page)
    ensures Navigate(pathname, token, decode, nowMs) == Show(Match(pathname).page)
  {
    NavigateDashboard(pathname, token, decode, nowMs);
    assert RoleListed(AdminAndOrganizer, Some(1));
    assert RoleListed(AdminOnly, Some(1));
  }

  /** A session whose role is neither 1 nor 3 (or is missing) reaches no dashboard page:
      it is sent to the not-found page. */
  lemma OtherRolesReachNothing(pathname: string, token: Option<string>, decode: Decoder, nowMs: int)
    requires SessionUsable(token, decode, nowMs)
    requires SessionClaims(token, decode, nowMs).roleId !in {Some(1), Some(3)}
    requires IsDashboardPage(Match(pathname).page)
    ensures Navigate(pathname, token, decode, nowMs) == Redirected(NotFoundPath, Some(pathname))
  {
    NavigateDashboard(pathname, token, decode, nowMs);
    var r := SessionClaims(token, decode, nowMs).roleId;
    assert !RoleListed(AdminAndOrganizer, r);
    assert !RoleListed(AdminOnly, r);
  }

  /** Every redirect leads to a page that shows without a guard, so redirects never chain. */
  lemma RedirectsLandOnPublicPages(pathname: string, token: Option<string>, token2: Option<string>, decode: Decoder, nowMs: int, later: int)
    requires Navigate(pathname, token, decode, nowMs).Redirected?
    ensures Navigate(pathname, token, decode, nowMs).to in {SignInPath, NotFoundPath}
    ensures Navigate(Navigate(pathname, token, decode, nowMs).to, token2, decode, later).Show?
  {
    GuardLayout(Match(pathname));
    if IsDashboardPage(Match(pathname).page) {
      NavigateDashboard(pathname, token, decode, nowMs);
    }
    PublicPaths(pathname, token2, decode, later);
  }
}
