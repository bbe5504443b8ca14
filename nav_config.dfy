/** The side-navigation menu and its agreement with the route table. */
module NavConfig {
  import opened Wrappers
  import opened Storage
  import Auth
  import Routes

  /** The only behaviour a menu item carries besides its link. */
  datatype NavAction = CallLogout

  datatype NavItem = NavItem(title: string, path: string, roles: Option<seq<int>>, onClick: Option<NavAction>)

  /** `navData`, in menu order. */
  const NavData: seq<NavItem> := [
    NavItem("Dashboard", "/", Some([1, 3]), None),
    NavItem("Category", "/category", Some([1]), None),
    NavItem("User", "/user", Some([1]), None),
    NavItem("Approvals", "/approvals", Some([1]), None),
    NavItem("Events", "/events", Some([1, 3]), None),
    NavItem("City", "/city", Some([1]), None),
    NavItem("Logout", "#", None, Some(CallLogout))
  ]

  /** The innermost guard's role list of the route a path matches, or `None` when it has no guard. */
  function InnermostRoles(path: string): (r: Option<seq<int>>)
    ensures Routes.Match(path).guards == [] ==> r == None
  {
    var g := Routes.Match(path).guards;
    if g == [] then None else g[|g| - 1]
  }

  /** Menu item `i` with a role list links to a route whose innermost guard admits
      exactly those roles, and shows a dashboard page. */
  lemma NavItemMirrorsRoute(i: nat)
    requires i < |NavData| && NavData[i].roles.Some?
    ensures InnermostRoles(NavData[i].path) == NavData[i].roles
    ensures Routes.Match(NavData[i].path).path == NavData[i].path
    ensures Routes.IsDashboardPage(Routes.Match(NavData[i].path).page)
  {
    var k := [0, 1, 2, 3, 5, 4][i];
    assert NavData[i].path == Routes.RoutesSection[k].path;
    Routes.MatchEntry(k);
    Routes.GuardLayout(Routes.RoutesSection[k]);
  }

  lemma NavMirrorsRoutes()
    ensures forall i :: 0 <= i < |NavData| && NavData[i].roles.Some? ==>
      InnermostRoles(NavData[i].path) == NavData[i].roles
      && Routes.Match(NavData[i].path).path == NavData[i].path
      && Routes.IsDashboardPage(Routes.Match(NavData[i].path).page)
  {
    forall i | 0 <= i < |NavData| && NavData[i].roles.Some?
      ensures InnermostRoles(NavData[i].path) == NavData[i].roles
      ensures Routes.Match(NavData[i].path).path == NavData[i].path
      ensures Routes.IsDashboardPage(Routes.Match(NavData[i].path).page)
    {
      NavItemMirrorsRoute(i);
    }
  }

  /** Conversely, every dashboard route has a menu item with the same roles. */
  lemma RoutesHaveNavItems()
    ensures forall j :: 0 <= j < |Routes.RoutesSection| && Routes.IsDashboardPage(Routes.RoutesSection[j].page) ==>
      exists i :: 0 <= i < |NavData| && NavData[i].path == Routes.RoutesSection[j].path
        && NavData[i].roles == Some(Routes.RolesOf(Routes.RoutesSection[j].page))
  {
    assert NavData[0].path == Routes.RoutesSection[0].path;
    assert NavData[1].path == Routes.RoutesSection[1].path;
    assert NavData[2].path == Routes.RoutesSection[2].path;
    assert NavData[3].path == Routes.RoutesSection[3].path;
    assert NavData[4].path == Routes.RoutesSection[5].path;
    assert NavData[5].path == Routes.RoutesSection[4].path;
  }

  /** The Logout item is the one item without roles or a real path, and the only one with an action. */
  lemma LogoutItem()
    ensures forall i :: 0 <= i < |NavData| ==>
      (NavData[i].onClick.Some? <==> NavData[i].title == "Logout")
      && (NavData[i].roles.None? <==> NavData[i].title == "Logout")
    ensures NavData[6] == NavItem("Logout", "#", None, Some(CallLogout))
  {
  }

  /** Running an item's `onClick`: the Logout item delegates to `logout`; the others have none. */
  method RunOnClick(item: NavItem, store: LocalStorage) returns (redirect: Option<string>)
    modifies store
    ensures item.onClick == Some(CallLogout) ==>
      store.items == Auth.AfterLogout(old(store.items)) && redirect == Some(Auth.SignInPath)
    ensures item.onClick.None? ==> store.items == old(store.items) && redirect == None
  {
    match item.onClick
    case Some(CallLogout) =>
      var to := Auth.Logout(store);
      redirect := Some(to);
    case None =>
      redirect := None;
  }
}
