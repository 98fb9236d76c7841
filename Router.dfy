/**
 * The application's routes: the two guards that send a visitor to the login
 * page or to the task list according to the authentication flag, and the
 * route table that places each page behind one of them.
 */
module Router {

  /** What a guard renders: a redirect, or the child route through `<Outlet />`. */
  datatype Rendered = Redirect(to: string) | Outlet

  /** `PrivateRoute`: signed-out visitors go to the login page. */
  function PrivateRoute(isAuthenticated: bool): (r: Rendered)
    ensures r == Outlet <==> isAuthenticated
    ensures r != Outlet ==> r == Redirect("/login")
  {
    if !isAuthenticated then Redirect("/login") else Outlet
  }

  /** `PublicRoute`: signed-in visitors go to the task list. */
  function PublicRoute(isAuthenticated: bool): (r: Rendered)
    ensures r == Outlet <==> !isAuthenticated
    ensures r != Outlet ==> r == Redirect("/tasks")
  {
    if isAuthenticated then Redirect("/tasks") else Outlet
  }

  /** Whatever the authentication state, exactly one of the two guards lets its routes through. */
  lemma ExactlyOneGuardOpens(isAuthenticated: bool)
    ensures (PrivateRoute(isAuthenticated) == Outlet) != (PublicRoute(isAuthenticated) == Outlet)
  {
  }

  datatype Guard = PublicGuard | PrivateGuard

  datatype Element = Guarded(guard: Guard) | Navigate(to: string) | Layout | Page(name: string)

  datatype Route = Route(path: string, element: Element, children: seq<Route>)

  const PrivatePaths: seq<string> := ["tasks", "add-task", "edit-task/:id", "import-data", "export-data"]

  const ThemeRoutes: seq<Route> := [
    Route("/", Guarded(PublicGuard), [
      Route("/", Navigate("/login"), []),
      Route("login", Page("Login"), []),
      Route("register", Page("Register"), [])
    ]),
    Route("/", Guarded(PrivateGuard), [
      Route("/", Layout, [
        Route("tasks", Page("Task"), []),
        Route("add-task", Page("AddTask"), []),
        Route("edit-task/:id", Page("EditPackage"), []),
        Route("import-data", Page("Import"), []),
        Route("export-data", Page("ExportData"), [])
      ])
    ]),
    Route("access-denied", Page("AccessDenied"), [])
  ]

  function Paths(routes: seq<Route>): (r: seq<string>)
    ensures |r| == |routes|
    ensures forall i :: 0 <= i < |routes| ==> r[i] == routes[i].path
  {
    seq(|routes|, i requires 0 <= i < |routes| => routes[i].path)
  }

  /** The pages behind the private guard are exactly the five of the application's screens, all
      inside the full layout, and the public guard holds the login and register pages. */
  lemma RouteTableFacts()
    ensures ThemeRoutes[1].element == Guarded(PrivateGuard) && ThemeRoutes[1].children[0].element == Layout
    ensures Paths(ThemeRoutes[1].children[0].children) == PrivatePaths
    ensures ThemeRoutes[0].element == Guarded(PublicGuard)
    ensures Paths(ThemeRoutes[0].children) == ["/", "login", "register"]
    ensures ThemeRoutes[0].children[0].element == Navigate("/login")
  {
  }

  /** What a visitor sees on one route of the table: the guard above it decides first. */
  datatype View = Shows(page: string) | RedirectedTo(to: string)

  function Visit(guard: Guard, element: Element, isAuthenticated: bool): View
  {
    var gate := if guard == PrivateGuard then PrivateRoute(isAuthenticated) else PublicRoute(isAuthenticated);
    match gate
    case Redirect(to) => RedirectedTo(to)
    case Outlet =>
      match element
      case Navigate(to) => RedirectedTo(to)
      case Page(name) => Shows(name)
      case _ => Shows("")
  }

  /** A signed-out visitor of a private page lands on `/login`, which shows the login page; a
      signed-in visitor of a public route lands on `/tasks`, which shows the task list. */
  lemma RedirectsLandOnPages(isAuthenticated: bool, k: nat)
    requires k < |ThemeRoutes[1].children[0].children|
    ensures !isAuthenticated ==>
      Visit(PrivateGuard, ThemeRoutes[1].children[0].children[k].element, false) == RedirectedTo("/login")
      && Visit(PublicGuard, ThemeRoutes[0].children[1].element, false) == Shows("Login")
    ensures isAuthenticated ==>
      Visit(PublicGuard, ThemeRoutes[0].children[1].element, true) == RedirectedTo("/tasks")
      && Visit(PrivateGuard, ThemeRoutes[1].children[0].children[0].element, true) == Shows("Task")
  {
  }
}
