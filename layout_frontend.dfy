/** The application shell of the `frontend` client: the same shell as the
    top-level one, without the About page. */
module LayoutFrontend {
  import opened Wrappers
  import opened Text
  import Root = LayoutRoot

  /** The exact-path title table: six paths, no "/about". */
  const Titles: map<string, string> := map[
    "/" := "Dashboard",
    "/queries" := "My Queries",
    "/queries/new" := "Create New Query",
    "/profile" := "Profile",
    "/admin" := "Admin Dashboard",
    "/admin/queries" := "All Queries"
  ]

  /** `getPageTitle` of this client. */
  function GetPageTitle(pathname: string): (title: string)
    ensures title != ""
    ensures title == Root.DetailsTitle || title == Root.DefaultTitle || title in Titles.Values
  {
    if Root.IsDetailsPath(pathname) then Root.DetailsTitle
    else if pathname in Titles then Titles[pathname]
    else Root.DefaultTitle
  }

  /** The About page is unknown here and gets the default title. */
  lemma AboutIsUnknown()
    ensures GetPageTitle("/about") == Root.DefaultTitle
  {
    assert "/about"[..|"/about"|] != "/queries/";
  }

  /** The two clients title every path alike, except "/about". */
  lemma TitlesAgreeExceptAbout(pathname: string)
    ensures pathname != "/about" <==> GetPageTitle(pathname) == Root.GetPageTitle(pathname)
  {
    assert Titles == Root.Titles - {"/about"};
    if pathname == "/about" {
      AboutIsUnknown();
      Root.ExactPathTitles();
    }
  }

  const BaseMenu: seq<Root.MenuItem> := [
    Root.MenuItem("Dashboard", "/"),
    Root.MenuItem("My Queries", "/queries"),
    Root.MenuItem("New Query", "/queries/new")
  ]

  const AdminMenu: seq<Root.MenuItem> := [
    Root.MenuItem("Admin Dashboard", "/admin"),
    Root.MenuItem("All Queries", "/admin/queries")
  ]

  /** `menuItems` of this client: the top-level client's menu without the
      About entry; every entry leads to a page with a title of its own. */
  method MenuItems(role: Option<string>) returns (items: seq<Root.MenuItem>)
    ensures !Root.IsAdmin(role) ==> items == Root.BaseMenu[..3]
    ensures Root.IsAdmin(role) ==> items == Root.BaseMenu[..3] + Root.AdminMenu
    ensures forall i :: 0 <= i < |items| ==>
      items[i].path in Titles && GetPageTitle(items[i].path) == Titles[items[i].path]
  {
    items := BaseMenu;
    if Root.IsAdmin(role) {
      items := items + AdminMenu;
    }
    assert !StartsWith("/admin/queries", "/queries/") by {
      Root.DiffersAt("/admin/queries", "/queries/", 1);
    }
  }
}
