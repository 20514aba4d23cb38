/** The application shell of the top-level client: the title shown for a
    route and the navigation menu, which admins see extended by two
    entries. */
module LayoutRoot {
  import opened Wrappers
  import opened Text

  /** A navigation entry; its icon is not modelled. */
  datatype MenuItem = MenuItem(text: string, path: string)

  const DefaultTitle := "AI Customer Service"
  const DetailsTitle := "Query Details"

  /** The exact-path title table. */
  const Titles: map<string, string> := map[
    "/" := "Dashboard",
    "/queries" := "My Queries",
    "/queries/new" := "Create New Query",
    "/profile" := "Profile",
    "/about" := "About",
    "/admin" := "Admin Dashboard",
    "/admin/queries" := "All Queries"
  ]

  /** A single query's page: below "/queries/", except the creation form. */
  predicate IsDetailsPath(pathname: string) {
    StartsWith(pathname, "/queries/") && pathname != "/queries/new"
  }

  /** `getPageTitle`. Every title in the table is non-empty, so
      `titles[pathname] || default` falls back only for unknown paths. */
  function GetPageTitle(pathname: string): (title: string)
    ensures title != ""
    ensures title == DetailsTitle || title == DefaultTitle || title in Titles.Values
  {
    if IsDetailsPath(pathname) then DetailsTitle
    else if pathname in Titles then Titles[pathname]
    else DefaultTitle
  }

  /** A string that differs from `prefix` at `k` does not start with it. */
  lemma DiffersAt(s: string, prefix: string, k: nat)
    requires k < |prefix| && k < |s| && s[k] != prefix[k]
    ensures !StartsWith(s, prefix)
  {
    if |prefix| <= |s| {
      assert s[..|prefix|][k] == s[k];
    }
  }

  /** The table is never overridden by the details rule: each of the seven
      exact paths gets its own title. */
  lemma ExactPathTitles()
    ensures forall p :: p in Titles ==> GetPageTitle(p) == Titles[p]
  {
    forall p | p in Titles
      ensures !IsDetailsPath(p)
    {
      if p != "/queries/new" && |p| >= 9 {
        assert p == "/admin/queries";
        DiffersAt(p, "/queries/", 1);
      }
    }
  }

  /** The title falls back to the default exactly for the paths that are
      neither in the table nor a query's page. */
  lemma DefaultTitleIff(pathname: string)
    ensures GetPageTitle(pathname) == DefaultTitle <==> !IsDetailsPath(pathname) && pathname !in Titles
  {
    assert DefaultTitle !in Titles.Values;
  }

  /** Any path below "/queries/" other than the creation form is a query's
      page. */
  lemma DetailsPaths(id: string)
    requires id != "new"
    ensures GetPageTitle("/queries/" + id) == DetailsTitle
  {
    var p := "/queries/" + id;
    assert p[..9] == "/queries/";
    assert p[9..] == id;
  }

  const BaseMenu: seq<MenuItem> := [
    MenuItem("Dashboard", "/"),
    MenuItem("My Queries", "/queries"),
    MenuItem("New Query", "/queries/new"),
    MenuItem("About", "/about")
  ]

  const AdminMenu: seq<MenuItem> := [
    MenuItem("Admin Dashboard", "/admin"),
    MenuItem("All Queries", "/admin/queries")
  ]

  predicate IsAdmin(role: Option<string>) {
    role == Some("admin")
  }

  /** `menuItems` for a user of role `role` (`None` when there is no
      user): the base list, extended in place for admins. Every entry
      leads to a page with a title of its own. */
  method MenuItems(role: Option<string>) returns (items: seq<MenuItem>)
    ensures !IsAdmin(role) ==> items == BaseMenu
    ensures IsAdmin(role) ==> items == BaseMenu + AdminMenu
    ensures forall i :: 0 <= i < |items| ==>
      items[i].path in Titles && GetPageTitle(items[i].path) == Titles[items[i].path]
  {
    items := BaseMenu;
    if IsAdmin(role) {
      items := items + AdminMenu;
    }
    ExactPathTitles();
  }
}
