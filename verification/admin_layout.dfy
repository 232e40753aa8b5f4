/** The admin sidebar: which navigation entry is highlighted for the
    current route. */
module AdminLayout {
  import opened Text

  /** One sidebar entry; `end` asks for an exact match of the route. */
  datatype NavItem = NavItem(path: string, name: string, end: bool)

  /** The sidebar entries in display order. */
  const NavItems: seq<NavItem> := [
    NavItem("/admin", "Tableau de bord", true),
    NavItem("/admin/evaluations", "Évaluations", false),
    NavItem("/admin/entreprises", "Entreprises", false),
    NavItem("/admin/settings", "Paramètres", false)
  ]

  /** `isActive`: an exact match for an `end` entry, a prefix match
      otherwise. */
  predicate IsActive(pathname: string, item: NavItem) {
    if item.end then pathname == item.path else StartsWith(pathname, item.path)
  }

  /** The dashboard entry is the only one asking for an exact match, and its
      path is a prefix of every other entry's path. */
  lemma DashboardIsPrefixOfAll()
    ensures NavItems[0].end && forall j :: 1 <= j < |NavItems| ==> !NavItems[j].end
    ensures forall j :: 0 <= j < |NavItems| ==> StartsWith(NavItems[j].path, NavItems[0].path)
  {
    assert NavItems[1].path[..6] == "/admin";
    assert NavItems[2].path[..6] == "/admin";
    assert NavItems[3].path[..6] == "/admin";
  }

  /** Despite being a prefix of every admin route, the dashboard entry is
      highlighted only on "/admin" itself. */
  lemma DashboardOnlyAtRoot(pathname: string)
    ensures IsActive(pathname, NavItems[0]) <==> pathname == "/admin"
  {
  }

  /** On a section's own route or any route below it, that section's entry
      is the only one highlighted. */
  lemma OneActiveInSection(pathname: string, i: int)
    requires 1 <= i < |NavItems|
    requires StartsWith(pathname, NavItems[i].path)
    ensures forall j :: 0 <= j < |NavItems| ==> (IsActive(pathname, NavItems[j]) <==> j == i)
  {
    var p := pathname;
    assert p != "/admin" by { assert |p| >= |NavItems[i].path| > 6; }
    assert p[..|NavItems[i].path|] == NavItems[i].path;
    assert p[8] == NavItems[i].path[8];
    forall j | 1 <= j < |NavItems| && j != i
      ensures !StartsWith(p, NavItems[j].path)
    {
      assert NavItems[j].path[8] != NavItems[i].path[8];
    }
  }

  /** On each of the four admin routes exactly one entry is highlighted:
      the entry for that route. */
  lemma OneActivePerRoute(i: int)
    requires 0 <= i < |NavItems|
    ensures forall j :: 0 <= j < |NavItems| ==> (IsActive(NavItems[i].path, NavItems[j]) <==> j == i)
  {
    if i == 0 {
      forall j | 1 <= j < |NavItems|
        ensures !StartsWith(NavItems[0].path, NavItems[j].path)
      {
        assert |NavItems[j].path| > |NavItems[0].path|;
      }
    } else {
      OneActiveInSection(NavItems[i].path, i);
    }
  }

  /** With a trailing slash on the dashboard route no entry is highlighted. */
  lemma TrailingSlashHighlightsNothing()
    ensures forall j :: 0 <= j < |NavItems| ==> !IsActive("/admin/", NavItems[j])
  {
    forall j | 1 <= j < |NavItems|
      ensures !StartsWith("/admin/", NavItems[j].path)
    {
      assert |NavItems[j].path| > |"/admin/"|;
    }
  }
}
