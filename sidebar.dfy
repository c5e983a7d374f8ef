/** The dashboard's navigation: the grouped link table, which link is
    highlighted for the current location, the section headings or dividers
    depending on the collapsed state, and closing the drawer after a click
    on a narrow screen. */
module Sidebar {
  import opened Shared
  import opened Text

  /** One link; `exact` links are active only on their own path, the others
      on every path that starts with theirs. */
  datatype NavItem = NavItem(path: string, caption: string, exact: bool)

  datatype NavGroup = NavGroup(section: Option<string>, items: seq<NavItem>)

  const Home: string := "/dashboard"

  /** A page below the dashboard. */
  function SubPath(name: string): string
  {
    Home + "/" + name
  }

  /** The links in the order they are drawn. */
  const Links: seq<NavItem> := [
    NavItem(Home, "Dashboard", true),
    NavItem(SubPath("analyzer"), "Document Analyzer", false),
    NavItem(SubPath("reasoning"), "Legal Reasoning", false),
    NavItem(SubPath("knowledge-graph"), "Knowledge Graph", false),
    NavItem(SubPath("risk-detection"), "Risk Detection", false),
    NavItem(SubPath("documents"), "My Documents", false),
    NavItem(SubPath("history"), "History", false),
    NavItem(SubPath("settings"), "Settings", false),
    NavItem(SubPath("help"), "Help & Support", false)
  ]

  /** The links grouped under their section headings. */
  const NavGroups: seq<NavGroup> := [
    NavGroup(None, Links[..1]),
    NavGroup(Some("PROCESSING"), Links[1..5]),
    NavGroup(Some("MANAGEMENT"), Links[5..8]),
    NavGroup(None, Links[8..])
  ]

  /** The links of the groups, one group after another. */
  function Items(groups: seq<NavGroup>): (r: seq<NavItem>)
    ensures forall g, it :: g in groups && it in g.items ==> it in r
    ensures forall it :: it in r ==> exists g :: g in groups && it in g.items
  {
    if groups == [] then []
    else groups[0].items + Items(groups[1..])
  }

  /** The pages below the dashboard that have links, in drawing order. */
  const SubNames: seq<string> :=
    ["analyzer", "reasoning", "knowledge-graph", "risk-detection", "documents", "history", "settings", "help"]

  /** isActive for the current pathname. */
  predicate IsActive(pathname: string, item: NavItem)
  {
    if item.exact then pathname == item.path else StartsWith(pathname, item.path)
  }

  /** The groups draw the links in order: the exact dashboard link, then
      one prefix link per sub-page. */
  lemma ItemPaths()
    ensures Items(NavGroups) == Links
    ensures |Links| == |SubNames| + 1 && Links[0].path == Home && Links[0].exact
    ensures forall i :: 0 <= i < |SubNames| ==> Links[i + 1].path == SubPath(SubNames[i]) && !Links[i + 1].exact
  {
    var g := NavGroups;
    assert Items(g[3..]) == g[3].items;
    assert Items(g[2..]) == g[2].items + g[3].items;
    assert Items(g[1..]) == g[1].items + (g[2].items + g[3].items);
    assert Links == Links[..1] + (Links[1..5] + (Links[5..8] + Links[8..]));
  }

  /** No two sub-page names share their first two characters, and each has
      at least two. */
  lemma NamesSeparated()
    ensures forall i :: 0 <= i < |SubNames| ==> |SubNames[i]| >= 2
    ensures forall i, j :: 0 <= i < j < |SubNames| ==> SubNames[i][..2] != SubNames[j][..2]
  {
    assert SubNames[1][..2] == "re" && SubNames[3][..2] == "ri";
    assert SubNames[5][..2] == "hi" && SubNames[7][..2] == "he";
    assert SubNames[0][..2] == "an" && SubNames[2][..2] == "kn" && SubNames[4][..2] == "do";
    assert SubNames[6][..2] == "se";
  }

  /** Sub-page paths compare as their names do. */
  lemma SubPathStartsWith(a: string, b: string)
    ensures StartsWith(SubPath(a), SubPath(b)) <==> StartsWith(a, b)
  {
    var n := |Home + "/"|;
    assert SubPath(a)[n..] == a && SubPath(b)[n..] == b;
    assert SubPath(a)[..n] == SubPath(b)[..n];
    if StartsWith(SubPath(a), SubPath(b)) {
      assert a[..|b|] == SubPath(a)[..|SubPath(b)|][n..];
    }
    if StartsWith(a, b) {
      assert SubPath(a)[..|SubPath(b)|] == Home + "/" + a[..|b|];
    }
  }

  /** On a sub-page's own path exactly its link is active. */
  lemma OneActiveLink(i: nat, j: nat)
    requires i < |SubNames| && j < |SubNames|
    ensures IsActive(SubPath(SubNames[i]), Links[j + 1]) <==> i == j
    ensures !IsActive(SubPath(SubNames[i]), Links[0])
  {
    ItemPaths();
    NamesSeparated();
    SubPathStartsWith(SubNames[i], SubNames[j]);
    var a, b := SubNames[i], SubNames[j];
    if StartsWith(a, b) {
      assert a[..2] == a[..|b|][..2];
    }
    assert |SubPath(a)| > |Home|;
  }

  /** On the dashboard itself only the dashboard link is active. */
  lemma HomeActive(j: nat)
    requires j < |SubNames|
    ensures IsActive(Home, Links[0])
    ensures !IsActive(Home, Links[j + 1])
  {
    ItemPaths();
  }

  /** Anywhere below a sub-page, the exact dashboard link stays off and the
      sub-page's link is on. */
  lemma DeepLinks(i: nat, rest: string)
    requires i < |SubNames|
    ensures !IsActive(SubPath(SubNames[i]) + rest, Links[0])
    ensures IsActive(SubPath(SubNames[i]) + rest, Links[i + 1])
  {
    ItemPaths();
    var p := SubPath(SubNames[i]);
    assert (p + rest)[..|p|] == p;
    assert |p + rest| > |Home|;
  }

  /** A group with a section shows its heading when expanded and a divider
      when collapsed; a group without one shows neither. */
  predicate HeadingShown(g: NavGroup, collapsed: bool)
  {
    g.section.Some? && !collapsed
  }

  predicate DividerShown(g: NavGroup, collapsed: bool)
  {
    g.section.Some? && collapsed
  }

  lemma HeadingOrDivider(g: NavGroup, collapsed: bool)
    ensures HeadingShown(g, collapsed) ==> !DividerShown(g, collapsed)
    ensures g.section.Some? ==> HeadingShown(g, collapsed) || DividerShown(g, collapsed)
    ensures g.section.None? ==> !HeadingShown(g, collapsed) && !DividerShown(g, collapsed)
  {
  }

  /** A link click closes the drawer on screens narrower than 1024 pixels
      and leaves it alone otherwise. */
  function AfterLinkClick(isOpen: bool, innerWidth: int): bool
  {
    if innerWidth < 1024 then false else isOpen
  }

  lemma LinkClickCloses(isOpen: bool, innerWidth: int)
    ensures innerWidth < 1024 ==> !AfterLinkClick(isOpen, innerWidth)
    ensures innerWidth >= 1024 ==> AfterLinkClick(isOpen, innerWidth) == isOpen
    ensures !isOpen ==> !AfterLinkClick(isOpen, innerWidth)
  {
  }
}
