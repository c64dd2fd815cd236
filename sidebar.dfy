/** frontend/app/components/admin/sidebar.tsx: the admin navigation's
    active-path predicates and its expand/collapse state. */
module Sidebar {

  import opened Common

  datatype NavItem = NavItem(name: string, href: string)

  datatype NavSection = NavSection(title: string, items: seq<NavItem>)

  /** The navigation table. */
  const Sections: seq<NavSection> := [
    NavSection("Dashboard", [NavItem("Overview", "/admin"), NavItem("Analytics", "/admin/analytics")]),
    NavSection("Knowledge Base", [
      NavItem("Documents", "/admin/knowledge/documents"), NavItem("Upload", "/admin/knowledge/upload"),
      NavItem("Search", "/admin/knowledge/search"), NavItem("Jobs", "/admin/knowledge/jobs")]),
    NavSection("Agents", [
      NavItem("All Agents", "/admin/agents"), NavItem("Create Agent", "/admin/agents/create"),
      NavItem("Templates", "/admin/agents/templates")]),
    NavSection("Data Management", [NavItem("Datasets", "/admin/datasets"), NavItem("Create Dataset", "/admin/datasets/create")]),
    NavSection("AI Configuration", [
      NavItem("LLM Models", "/admin/models/llm"), NavItem("Embeddings", "/admin/models/embeddings"),
      NavItem("Reranker", "/admin/models/reranker")]),
    NavSection("System", [
      NavItem("Users", "/admin/users"), NavItem("Workspace", "/admin/workspace"), NavItem("Settings", "/admin/settings")])
  ]

  /** `isItemActive`: the overview link only on exactly `/admin`, every other
      link on any path it is a plain string prefix of. */
  function IsItemActive(pathname: string, href: string): (r: bool)
    ensures href == "/admin" ==> (r <==> pathname == "/admin")
    ensures href != "/admin" ==> (r <==> href <= pathname)
  {
    if href == "/admin" then pathname == "/admin" else href <= pathname
  }

  /** `isSectionActive`: `items.some(...)`. */
  function IsSectionActive(pathname: string, items: seq<NavItem>): (r: bool)
    ensures r <==> exists i :: 0 <= i < |items| && IsItemActive(pathname, items[i].href)
  {
    if items == [] then false
    else IsItemActive(pathname, items[0].href) || IsSectionActive(pathname, items[1..])
  }

  /** Prefix matching lets two links be active at once. */
  lemma TwoItemsActive()
    ensures IsItemActive("/admin/agents/create", "/admin/agents")
    ensures IsItemActive("/admin/agents/create", "/admin/agents/create")
  {
  }

  /** The Dashboard section lights up only on `/admin` itself and under
      `/admin/analytics`. */
  lemma {:induction false} DashboardActiveIff(pathname: string)
    ensures IsSectionActive(pathname, Sections[0].items)
        <==> pathname == "/admin" || "/admin/analytics" <= pathname
  {
    var items := Sections[0].items;
    assert items[1..][1..] == [];
    assert IsSectionActive(pathname, items[1..][1..]) == false;
  }

  /** `expandedSection === t ? null : t` */
  function Toggle(expanded: Option<string>, title: string): (r: Option<string>)
    ensures r == Some(title) <==> expanded != Some(title)
    ensures r != None ==> r == Some(title)
  {
    if expanded == Some(title) then None else Some(title)
  }

  /** Toggling the same section twice is a no-op once it has been expanded or
      collapsed by a toggle. */
  lemma ToggleTwice(expanded: Option<string>, title: string)
    requires expanded == None || expanded == Some(title)
    ensures Toggle(Toggle(expanded, title), title) == expanded
  {
  }

  /** The component's state. */
  class SidebarState {
    var expandedSection: Option<string>
    var isCollapsed: bool

    constructor (collapsed: bool := false)
      ensures expandedSection == Some("Dashboard") && isCollapsed == collapsed
    {
      expandedSection := Some("Dashboard");
      isCollapsed := collapsed;
    }

    /** A section's items are rendered only when the sidebar is expanded and
        the section is the expanded one. */
    predicate ItemsVisible(title: string)
      reads this
    {
      !isCollapsed && expandedSection == Some(title)
    }

    /** `handleSectionToggle` */
    method ToggleSection(title: string)
      modifies this`expandedSection
      ensures expandedSection == Toggle(old(expandedSection), title)
      ensures ItemsVisible(title) <==> !isCollapsed && old(expandedSection) != Some(title)
      ensures forall t :: t != title ==> !ItemsVisible(t)
    {
      expandedSection := if expandedSection == Some(title) then None else Some(title);
    }

    /** The collapse button. */
    method ToggleCollapsed()
      modifies this`isCollapsed
      ensures isCollapsed == !old(isCollapsed)
      ensures isCollapsed ==> forall t :: !ItemsVisible(t)
    {
      isCollapsed := !isCollapsed;
    }
  }
}
