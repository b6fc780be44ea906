/** The admin area's mobile tab bar (`components/admin/mobile-bottom-nav.tsx`):
    four tabs, and the one marked active chosen by path prefix. The menu
    sheet's open flag only drives rendering and is not modelled. */
module MobileBottomNav {
  import opened Prelude
  import opened Text
  import MobileHeader

  /** `TabId`. */
  datatype TabId = Schedule | Pos | Dashboard | Menu

  datatype Tab = Tab(id: TabId, href: Option<string>, caption: string)

  /** `TABS`, in display order (`caption` is the `label` field); the menu tab
      opens a sheet instead of linking. */
  function Tabs(): (tabs: seq<Tab>)
    ensures |tabs| == 4
  {
    [ Tab(Schedule, Some("/admin/schedule"), "Agenda"),
      Tab(Pos, Some("/admin/pos"), "PDV"),
      Tab(Dashboard, Some("/admin/dashboard"), "Dashboard"),
      Tab(Menu, None, "Menu") ]
  }

  /** `getActiveTab`: schedule, then pos, then dashboard; any other path
      leaves the menu tab active. */
  function GetActiveTab(pathname: string): TabId {
    if StartsWith(pathname, "/admin/schedule") then Schedule
    else if StartsWith(pathname, "/admin/pos") then Pos
    else if StartsWith(pathname, "/admin/dashboard") then Dashboard
    else Menu
  }

  /** The menu tab is active exactly on the paths outside the three linked sections. */
  lemma MenuIsActiveElsewhere(pathname: string)
    ensures GetActiveTab(pathname) == Menu <==>
      !StartsWith(pathname, "/admin/schedule") && !StartsWith(pathname, "/admin/pos") && !StartsWith(pathname, "/admin/dashboard")
  {
  }

  /** One tab of `TABS` and no other carries the active id, so the bar always
      highlights exactly one tab. */
  lemma ExactlyOneTabActive(pathname: string)
    ensures exists i :: 0 <= i < |Tabs()| && Tabs()[i].id == GetActiveTab(pathname)
    ensures forall i, j ::
      0 <= i < |Tabs()| && 0 <= j < |Tabs()| && Tabs()[i].id == GetActiveTab(pathname) && Tabs()[j].id == GetActiveTab(pathname) ==>
        i == j
  {
    var tabs := Tabs();
    match GetActiveTab(pathname)
    case Schedule => assert tabs[0].id == Schedule;
    case Pos => assert tabs[1].id == Pos;
    case Dashboard => assert tabs[2].id == Dashboard;
    case Menu => assert tabs[3].id == Menu;
  }

  /** The index in `TABS` of a tab id. */
  function IndexOf(id: TabId): (i: nat)
    ensures i < |Tabs()| && Tabs()[i].id == id
  {
    match id
    case Schedule => 0
    case Pos => 1
    case Dashboard => 2
    case Menu => 3
  }

  /** A linked tab is active only on paths under its own link. */
  lemma ActiveTabLinksToCurrentSection(pathname: string)
    requires GetActiveTab(pathname) != Menu
    ensures Tabs()[IndexOf(GetActiveTab(pathname))].href.Some?
    ensures StartsWith(pathname, Tabs()[IndexOf(GetActiveTab(pathname))].href.value)
  {
  }

  /** The highlighted tab and the header agree: when a linked tab is active,
      the header's title is that tab's label. */
  lemma ActiveTabMatchesTitle(pathname: string)
    requires GetActiveTab(pathname) != Menu
    ensures MobileHeader.GetTitle(pathname) == Tabs()[IndexOf(GetActiveTab(pathname))].caption
  {
    MobileHeader.SectionTitles(pathname);
  }
}
