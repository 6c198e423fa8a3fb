/** The application shell of app/page.tsx: the state it holds (the current
    view key, the mobile-overlay flag and the signed-in user), the
    `renderContent` router from view keys to panels, and the handlers through
    which the sidebars and the top bar change that state. */
module Page {
  import opened Optional
  import opened UserTypes
  import opened SideBar
  import opened MobileSidebar

  /** The nine panels the router can show. */
  datatype Panel =
    | DashboardPanel | ClientsPanel | CasesPanel | CalendarPanel | TimeTrackingPanel
    | BillingPanel | DocumentsPanel | ReportsPanel | SettingsPanel

  /** The view keys that have a case of their own in `renderContent`. */
  const RouterKeys: seq<string> :=
    ["dashboard", "clients", "cases", "calendar", "time", "billing", "documents", "reports", "settings"]

  /** `renderContent`: the panel shown for a view key; a key without a case
      of its own falls back to the Dashboard. */
  function RenderContent(view: string): (p: Panel)
    ensures view in RouterKeys ==> PanelKey(p) == view
    ensures view !in RouterKeys ==> p == DashboardPanel
  {
    if view == "dashboard" then DashboardPanel
    else if view == "clients" then ClientsPanel
    else if view == "cases" then CasesPanel
    else if view == "calendar" then CalendarPanel
    else if view == "time" then TimeTrackingPanel
    else if view == "billing" then BillingPanel
    else if view == "documents" then DocumentsPanel
    else if view == "reports" then ReportsPanel
    else if view == "settings" then SettingsPanel
    else DashboardPanel
  }

  /** The view key whose case shows panel `p`. */
  function PanelKey(p: Panel): (key: string)
    ensures key in RouterKeys
  {
    match p
    case DashboardPanel => "dashboard"
    case ClientsPanel => "clients"
    case CasesPanel => "cases"
    case CalendarPanel => "calendar"
    case TimeTrackingPanel => "time"
    case BillingPanel => "billing"
    case DocumentsPanel => "documents"
    case ReportsPanel => "reports"
    case SettingsPanel => "settings"
  }

  /** Every panel is reached through its own key. */
  lemma PanelKeyRoutes(p: Panel)
    ensures RenderContent(PanelKey(p)) == p
  {
  }

  /** Each of the nine keys routes to a panel of its own: the key can be read
      back from the panel, so no two keys share one. */
  lemma KeysRouteToDistinctPanels(key: string)
    requires key in RouterKeys
    ensures PanelKey(RenderContent(key)) == key
  {
  }

  /** Any other key shows the Dashboard. */
  lemma UnknownKeyShowsDashboard(view: string)
    requires view !in RouterKeys
    ensures RenderContent(view) == DashboardPanel
  {
  }

  /** Every id in the navigation table has a case of its own, so selecting a
      menu item never reaches the default; the panel shown is the one whose
      key is the item's id. */
  lemma MenuIdsAreRouted()
    ensures forall i :: 0 <= i < |NavigationItems| ==>
      NavigationItems[i].id in RouterKeys && PanelKey(RenderContent(NavigationItems[i].id)) == NavigationItems[i].id
  {
    assert Ids(NavigationItems) == RouterKeys;
  }

  /** `mockUser`. */
  const MockUser: User :=
    User("1", "Sarah Johnson", "sarah@robolegal.com", Admin, Some("/avatars/sarah.jpg"))

  /** The state of the `Home` component. */
  class Shell {
    var currentView: string
    var mobileSidebarOpen: bool
    var user: User

    /** `useState('dashboard')`, `useState(false)`, `useState(mockUser)`. */
    constructor ()
      ensures currentView == "dashboard" && !mobileSidebarOpen && user == MockUser
      ensures Content() == DashboardPanel && Mobile() == None
    {
      currentView := "dashboard";
      mobileSidebarOpen := false;
      user := MockUser;
    }

    /** The panel in the main area. It depends on the view key alone: the
        user's role is not consulted. */
    function Content(): Panel
      reads this
    {
      RenderContent(currentView)
    }

    /** The desktop sidebar's buttons. */
    function Desktop(): seq<MenuButton>
      reads this
    {
      DesktopMenu(user.role, currentView)
    }

    /** The mobile overlay's buttons, or nothing while it is closed. */
    function Mobile(): Option<seq<MenuButton>>
      reads this
    {
      MobileMenu(mobileSidebarOpen, currentView, user.role)
    }

    /** A desktop sidebar button was clicked: `setCurrentView(item.id)`. */
    method SelectDesktopItem(item: NavItem)
      modifies this
      ensures currentView == item.id
      ensures mobileSidebarOpen == old(mobileSidebarOpen) && user == old(user)
      ensures Content() == RenderContent(item.id)
      ensures forall i :: 0 <= i < |Desktop()| ==> (Desktop()[i].active <==> Desktop()[i].id == item.id)
    {
      currentView := item.id;
    }

    /** The top bar's menu button: `setMobileSidebarOpen(true)`. The overlay
        then shows the desktop menu, highlight included. */
    method OpenMobileSidebar()
      modifies this
      ensures mobileSidebarOpen
      ensures currentView == old(currentView) && user == old(user)
      ensures Mobile() == Some(Desktop()) && Content() == old(Content())
    {
      mobileSidebarOpen := true;
      MobileMatchesDesktop(user.role, currentView);
    }

    /** The overlay's backdrop or close button: `setIsOpen(false)`. The view
        stays as it was. */
    method CloseMobileSidebar()
      modifies this
      ensures !mobileSidebarOpen
      ensures currentView == old(currentView) && user == old(user)
      ensures Mobile() == None && Content() == old(Content())
    {
      mobileSidebarOpen := false;
    }

    /** A mobile menu button was clicked: `setCurrentView(item.id)` and then
        `setIsOpen(false)`. */
    method SelectMobileItem(item: NavItem)
      modifies this
      ensures currentView == item.id && !mobileSidebarOpen
      ensures user == old(user)
      ensures Mobile() == None && Content() == RenderContent(item.id)
    {
      currentView := item.id;
      mobileSidebarOpen := false;
    }
  }

  /** From the initial state, the Dashboard is shown, the overlay renders
      nothing and the desktop menu lists all nine items with Dashboard the
      only active one. */
  lemma InitialScreen()
    ensures RenderContent("dashboard") == DashboardPanel
    ensures MobileMenu(false, "dashboard", MockUser.role) == None
    ensures var menu := DesktopMenu(MockUser.role, "dashboard");
      |menu| == 9 && forall i :: 0 <= i < 9 ==> (menu[i].active <==> i == 0)
  {
    AdminSeesAll();
  }

  /** Selecting the `k`-th visible item (from either menu) shows that item's
      panel and leaves exactly that button active. */
  lemma SelectingAnItemShowsItsPanel(role: Role, currentView: string, k: nat)
    requires k < |FilteredItems(NavigationItems, role)|
    ensures var item := FilteredItems(NavigationItems, role)[k];
      && PanelKey(RenderContent(item.id)) == item.id
      && forall i :: 0 <= i < |DesktopMenu(role, item.id)| ==> (DesktopMenu(role, item.id)[i].active <==> i == k)
  {
    var item := FilteredItems(NavigationItems, role)[k];
    VisibleMenuIsSelection(role);
    MenuIdsAreRouted();
    ClickActivatesClickedItem(role, currentView, k);
  }
}
