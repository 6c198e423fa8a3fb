/** The mobile navigation overlay of components/MobileSidebar.tsx: its own copy
    of the nine-item menu and of the role filter, rendered only while the
    overlay is open. The handlers that change the shell state are methods of
    `Page.Shell`. */
module MobileSidebar {
  import opened Seqs
  import opened Optional
  import opened UserTypes
  import opened SideBar

  /** `navigationItems`, as written out a second time in this component. */
  const MobileNavigationItems: seq<NavItem> := [
    NavItem("dashboard", "Dashboard", [Admin, Lawyer, Paralegal, Intern]),
    NavItem("clients", "Clients", [Admin, Lawyer, Paralegal]),
    NavItem("cases", "Cases", [Admin, Lawyer, Paralegal]),
    NavItem("calendar", "Calendar", [Admin, Lawyer, Paralegal, Intern]),
    NavItem("time", "Time Tracking", [Admin, Lawyer, Paralegal]),
    NavItem("billing", "Billing", [Admin, Lawyer]),
    NavItem("documents", "Documents", [Admin, Lawyer, Paralegal]),
    NavItem("reports", "Reports", [Admin]),
    NavItem("settings", "Settings", [Admin])
  ]

  /** `filteredItems` of this component. */
  function MobileFilteredItems(role: Role): (r: seq<NavItem>)
    ensures |r| <= |MobileNavigationItems|
  {
    Filter(MobileNavigationItems, (item: NavItem) => role in item.roles)
  }

  /** What the component renders: nothing while the overlay is closed, and
      otherwise one button per visible item, active when its id is the
      current view. */
  function MobileMenu(isOpen: bool, currentView: string, role: Role): (r: Option<seq<MenuButton>>)
    ensures r.None? <==> !isOpen
  {
    if isOpen then Some(RenderMenu(MobileFilteredItems(role), currentView)) else None
  }

  /** The two tables are the same, entry by entry. */
  lemma TablesAgree()
    ensures MobileNavigationItems == NavigationItems
  {
  }

  /** Both menus show the same items to every role, and with the overlay open
      the mobile menu is the desktop menu, highlight included. */
  lemma MobileMatchesDesktop(role: Role, currentView: string)
    ensures MobileFilteredItems(role) == FilteredItems(NavigationItems, role)
    ensures MobileMenu(true, currentView, role) == Some(DesktopMenu(role, currentView))
  {
    FilterCongruent(MobileNavigationItems, (item: NavItem) => role in item.roles, item => VisibleTo(role, item));
  }

  /** The mobile selection is an order-preserving subsequence of its table,
      made of exactly the items whose roles include the user's: its k-th
      entry is the table entry at the k-th position visible to `role`. */
  lemma MobileMenuIsSelection(role: Role)
    ensures IsSubsequence(MobileFilteredItems(role), MobileNavigationItems)
    ensures forall i :: 0 <= i < |MobileNavigationItems| ==>
      (MobileNavigationItems[i] in MobileFilteredItems(role) <==> role in MobileNavigationItems[i].roles)
    ensures var r := MobileFilteredItems(role);
      var idx := Positions(MobileNavigationItems, (item: NavItem) => role in item.roles, |MobileNavigationItems|);
      && |r| == |idx|
      && (forall k :: 0 <= k < |idx| ==> r[k] == MobileNavigationItems[idx[k]])
      && (forall i :: 0 <= i < |MobileNavigationItems| ==> (i in idx <==> role in MobileNavigationItems[i].roles))
  {
    var p := (item: NavItem) => role in item.roles;
    FilterIsSubsequence(MobileNavigationItems, p);
    FilterMembers(MobileNavigationItems, p);
    FilterSelectsPositions(MobileNavigationItems, p);
  }

  /** With the overlay open, a button is active exactly when its id is the
      current view, and at most one button is active. */
  lemma MobileHighlight(role: Role, currentView: string)
    ensures var menu := MobileMenu(true, currentView, role).value;
      && (forall i :: 0 <= i < |menu| ==> (menu[i].active <==> menu[i].id == currentView))
      && (forall i, j :: 0 <= i < |menu| && 0 <= j < |menu| && menu[i].active && menu[j].active ==> i == j)
  {
    MobileMatchesDesktop(role, currentView);
    OneActiveButton(role, currentView);
  }
}
