/** The desktop navigation gate of components/SideBar.tsx: a fixed nine-item
    menu, the role filter that decides which items a user sees, and the
    highlight of the item that matches the current view. */
module SideBar {
  import opened Seqs
  import opened UserTypes

  /** A menu entry: the view key it selects, its caption (`label`) and the roles that
      may see it. */
  datatype NavItem = NavItem(id: string, caption: string, roles: seq<Role>)

  /** `navigationItems`. */
  const NavigationItems: seq<NavItem> := [
    NavItem("dashboard", "Dashboard", [Admin, Lawyer, Paralegal, Intern]),
    NavItem("clients", "Clients", [Admin, Lawyer, Paralegal]),
    NavItem("cases", "Cases", [Admin, Lawyer, Paralegal]),
    NavItem("calendar", "Calendar", [Admin, Lawyer, Paralegal, Intern]),
    NavItem("time", "Time Tracking", [Admin, Lawyer, Paralegal]),
    NavItem("billing", "Billing", [Admin, Lawyer]),
    NavItem("documents", "Documents", [Admin, Lawyer, Paralegal]),
    NavItem("reports", "Reports", [Admin]),
    NavItem("settings", "Settings", [Admin])
  ]

  /** `item.roles.includes(userRole)`. */
  predicate VisibleTo(role: Role, item: NavItem) {
    role in item.roles
  }

  /** `filteredItems`: the items of `items` the role may see, in table order. */
  function FilteredItems(items: seq<NavItem>, role: Role): (r: seq<NavItem>)
    ensures |r| <= |items|
  {
    Filter(items, item => VisibleTo(role, item))
  }

  function Ids(items: seq<NavItem>): (r: seq<string>)
    ensures |r| == |items| && forall i :: 0 <= i < |r| ==> r[i] == items[i].id
  {
    seq(|items|, i requires 0 <= i < |items| => items[i].id)
  }

  /** No two entries of the table share an id. */
  ghost predicate DistinctIds(items: seq<NavItem>) {
    forall i, j :: 0 <= i < j < |items| ==> items[i].id != items[j].id
  }

  /** One rendered menu button: the id it forwards when clicked and whether
      it carries the active style. */
  datatype MenuButton = MenuButton(id: string, caption: string, active: bool)

  /** `filteredItems.map(...)`: one button per visible item, active exactly
      when its id is the current view. */
  function RenderMenu(items: seq<NavItem>, currentView: string): (r: seq<MenuButton>)
    ensures |r| == |items|
    ensures forall i :: 0 <= i < |r| ==>
      r[i].id == items[i].id && r[i].caption == items[i].caption && (r[i].active <==> items[i].id == currentView)
    decreases |items|
  {
    if items == [] then []
    else
      var item := items[|items| - 1];
      RenderMenu(items[..|items| - 1], currentView) + [MenuButton(item.id, item.caption, item.id == currentView)]
  }

  /** The menu the desktop sidebar shows to `role` while `currentView` is open. */
  function DesktopMenu(role: Role, currentView: string): (menu: seq<MenuButton>)
    ensures |menu| == |FilteredItems(NavigationItems, role)|
    ensures forall i :: 0 <= i < |menu| ==>
      && menu[i].id == FilteredItems(NavigationItems, role)[i].id
      && menu[i].caption == FilteredItems(NavigationItems, role)[i].caption
      && (menu[i].active <==> menu[i].id == currentView)
  {
    RenderMenu(FilteredItems(NavigationItems, role), currentView)
  }

  /** The visible menu is an order-preserving subsequence of the table made of
      exactly the items whose roles include the user's: item `k` of the menu
      is the table entry at the k-th position whose roles include `role`. */
  lemma VisibleMenuIsSelection(role: Role)
    ensures IsSubsequence(FilteredItems(NavigationItems, role), NavigationItems)
    ensures var idx := Positions(NavigationItems, item => VisibleTo(role, item), |NavigationItems|);
      && |FilteredItems(NavigationItems, role)| == |idx|
      && (forall k :: 0 <= k < |idx| ==> FilteredItems(NavigationItems, role)[k] == NavigationItems[idx[k]])
      && (forall i :: 0 <= i < |NavigationItems| ==> (i in idx <==> role in NavigationItems[i].roles))
  {
    FilterIsSubsequence(NavigationItems, item => VisibleTo(role, item));
    FilterSelectsPositions(NavigationItems, item => VisibleTo(role, item));
  }

  /** ADMIN sees all nine items, in table order. */
  lemma AdminSeesAll()
    ensures FilteredItems(NavigationItems, Admin) == NavigationItems
  {
    FilterKeepsAll(NavigationItems, item => VisibleTo(Admin, item));
  }

  /** Filtering the table, split into its first part and its last item. */
  lemma FilterTableStep(role: Role, n: nat)
    requires 0 < n <= |NavigationItems|
    ensures var t := NavigationItems[n - 1];
      FilteredItems(NavigationItems[..n], role)
      == FilteredItems(NavigationItems[..n - 1], role) + (if role in t.roles then [t] else [])
  {
    assert NavigationItems[..n][..n - 1] == NavigationItems[..n - 1];
  }

  /** LAWYER sees the first seven items, that is, every item except Reports and Settings. */
  lemma {:induction false} LawyerMenu()
    ensures FilteredItems(NavigationItems, Lawyer) == NavigationItems[..7]
    ensures Ids(FilteredItems(NavigationItems, Lawyer)) ==
      ["dashboard", "clients", "cases", "calendar", "time", "billing", "documents"]
  {
    assert NavigationItems[..0] == [];
    FilterTableStep(Lawyer, 1);
    FilterTableStep(Lawyer, 2);
    FilterTableStep(Lawyer, 3);
    FilterTableStep(Lawyer, 4);
    FilterTableStep(Lawyer, 5);
    FilterTableStep(Lawyer, 6);
    FilterTableStep(Lawyer, 7);
    var first := [NavigationItems[0], NavigationItems[1], NavigationItems[2], NavigationItems[3], NavigationItems[4], NavigationItems[5], NavigationItems[6]];
    assert NavigationItems[..7] == first;
    assert FilteredItems(NavigationItems[..7], Lawyer) == first;
    FilterTableStep(Lawyer, 8);
    FilterTableStep(Lawyer, 9);
    assert NavigationItems[..9] == NavigationItems;
    assert Ids(first) == ["dashboard", "clients", "cases", "calendar", "time", "billing", "documents"];
  }

  /** PARALEGAL sees Dashboard, Clients, Cases, Calendar, Time Tracking and Documents, and not Billing, Reports or Settings. */
  lemma {:induction false} ParalegalMenu()
    ensures FilteredItems(NavigationItems, Paralegal) == [NavigationItems[0], NavigationItems[1], NavigationItems[2], NavigationItems[3], NavigationItems[4], NavigationItems[6]]
    ensures Ids(FilteredItems(NavigationItems, Paralegal)) ==
      ["dashboard", "clients", "cases", "calendar", "time", "documents"]
  {
    assert NavigationItems[..0] == [];
    FilterTableStep(Paralegal, 1);
    FilterTableStep(Paralegal, 2);
    FilterTableStep(Paralegal, 3);
    FilterTableStep(Paralegal, 4);
    FilterTableStep(Paralegal, 5);
    FilterTableStep(Paralegal, 6);
    FilterTableStep(Paralegal, 7);
    FilterTableStep(Paralegal, 8);
    FilterTableStep(Paralegal, 9);
    assert NavigationItems[..9] == NavigationItems;
  }

  /** INTERN sees exactly Dashboard and Calendar. */
  lemma {:induction false} InternMenu()
    ensures FilteredItems(NavigationItems, Intern) == [NavigationItems[0], NavigationItems[3]]
    ensures Ids(FilteredItems(NavigationItems, Intern)) == ["dashboard", "calendar"]
  {
    assert NavigationItems[..0] == [];
    FilterTableStep(Intern, 1);
    FilterTableStep(Intern, 2);
    FilterTableStep(Intern, 3);
    FilterTableStep(Intern, 4);
    FilterTableStep(Intern, 5);
    FilterTableStep(Intern, 6);
    FilterTableStep(Intern, 7);
    FilterTableStep(Intern, 8);
    FilterTableStep(Intern, 9);
    assert NavigationItems[..9] == NavigationItems;
  }

  /** Every role sees Dashboard, and it is always the first entry. */
  lemma DashboardAlwaysFirst(role: Role)
    ensures |FilteredItems(NavigationItems, role)| > 0
    ensures FilteredItems(NavigationItems, role)[0] == NavigationItems[0]
    ensures NavigationItems[0].id == "dashboard"
  {
    match role
    case Admin => AdminSeesAll();
    case Lawyer => LawyerMenu();
    case Paralegal => ParalegalMenu();
    case Intern => InternMenu();
  }

  lemma TableIdsDistinct()
    ensures DistinctIds(NavigationItems)
  {
  }

  /** A selection from a table with distinct ids has distinct ids. */
  lemma SelectionKeepsIdsDistinct(items: seq<NavItem>, role: Role)
    requires DistinctIds(items)
    ensures DistinctIds(FilteredItems(items, role))
  {
    var p := item => VisibleTo(role, item);
    FilterSelectsPositions(items, p);
  }

  /** At most one visible button is active: the visible ids are distinct,
      and a button is active only when its id is the current view. */
  lemma {:induction false} OneActiveButton(role: Role, currentView: string)
    ensures var menu := DesktopMenu(role, currentView);
      forall i, j :: 0 <= i < |menu| && 0 <= j < |menu| && menu[i].active && menu[j].active ==> i == j
  {
    TableIdsDistinct();
    SelectionKeepsIdsDistinct(NavigationItems, role);
  }

  /** Clicking the button at `k` forwards its item's id; with that id as the
      current view, the clicked button is active and no other is. */
  lemma ClickActivatesClickedItem(role: Role, currentView: string, k: nat)
    requires k < |DesktopMenu(role, currentView)|
    ensures var id := DesktopMenu(role, currentView)[k].id;
      && id == FilteredItems(NavigationItems, role)[k].id
      && var after := DesktopMenu(role, id);
      forall i :: 0 <= i < |after| ==> (after[i].active <==> i == k)
  {
    TableIdsDistinct();
    SelectionKeepsIdsDistinct(NavigationItems, role);
  }
}
