/** The Cases panel of components/Cases.tsx: the status tabs, the list they
    select, the per-status counts shown in the tab labels and the priority
    badge. */
module Cases {
  import opened Seqs
  import opened Text
  import opened Badges

  datatype CaseStatus = Open | Active | Closed

  datatype Priority = Low | Medium | High

  datatype Case = Case(
    id: string, title: string, client: string, caseNumber: string, caseType: string,
    status: CaseStatus, assignedTo: string, openedDate: string, priority: Priority)

  /** The value of `statusFilter`: `'all'` or one of the three statuses. */
  datatype StatusFilter = All | Only(status: CaseStatus)

  /** The tabs, in the order they are drawn. */
  const Tabs: seq<StatusFilter> := [All, Only(Open), Only(Active), Only(Closed)]

  /** The tab's key, which is also its `statusCounts` field: a non-empty
      word of lower-case letters, "all" only for the 'all' tab. */
  function TabKey(tab: StatusFilter): (key: string)
    ensures |key| > 0 && forall i :: 0 <= i < |key| ==> IsLower(key[i])
    ensures key == "all" <==> tab == All
  {
    match tab
    case All => "all"
    case Only(Open) => "open"
    case Only(Active) => "active"
    case Only(Closed) => "closed"
  }

  /** `cases.filter(c => c.status === status)`. */
  function WithStatus(cases: seq<Case>, status: CaseStatus): (r: seq<Case>)
    ensures |r| <= |cases|
  {
    Filter(cases, (c: Case) => c.status == status)
  }

  /** `filteredCases`. */
  function FilteredCases(cases: seq<Case>, statusFilter: StatusFilter): (r: seq<Case>)
    ensures |r| <= |cases|
    ensures statusFilter == All ==> r == cases
  {
    if statusFilter == All then cases else WithStatus(cases, statusFilter.status)
  }

  /** `statusCounts`. */
  datatype StatusCounts = StatusCounts(all: nat, open: nat, active: nat, closed: nat)

  /** The counts: `all` is the number of cases, which the three status
      counts add up to. */
  function CountByStatus(cases: seq<Case>): (counts: StatusCounts)
    ensures counts.all == |cases|
    ensures counts.open + counts.active + counts.closed == counts.all
  {
    CountsAddUp(cases);
    StatusCounts(
      |cases|,
      |WithStatus(cases, Open)|,
      |WithStatus(cases, Active)|,
      |WithStatus(cases, Closed)|)
  }

  /** `statusCounts[tab]`. */
  function CountFor(counts: StatusCounts, tab: StatusFilter): nat {
    match tab
    case All => counts.all
    case Only(Open) => counts.open
    case Only(Active) => counts.active
    case Only(Closed) => counts.closed
  }

  /** The tab's text: its key with the first letter upper-cased, a space and
      the count in parentheses. */
  function TabLabel(tab: StatusFilter, counts: StatusCounts): (text: string)
    ensures |text| > |TabKey(tab)| + 3 && IsUpper(text[0]) && text[|text| - 1] == ')'
  {
    Capitalize(TabKey(tab)) + " (" + NatToDecimal(CountFor(counts, tab)) + ")"
  }

  /** One tab button: the filter it selects when clicked, its text and
      whether it carries the selected style. */
  datatype TabButton = TabButton(tab: StatusFilter, text: string, active: bool)

  /** The tab bar: one button per tab, in order, selected exactly when its
      tab is the current filter. */
  function TabBar(statusFilter: StatusFilter, counts: StatusCounts): (r: seq<TabButton>)
    ensures |r| == |Tabs|
    ensures forall i :: 0 <= i < |r| ==>
      r[i].tab == Tabs[i] && r[i].text == TabLabel(Tabs[i], counts) && (r[i].active <==> Tabs[i] == statusFilter)
  {
    seq(|Tabs|, i requires 0 <= i < |Tabs| => TabButton(Tabs[i], TabLabel(Tabs[i], counts), Tabs[i] == statusFilter))
  }

  /** Whatever the filter, exactly one tab is selected. */
  lemma ExactlyOneTabActive(statusFilter: StatusFilter, counts: StatusCounts)
    ensures var bar := TabBar(statusFilter, counts);
      exists i :: 0 <= i < |bar| && bar[i].active && forall j :: 0 <= j < |bar| && bar[j].active ==> j == i
  {
    var bar := TabBar(statusFilter, counts);
    var i := match statusFilter
      case All => 0
      case Only(Open) => 1
      case Only(Active) => 2
      case Only(Closed) => 3;
    assert Tabs[i] == statusFilter;
    forall j | 0 <= j < |bar| && bar[j].active
      ensures j == i
    {
      assert Tabs[j] == statusFilter;
    }
  }

  /** The priority badge: high is red, medium yellow and anything else green. */
  function PriorityColour(p: Priority): (c: Colour)
    ensures c == Red <==> p == High
    ensures c == Yellow <==> p == Medium
    ensures c == Green <==> p == Low
  {
    match p
    case High => Red
    case Medium => Yellow
    case Low => Green
  }

  /** Any other tab shows, in the original order, exactly the cases with
      its status: the k-th case shown is the case at the k-th position of
      the list whose status matches. */
  lemma StatusTabSelects(cases: seq<Case>, status: CaseStatus)
    ensures var r := FilteredCases(cases, Only(status));
      && IsSubsequence(r, cases)
      && (forall i :: 0 <= i < |r| ==> r[i].status == status)
      && (forall i :: 0 <= i < |cases| && cases[i].status == status ==> cases[i] in r)
    ensures var r := FilteredCases(cases, Only(status));
      var idx := Positions(cases, (c: Case) => c.status == status, |cases|);
      && |r| == |idx|
      && (forall k :: 0 <= k < |idx| ==> r[k] == cases[idx[k]])
      && (forall i :: 0 <= i < |cases| ==> (i in idx <==> cases[i].status == status))
  {
    var p := (c: Case) => c.status == status;
    FilterIsSubsequence(cases, p);
    FilterMembers(cases, p);
    FilterSelectsPositions(cases, p);
  }

  /** Every case has exactly one of the three statuses, so the three counts
      add up to the count of all cases. */
  lemma {:induction false} CountsAddUp(cases: seq<Case>)
    ensures |WithStatus(cases, Open)| + |WithStatus(cases, Active)| + |WithStatus(cases, Closed)| == |cases|
    decreases |cases|
  {
    if cases != [] {
      CountsAddUp(cases[..|cases| - 1]);
    }
  }

  /** The count in each tab's label is the length of the list shown when
      that tab is selected. */
  lemma TabCountIsListLength(cases: seq<Case>, tab: StatusFilter)
    ensures CountFor(CountByStatus(cases), tab) == |FilteredCases(cases, tab)|
  {
  }

  /** A tab's label reads back as its key and the number of cases it shows. */
  lemma TabLabelReadsBack(cases: seq<Case>, tab: StatusFilter)
    ensures var text := TabLabel(tab, CountByStatus(cases));
      var digits := text[|TabKey(tab)| + 2..|text| - 1];
      && text[..|TabKey(tab)|] == Capitalize(TabKey(tab))
      && Lower(text[..|TabKey(tab)|]) == TabKey(tab)
      && text[|TabKey(tab)|..|TabKey(tab)| + 2] == " ("
      && AllDigits(digits) && DecimalValue(digits) == |FilteredCases(cases, tab)|
      && (|digits| > 1 ==> digits[0] != '0')
  {
    var key := TabKey(tab);
    var counts := CountByStatus(cases);
    var digits := NatToDecimal(CountFor(counts, tab));
    LabelParts(Capitalize(key), digits);
    assert Lower(Capitalize(key)) == key;
    DecimalRoundTrip(CountFor(counts, tab));
    TabCountIsListLength(cases, tab);
  }

  /** Where the parts of a label `head (digits)` sit. */
  lemma LabelParts(head: string, digits: string)
    ensures var text := head + " (" + digits + ")";
      && |text| == |head| + |digits| + 3
      && text[..|head|] == head
      && text[|head|..|head| + 2] == " ("
      && text[|head| + 2..|text| - 1] == digits
  {
  }

  /** The list seeded into the panel. */
  const SeedCases: seq<Case> := [
    Case("1", "Johnson vs. Thompson Contract Dispute", "Johnson Enterprises", "CL-2023-001", "Contract Law",
      Active, "Sarah Johnson", "2023-05-15", High),
    Case("2", "Smith Property Acquisition", "Smith & Associates", "CL-2023-002", "Real Estate",
      Active, "Michael Chen", "2023-06-02", Medium),
    Case("3", "Davis Foundation Tax Exemption", "Davis Foundation", "CL-2023-003", "Tax Law",
      Closed, "Emily Rodriguez", "2023-03-10", Medium),
    Case("4", "Thompson Employment Agreement Review", "Thompson Manufacturing", "CL-2023-004", "Employment Law",
      Active, "David Wilson", "2023-07-05", Low),
    Case("5", "Williams Intellectual Property Protection", "Williams Properties", "CL-2023-005", "Intellectual Property",
      Open, "Sarah Johnson", "2023-07-18", High)
  ]

  /** With the seeded list the tabs read "All (5)", "Open (1)", "Active (3)"
      and "Closed (1)". */
  lemma SeedTabs()
    ensures CountByStatus(SeedCases) == StatusCounts(5, 1, 3, 1)
    ensures var counts := CountByStatus(SeedCases);
      && TabLabel(All, counts) == "All (5)"
      && TabLabel(Only(Open), counts) == "Open (1)"
      && TabLabel(Only(Active), counts) == "Active (3)"
      && TabLabel(Only(Closed), counts) == "Closed (1)"
  {
    SeedSelection(Open);
    SeedSelection(Active);
    SeedSelection(Closed);
  }

  /** Filtering a list, split into its first part and its last case. */
  lemma WithStatusStep(cases: seq<Case>, status: CaseStatus, n: nat)
    requires 0 < n <= |cases|
    ensures WithStatus(cases[..n], status)
      == WithStatus(cases[..n - 1], status) + (if cases[n - 1].status == status then [cases[n - 1]] else [])
  {
    assert cases[..n][..n - 1] == cases[..n - 1];
  }

  /** What each status tab shows for the seeded list. */
  lemma {:induction false} SeedSelection(status: CaseStatus)
    ensures WithStatus(SeedCases, status) ==
      match status
      case Open => [SeedCases[4]]
      case Active => [SeedCases[0], SeedCases[1], SeedCases[3]]
      case Closed => [SeedCases[2]]
  {
    assert SeedCases[..0] == [];
    WithStatusStep(SeedCases, status, 1);
    WithStatusStep(SeedCases, status, 2);
    WithStatusStep(SeedCases, status, 3);
    WithStatusStep(SeedCases, status, 4);
    WithStatusStep(SeedCases, status, 5);
    assert SeedCases[..5] == SeedCases;
  }

  /** The state of the panel: the case list (never changed) and the tab. */
  class CasesPanel {
    const cases: seq<Case>
    var statusFilter: StatusFilter

    constructor ()
      ensures cases == SeedCases && statusFilter == All
      ensures Shown() == SeedCases
      ensures forall i :: 0 <= i < |Bar()| ==> (Bar()[i].active <==> i == 0)
    {
      cases := SeedCases;
      statusFilter := All;
    }

    /** The rows of the table. */
    function Shown(): seq<Case>
      reads this
    {
      FilteredCases(cases, statusFilter)
    }

    /** The tab bar as drawn. */
    function Bar(): seq<TabButton>
      reads this
    {
      TabBar(statusFilter, CountByStatus(cases))
    }

    /** A tab was clicked: `setStatusFilter(tab)`. The table then shows that
        tab's selection, and that tab is the one selected in the bar. */
    method SelectTab(tab: StatusFilter)
      modifies this
      ensures statusFilter == tab && Shown() == FilteredCases(cases, tab)
      ensures |Bar()| == |Tabs| && forall i :: 0 <= i < |Bar()| ==> (Bar()[i].active <==> Tabs[i] == tab)
    {
      statusFilter := tab;
    }
  }
}
