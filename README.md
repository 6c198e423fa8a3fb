# RoboLegal dashboard: a Dafny model of its navigation and panel logic

RoboLegal is a demo dashboard for a law firm. A shell page holds the signed-in
user, the key of the view on screen and a flag for the mobile menu overlay.
Two sidebars (desktop and mobile) show the part of a fixed nine-item
menu that the user's role may see, and a router maps the view key to one of
nine panels. Each panel keeps a hard-coded list and derives what it shows from it:

- Cases: status tabs with counts;
- Clients: case-insensitive search over name or e-mail;
- Documents: a category selector;
- Billing: paid and outstanding totals;
- Calendar: today's schedule and the upcoming list;
- Time Tracking: billable and unbilled totals, and a start/stop timer with an
  `HH:MM:SS` display.

The model has one module per source file:

- `SideBar` and `MobileSidebar` for the two sidebars;
- `Page` for the shell and the router;
- `Cases`, `Clients`, `Documents`, `Billing`, `Calendar` and `TimeTracking` for the panels;
- `UserTypes` for the user record and its roles.

Four shared modules sit next to them:

- `Seqs` holds the list operations the panels use: `filter`, `slice(0, n)` and a summing `reduce`.
  `Filter` gets an independent description through the ascending list of the positions it keeps, `Positions`.
- `Text` holds ASCII case folding, `includes`, first-letter capitalisation, decimal rendering and `padStart`.
- `Badges` holds the badge colours.
- `Optional` holds an option type.

Pure expressions are Dafny functions, and their properties are lemmas. The
shell and each panel that a handler changes are classes: Cases, Clients,
Documents and Time Tracking. Each class has the same fields as the
component's state, and one method per handler. Billing's only state is its
invoice list, which nothing changes, so Billing is modelled without a class,
on the constant `SeedInvoices`. Calendar's events are a plain constant in the
source, and the model keeps them as one.

Remounting a panel gives back its seeded state, which is its class's
constructor. `Role` is a closed datatype, so the "unknown role" case of a
string-typed role cannot arise.

## Model

| member | source | states |
|---|---|---|
| UserTypes.Role.Name | types/user.ts:2-7 | every role's value is one of "admin", "lawyer", "paralegal", "intern" |
| UserTypes.RoleNamesDistinct | types/user.ts:2-7 | two roles have the same string value exactly when they are the same role |
| Text.Lower | components/Clients.tsx:31-32 | lower-casing keeps the length, turns each upper-case letter into its lower-case counterpart and changes no other character |
| Text.Upper | components/Clients.tsx:31-32 | upper-casing keeps the length, turns each lower-case letter into its upper-case counterpart and changes no other character |
| Text.LowerOfUpper | components/Clients.tsx:31-32 | lower-casing an upper-cased string gives the lower-cased original |
| Text.Contains | components/Clients.tsx:31-32 | `includes` holds exactly when the term occurs at some position of the string |
| Text.Capitalize | components/Cases.tsx:65 | the result has the same length, its first character upper-cased and the rest unchanged |
| Text.NatToDecimal | components/TimeTracking.tsx:218-220 | the numeral is non-empty, all digits, and has no leading zero |
| Text.DecimalRoundTrip | components/TimeTracking.tsx:218-220 | reading the numeral of `n` back gives `n` |
| Text.DecimalLength | components/TimeTracking.tsx:218-220 | the numeral has one digit exactly below 10 and at most two exactly below 100 |
| Text.PadStart | components/TimeTracking.tsx:218-220 | the result is at least `width` long, ends with the input and is fill characters before it |
| Text.DecimalLeadingZeros | components/TimeTracking.tsx:218-220 | zeros in front of a numeral do not change its value |
| SideBar.RenderMenu | components/SideBar.tsx:34-45 | one button per visible item, in order, with its id and caption, active exactly when its id is the current view |
| SideBar.DesktopMenu | components/SideBar.tsx:34-45 | the desktop menu has one button per item visible to the role, in order, with its id and caption, active exactly when its id is the current view; which items are visible is stated by `SideBar.VisibleMenuIsSelection` |
| SideBar.VisibleMenuIsSelection | components/SideBar.tsx:12-24 | the visible menu is an order-preserving subsequence of the table; its k-th entry is the table entry at the k-th position whose roles include the user's role |
| SideBar.AdminSeesAll | components/SideBar.tsx:13-21 | ADMIN sees all nine items in table order |
| SideBar.LawyerMenu | components/SideBar.tsx:13-21 | LAWYER sees dashboard, clients, cases, calendar, time, billing and documents, and not reports or settings |
| SideBar.ParalegalMenu | components/SideBar.tsx:13-21 | PARALEGAL sees dashboard, clients, cases, calendar, time and documents, and not billing, reports or settings |
| SideBar.InternMenu | components/SideBar.tsx:13-16 | INTERN sees exactly dashboard and calendar |
| SideBar.DashboardAlwaysFirst | components/SideBar.tsx:13 | every role sees Dashboard, as the first entry |
| SideBar.TableIdsDistinct | components/SideBar.tsx:13-21 | no two table entries share an id |
| SideBar.SelectionKeepsIdsDistinct | components/SideBar.tsx:24 | a role selection from a table with distinct ids has distinct ids |
| SideBar.OneActiveButton | components/SideBar.tsx:38-41 | at most one button of the desktop menu is active |
| SideBar.ClickActivatesClickedItem | components/SideBar.tsx:37-41 | clicking button k forwards its item's id, and with that id as the view, button k is the one active button |
| MobileSidebar.MobileMenu | components/MobileSidebar.tsx:36 | the overlay renders nothing exactly when it is closed |
| MobileSidebar.TablesAgree | components/MobileSidebar.tsx:20-30 | the mobile table equals the desktop table entry by entry |
| MobileSidebar.MobileMatchesDesktop | components/MobileSidebar.tsx:32-75 | both filters show the same items to every role, and the open overlay shows the desktop menu, highlight included |
| MobileSidebar.MobileMenuIsSelection | components/MobileSidebar.tsx:32 | the mobile selection is an order-preserving subsequence of its table: its k-th entry is the table entry at the k-th position whose roles include the user's |
| MobileSidebar.MobileHighlight | components/MobileSidebar.tsx:68-72 | a mobile button is active exactly when its id is the current view, and at most one is |
| Page.PanelKey | app/page.tsx:34-52 | every panel's key is one of the nine router keys |
| Page.RenderContent | app/page.tsx:33-56 | a router key shows the panel whose key it is, and any other key the Dashboard; it takes the view key and nothing else |
| Page.PanelKeyRoutes | app/page.tsx:34-52 | every panel is reached through its own key |
| Page.KeysRouteToDistinctPanels | app/page.tsx:34-52 | each of the nine keys routes to a panel from which the key can be read back, so no two keys share a panel |
| Page.UnknownKeyShowsDashboard | app/page.tsx:53-54 | any other key shows the Dashboard |
| Page.MenuIdsAreRouted | app/page.tsx:34-52 | every menu id has a case of its own and routes to the panel whose key it is |
| Page.Shell.constructor | app/page.tsx:20-31 | the shell starts on view "dashboard", overlay closed, with the ADMIN mock user, so the Dashboard is shown and the overlay renders nothing |
| Page.Shell.SelectDesktopItem | components/SideBar.tsx:37 | a desktop click sets the view to the item's id and changes nothing else; the item's panel is then shown and a desktop button is active exactly when its id is the item's |
| Page.Shell.OpenMobileSidebar | app/page.tsx:77 | the top bar's menu button opens the overlay, which then shows the desktop menu, and leaves the view, the panel and the user alone |
| Page.Shell.CloseMobileSidebar | components/MobileSidebar.tsx:41-48 | the backdrop and the close button close the overlay, so it renders nothing, and leave the view and the panel unchanged |
| Page.Shell.SelectMobileItem | components/MobileSidebar.tsx:64-67 | a mobile click sets the view to the item's id and closes the overlay: the item's panel is shown and the overlay renders nothing |
| Page.InitialScreen | app/page.tsx:29-36 | at start the Dashboard is shown, the overlay renders nothing and the desktop menu has nine buttons with only Dashboard active |
| Page.SelectingAnItemShowsItsPanel | app/page.tsx:34-52 | selecting the k-th visible item shows that item's panel and makes exactly that button active |
| Cases.FilteredCases | components/Cases.tsx:32-33 | the 'all' filter returns the list unchanged |
| Cases.TabKey | components/Cases.tsx:55-65 | a tab's key is a non-empty lower-case word, and "all" only for the 'all' tab |
| Cases.CountByStatus | components/Cases.tsx:36-41 | `all` is the number of cases and the three status counts add up to it; `Cases.TabCountIsListLength` ties each count to its tab's list |
| Cases.StatusTabSelects | components/Cases.tsx:34 | a status tab shows an order-preserving subsequence of the cases with that status: its k-th row is the case at the k-th position with that status, repeats included |
| Cases.CountsAddUp | components/Cases.tsx:36-41 | the open, active and closed lists have lengths adding up to the number of cases |
| Cases.TabCountIsListLength | components/Cases.tsx:32-41 | the count in each tab equals the length of the list shown when that tab is selected |
| Cases.TabLabel | components/Cases.tsx:65 | a label is longer than its key plus " ()", starts with an upper-case letter and ends with ')' |
| Cases.TabLabelReadsBack | components/Cases.tsx:55-65 | a label is the key with its first letter upper-cased, then " (", then digits without a leading zero whose value is the number of cases the tab shows, then ")" |
| Cases.TabBar | components/Cases.tsx:55-66 | one button per tab in the order all, open, active, closed, selected exactly when its tab is the current filter |
| Cases.ExactlyOneTabActive | components/Cases.tsx:59-63 | whatever the filter, exactly one tab is selected |
| Cases.PriorityColour | components/Cases.tsx:114-118 | high is red, medium yellow and low green |
| Cases.SeedSelection | components/Cases.tsx:22-34 | with the seeded cases, open shows case 5, active cases 1, 2 and 4, closed case 3 |
| Cases.SeedTabs | components/Cases.tsx:22-41 | the seeded counts are 5, 1, 3, 1 and the tabs read "All (5)", "Open (1)", "Active (3)", "Closed (1)" |
| Cases.CasesPanel.constructor | components/Cases.tsx:22-30 | the panel starts with the seeded cases on the 'all' tab, showing all of them, with only the first tab selected |
| Cases.CasesPanel.SelectTab | components/Cases.tsx:58 | a tab click selects that tab: the table then shows its selection and that tab is the one selected in the bar |
| Clients.SearchSelects | components/Clients.tsx:30-33 | the rows are an order-preserving subsequence whose k-th row is the client at the k-th matching position, a client matching exactly when the lower-cased term occurs in its lower-cased name or e-mail |
| Clients.MatchesSearch | components/Clients.tsx:30-32 | a client matches exactly when the lower-cased term occurs at some position of its lower-cased name or of its lower-cased e-mail |
| Clients.EmptyTermKeepsAll | components/Clients.tsx:28-33 | the empty term keeps every client |
| Clients.CaseInsensitive | components/Clients.tsx:31-32 | two terms equal after lower-casing select the same clients |
| Clients.LetterCaseOfTermIrrelevant | components/Clients.tsx:31-32 | upper-casing or lower-casing the term changes nothing |
| Clients.SearchIdempotent | components/Clients.tsx:30-33 | searching the result again with the same term gives the same list |
| Clients.StatusColour | components/Clients.tsx:102 | the badge is green exactly for an active client and gray otherwise |
| Clients.Initial | components/Clients.tsx:90 | the avatar shows the name's first character, or nothing for an empty name |
| Clients.ClientsPanel.constructor | components/Clients.tsx:20-28 | the panel starts with the seeded clients and an empty term, so all five are shown |
| Clients.ClientsPanel.SetSearchTerm | components/Clients.tsx:45 | typing replaces the term, and the table then shows that term's selection |
| Documents.FilteredDocuments | components/Documents.tsx:35-36 | 'all' returns the documents unchanged, and the result takes no search term |
| Documents.CategorySelects | components/Documents.tsx:37 | any other category shows an order-preserving subsequence whose k-th row is the document at the k-th position filed under it |
| Documents.CategoryIdempotent | components/Documents.tsx:35-37 | choosing the same category again shows the same list |
| Documents.FileIcon | components/Documents.tsx:39-47 | PDF and DOCX get icons of their own, XLSX and PPTX share the chart icon, and any other type gets the folder |
| Documents.OptionCaptions | components/Documents.tsx:74-78 | the selector reads "All Categories" and then the six category names, all different |
| Documents.OptionCaption | components/Documents.tsx:76 | an option shows its category's name, and never the raw key 'all'; the whole list is stated by `Documents.OptionCaptions` |
| Documents.SeedCategories | components/Documents.tsx:22-37 | every seeded document's category is a non-'all' option, and each of the six options selects exactly the seeded document at its place |
| Documents.DocumentsPanel.constructor | components/Documents.tsx:22-31 | the panel starts on 'all' showing the six seeded documents |
| Documents.DocumentsPanel.SelectCategory | components/Documents.tsx:71 | the selector replaces the category, and the table then shows that category's selection |
| Billing.InvoiceStatus.Name | components/Billing.tsx:12 | every status's tag is one of "draft", "sent", "paid", "overdue" |
| Billing.StatusColour | components/Billing.tsx:87-94 | paid is green, sent blue, overdue red, and every other string gray |
| Billing.InvoiceBadges | components/Billing.tsx:87-94 | a draft invoice is gray, and the four statuses get four different colours |
| Billing.TotalAmount | components/Billing.tsx:96-102 | the sum of the invoice amounts, non-negative when every amount is |
| Billing.TotalPaid | components/Billing.tsx:100-102 | `totalPaid` is between nothing and the sum of all invoices when amounts are non-negative; `Billing.PaidAndOutstandingPartition` states what it adds up with |
| Billing.TotalOutstanding | components/Billing.tsx:96-98 | `totalOutstanding` is the sum of all invoices minus `totalPaid`, and between nothing and that sum when amounts are non-negative; `Billing.OutstandingIsDraftSentOverdue` splits it by status |
| Billing.StatusTotal | components/Billing.tsx:96-102 | the total of one status is between nothing and the sum of all invoices when amounts are non-negative |
| Billing.TotalInvoices | components/Billing.tsx:126 | the invoice count is the number of paid plus the number of unpaid invoices |
| Billing.PaidAndOutstandingPartition | components/Billing.tsx:96-102 | totalPaid + totalOutstanding is the sum of all invoice amounts |
| Billing.OutstandingIsDraftSentOverdue | components/Billing.tsx:96-98 | totalOutstanding is the sum of the draft, sent and overdue totals |
| Billing.SeedInvoicesConsistent | components/Billing.tsx:29-78 | every seeded item's amount is quantity times rate, and every seeded invoice's amount is the sum of its items |
| Billing.SeedCards | components/Billing.tsx:28-102 | the seeded cards read 4 invoices, 5250 paid and 8000 outstanding |
| Calendar.UpcomingEvents | components/Calender.tsx:121 | the upcoming list has at most three events, is a prefix of the not-today events, and is all of them when there are fewer than three |
| Calendar.TodaySelects | components/Calender.tsx:34 | today's schedule is an order-preserving subsequence whose k-th entry is the event at the k-th position dated 2023-07-20 |
| Calendar.UpcomingSelects | components/Calender.tsx:121 | the upcoming list is an order-preserving subsequence of events not dated today, with min(3, number of such events) entries, its k-th entry being the event at the k-th position not dated today |
| Calendar.TodayAndNotTodayPartition | components/Calender.tsx:121 | the two date filters split the list: their lengths add up and no event is in both |
| Calendar.TypeColour | components/Calender.tsx:64-68 | hearing is red, meeting blue, deadline yellow and other gray, in both lists |
| Calendar.TodaySection | components/Calender.tsx:59-61 | when the schedule is shown, it lists today's events and at least one |
| Calendar.FallbackIffNothingToday | components/Calender.tsx:59-111 | "No events scheduled" is shown exactly when no event is dated today |
| Calendar.SeedSchedule | components/Calender.tsx:26-34 | with the panel's events, today's schedule is the first three and the upcoming list the last two |
| TimeTracking.UnbilledAreBillable | components/TimeTracking.tsx:118-120 | the unbilled entries are those billable entries not yet billed, a subsequence of the billable entries |
| TimeTracking.TotalBillable | components/TimeTracking.tsx:34-36 | `totalBillable` sums duration times rate over billable entries, and is non-negative when every duration and rate is; `TimeTracking.UnbilledWithinBillable` states how it splits |
| TimeTracking.BillableHours | components/TimeTracking.tsx:74 | the billable hours are non-negative when every duration is; `TimeTracking.NonBillableContributesNothing` states that only billable entries count |
| TimeTracking.UnbilledAmount | components/TimeTracking.tsx:118-120 | the unbilled amount is non-negative when every duration and rate is; `TimeTracking.UnbilledWithinBillable` bounds it by `totalBillable` |
| TimeTracking.UnbilledWithinBillable | components/TimeTracking.tsx:118-120 | the billable total is the unbilled amount plus the billed amount, and with non-negative durations and rates the unbilled amount is at most the billable total |
| TimeTracking.NonBillableContributesNothing | components/TimeTracking.tsx:34-36 | inserting a non-billable entry anywhere changes neither total nor the billable hours |
| TimeTracking.AmountCellOf | components/TimeTracking.tsx:192 | the cell reads "Non-billable" exactly for a non-billable entry, and otherwise shows duration times rate |
| TimeTracking.StatusColour | components/TimeTracking.tsx:195-199 | draft is yellow, submitted blue and billed green |
| TimeTracking.SplitSeconds | components/TimeTracking.tsx:218-220 | minutes and seconds are below 60 and h·3600 + m·60 + s is the count of seconds |
| TimeTracking.SplitSecondsUnique | components/TimeTracking.tsx:218-220 | no other split has minutes and seconds below 60 |
| TimeTracking.TimerField | components/TimeTracking.tsx:218-220 | a field is at least two digits, exactly two below 100, reads back as its value, and from 10 on is the plain numeral, so it has no leading zero beyond two digits |
| TimeTracking.TimerDisplay | components/TimeTracking.tsx:217-221 | the display is at least eight characters, ends in a colon and two digits, and is exactly eight below 100 hours; `TimeTracking.TimerDisplayReadsBack` reads each field back |
| TimeTracking.TimerDisplayReadsBack | components/TimeTracking.tsx:217-221 | for every count, the display is an hours field, a colon, two-digit minutes, a colon and two-digit seconds, and the three fields read back as the split `SplitSeconds` recomposes to the count |
| TimeTracking.TimerDisplayBelow100Hours | components/TimeTracking.tsx:217-221 | below 100 hours the display is exactly `HH:MM:SS`: colons at places 2 and 5, and the three two-digit fields read back as the split of the count |
| TimeTracking.SeedSelections | components/TimeTracking.tsx:23-36 | of the seeded entries, entry 4 is the only non-billable one, and entry 3 the only billed one |
| TimeTracking.SeedCards | components/TimeTracking.tsx:23-36 | the seeded cards read 11 billable hours, 2750 billable and 1875 unbilled |
| TimeTracking.TimeTrackingPanel.constructor | components/TimeTracking.tsx:23-32 | the timer starts stopped at 0, showing Start and "00:00:00" |
| TimeTracking.TimeTrackingPanel.Button | components/TimeTracking.tsx:224-238 | the Stop button is shown exactly while the timer runs |
| TimeTracking.TimeTrackingPanel.Start | components/TimeTracking.tsx:233 | Start sets the running flag and then Stop is shown |
| TimeTracking.TimeTrackingPanel.Stop | components/TimeTracking.tsx:226 | Stop clears the running flag and then Start is shown |

## Left out

- Markup, Tailwind classes, SVG icons, emoji, `next/head` and the static "Add", "Edit", "View", "Delete", "Download" and "Save Entry" buttons: these are presentation with no behaviour. Colours and icons are modelled as datatypes.
- `Intl.NumberFormat` currency formatting in Billing and Time Tracking: this is a foreign library call. The model keeps the amount it formats.
- `formatDuration` in Time Tracking: it rounds fractional hours in floating point. The model keeps the exact hours it is given.
- Unicode: strings are modelled as sequences of characters, not as JavaScript's UTF-16 code units. So `Clients.Initial` returns a whole character where `charAt(0)` of a name starting outside the Basic Multilingual Plane gives half a surrogate pair, and `Text.Lower` and `Text.Upper` fold only ASCII letters where `toLowerCase` and `toUpperCase` also fold other scripts.
- Settings, Dashboard, TopNav and Reports: these hold static content or unwired controls. TopNav's menu callback is `Page.Shell.OpenMobileSidebar`. Reports is not part of this model.
- Timer progression: nothing in the panel ever advances `currentTime`, so the model keeps it as a field that no method changes.
- Calendar: the `selectedDate` and `view` state and the "Day/Week/Month View" selector are never used. The date treated as today is the fixed string 2023-07-20.
- Billing and Time Tracking have status selectors that filter nothing, and the Documents search box holds no state. None of them is modelled beyond the absence of a term parameter in `Documents.FilteredDocuments`.
- The user prop that the panels receive is not modelled. The router depends only on the view key, which shows in the signature of `Page.RenderContent`.
- Cases, Clients, Documents and Time Tracking keep their lists in state but never call the setter, so in the model the lists are `const` fields of the panel classes.
- Billing keeps its invoices in state but never changes them, and has no other state, so Billing has no class and works on the constant `SeedInvoices`.
- Durations, amounts and hours in Time Tracking are JavaScript doubles, but the model adds them up as exact reals. So `TimeTracking.UnbilledWithinBillable` and `TimeTracking.SeedCards` hold for exact values, and not necessarily for the rounded sums the page computes.
- SideBar.FilteredItems: its own contract states only that the selection is no longer than the table. Soundness, completeness and order are in `SideBar.VisibleMenuIsSelection` and `Seqs.FilterSelectsPositions`.
- MobileSidebar.MobileFilteredItems: its own contract states only the length bound. What it selects is in `MobileSidebar.MobileMenuIsSelection` and `MobileSidebar.MobileMatchesDesktop`.
- Cases.WithStatus, Documents.InCategory, Clients.FilteredClients, Billing.PaidInvoices, Billing.UnpaidInvoices, Calendar.TodayEvents, Calendar.NotToday, TimeTracking.BillableEntries, TimeTracking.UnbilledEntries and TimeTracking.BilledEntries: each one's own contract states only the length bound. What each selects is stated by the lemmas listed beside it in the table.
- TimeTracking.SplitSeconds: it is stated for non-negative whole seconds only. That is the only kind of value the panel holds, so JavaScript's truncating `%` on negative numbers does not arise.
