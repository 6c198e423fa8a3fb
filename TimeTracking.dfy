/** The Time Tracking panel of components/TimeTracking.tsx: the billable
    totals, the unbilled amount, the amount cell, the status badge, and the
    timer with its HH:MM:SS display and its start/stop flag. Durations are
    exact hours and rates whole dollars per hour. */
module TimeTracking {
  import opened Optional
  import opened Seqs
  import opened Text
  import opened Badges

  datatype EntryStatus = Draft | Submitted | Billed

  datatype TimeEntry = TimeEntry(
    id: string, date: string, client: string, caseTitle: string, activity: string,
    duration: real, billable: bool, rate: int, description: Option<string>, status: EntryStatus)

  /** `entry.duration * entry.rate`. */
  function Amount(e: TimeEntry): real {
    e.duration * e.rate as real
  }

  function BillableEntries(entries: seq<TimeEntry>): (r: seq<TimeEntry>)
    ensures |r| <= |entries|
  {
    Filter(entries, (e: TimeEntry) => e.billable)
  }

  /** The entries counted as unbilled: billable and not yet billed. */
  function UnbilledEntries(entries: seq<TimeEntry>): (r: seq<TimeEntry>)
    ensures |r| <= |entries|
  {
    Filter(entries, (e: TimeEntry) => e.billable && e.status != Billed)
  }

  /** The billable entries that have been billed. */
  function BilledEntries(entries: seq<TimeEntry>): (r: seq<TimeEntry>)
    ensures |r| <= |entries|
  {
    Filter(entries, (e: TimeEntry) => e.billable && e.status == Billed)
  }

  /** Every entry has a non-negative duration and rate. */
  predicate NonNegativeEntries(entries: seq<TimeEntry>) {
    forall i :: 0 <= i < |entries| ==> entries[i].duration >= 0.0 && entries[i].rate >= 0
  }

  /** An entry with a non-negative duration and rate has a non-negative
      amount. */
  lemma AmountsNonNegative(entries: seq<TimeEntry>)
    ensures NonNegativeEntries(entries) ==> forall i :: 0 <= i < |entries| ==> Amount(entries[i]) >= 0.0
  {
    if NonNegativeEntries(entries) {
      forall i | 0 <= i < |entries|
        ensures Amount(entries[i]) >= 0.0
      {
        var e := entries[i];
        assert e.duration >= 0.0 && e.rate as real >= 0.0;
      }
    }
  }

  /** `totalBillable`: non-negative when every duration and rate is. */
  function TotalBillable(entries: seq<TimeEntry>): (r: real)
    ensures NonNegativeEntries(entries) ==> r >= 0.0
  {
    AmountsNonNegative(entries);
    FilterKeepsProperty(entries, (e: TimeEntry) => e.billable, (e: TimeEntry) => Amount(e) >= 0.0);
    RealSumNonNegative(BillableEntries(entries), (e: TimeEntry) => Amount(e));
    RealSum(BillableEntries(entries), (e: TimeEntry) => Amount(e))
  }

  /** The "Total Billable Hours" card, before formatting: non-negative when
      every duration is. */
  function BillableHours(entries: seq<TimeEntry>): (r: real)
    ensures (forall i :: 0 <= i < |entries| ==> entries[i].duration >= 0.0) ==> r >= 0.0
  {
    FilterKeepsProperty(entries, (e: TimeEntry) => e.billable, (e: TimeEntry) => e.duration >= 0.0);
    RealSumNonNegative(BillableEntries(entries), (e: TimeEntry) => e.duration);
    RealSum(BillableEntries(entries), (e: TimeEntry) => e.duration)
  }

  /** The "Unbilled Time" card, before formatting: non-negative when every
      duration and rate is. */
  function UnbilledAmount(entries: seq<TimeEntry>): (r: real)
    ensures NonNegativeEntries(entries) ==> r >= 0.0
  {
    AmountsNonNegative(entries);
    FilterKeepsProperty(entries, (e: TimeEntry) => e.billable && e.status != Billed, (e: TimeEntry) => Amount(e) >= 0.0);
    RealSumNonNegative(UnbilledEntries(entries), (e: TimeEntry) => Amount(e));
    RealSum(UnbilledEntries(entries), (e: TimeEntry) => Amount(e))
  }

  /** The unbilled entries are the billable entries not yet billed: a
      selection from those `totalBillable` sums over. */
  lemma UnbilledAreBillable(entries: seq<TimeEntry>)
    ensures UnbilledEntries(entries) == Filter(BillableEntries(entries), (e: TimeEntry) => e.status != Billed)
    ensures IsSubsequence(UnbilledEntries(entries), BillableEntries(entries))
  {
    FilterFilter(entries, (e: TimeEntry) => e.billable, (e: TimeEntry) => e.status != Billed,
      (e: TimeEntry) => e.billable && e.status != Billed);
    FilterIsSubsequence(BillableEntries(entries), (e: TimeEntry) => e.status != Billed);
  }

  /** The billable amount splits into the unbilled amount and the amount
      already billed; with non-negative durations and rates the unbilled
      amount never exceeds the billable total. */
  lemma UnbilledWithinBillable(entries: seq<TimeEntry>)
    ensures UnbilledAmount(entries) + RealSum(BilledEntries(entries), (e: TimeEntry) => Amount(e)) == TotalBillable(entries)
    ensures NonNegativeEntries(entries) ==> UnbilledAmount(entries) <= TotalBillable(entries)
  {
    var billable := BillableEntries(entries);
    var notBilled := (e: TimeEntry) => e.status != Billed;
    var billed := (e: TimeEntry) => e.status == Billed;
    var f := (e: TimeEntry) => Amount(e);
    UnbilledAreBillable(entries);
    FilterFilter(entries, (e: TimeEntry) => e.billable, billed, (e: TimeEntry) => e.billable && e.status == Billed);
    RealSumPartition(billable, notBilled, billed, f);
    AmountsNonNegative(entries);
    FilterKeepsProperty(entries, (e: TimeEntry) => e.billable && e.status == Billed, (e: TimeEntry) => Amount(e) >= 0.0);
    RealSumNonNegative(BilledEntries(entries), f);
  }

  /** A non-billable entry adds nothing to any of the three cards, wherever
      it stands in the list. */
  lemma NonBillableContributesNothing(a: seq<TimeEntry>, e: TimeEntry, b: seq<TimeEntry>)
    requires !e.billable
    ensures TotalBillable(a + [e] + b) == TotalBillable(a + b)
    ensures BillableHours(a + [e] + b) == BillableHours(a + b)
    ensures UnbilledAmount(a + [e] + b) == UnbilledAmount(a + b)
  {
    var p := (x: TimeEntry) => x.billable;
    var u := (x: TimeEntry) => x.billable && x.status != Billed;
    FilterAppend(a + [e], b, p);
    FilterAppend(a, [e], p);
    FilterAppend(a, b, p);
    FilterAppend(a + [e], b, u);
    FilterAppend(a, [e], u);
    FilterAppend(a, b, u);
    assert [e][..0] == [];
    assert Filter(a, p) + [] == Filter(a, p);
    assert Filter(a, u) + [] == Filter(a, u);
  }

  /** The amount column: the entry's amount, or "Non-billable". */
  datatype AmountCell = Money(value: real) | NonBillable

  function AmountCellOf(e: TimeEntry): (cell: AmountCell)
    ensures cell == NonBillable <==> !e.billable
    ensures cell.Money? ==> cell.value == e.duration * e.rate as real
  {
    if e.billable then Money(Amount(e)) else NonBillable
  }

  /** The status badge: draft yellow, submitted blue, billed green. */
  function StatusColour(s: EntryStatus): (c: Colour)
    ensures c == Yellow <==> s == Draft
    ensures c == Blue <==> s == Submitted
    ensures c == Green <==> s == Billed
  {
    match s
    case Draft => Yellow
    case Submitted => Blue
    case Billed => Green
  }

  /** A count of seconds split into hours, minutes and seconds. */
  datatype Clock = Clock(hours: nat, minutes: nat, seconds: nat)

  /** `Math.floor(t / 3600)`, `Math.floor((t % 3600) / 60)` and `t % 60`
      for a non-negative whole number of seconds. */
  function SplitSeconds(t: nat): (c: Clock)
    ensures c.minutes < 60 && c.seconds < 60
    ensures c.hours * 3600 + c.minutes * 60 + c.seconds == t
  {
    Clock(t / 3600, (t % 3600) / 60, t % 60)
  }

  /** The split is the only one with minutes and seconds below 60. */
  lemma SplitSecondsUnique(t: nat, c: Clock)
    requires c.minutes < 60 && c.seconds < 60
    requires c.hours * 3600 + c.minutes * 60 + c.seconds == t
    ensures c == SplitSeconds(t)
  {
    var d := SplitSeconds(t);
    assert c.minutes * 60 + c.seconds < 3600;
    assert d.minutes * 60 + d.seconds < 3600;
    assert c.hours == d.hours;
    assert c.minutes * 60 + c.seconds == d.minutes * 60 + d.seconds;
  }

  /** One field of the display: `n.toString().padStart(2, '0')`. */
  function TimerField(n: nat): (r: string)
    ensures |r| >= 2 && AllDigits(r)
    ensures n < 100 ==> |r| == 2
    ensures DecimalValue(r) == n
    ensures |r| > 2 ==> r[0] != '0'
    ensures n >= 10 ==> r == NatToDecimal(n)
  {
    var digits := NatToDecimal(n);
    DecimalLength(n);
    DecimalRoundTrip(n);
    var r := PadStart(digits, 2, '0');
    DecimalLeadingZeros(r[..|r| - |digits|], digits);
    assert r == r[..|r| - |digits|] + digits;
    r
  }

  /** The timer display `HH:MM:SS`: at least eight characters, with the
      seconds always the two digits after the last colon, and exactly eight
      below 100 hours. */
  function TimerDisplay(t: nat): (d: string)
    ensures |d| >= 8 && d[|d| - 3] == ':' && AllDigits(d[|d| - 2..])
    ensures t < 360000 ==> |d| == 8
  {
    var c := SplitSeconds(t);
    TimerField(c.hours) + ":" + TimerField(c.minutes) + ":" + TimerField(c.seconds)
  }

  /** The display is hours, ':', two-digit minutes, ':' and two-digit
      seconds, and reading its three fields back gives the split of the count
      of seconds (which `SplitSeconds` recomposes to that count). */
  lemma TimerDisplayReadsBack(t: nat)
    ensures var d := TimerDisplay(t);
      && |d| >= 8 && d[|d| - 6] == ':' && d[|d| - 3] == ':'
      && AllDigits(d[..|d| - 6]) && AllDigits(d[|d| - 5..|d| - 3]) && AllDigits(d[|d| - 2..])
      && Clock(DecimalValue(d[..|d| - 6]), DecimalValue(d[|d| - 5..|d| - 3]), DecimalValue(d[|d| - 2..]))
         == SplitSeconds(t)
  {
    var c := SplitSeconds(t);
    var hh, mm, ss := TimerField(c.hours), TimerField(c.minutes), TimerField(c.seconds);
    FieldsReadBack(TimerDisplay(t), hh, mm, ss, c);
  }

  /** Below 100 hours the display is eight characters, `HH:MM:SS`. */
  lemma TimerDisplayBelow100Hours(t: nat)
    requires t < 360000
    ensures var d := TimerDisplay(t);
      && |d| == 8 && d[2] == ':' && d[5] == ':'
      && AllDigits(d[0..2]) && AllDigits(d[3..5]) && AllDigits(d[6..8])
      && Clock(DecimalValue(d[0..2]), DecimalValue(d[3..5]), DecimalValue(d[6..8])) == SplitSeconds(t)
  {
    TimerDisplayReadsBack(t);
    EightCharacterFields(TimerDisplay(t), SplitSeconds(t));
  }

  /** A general read-back of exactly eight characters is `HH:MM:SS`. */
  lemma EightCharacterFields(d: string, c: Clock)
    requires |d| == 8 && d[|d| - 6] == ':' && d[|d| - 3] == ':'
    requires AllDigits(d[..|d| - 6]) && AllDigits(d[|d| - 5..|d| - 3]) && AllDigits(d[|d| - 2..])
    requires Clock(DecimalValue(d[..|d| - 6]), DecimalValue(d[|d| - 5..|d| - 3]), DecimalValue(d[|d| - 2..])) == c
    ensures d[2] == ':' && d[5] == ':'
    ensures AllDigits(d[0..2]) && AllDigits(d[3..5]) && AllDigits(d[6..8])
    ensures Clock(DecimalValue(d[0..2]), DecimalValue(d[3..5]), DecimalValue(d[6..8])) == c
  {
    assert d[..|d| - 6] == d[0..2] && d[|d| - 5..|d| - 3] == d[3..5] && d[|d| - 2..] == d[6..8];
  }

  /** Three digit fields joined by colons read back as the clock they spell. */
  lemma FieldsReadBack(d: string, hh: string, mm: string, ss: string, c: Clock)
    requires |hh| >= 2 && |mm| == 2 && |ss| == 2
    requires AllDigits(hh) && AllDigits(mm) && AllDigits(ss)
    requires DecimalValue(hh) == c.hours && DecimalValue(mm) == c.minutes && DecimalValue(ss) == c.seconds
    requires d == hh + ":" + mm + ":" + ss
    ensures |d| >= 8 && d[|d| - 6] == ':' && d[|d| - 3] == ':'
    ensures AllDigits(d[..|d| - 6]) && AllDigits(d[|d| - 5..|d| - 3]) && AllDigits(d[|d| - 2..])
    ensures Clock(DecimalValue(d[..|d| - 6]), DecimalValue(d[|d| - 5..|d| - 3]), DecimalValue(d[|d| - 2..])) == c
  {
    JoinFields(hh, mm, ss);
  }

  /** An hours field of two or more characters and two two-character fields,
      joined by colons: the colons sit three and six places from the end. */
  lemma JoinFields(hh: string, mm: string, ss: string)
    requires |hh| >= 2 && |mm| == 2 && |ss| == 2
    ensures var d := hh + ":" + mm + ":" + ss;
      && |d| == |hh| + 6 && d[|d| - 6] == ':' && d[|d| - 3] == ':'
      && d[..|d| - 6] == hh && d[|d| - 5..|d| - 3] == mm && d[|d| - 2..] == ss
  {
    var d := hh + ":" + mm + ":" + ss;
    assert d == hh + ([':'] + mm + [':'] + ss);
  }

  /** The timer's one button. */
  datatype TimerButton = StartTimer | StopTimer

  /** The entries of the panel. */
  const SeedEntries: seq<TimeEntry> := [
    TimeEntry("1", "2023-07-20", "Johnson Enterprises", "Johnson vs. Thompson Contract Dispute", "Case Research",
      2.5, true, 250, Some("Reviewed contract documents and case law"), Draft),
    TimeEntry("2", "2023-07-20", "Smith & Associates", "Smith Property Acquisition", "Client Meeting",
      1.0, true, 250, Some("Initial consultation regarding property acquisition"), Submitted),
    TimeEntry("3", "2023-07-19", "Thompson Manufacturing", "Thompson Employment Agreement", "Document Drafting",
      3.5, true, 250, Some("Drafted employment agreement templates"), Billed),
    TimeEntry("4", "2023-07-19", "Internal", "Administrative", "Training",
      2.0, false, 0, Some("New software training session"), Draft),
    TimeEntry("5", "2023-07-18", "Williams Properties", "Williams Intellectual Property", "Filing Preparation",
      4.0, true, 250, Some("Prepared trademark filing documents"), Submitted)
  ]

  /** Of the panel's entries, all but the fourth are billable, and of those
      all but the third are still unbilled. */
  lemma {:induction false} SeedSelections()
    ensures var s := SeedEntries;
      && BillableEntries(s) == [s[0], s[1], s[2], s[4]]
      && UnbilledEntries(s) == [s[0], s[1], s[4]]
  {
    SeedBillable();
    SeedUnbilled();
  }

  lemma {:induction false} SeedBillable()
    ensures var s := SeedEntries; BillableEntries(s) == [s[0], s[1], s[2], s[4]]
  {
    var s := SeedEntries;
    var p := (e: TimeEntry) => e.billable;
    assert s[..0] == [];
    FilterPrefixStep(s, p, 1);
    FilterPrefixStep(s, p, 2);
    FilterPrefixStep(s, p, 3);
    FilterPrefixStep(s, p, 4);
    FilterPrefixStep(s, p, 5);
    assert s[..5] == s;
  }

  lemma {:induction false} SeedUnbilled()
    ensures var s := SeedEntries; UnbilledEntries(s) == [s[0], s[1], s[4]]
  {
    var s := SeedEntries;
    var u := (e: TimeEntry) => e.billable && e.status != Billed;
    assert s[..0] == [];
    FilterPrefixStep(s, u, 1);
    FilterPrefixStep(s, u, 2);
    FilterPrefixStep(s, u, 3);
    FilterPrefixStep(s, u, 4);
    FilterPrefixStep(s, u, 5);
    assert s[..5] == s;
  }

  /** With the panel's entries the cards read 11 billable hours, 2750 billable
      and 1875 unbilled. */
  lemma SeedCards()
    ensures BillableHours(SeedEntries) == 11.0
    ensures TotalBillable(SeedEntries) == 2750.0
    ensures UnbilledAmount(SeedEntries) == 1875.0
  {
    var s := SeedEntries;
    SeedSelections();
    var billable := [s[0], s[1], s[2], s[4]];
    var unbilled := [s[0], s[1], s[4]];
    assert billable[..3] == [s[0], s[1], s[2]];
    assert billable[..3][..2] == [s[0], s[1]];
    assert unbilled[..2] == [s[0], s[1]];
    assert [s[0], s[1]][..1] == [s[0]];
    assert [s[0]][..0] == [];
    var hours := (e: TimeEntry) => e.duration;
    var f := (e: TimeEntry) => Amount(e);
    assert RealSum([s[0]], hours) == 2.5;
    assert RealSum([s[0], s[1]], hours) == 3.5;
    assert RealSum([s[0], s[1], s[2]], hours) == 7.0;
    assert RealSum(billable, hours) == 11.0;
    assert RealSum([s[0]], f) == 625.0;
    assert RealSum([s[0], s[1]], f) == 875.0;
    assert RealSum([s[0], s[1], s[2]], f) == 1750.0;
    assert RealSum(billable, f) == 2750.0;
    assert RealSum(unbilled, f) == 1875.0;
  }

  /** The state of the panel: the entries (never changed), the running flag
      and the displayed count of seconds, which nothing advances. */
  class TimeTrackingPanel {
    const entries: seq<TimeEntry>
    var isTimerRunning: bool
    var currentTime: nat

    constructor ()
      ensures entries == SeedEntries && !isTimerRunning && currentTime == 0
      ensures Button() == StartTimer && Display() == "00:00:00"
    {
      entries := SeedEntries;
      isTimerRunning := false;
      currentTime := 0;
      new;
      assert TimerField(0) == "00";
    }

    /** Stop is offered exactly while the timer runs. */
    function Button(): (b: TimerButton)
      reads this
      ensures b == StopTimer <==> isTimerRunning
    {
      if isTimerRunning then StopTimer else StartTimer
    }

    function Display(): string
      reads this
    {
      TimerDisplay(currentTime)
    }

    /** "Start Timer": `setIsTimerRunning(true)`. */
    method Start()
      modifies this
      ensures isTimerRunning && currentTime == old(currentTime)
      ensures Button() == StopTimer
    {
      isTimerRunning := true;
    }

    /** "Stop Timer": `setIsTimerRunning(false)`. */
    method Stop()
      modifies this
      ensures !isTimerRunning && currentTime == old(currentTime)
      ensures Button() == StartTimer
    {
      isTimerRunning := false;
    }
  }
}
