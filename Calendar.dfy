/** The Calendar panel of components/Calender.tsx: today's schedule, the
    "No events scheduled" fallback, the upcoming list and the event-type
    colour. "Today" is the fixed date the panel is written against. */
module Calendar {
  import opened Optional
  import opened Seqs
  import opened Badges

  datatype EventType = Hearing | Meeting | Deadline | Other

  datatype Event = Event(
    id: string, title: string, eventType: EventType, date: string, time: string,
    duration: nat, participants: seq<string>, caseTitle: Option<string>,
    location: string, description: Option<string>)

  /** The date the panel treats as today. */
  const Today: string := "2023-07-20"

  /** `todayEvents`. */
  function TodayEvents(events: seq<Event>): (r: seq<Event>)
    ensures |r| <= |events|
  {
    Filter(events, (e: Event) => e.date == Today)
  }

  /** `events.filter(event => event.date !== '2023-07-20')`. */
  function NotToday(events: seq<Event>): (r: seq<Event>)
    ensures |r| <= |events|
  {
    Filter(events, (e: Event) => e.date != Today)
  }

  /** The upcoming list: the first (at most) three events not dated today. */
  function UpcomingEvents(events: seq<Event>): (r: seq<Event>)
    ensures |r| <= 3
    ensures r <= NotToday(events)
    ensures |r| == 3 || r == NotToday(events)
  {
    Take(NotToday(events), 3)
  }

  /** Today's schedule lists, in order, exactly the events dated today: its
      k-th entry is the event at the k-th position dated today. */
  lemma TodaySelects(events: seq<Event>)
    ensures var r := TodayEvents(events);
      && IsSubsequence(r, events)
      && (forall i :: 0 <= i < |r| ==> r[i] in events && r[i].date == Today)
      && (forall i :: 0 <= i < |events| ==> (events[i] in r <==> events[i].date == Today))
    ensures var r := TodayEvents(events);
      var idx := Positions(events, (e: Event) => e.date == Today, |events|);
      && |r| == |idx|
      && (forall k :: 0 <= k < |idx| ==> r[k] == events[idx[k]])
      && (forall i :: 0 <= i < |events| ==> (i in idx <==> events[i].date == Today))
  {
    var p := (e: Event) => e.date == Today;
    FilterIsSubsequence(events, p);
    FilterMembers(events, p);
    FilterSelectsPositions(events, p);
  }

  /** The upcoming list is an order-preserving selection of events not dated
      today, and it is the first three of them (or all, if fewer): its k-th
      entry is the event at the k-th position not dated today. */
  lemma UpcomingSelects(events: seq<Event>)
    ensures var r := UpcomingEvents(events);
      && IsSubsequence(r, events)
      && (forall i :: 0 <= i < |r| ==> r[i] in events && r[i].date != Today)
      && |r| == (if |NotToday(events)| < 3 then |NotToday(events)| else 3)
    ensures var r := UpcomingEvents(events);
      var idx := Positions(events, (e: Event) => e.date != Today, |events|);
      |r| <= |idx| && forall k :: 0 <= k < |r| ==> r[k] == events[idx[k]]
  {
    var p := (e: Event) => e.date != Today;
    var all := NotToday(events);
    var r := UpcomingEvents(events);
    FilterSelectsPositions(events, p);
    FilterMembers(events, p);
    var idx := Positions(events, p, |events|);
    assert Embeds(idx[..|r|], r, events);
  }

  /** Every event is either today's or not, never both: the two filters
      split the list. */
  lemma TodayAndNotTodayPartition(events: seq<Event>)
    ensures |TodayEvents(events)| + |NotToday(events)| == |events|
    ensures forall i :: 0 <= i < |TodayEvents(events)| ==> TodayEvents(events)[i] !in NotToday(events)
  {
    FilterPartitionLength(events, (e: Event) => e.date == Today, (e: Event) => e.date != Today);
    FilterMembers(events, (e: Event) => e.date == Today);
    FilterMembers(events, (e: Event) => e.date != Today);
  }

  /** The marker colour, the same in both lists: hearing red, meeting blue,
      deadline yellow and anything else gray. */
  function TypeColour(t: EventType): (c: Colour)
    ensures c == Red <==> t == Hearing
    ensures c == Blue <==> t == Meeting
    ensures c == Yellow <==> t == Deadline
    ensures c == Gray <==> t == Other
  {
    match t
    case Hearing => Red
    case Meeting => Blue
    case Deadline => Yellow
    case Other => Gray
  }

  /** What the "Today's Schedule" card shows. */
  datatype TodayCard = Schedule(items: seq<Event>) | NoEventsScheduled

  function TodaySection(events: seq<Event>): (card: TodayCard)
    ensures card.Schedule? ==> card.items == TodayEvents(events) && |card.items| > 0
  {
    if |TodayEvents(events)| > 0 then Schedule(TodayEvents(events)) else NoEventsScheduled
  }

  /** The fallback is shown exactly when no event is dated today. */
  lemma FallbackIffNothingToday(events: seq<Event>)
    ensures TodaySection(events) == NoEventsScheduled <==> forall i :: 0 <= i < |events| ==> events[i].date != Today
  {
    var p := (e: Event) => e.date == Today;
    FilterMembers(events, p);
    if forall i :: 0 <= i < |events| ==> events[i].date != Today {
      NoneSelected(events, p);
    }
  }

  /** The events of the panel. */
  const SeedEvents: seq<Event> := [
    Event("1", "Client Meeting - Johnson Case", Meeting, "2023-07-20", "10:00", 60,
      ["Sarah Johnson", "Robert Johnson"], Some("Johnson vs. Thompson Contract Dispute"),
      "Conference Room A", Some("Review contract terms and negotiation strategy")),
    Event("2", "Court Hearing - Smith Property", Hearing, "2023-07-20", "14:30", 120,
      ["Michael Chen", "Court Clerk"], Some("Smith Property Acquisition"),
      "Courtroom 5B", Some("Preliminary hearing for property dispute")),
    Event("3", "Document Review Deadline", Deadline, "2023-07-20", "17:00", 0,
      ["David Wilson"], Some("Thompson Employment Agreement"),
      "Office", Some("Final review of employment agreements")),
    Event("4", "Team Strategy Session", Meeting, "2023-07-21", "09:00", 90,
      ["Sarah Johnson", "Michael Chen", "Emily Rodriguez"], None,
      "Conference Room B", Some("Quarterly case review and strategy planning")),
    Event("5", "Deposition - Williams Case", Hearing, "2023-07-21", "13:00", 180,
      ["Emily Rodriguez", "Court Reporter"], Some("Williams Intellectual Property"),
      "Deposition Room 3", Some("Expert witness deposition"))
  ]

  /** With the panel's events, today's schedule holds the first three and the
      upcoming list the last two. */
  lemma {:induction false} SeedSchedule()
    ensures TodayEvents(SeedEvents) == SeedEvents[..3]
    ensures UpcomingEvents(SeedEvents) == SeedEvents[3..]
    ensures TodaySection(SeedEvents) == Schedule(SeedEvents[..3])
  {
    var p := (e: Event) => e.date == Today;
    var q := (e: Event) => e.date != Today;
    assert SeedEvents[..5] == SeedEvents;
    assert SeedEvents[..5][..4] == SeedEvents[..4];
    assert SeedEvents[..4][..3] == SeedEvents[..3];
    assert SeedEvents[..3][..2] == SeedEvents[..2];
    assert SeedEvents[..2][..1] == SeedEvents[..1];
    assert SeedEvents[..1][..0] == [];
    FilterKeepsAll(SeedEvents[..3], p);
    assert Filter(SeedEvents[..3], q) == [] by {
      NoneSelected(SeedEvents[..3], q);
    }
    assert SeedEvents[3..] == [SeedEvents[3], SeedEvents[4]];
  }
}
