/**
 * The user dashboard (src/pages/Dashboard.tsx): the user's bookings filtered by a
 * search over venue name and title and by a status selector, and three count cards.
 */
module Dashboard {
  import opened Text
  import opened Seqs
  import opened CalendarDates
  import opened BookingStatuses

  datatype Booking = Booking(
    id: string,
    venueName: string,
    venueLocation: string,
    date: CalendarDate,
    timeSlot: string,
    status: BookingStatus,
    title: string,
    eventType: string)

  const MockBookings: seq<Booking> := [
    Booking("b1", "Main Auditorium", "Central Campus", Date(2025, 5, 10), "Afternoon", Approved,
      "Marketing Department Presentation", "presentation"),
    Booking("b2", "Conference Room A", "Business Building", Date(2025, 5, 15), "Morning", Pending,
      "Strategic Planning Meeting", "meeting"),
    Booking("b3", "Study Room 101", "Library", Date(2025, 5, 20), "Evening", Rejected,
      "Group Study Session", "class"),
    Booking("b4", "Sports Hall", "Sports Complex", Date(2025, 6, 5), "Afternoon", Approved,
      "Basketball Tournament", "social")
  ]

  /** The search box looks at the venue name and the title only. */
  predicate MatchesSearch(b: Booking, query: string)
  {
    MatchesQuery(b.venueName, query) || MatchesQuery(b.title, query)
  }

  predicate BookingKept(b: Booking, query: string, statusFilter: string)
  {
    MatchesSearch(b, query) && MatchesStatus(b.status, statusFilter)
  }

  /** `filteredBookings`: the bookings passing search and status, in their original order. */
  function FilteredBookings(bookings: seq<Booking>, query: string, statusFilter: string): (r: seq<Booking>)
    ensures |r| <= |bookings|
    ensures forall b :: b in r <==> b in bookings && BookingKept(b, query, statusFilter)
    ensures forall b :: multiset(r)[b] == if BookingKept(b, query, statusFilter) then multiset(bookings)[b] else 0
    ensures IsSubsequence(r, bookings)
  {
    FilterSpec(bookings, b => BookingKept(b, query, statusFilter));
    Filter(bookings, b => BookingKept(b, query, statusFilter))
  }

  /** The "Total Bookings" card: every booking has exactly one of the three statuses, so
      the total is the sum of the three status counts. */
  function TotalCount(bookings: seq<Booking>): (n: nat)
    ensures n == StatusCount(bookings, Pending) + StatusCount(bookings, Approved) + StatusCount(bookings, Rejected)
  {
    StatusCountsAddUp(bookings);
    |bookings|
  }

  /** The "Approved Bookings" and "Pending Approvals" cards: bookings with exactly that status. */
  function StatusCount(bookings: seq<Booking>, s: BookingStatus): (n: nat)
    ensures n == |set i | 0 <= i < |bookings| && bookings[i].status == s|
    ensures n <= |bookings|
    ensures n == |bookings| <==> forall b :: b in bookings ==> b.status == s
    ensures n == 0 <==> forall b :: b in bookings ==> b.status != s
  {
    var kept := Filter(bookings, (b: Booking) => b.status == s);
    FilterSpec(bookings, (b: Booking) => b.status == s);
    FilterKeepsLength(bookings, (b: Booking) => b.status == s);
    FilterCountsIndices(bookings, (b: Booking) => b.status == s);
    assert IndicesWhere(bookings, (b: Booking) => b.status == s)
        == set i | 0 <= i < |bookings| && bookings[i].status == s;
    |kept|
  }

  /** Each booking is counted under exactly one status. */
  lemma {:induction false} StatusCountsAddUp(bookings: seq<Booking>)
    ensures StatusCount(bookings, Pending) + StatusCount(bookings, Approved) + StatusCount(bookings, Rejected)
         == |bookings|
    decreases |bookings|
  {
    if bookings != [] {
      StatusCountsAddUp(bookings[1..]);
      assert bookings == [bookings[0]] + bookings[1..];
      forall s: BookingStatus
        ensures StatusCount(bookings, s) == (if bookings[0].status == s then 1 else 0) + StatusCount(bookings[1..], s)
      {
        FilterCons(bookings[0], bookings[1..], (b: Booking) => b.status == s);
      }
    }
  }

  /** The search never looks at the location or the event type. */
  lemma SearchIgnoresLocationAndType(b: Booking, location: string, eventType: string, query: string, statusFilter: string)
    ensures BookingKept(b.(venueLocation := location, eventType := eventType), query, statusFilter)
         == BookingKept(b, query, statusFilter)
  {
  }

  /** With an empty search and the status selector on "approved" or "pending", the list
      is as long as the matching count card. */
  lemma StatusFilterAgreesWithCard(bookings: seq<Booking>, s: BookingStatus)
    ensures |FilteredBookings(bookings, "", StatusName(s))| == StatusCount(bookings, s)
  {
    forall b | b in bookings ensures BookingKept(b, "", StatusName(s)) == (b.status == s) {
      EmptyQueryMatches(b.venueName);
      StatusNameInjective(b.status, s);
    }
    FilterCongruent(bookings, b => BookingKept(b, "", StatusName(s)), (b: Booking) => b.status == s);
  }

  /** With an empty search and "all", every booking is listed in its original order. */
  lemma AllStatusesShowEverything(bookings: seq<Booking>)
    ensures FilteredBookings(bookings, "", "all") == bookings
  {
    forall b | b in bookings ensures BookingKept(b, "", "all") {
      EmptyQueryMatches(b.venueName);
    }
    FilterKeepsAll(bookings, b => BookingKept(b, "", "all"));
  }

  /** A selector value that names no status lists nothing. */
  lemma UnknownStatusShowsNothing(bookings: seq<Booking>, query: string, statusFilter: string)
    requires statusFilter !in {"all", "pending", "approved", "rejected"}
    ensures FilteredBookings(bookings, query, statusFilter) == []
  {
    FilterKeepsNone(bookings, b => BookingKept(b, query, statusFilter));
  }

  /** The count cards on the mock data: four bookings, two of them approved. */
  lemma MockApprovedCard()
    ensures TotalCount(MockBookings) == 4
    ensures StatusCount(MockBookings, Approved) == 2
  {
    var approved := (b: Booking) => b.status == Approved;
    var s := MockBookings;
    assert s[1..][1..][1..][1..] == [];
    assert Filter(s[1..][1..][1..], approved) == [s[3]];
    assert Filter(s[1..][1..], approved) == [s[3]];
    assert Filter(s[1..], approved) == [s[3]];
  }

  /** One mock booking is pending. */
  lemma MockPendingCard()
    ensures StatusCount(MockBookings, Pending) == 1
  {
    var pending := (b: Booking) => b.status == Pending;
    var s := MockBookings;
    assert s[1..][1..][1..][1..] == [];
    assert Filter(s[1..][1..], pending) == [];
    assert Filter(s[1..], pending) == [s[1]];
  }

  /** The "rejected" selector with an empty search lists exactly booking b3. */
  lemma MockRejected()
    ensures FilteredBookings(MockBookings, "", "rejected") == [MockBookings[2]]
  {
    var s := MockBookings;
    var kept := b => BookingKept(b, "", "rejected");
    EmptyQueryMatches(s[2].venueName);
    assert s[1..][1..][1..][1..] == [];
    assert Filter(s[1..][1..][1..], kept) == [];
    assert Filter(s[1..][1..], kept) == [s[2]];
  }
}
