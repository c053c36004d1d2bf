/**
 * The admin dashboard (src/pages/AdminDashboard.tsx): a guard that turns away
 * non-admins, a booking list filtered by search and status, a venue list filtered
 * by search alone, the count cards, and the approve/reject buttons, which only log.
 */
module AdminDashboard {
  import opened Text
  import opened Seqs
  import opened CalendarDates
  import opened BookingStatuses

  datatype AdminBooking = AdminBooking(
    id: string,
    userName: string,
    userEmail: string,
    venueName: string,
    date: CalendarDate,
    timeSlot: string,
    title: string,
    attendees: int,
    status: BookingStatus)

  datatype AdminVenue = AdminVenue(
    id: string,
    name: string,
    location: string,
    capacity: int,
    bookingsCount: int,
    category: string,
    status: string)

  /** The requests awaiting a decision. */
  const BookingRequestsData: seq<AdminBooking> := [
    AdminBooking("req1", "Alice Johnson", "alice@example.com", "Main Auditorium", Date(2025, 4, 15),
      "Afternoon", "Annual Department Meeting", 120, Pending),
    AdminBooking("req2", "Bob Smith", "bob@example.com", "Conference Room A", Date(2025, 4, 16),
      "Morning", "Project Planning Session", 15, Pending),
    AdminBooking("req3", "Carol White", "carol@example.com", "Computer Lab", Date(2025, 4, 18),
      "Morning", "Software Training", 25, Pending)
  ]

  /** The bookings already decided. */
  const DecidedBookingsData: seq<AdminBooking> := [
    AdminBooking("book1", "David Lee", "david@example.com", "Sports Hall", Date(2025, 4, 10),
      "Evening", "Basketball Tournament", 150, Approved),
    AdminBooking("book2", "Eve Harris", "eve@example.com", "Outdoor Amphitheater", Date(2025, 4, 12),
      "Afternoon", "Drama Club Performance", 200, Approved),
    AdminBooking("book3", "Frank Martin", "frank@example.com", "Study Room 101", Date(2025, 4, 8),
      "Morning", "Group Study Session", 8, Rejected)
  ]

  /** `allBookingsData`: the requests followed by the decided bookings. */
  const AllBookingsData: seq<AdminBooking> := BookingRequestsData + DecidedBookingsData

  const VenuesData: seq<AdminVenue> := [
    AdminVenue("venue1", "Main Auditorium", "Central Campus", 500, 45, "Auditorium", "active"),
    AdminVenue("venue2", "Conference Room A", "Business Building", 50, 120, "Conference Room", "active"),
    AdminVenue("venue3", "Sports Hall", "Sports Complex", 200, 30, "Sports Venue", "active"),
    AdminVenue("venue4", "Study Room 101", "Library", 15, 85, "Study Space", "active"),
    AdminVenue("venue5", "Computer Lab", "Technology Building", 40, 62, "Lab", "maintenance"),
    AdminVenue("venue6", "Outdoor Amphitheater", "Arts Quad", 300, 15, "Outdoor Space", "active")
  ]

  predicate BookingMatchesSearch(b: AdminBooking, query: string)
  {
    MatchesQuery(b.venueName, query) || MatchesQuery(b.userName, query) || MatchesQuery(b.title, query)
  }

  predicate AdminBookingKept(b: AdminBooking, query: string, statusFilter: string)
  {
    BookingMatchesSearch(b, query) && MatchesStatus(b.status, statusFilter)
  }

  predicate VenueMatchesSearch(v: AdminVenue, query: string)
  {
    MatchesQuery(v.name, query) || MatchesQuery(v.location, query) || MatchesQuery(v.category, query)
  }

  /** The booking table: bookings passing search and status, in their original order. */
  function FilteredAdminBookings(bookings: seq<AdminBooking>, query: string, statusFilter: string): (r: seq<AdminBooking>)
    ensures |r| <= |bookings|
    ensures forall b :: b in r <==> b in bookings && AdminBookingKept(b, query, statusFilter)
    ensures forall b :: multiset(r)[b] == if AdminBookingKept(b, query, statusFilter) then multiset(bookings)[b] else 0
    ensures IsSubsequence(r, bookings)
  {
    FilterSpec(bookings, b => AdminBookingKept(b, query, statusFilter));
    Filter(bookings, b => AdminBookingKept(b, query, statusFilter))
  }

  /** The venue table: the search alone decides; the venue's status plays no part. */
  function FilteredAdminVenues(venues: seq<AdminVenue>, query: string): (r: seq<AdminVenue>)
    ensures |r| <= |venues|
    ensures forall v :: v in r <==> v in venues && VenueMatchesSearch(v, query)
    ensures forall v :: multiset(r)[v] == if VenueMatchesSearch(v, query) then multiset(venues)[v] else 0
    ensures IsSubsequence(r, venues)
  {
    FilterSpec(venues, v => VenueMatchesSearch(v, query));
    Filter(venues, v => VenueMatchesSearch(v, query))
  }

  /** Bookings with exactly the given status. */
  function CountWithStatus(bookings: seq<AdminBooking>, s: BookingStatus): (n: nat)
    ensures n == |set i | 0 <= i < |bookings| && bookings[i].status == s|
    ensures n <= |bookings|
    ensures n == |bookings| <==> forall b :: b in bookings ==> b.status == s
  {
    FilterKeepsLength(bookings, (b: AdminBooking) => b.status == s);
    FilterCountsIndices(bookings, (b: AdminBooking) => b.status == s);
    assert IndicesWhere(bookings, (b: AdminBooking) => b.status == s)
        == set i | 0 <= i < |bookings| && bookings[i].status == s;
    |Filter(bookings, (b: AdminBooking) => b.status == s)|
  }

  /** What the page shows: a redirect home for a non-admin, otherwise the two
      filtered tables and the three cards. */
  datatype AdminView =
    | RedirectTo(path: string)
    | Show(bookings: seq<AdminBooking>, venues: seq<AdminVenue>,
           totalVenues: nat, pendingRequests: nat, totalBookings: nat)

  function AdminPage(isAdmin: bool, bookingQuery: string, bookingFilter: string, venueQuery: string): (r: AdminView)
    ensures !isAdmin <==> r == RedirectTo("/")
    ensures r.Show? ==> r.pendingRequests == CountWithStatus(AllBookingsData, Pending)
    ensures r.Show? ==> r.totalBookings == |BookingRequestsData| + |DecidedBookingsData|
    ensures r.Show? ==> r.totalVenues == |VenuesData|
    ensures r.Show? ==> r.bookings == FilteredAdminBookings(AllBookingsData, bookingQuery, bookingFilter)
    ensures r.Show? ==> r.venues == FilteredAdminVenues(VenuesData, venueQuery)
    ensures r.Show? ==> forall b :: b in r.bookings <==> b in AllBookingsData && AdminBookingKept(b, bookingQuery, bookingFilter)
    ensures r.Show? ==> forall v :: v in r.venues <==> v in VenuesData && VenueMatchesSearch(v, venueQuery)
  {
    if !isAdmin then RedirectTo("/")
    else
      PendingCardCountsPending();
      Show(FilteredAdminBookings(AllBookingsData, bookingQuery, bookingFilter),
           FilteredAdminVenues(VenuesData, venueQuery),
           |VenuesData|, |BookingRequestsData|, |AllBookingsData|)
  }

  /** Every request is pending. */
  lemma RequestsArePending()
    ensures forall b :: b in BookingRequestsData ==> b.status == Pending
  {
    var requests := BookingRequestsData;
    assert requests == [requests[0], requests[1], requests[2]];
  }

  /** No decided booking is pending. */
  lemma DecidedAreNotPending()
    ensures forall b :: b in DecidedBookingsData ==> b.status != Pending
  {
    var decided := DecidedBookingsData;
    assert decided == [decided[0], decided[1], decided[2]];
  }

  /** So the "Pending Requests" card (the length of the request list) is the number
      of pending bookings in the whole list. */
  lemma PendingCardCountsPending()
    ensures CountWithStatus(AllBookingsData, Pending) == |BookingRequestsData| == 3
  {
    var pending := (b: AdminBooking) => b.status == Pending;
    RequestsArePending();
    DecidedAreNotPending();
    FilterKeepsAll(BookingRequestsData, pending);
    FilterKeepsNone(DecidedBookingsData, pending);
    FilterAppend(BookingRequestsData, DecidedBookingsData, pending);
  }

  /** A venue under maintenance is listed like any other when the search matches it. */
  lemma MaintenanceVenuesListed(query: string)
    ensures VenueMatchesSearch(VenuesData[4], query) ==> VenuesData[4] in FilteredAdminVenues(VenuesData, query)
    ensures FilteredAdminVenues(VenuesData, "") == VenuesData
  {
    forall v | v in VenuesData ensures VenueMatchesSearch(v, "") {
      EmptyQueryMatches(v.name);
    }
    FilterKeepsAll(VenuesData, v => VenueMatchesSearch(v, ""));
  }

  /** What clicking Approve or Reject does: the bookings are left as they are and a
      line is logged. */
  datatype StatusChangeEffect = StatusChangeEffect(bookings: seq<AdminBooking>, logLine: string)

  /** `handleStatusChange`: logs the request and changes nothing. */
  function HandleStatusChange(bookings: seq<AdminBooking>, bookingId: string, newStatus: BookingStatus): (r: StatusChangeEffect)
    requires newStatus != Pending
    ensures r.bookings == bookings
    ensures r.logLine == "Changing booking " + bookingId + " to " + StatusName(newStatus)
  {
    StatusChangeEffect(bookings, "Changing booking " + bookingId + " to " + StatusName(newStatus))
  }

  datatype Decision = Decision(bookingId: string, newStatus: BookingStatus)

  /** A run of clicks on Approve and Reject, each applied to the bookings the previous
      one left: the bookings at the end and the console lines, in click order. */
  function ApplyDecisions(bookings: seq<AdminBooking>, decisions: seq<Decision>): (r: (seq<AdminBooking>, seq<string>))
    requires forall i :: 0 <= i < |decisions| ==> decisions[i].newStatus != Pending
    ensures |r.1| == |decisions|
  {
    if decisions == [] then (bookings, [])
    else
      var effect := HandleStatusChange(bookings, decisions[0].bookingId, decisions[0].newStatus);
      var rest := ApplyDecisions(effect.bookings, decisions[1..]);
      (rest.0, [effect.logLine] + rest.1)
  }

  /** No sequence of approvals and rejections changes the bookings; each click leaves
      exactly its own console line. */
  lemma {:induction false} DecisionsKeepStatuses(bookings: seq<AdminBooking>, decisions: seq<Decision>)
    requires forall i :: 0 <= i < |decisions| ==> decisions[i].newStatus != Pending
    ensures ApplyDecisions(bookings, decisions).0 == bookings
    ensures |ApplyDecisions(bookings, decisions).1| == |decisions|
    ensures forall i :: 0 <= i < |decisions| ==>
      (ApplyDecisions(bookings, decisions).1[i]
         == "Changing booking " + decisions[i].bookingId + " to " + StatusName(decisions[i].newStatus))
    decreases |decisions|
  {
    if decisions != [] {
      DecisionsKeepStatuses(bookings, decisions[1..]);
      var tail := ApplyDecisions(bookings, decisions[1..]).1;
      assert forall i :: 1 <= i < |decisions| ==> decisions[i] == decisions[1..][i - 1];
      assert ApplyDecisions(bookings, decisions).1
        == ["Changing booking " + decisions[0].bookingId + " to " + StatusName(decisions[0].newStatus)] + tail;
    }
  }
}
