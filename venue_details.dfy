/**
 * The venue page (src/pages/VenueDetails.tsx): lookup of a venue by the id in the
 * route, the calendar's rule for which days cannot be picked, the time slots
 * offered once a day is picked, and the gate on the booking button.
 */
module VenueDetails {
  import opened Wrappers
  import opened CalendarDates

  /** A catalog entry (image URLs, the description and the house rules are display text and are left out). */
  datatype VenueDetail = VenueDetail(
    id: string,
    name: string,
    location: string,
    capacity: int,
    features: seq<string>,
    category: string,
    availableTimeSlots: seq<string>)

  /** The slot names the catalog uses. */
  const TimeSlotNames: set<string> := {"Morning", "Afternoon", "Evening"}

  const VenueData: map<string, VenueDetail> := map[
    "1" := VenueDetail("1", "Main Auditorium", "Central Campus", 500,
      ["Stage", "Sound System", "Projector", "Air Conditioning", "Wheelchair Access"], "Auditorium",
      ["Morning", "Afternoon", "Evening"]),
    "2" := VenueDetail("2", "Conference Room A", "Business Building", 50,
      ["Whiteboard", "Video Conferencing", "Coffee Machine", "Projector", "Air Conditioning"], "Conference Room",
      ["Morning", "Afternoon"]),
    "3" := VenueDetail("3", "Sports Hall", "Sports Complex", 200,
      ["Basketball Court", "Locker Rooms", "Scoreboard", "Sound System", "Spectator Seating"], "Sports Venue",
      ["Morning", "Afternoon", "Evening"]),
    "4" := VenueDetail("4", "Study Room 101", "Library", 15,
      ["Quiet Space", "Power Outlets", "Wi-Fi", "Whiteboards", "Natural Lighting"], "Study Space",
      ["Morning", "Afternoon", "Evening"]),
    "5" := VenueDetail("5", "Computer Lab", "Technology Building", 40,
      ["High-end Computers", "Software Development Tools", "Dual Monitors", "Fast Internet", "Ergonomic Chairs"], "Lab",
      ["Morning", "Afternoon"]),
    "6" := VenueDetail("6", "Outdoor Amphitheater", "Arts Quad", 300,
      ["Open Air", "Stage", "Natural Acoustics", "Tiered Seating", "Lighting System"], "Outdoor Space",
      ["Morning", "Afternoon"])
  ]

  /** What every catalog entry satisfies. */
  predicate WellFormedEntry(key: string, v: VenueDetail)
  {
    && v.id == key
    && v.capacity > 0
    && |v.availableTimeSlots| > 0
    && (forall i :: 0 <= i < |v.availableTimeSlots| ==> v.availableTimeSlots[i] in TimeSlotNames)
    && (forall i, j :: 0 <= i < j < |v.availableTimeSlots| ==> v.availableTimeSlots[i] != v.availableTimeSlots[j])
  }

  /** Each key is its entry's id, capacities are positive, and the slots are a non-empty,
      repetition-free selection of Morning, Afternoon and Evening. */
  lemma CatalogWellFormed()
    ensures forall key :: key in VenueData ==> WellFormedEntry(key, VenueData[key])
  {
    assert VenueData.Keys == {"1", "2", "3", "4", "5", "6"};
  }

  // ----- the calendar's `disabled` rule -----

  /** The days blocked for every venue, as `new Date(2025, m, d)` (local midnight). */
  const UnavailableDates: seq<Instant> := [
    Instant(Date(2025, 3, 12), 0),
    Instant(Date(2025, 3, 13), 0),
    Instant(Date(2025, 3, 18), 0),
    Instant(Date(2025, 3, 25), 0),
    Instant(Date(2025, 4, 2), 0),
    Instant(Date(2025, 4, 10), 0)
  ]

  /** Same `getDate()`, `getMonth()` and `getFullYear()`: the time of day plays no part. */
  predicate SameCalendarDay(blocked: Instant, d: CalendarDate)
  {
    blocked.date.day == d.day && blocked.date.month == d.month && blocked.date.year == d.year
  }

  /** `unavailableDates.some(...)`. */
  function BlockedOn(blocked: seq<Instant>, d: CalendarDate): (r: bool)
    ensures r <==> exists i :: 0 <= i < |blocked| && SameCalendarDay(blocked[i], d)
  {
    if blocked == [] then false
    else if SameCalendarDay(blocked[0], d) then true
    else
      var rest := BlockedOn(blocked[1..], d);
      assert forall i :: 1 <= i < |blocked| ==> blocked[i] == blocked[1..][i - 1];
      if rest then
        var j :| 0 <= j < |blocked[1..]| && SameCalendarDay(blocked[1..][j], d);
        assert SameCalendarDay(blocked[j + 1], d);
        true
      else
        false
  }

  /** The calendar's `disabled` callback for the day cell `d` (handed over at local midnight). */
  predicate IsDisabled(d: CalendarDate, now: Instant, blocked: seq<Instant>)
    ensures IsDisabled(d, now, blocked) <==>
      || Before(Midnight(d), now)
      || IsWeekend(d)
      || exists i :: 0 <= i < |blocked| && SameCalendarDay(blocked[i], d)
  {
    Before(Midnight(d), now) || Weekday(d) == 0 || Weekday(d) == 6 || BlockedOn(blocked, d)
  }

  /** A day can be picked exactly when it has not started before now, falls Monday to
      Friday, and no blocked entry has its day, month and year. */
  lemma SelectableIff(d: CalendarDate, now: Instant, blocked: seq<Instant>)
    ensures !IsDisabled(d, now, blocked) <==>
      && !Before(Midnight(d), now)
      && 1 <= Weekday(d) <= 5
      && forall i :: 0 <= i < |blocked| ==> !SameCalendarDay(blocked[i], d)
  {
  }

  /** Saturdays and Sundays are disabled whatever the blocked list holds and whenever it is. */
  lemma WeekendsDisabled(d: CalendarDate, now: Instant, blocked: seq<Instant>)
    requires IsWeekend(d)
    ensures IsDisabled(d, now, blocked)
  {
  }

  /** The day after a Friday is disabled. */
  lemma DayAfterFridayDisabled(d: CalendarDate, now: Instant, blocked: seq<Instant>)
    requires Weekday(d) == 5
    ensures Weekday(NextDay(d)) == 6
    ensures IsDisabled(NextDay(d), now, blocked)
  {
    NextWeekday(d);
  }

  /** Moving a blocked entry to another time of the same day changes nothing. */
  lemma BlockedTimeOfDayIgnored(d: CalendarDate, now: Instant, blocked: seq<Instant>, i: int, millis: int)
    requires 0 <= i < |blocked|
    ensures IsDisabled(d, now, blocked[i := Instant(blocked[i].date, millis)]) == IsDisabled(d, now, blocked)
  {
    var moved := blocked[i := Instant(blocked[i].date, millis)];
    assert forall k :: 0 <= k < |blocked| ==> SameCalendarDay(moved[k], d) == SameCalendarDay(blocked[k], d);
  }

  /** The past test compares with the current instant, so today's own cell (whose
      midnight has gone) is disabled as soon as the day has started. */
  lemma TodayDisabledAfterMidnight(now: Instant, blocked: seq<Instant>)
    requires now.millis > 0
    ensures IsDisabled(now.date, now, blocked)
  {
  }

  /** Every day before today is disabled. */
  lemma PastDaysDisabled(d: CalendarDate, now: Instant, blocked: seq<Instant>)
    requires DateBefore(d, now.date)
    ensures IsDisabled(d, now, blocked)
  {
  }

  /** A later weekday that is not blocked can be picked. */
  lemma FutureWorkdaySelectable(d: CalendarDate, now: Instant, blocked: seq<Instant>)
    requires DateBefore(now.date, d)
    requires 1 <= Weekday(d) <= 5
    requires forall i :: 0 <= i < |blocked| ==> !SameCalendarDay(blocked[i], d)
    ensures !IsDisabled(d, now, blocked)
  {
  }

  /** Two of the six blocked days (12 and 13 April 2025) are a Saturday and a Sunday,
      which the weekend rule disables already. */
  lemma FirstBlockedDaysAreWeekend()
    ensures Weekday(UnavailableDates[0].date) == 6
    ensures Weekday(UnavailableDates[1].date) == 0
  {
  }

  // ----- the page -----

  /** `NotFound` renders "Venue Not Found"; `RenderError` is a page whose render throws. */
  datatype VenuePage = NotFound | Found(id: string, venue: VenueDetail) | RenderError(id: string)

  /** The names every plain JavaScript object inherits from `Object.prototype`. Looking one
      of them up in the catalog object gives a function (or the prototype itself), which
      is truthy. */
  const ObjectPrototypeKeys: set<string> := {
    "constructor", "__proto__", "hasOwnProperty", "isPrototypeOf", "propertyIsEnumerable",
    "toLocaleString", "toString", "valueOf",
    "__defineGetter__", "__defineSetter__", "__lookupGetter__", "__lookupSetter__"
  }

  /** No catalog id is an inherited name. */
  lemma CatalogKeysNotInherited()
    ensures forall k :: k in VenueData ==> k !in ObjectPrototypeKeys
  {
    assert VenueData.Keys == {"1", "2", "3", "4", "5", "6"};
  }

  /** `if (!id || !venueData[id])`: a missing id, the empty id, or an unknown id shows
      "Venue Not Found" and no booking controls. An inherited name passes the test, and
      the page then throws when it reads `venue.imageUrls[...]` of a value that has no
      `imageUrls`. */
  function OpenVenuePage(id: Option<string>): (r: VenuePage)
    ensures r.NotFound? <==> id.None? || (id.value !in VenueData && id.value !in ObjectPrototypeKeys)
    ensures r.RenderError? <==> id.Some? && id.value in ObjectPrototypeKeys
    ensures r.Found? ==> r.id == id.value && r.venue == VenueData[r.id] && r.venue.id == r.id
  {
    CatalogWellFormed();
    CatalogKeysNotInherited();
    if id.None? || id.value == "" then NotFound
    else if id.value in VenueData then Found(id.value, VenueData[id.value])
    else if id.value in ObjectPrototypeKeys then RenderError(id.value)
    else NotFound
  }

  /** Where the booking button sends the visitor, with the router state it carries. */
  datatype BookingNavigation =
    | Stay
    | ToLogin(from: string)
    | ToBooking(path: string, venue: VenueDetail, date: CalendarDate, slot: string)

  /** The booking card of a found venue: the chosen day and slot. */
  class VenueDetailsPage {
    const id: string
    const venue: VenueDetail
    var selectedDate: Option<CalendarDate>
    var selectedTimeSlot: Option<string>

    /** The venue is the catalog's entry for the id; a chosen day passed the weekday and
        blocked-day tests; a chosen slot is one the venue offers. */
    ghost predicate Valid()
      reads this
    {
      && id in VenueData && venue == VenueData[id]
      && (selectedDate.Some? ==> !IsWeekend(selectedDate.value) && !BlockedOn(UnavailableDates, selectedDate.value))
      && (selectedTimeSlot.Some? ==> selectedTimeSlot.value in venue.availableTimeSlots)
    }

    constructor (id: string)
      requires id in VenueData
      ensures Valid()
      ensures this.id == id && venue == VenueData[id]
      ensures selectedDate == None && selectedTimeSlot == None
    {
      this.id := id;
      this.venue := VenueData[id];
      selectedDate := None;
      selectedTimeSlot := None;
    }

    /** `onSelect={setSelectedDate}`: the calendar reports a click on an enabled day (or
        a click that clears the choice); a disabled day cannot be clicked. The chosen
        slot is kept. */
    method SelectDate(date: Option<CalendarDate>, now: Instant)
      requires Valid()
      modifies this
      ensures Valid()
      ensures date.Some? && IsDisabled(date.value, now, UnavailableDates) ==> selectedDate == old(selectedDate)
      ensures date.None? || !IsDisabled(date.value, now, UnavailableDates) ==> selectedDate == date
      ensures selectedTimeSlot == old(selectedTimeSlot)
    {
      if date.None? || !IsDisabled(date.value, now, UnavailableDates) {
        selectedDate := date;
      }
    }

    /** The slot buttons: shown only once a day is chosen, one per slot the venue offers. */
    function OfferedSlots(): (r: seq<string>)
      reads this
      requires Valid()
      ensures r == [] <==> selectedDate.None?
      ensures selectedDate.Some? ==> r == venue.availableTimeSlots
      ensures forall i :: 0 <= i < |r| ==> r[i] in TimeSlotNames
    {
      CatalogWellFormed();
      assert WellFormedEntry(id, venue);
      if selectedDate.None? then [] else venue.availableTimeSlots
    }

    /** A click on a slot button; a slot without a button cannot be clicked. */
    method SelectTimeSlot(slot: string)
      requires Valid()
      modifies this
      ensures Valid()
      ensures old(slot in OfferedSlots()) ==> selectedTimeSlot == Some(slot)
      ensures old(slot !in OfferedSlots()) ==> selectedTimeSlot == old(selectedTimeSlot)
      ensures selectedDate == old(selectedDate)
    {
      if slot in OfferedSlots() {
        selectedTimeSlot := Some(slot);
      }
    }

    /** `disabled={!selectedDate || !selectedTimeSlot}` on the booking button. */
    predicate BookButtonEnabled()
      reads this
      ensures BookButtonEnabled() && Valid() ==>
        && selectedDate.Some? && selectedTimeSlot.Some?
        && OfferedSlots() == venue.availableTimeSlots
        && selectedTimeSlot.value in OfferedSlots()
        && !IsWeekend(selectedDate.value)
    {
      selectedDate.Some? && selectedTimeSlot.Some?
    }

    /** `handleBooking`: an anonymous visitor goes to the login page, which will send
        them back here; a signed-in user with a day and a slot goes to the booking form
        with the venue, day and slot; otherwise nothing happens. */
    method HandleBooking(isAuthenticated: bool) returns (nav: BookingNavigation)
      requires Valid()
      ensures !isAuthenticated ==> nav == ToLogin("/venues/" + id)
      ensures isAuthenticated && BookButtonEnabled() ==>
        nav == ToBooking("/booking/" + id, venue, selectedDate.value, selectedTimeSlot.value)
      ensures isAuthenticated && !BookButtonEnabled() ==> nav == Stay
      ensures nav.ToBooking? ==>
        && nav.venue == VenueData[id]
        && !IsWeekend(nav.date) && !BlockedOn(UnavailableDates, nav.date)
        && nav.slot in nav.venue.availableTimeSlots
    {
      if !isAuthenticated {
        return ToLogin("/venues/" + id);
      }
      if selectedDate.Some? && selectedTimeSlot.Some? {
        nav := ToBooking("/booking/" + id, venue, selectedDate.value, selectedTimeSlot.value);
      } else {
        nav := Stay;
      }
    }

    /** A click on the booking button: nothing while it is disabled, else `handleBooking`.
        So even the way to the login page opens only once a day and a slot are chosen. */
    method ClickBookButton(isAuthenticated: bool) returns (nav: BookingNavigation)
      requires Valid()
      ensures !BookButtonEnabled() ==> nav == Stay
      ensures BookButtonEnabled() && !isAuthenticated ==> nav == ToLogin("/venues/" + id)
      ensures BookButtonEnabled() && isAuthenticated ==>
        nav == ToBooking("/booking/" + id, venue, selectedDate.value, selectedTimeSlot.value)
    {
      if !BookButtonEnabled() {
        return Stay;
      }
      nav := HandleBooking(isAuthenticated);
    }
  }
}
