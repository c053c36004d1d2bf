# campus-venue-hub — a verified model of the booking front end

campus-venue-hub ("BookMyVenue") is a single-page React application where students and
staff browse campus venues, pick a day and a time slot, fill in a booking request and
follow their bookings. An administrator sees every booking, the venue list and the
pending requests. All data is mock data held in the page modules. Authentication is a
two-entry table of dummy users, and the signed-in user is kept in `localStorage`.

This Dafny project models the logic behind those pages:

- `Text` holds the JavaScript string operations the pages rely on: `toLowerCase`
  (ASCII), `includes` as a substring test, and decimal `parseInt`. NaN is `None`.
- `Seqs` holds `Array.prototype.filter` as a stable filter. It is proved to keep exactly
  the matching elements, with their multiplicities, in their original order.
- `CalendarDates` holds JavaScript-style calendar dates (0-based month), instants, and
  `getDay` derived from a day count.
- `Home` holds the venue search with its three filters and the reset button.
- `Dashboard` holds the user's bookings list, its status selector and the count cards.
- `AdminDashboard` holds the admin guard, the two filtered tables, the cards and the
  approve/reject handler. The handler only logs.
- `VenueDetails` holds the venue catalog, the calendar's disabled days, and a class for
  the booking card (chosen day, chosen slot, booking button).
- `BookingForm` holds the form schema, the entry redirect, and a class for the submit
  handler.
- `Auth` holds the `AuthProvider` class (user, loading flag, storage) with mount, login,
  register and logout.
- `RegisterPage` holds the registration form class and its submit handler.

The current time (`new Date()`, `Date.now()`) and the outcome of storage writes and of
the simulated request are inputs of the model.

Notes on behaviour, as the code has it:

- Home's minimum-capacity filter hides every venue when the box holds text that is not a
  positive number. It does not ignore such text (`BadCapacityHidesAll`).
- The booking schema only runs `parseInt` on the attendee text
  (src/pages/BookingForm.tsx:39). The schema therefore accepts any count, including a
  negative one and NaN (`AttendeesUnbounded`, `AttendeesMayBeNegative`,
  `AttendeesMayBeNaN`).
- The attendee input itself is a number input with `min="1"` and
  `max={venue.capacity}`, next to a "Maximum capacity" hint
  (src/pages/BookingForm.tsx:199-207). The form has no `noValidate`, so the browser
  refuses to submit a count outside that range. That browser check is not modelled (see
  "Left out"). A cleared field, whose text is "", still passes as NaN.
- The approve and reject buttons only log a line; the handler's comments mark the real
  update as still to be written (src/pages/AdminDashboard.tsx:196-202). No booking
  changes (`DecisionsKeepStatuses`).
- The calendar's comment says it disables past dates (src/pages/VenueDetails.tsx:333).
  The test compares a day's midnight with the current instant, so today itself is
  disabled as soon as it has begun (`TodayDisabledAfterMidnight`).
- The venue page's guard looks the id up in a plain object
  (src/pages/VenueDetails.tsx:155). A name every object inherits, such as
  "constructor" or "toString", passes the guard, and rendering then throws when it
  reads the images (`OpenVenuePage` returns `RenderError`).
- The admin page (src/pages/AdminDashboard.tsx:173) and the booking form
  (src/pages/BookingForm.tsx:60) call `navigate("/")` while rendering. The `Redirect`
  outcomes of `AdminPage` and `EnterBookingForm` model that call and the empty render
  that follows it. They do not promise that the page changes: react-router ignores a
  `navigate` made during the first render, and routing is not part of this model.
- The simulated booking request (src/pages/BookingForm.tsx:88) is a timer that never
  rejects, so the code never reaches its error toast. The model keeps that branch
  behind the `requestFails` input.

## Model

| member | source | states |
|---|---|---|
| Text.Includes | src/pages/Home.tsx:75-77 | `includes` holds exactly when the pattern occurs at some position of the text |
| Text.ToLower | src/pages/Home.tsx:75-77 | lower-casing keeps the length and lowers each character on its own |
| Text.MatchesQuery | src/pages/Home.tsx:75-77 | a field matches iff the lower-cased query occurs at some position of the lower-cased field |
| Text.EmptyQueryMatches | src/pages/Home.tsx:75-77 | the empty search string matches every field |
| Text.MatchesQueryIgnoresCase | src/pages/Dashboard.tsx:70-71 | the search gives the same answer when field and query are lower-cased first |
| Text.ParseIntDecimal | src/pages/Home.tsx:84-86 | `parseInt` of a decimal numeral, followed by anything that does not start with a digit, is that number |
| Text.ParseInt | src/pages/Home.tsx:84 | after leading white space, a digit gives a non-negative number, and a negative result needs a leading "-" |
| Text.ParseIntNegative | src/pages/BookingForm.tsx:39 | `parseInt` of "-" and a numeral is the negated number |
| Text.ParseIntNaN | src/pages/Home.tsx:84-86 | `parseInt` is NaN exactly when, after the white space, nothing is left, or a character that is neither digit nor sign, or a sign not followed by a digit |
| Seqs.FilterSpec | src/pages/Home.tsx:73-89 | `filter` keeps exactly the elements satisfying the predicate, each as often as in the input and in input order |
| Seqs.Filter | src/pages/Home.tsx:73 | `filter` never lengthens the list |
| Seqs.FilterCountsIndices | src/pages/Dashboard.tsx:109-119 | the filtered list has one element per position of the input whose element satisfies the predicate |
| Seqs.FilterAppend | src/pages/AdminDashboard.tsx:70-105 | filtering a concatenation is concatenating the filtered parts |
| Home.FilteredVenues | src/pages/Home.tsx:73-89 | a venue is listed iff it passes search, category and capacity; the list is an order-preserving sublist of the venues |
| Home.ResetFilters | src/pages/Home.tsx:138-142 | reset restores the initial filters, under which every venue is listed |
| Home.InitialFiltersShowAll | src/pages/Home.tsx:69-71 | the initial filters list all venues in order |
| Home.EmptySearchIgnored | src/pages/Home.tsx:75-77 | an empty search does not change the result |
| Home.AllCategoryIgnored | src/pages/Home.tsx:80-81 | the "All" category does not change the result |
| Home.OtherCategoryIsExact | src/pages/Home.tsx:80-81 | any other category keeps only venues of exactly that category |
| Home.EmptyCapacityIgnored | src/pages/Home.tsx:84-86 | an empty capacity box does not change the result |
| Home.BadCapacityHidesAll | src/pages/Home.tsx:84-86 | a non-empty capacity text that is NaN or not positive hides every venue |
| Home.CategoriesMatchCatalog | src/pages/Home.tsx:9-66 | the category selector offers "All" and then exactly the catalog's categories |
| Home.CapacityThreshold | src/pages/Home.tsx:84-86 | with the capacity box holding n > 0, a venue passing the other filters is listed iff its capacity is at least n |
| Home.MatchesCapacity | src/pages/Home.tsx:84-86 | an empty box passes every venue; NaN or a count of 0 or less passes none; a positive count n passes exactly the venues holding at least n |
| BookingStatuses.StatusNameInjective | src/pages/Dashboard.tsx:72 | distinct statuses have distinct names, none of them "all" |
| BookingStatuses.MatchesStatus | src/pages/Dashboard.tsx:72 | a selector value naming a status passes exactly the bookings with that status; any value other than "all" and the three names passes none |
| Dashboard.FilteredBookings | src/pages/Dashboard.tsx:69-74 | a booking is listed iff it matches the search and the status selector, as often as it occurs, in original order |
| Dashboard.StatusCount | src/pages/Dashboard.tsx:109-119 | the count card is the number of positions holding a booking with that status; so it is at most the total, equals it iff all bookings have the status, and is 0 iff none does |
| Dashboard.TotalCount | src/pages/Dashboard.tsx:99 | the total card is the sum of the pending, approved and rejected counts |
| Dashboard.StatusCountsAddUp | src/pages/Dashboard.tsx:99-119 | each booking is counted under exactly one status, so the three counts add up to the number of bookings |
| Dashboard.SearchIgnoresLocationAndType | src/pages/Dashboard.tsx:70-71 | location and event type never affect the list |
| Dashboard.StatusFilterAgreesWithCard | src/pages/Dashboard.tsx:72-119 | with an empty search, selecting a status lists as many bookings as that status's count card shows |
| Dashboard.AllStatusesShowEverything | src/pages/Dashboard.tsx:69-74 | empty search and "all" list every booking in order |
| Dashboard.UnknownStatusShowsNothing | src/pages/Dashboard.tsx:72 | a selector value naming no status lists nothing |
| Dashboard.MockApprovedCard | src/pages/Dashboard.tsx:20-109 | on the mock data the total card shows 4 and the approved card 2 |
| Dashboard.MockPendingCard | src/pages/Dashboard.tsx:20-119 | on the mock data the pending card shows 1 |
| Dashboard.MockRejected | src/pages/Dashboard.tsx:20-74 | "rejected" with an empty search lists exactly booking b3 |
| AdminDashboard.FilteredAdminBookings | src/pages/AdminDashboard.tsx:178-185 | a booking is listed iff venue, user name or title matches and the status selector matches, as often as it occurs, in original order |
| AdminDashboard.FilteredAdminVenues | src/pages/AdminDashboard.tsx:188-194 | a venue is listed iff name, location or category matches the search, as often as it occurs, in original order |
| AdminDashboard.CountWithStatus | src/pages/AdminDashboard.tsx:234 | the count is the number of positions holding a booking with that status; it equals the total iff all have it |
| AdminDashboard.AdminPage | src/pages/AdminDashboard.tsx:172-244 | a non-admin is redirected to "/"; an admin sees both filtered tables, the venue count, the total booking count, and a pending card equal to the number of pending bookings |
| AdminDashboard.RequestsArePending | src/pages/AdminDashboard.tsx:34-68 | every request in the request list is pending |
| AdminDashboard.DecidedAreNotPending | src/pages/AdminDashboard.tsx:70-105 | the bookings added after the requests are all decided |
| AdminDashboard.PendingCardCountsPending | src/pages/AdminDashboard.tsx:234 | the pending card (length of the request list) is 3, the number of pending bookings in the full list |
| AdminDashboard.MaintenanceVenuesListed | src/pages/AdminDashboard.tsx:188-194 | a venue under maintenance is listed when it matches; an empty search lists all venues |
| AdminDashboard.HandleStatusChange | src/pages/AdminDashboard.tsx:196-202 | approve/reject leaves the bookings exactly as they were and logs "Changing booking id to status" |
| AdminDashboard.DecisionsKeepStatuses | src/pages/AdminDashboard.tsx:196-202 | no sequence of approvals and rejections changes the bookings; the console holds one line per click, in click order |
| AdminDashboard.ApplyDecisions | src/pages/AdminDashboard.tsx:196-202 | a run of clicks leaves one console line per click |
| CalendarDates.NextWeekday | src/pages/VenueDetails.tsx:336-337 | the weekday of the next calendar day is one more, modulo 7 |
| CalendarDates.Weekday | src/pages/VenueDetails.tsx:336 | `getDay` is a number from 0 (Sunday) to 6 (Saturday) |
| CalendarDates.EpochIsThursday | src/pages/VenueDetails.tsx:336-337 | 1 January 1970 has `getDay` 4 (Thursday), fixing the weekday numbering |
| VenueDetails.CatalogWellFormed | src/pages/VenueDetails.tsx:13-134 | every catalog entry is stored under its own id, has a positive capacity and offers a non-empty list of known, distinct slots |
| VenueDetails.BlockedOn | src/pages/VenueDetails.tsx:338-343 | a day is blocked iff some unavailable instant falls on the same year, month and day |
| VenueDetails.SelectableIff | src/pages/VenueDetails.tsx:332-346 | a day is selectable iff its midnight is not before now, it is a weekday, and it is not blocked |
| VenueDetails.IsDisabled | src/pages/VenueDetails.tsx:332-345 | a day is disabled iff its midnight is before now, it is a Saturday or Sunday, or some unavailable date has its day, month and year |
| VenueDetails.WeekendsDisabled | src/pages/VenueDetails.tsx:336-337 | Saturdays and Sundays are disabled |
| VenueDetails.DayAfterFridayDisabled | src/pages/VenueDetails.tsx:336-337 | the day after a Friday is disabled |
| VenueDetails.BlockedTimeOfDayIgnored | src/pages/VenueDetails.tsx:338-343 | the time of day of an unavailable instant does not matter |
| VenueDetails.TodayDisabledAfterMidnight | src/pages/VenueDetails.tsx:335 | today is disabled once any time of today has passed |
| VenueDetails.PastDaysDisabled | src/pages/VenueDetails.tsx:335 | a day before today is disabled |
| VenueDetails.FutureWorkdaySelectable | src/pages/VenueDetails.tsx:332-346 | a later weekday that is not blocked is selectable |
| VenueDetails.FirstBlockedDaysAreWeekend | src/pages/VenueDetails.tsx:137-144 | the first two unavailable dates (12 and 13 April 2025) are a Saturday and a Sunday |
| VenueDetails.CatalogKeysNotInherited | src/pages/VenueDetails.tsx:13-134 | no catalog id is a name inherited from `Object.prototype` |
| VenueDetails.OpenVenuePage | src/pages/VenueDetails.tsx:155-165 | "not found" iff the id is missing, or neither a catalog id nor an inherited name; an inherited name gives a page that throws; otherwise the catalog entry with that id |
| VenueDetails.VenueDetailsPage.constructor | src/pages/VenueDetails.tsx:151-165 | a found page starts with no day and no slot chosen |
| VenueDetails.VenueDetailsPage.SelectDate | src/pages/VenueDetails.tsx:331-346 | a click on an enabled day (or clearing) sets the day; a disabled day changes nothing; the slot is kept |
| VenueDetails.VenueDetailsPage.OfferedSlots | src/pages/VenueDetails.tsx:353-364 | no slot buttons until a day is chosen, then the venue's own slots |
| VenueDetails.VenueDetailsPage.SelectTimeSlot | src/pages/VenueDetails.tsx:355-359 | clicking an offered slot selects it; nothing else changes |
| VenueDetails.VenueDetailsPage.HandleBooking | src/pages/VenueDetails.tsx:167-182 | anonymous → login with the page as return path; signed in with day and slot → booking form carrying a weekday, unblocked day and an offered slot; else stay |
| VenueDetails.VenueDetailsPage.BookButtonEnabled | src/pages/VenueDetails.tsx:374 | the button is enabled only with a day and a slot chosen; the slot is one of the venue's offered slots and the day is not a weekend |
| VenueDetails.VenueDetailsPage.ClickBookButton | src/pages/VenueDetails.tsx:371-377 | the disabled button does nothing; otherwise it acts as `handleBooking` |
| BookingForm.ValidateBookingForm | src/pages/BookingForm.tsx:32-44 | valid iff title ≥ 3, description ≥ 10, attendees present and event type non-empty; each error present iff its rule fails; attendees parsed by `parseInt` |
| BookingForm.AttendeesUnbounded | src/pages/BookingForm.tsx:39 | any attendee count, however large, passes |
| BookingForm.AttendeesMayBeNegative | src/pages/BookingForm.tsx:39 | a negative attendee count passes |
| BookingForm.AttendeesMayBeNaN | src/pages/BookingForm.tsx:39 | every attendee text that `parseInt` reads as NaN passes, with NaN as the count; the cleared field "" is one |
| BookingForm.ErrorMessagesDistinct | src/pages/BookingForm.tsx:32-44 | each failing rule has its own message |
| BookingForm.RequirementsOptional | src/pages/BookingForm.tsx:43 | leaving out the requirements never invalidates a form |
| BookingForm.EnterBookingForm | src/pages/BookingForm.tsx:56-62 | redirect home iff venue, date or slot is missing; otherwise the form for exactly those |
| BookingForm.FromVenuePageShowsForm | src/pages/BookingForm.tsx:56-62 | what the venue page hands over always opens the form |
| BookingForm.BookingFormPage.constructor | src/pages/BookingForm.tsx:53 | the form starts not submitting |
| BookingForm.BookingFormPage.AwaitRequest | src/pages/BookingForm.tsx:86-88 | the request settles as the injected outcome says |
| BookingForm.BookingFormPage.Submit | src/pages/BookingForm.tsx:83-106 | invalid input gives the field errors only; valid input goes to the dashboard or shows the error toast, and `isSubmitting` ends false |
| Auth.RoleName | src/context/AuthContext.tsx:4-9 | the role name is "admin" exactly for the admin role |
| Auth.FindUser | src/context/AuthContext.tsx:50 | the result is the first entry whose email and password both match, or none if no entry matches |
| Auth.WithoutPassword | src/context/AuthContext.tsx:56-59 | the signed-in user keeps the entry's id, name, email and role; the user record has no password field |
| Auth.ValidCredentials | src/context/AuthContext.tsx:45-50 | exactly the two dummy credential pairs log in, as user and as admin |
| Auth.AuthProvider.constructor | src/context/AuthContext.tsx:24-25 | the provider starts with no user and loading |
| Auth.AuthProvider.Mount | src/context/AuthContext.tsx:28-34 | a stored record becomes the user; loading ends |
| Auth.AuthProvider.IsAuthenticated | src/context/AuthContext.tsx:106 | authenticated iff there is a user |
| Auth.AuthProvider.IsAdmin | src/context/AuthContext.tsx:107 | admin iff the user's role is "admin"; an admin is authenticated |
| Auth.AuthProvider.StoreUser | src/context/AuthContext.tsx:60 | a storage write puts the user under "bookmyvenue-user" or fails and changes nothing |
| Auth.AuthProvider.Login | src/context/AuthContext.tsx:37-67 | wrong credentials reject with "Invalid credentials" and change nothing; right ones set the user without password and store it; loading ends |
| Auth.AuthProvider.Register | src/context/AuthContext.tsx:70-93 | any input becomes a new "user" account with the given name and email, stored; loading ends |
| Auth.AuthProvider.Logout | src/context/AuthContext.tsx:95-98 | no user and the stored record removed |
| Auth.LoginThenReload | src/context/AuthContext.tsx:28-60 | after a successful login a reload restores the same user; after a failed one nobody is signed in |
| Auth.LogoutThenReload | src/context/AuthContext.tsx:95-98 | after logout a reload finds nobody signed in |
| RegisterPage.RegisterForm.constructor | src/pages/Register.tsx:14-19 | empty fields, not submitting, no success |
| RegisterPage.RegisterForm.Fill | src/pages/Register.tsx:117-150 | the inputs hold what was typed |
| RegisterPage.RegisterForm.AuthRedirect | src/pages/Register.tsx:25-29 | a signed-in visitor is sent to "/" |
| RegisterPage.RegisterForm.HandleSubmit | src/pages/Register.tsx:31-61 | a mismatch shows the toast and changes nothing; otherwise the user is registered and stored (storage unchanged if the write fails), `success` is set iff it resolved, and `isSubmitting` ends false |

## Left out

- Rendering, styling, icons, badges, the navigation bar and footer, the home page's venue
  cards and the image gallery are presentation only.
- Toast texts are reduced to which toast appears. The registration failure carries the
  error's message.
- Timers and `await` are atomic steps. Nothing can interleave with them, so a second
  click during a pending request is not modelled.
- `localStorage` is a map from key to user record. JSON encoding and decoding are
  identities, and a malformed stored record is not modelled.
- The current time and `Date.now()` are parameters. Time zones are left out: every date
  is a local calendar day and an instant is a day plus milliseconds.
- `toLowerCase` lowers ASCII letters only. Other Unicode case mappings are not modelled.
- `parseInt` reads optional leading ASCII whitespace, a sign and decimal digits. The
  "0x" hexadecimal prefix and the Unicode whitespace set beyond ASCII are not modelled.
- String lengths in the schema are counted in characters, not UTF-16 code units.
- zod and react-hook-form are reduced to the rules of the schema. The order of the
  messages is not modelled.
- BookingForm.BookingFormPage.Submit: the browser's own check of the number input
  (`min="1"`, `max={venue.capacity}`, src/pages/BookingForm.tsx:199-203) is not
  modelled. In the browser a count below 1 or above the capacity never reaches the
  schema; the model lets it through.
- react-day-picker is trusted to refuse clicks on a disabled day. `SelectDate` encodes
  that as its guard.
- Venue descriptions, rules, image URLs, amenities, admin venue status and the booking
  form's `user` are carried as data or dropped; no page logic reads them. The admin
  search does read user names on bookings, and the model includes them.
- Booking persistence, approval transitions and double-booking checks do not exist in
  the code, so none is modelled.
- The login page is not part of this model. Its call into `login` is covered by
  `Auth.AuthProvider.Login`.
- Text.ParseInt: JavaScript's `parseInt` returns a double. Above 2^53 (9007199254740992)
  it rounds, and a numeral of more than about 309 digits gives `Infinity`. The model's
  value is the exact integer. No page outcome here depends on the difference.
- Text.ParseIntDecimal: the value is exact for every numeral; JavaScript agrees only up to
  2^53 and rounds above it.
- Text.ParseIntNegative: as for `Text.ParseIntDecimal`, exact where JavaScript rounds
  beyond -2^53 and gives `-Infinity` for very long numerals.
- BookingForm.AttendeesUnbounded: the count that passes is exact; in the browser a count
  above 2^53 passes as a rounded double, or as `Infinity`.
- BookingForm.AttendeesMayBeNegative: the negative count is exact; in the browser a count
  below -2^53 passes as a rounded double, or as `-Infinity`.
- RegisterPage.RegisterForm.HandleSubmit: the browser's own form checks are not modelled.
  All four inputs are `required`, the email input has `type="email"`
  (src/pages/Register.tsx:108-150), and the form has no `noValidate`. In the browser an
  empty field or a malformed email never reaches `handleSubmit`; the model lets any
  text through.
- The text `Auth.AuthErrorMessage` gives a failed storage write is a stand-in. In the
  browser the error is a `DOMException` carrying the browser's own message.
- Auth.AuthProvider.Register: the password is accepted and discarded, as in the code.
  The contract says nothing about it.
