/**
 * The booking form (src/pages/BookingForm.tsx): the form's validation schema, the
 * redirect when the page is opened without a venue, day and slot, and the
 * `isSubmitting` flag around the simulated submission.
 */
module BookingForm {
  import opened Wrappers
  import opened Text
  import opened CalendarDates
  import opened VenueDetails

  /** The raw field values. `attendees` is `None` while the field has never been
      typed in (its default is `undefined`); `requirements` may be absent. */
  datatype FormInput = FormInput(
    title: string,
    description: string,
    attendees: Option<string>,
    eventType: string,
    requirements: Option<string>)

  /** The values handed to `onSubmit`; `attendees` is `parseInt` of the text, `None` for `NaN`. */
  datatype BookingFormValues = BookingFormValues(
    title: string,
    description: string,
    attendees: Option<int>,
    eventType: string,
    requirements: Option<string>)

  /** One message per failing field, in the schema's field order. */
  datatype FieldError = TitleTooShort | DescriptionTooShort | AttendeesRequired | EventTypeMissing

  function ErrorMessage(e: FieldError): string
  {
    match e
    case TitleTooShort => "Title must be at least 3 characters."
    case DescriptionTooShort => "Description must be at least 10 characters."
    case AttendeesRequired => "Required"
    case EventTypeMissing => "Please select an event type."
  }

  /** Each failing rule shows its own message. */
  lemma ErrorMessagesDistinct(e: FieldError, f: FieldError)
    ensures e != f ==> ErrorMessage(e) != ErrorMessage(f)
  {
  }

  /** `bookingFormSchema`: title of at least 3 characters, description of at least 10,
      attendees any text (read with `parseInt`, with no bound), an event type, and
      optional requirements. */
  function ValidateBookingForm(input: FormInput): (r: Result<BookingFormValues, seq<FieldError>>)
    ensures r.Success? <==>
      |input.title| >= 3 && |input.description| >= 10 && input.attendees.Some? && |input.eventType| >= 1
    ensures r.Success? ==> r.value == BookingFormValues(input.title, input.description,
      ParseInt(input.attendees.value), input.eventType, input.requirements)
    ensures r.Failure? ==> (
      && |r.error| > 0
      && (TitleTooShort in r.error <==> |input.title| < 3)
      && (DescriptionTooShort in r.error <==> |input.description| < 10)
      && (AttendeesRequired in r.error <==> input.attendees.None?)
      && (EventTypeMissing in r.error <==> input.eventType == ""))
  {
    var errors :=
      (if |input.title| < 3 then [TitleTooShort] else [])
      + (if |input.description| < 10 then [DescriptionTooShort] else [])
      + (if input.attendees.None? then [AttendeesRequired] else [])
      + (if |input.eventType| < 1 then [EventTypeMissing] else []);
    if errors == [] then
      Success(BookingFormValues(input.title, input.description, ParseInt(input.attendees.value),
        input.eventType, input.requirements))
    else
      Failure(errors)
  }

  /** The schema sets no bound on the number of attendees: any numeral is accepted as
      it reads, above every venue's capacity as well. */
  lemma AttendeesUnbounded(input: FormInput, n: nat)
    requires |input.title| >= 3 && |input.description| >= 10 && |input.eventType| >= 1
    ensures ValidateBookingForm(input.(attendees := Some(Decimal(n)))) ==
      Success(BookingFormValues(input.title, input.description, Some(n), input.eventType, input.requirements))
  {
    ParseIntDecimal(n, "");
    assert Decimal(n) + "" == Decimal(n);
  }

  /** A negative count is accepted too. */
  lemma AttendeesMayBeNegative(input: FormInput, n: nat)
    requires |input.title| >= 3 && |input.description| >= 10 && |input.eventType| >= 1
    ensures ValidateBookingForm(input.(attendees := Some("-" + Decimal(n)))).Success?
    ensures ValidateBookingForm(input.(attendees := Some("-" + Decimal(n)))).value.attendees == Some(-(n as int))
  {
    ParseIntNegative(n, "");
    assert "-" + Decimal(n) + "" == "-" + Decimal(n);
  }

  /** Any text that reads as `NaN` passes as well, with `NaN` as the count; the field
      typed in and then cleared holds such a text. */
  lemma AttendeesMayBeNaN(input: FormInput, t: string)
    requires |input.title| >= 3 && |input.description| >= 10 && |input.eventType| >= 1
    requires ParseInt(t).None?
    ensures ValidateBookingForm(input.(attendees := Some(t))).Success?
    ensures ValidateBookingForm(input.(attendees := Some(t))).value.attendees == None
    ensures ValidateBookingForm(input.(attendees := Some(""))).value.attendees == None
  {
    ParseIntNaN("");
  }

  /** The requirements field may be left out. */
  lemma RequirementsOptional(input: FormInput)
    requires ValidateBookingForm(input).Success?
    ensures ValidateBookingForm(input.(requirements := None)).Success?
  {
  }

  // ----- entering the page -----

  /** The router state handed over by the venue page; any part may be missing. */
  datatype NavState = NavState(
    venue: Option<VenueDetail>,
    selectedDate: Option<CalendarDate>,
    selectedTimeSlot: Option<string>)

  datatype FormEntry = RedirectHome | ShowForm(venue: VenueDetail, date: CalendarDate, slot: string)

  /** `if (!venue || !selectedDate || !selectedTimeSlot)` sends the visitor to "/" and
      renders nothing; an empty slot name counts as missing. */
  function EnterBookingForm(state: Option<NavState>): (r: FormEntry)
    ensures r == RedirectHome <==>
      || state.None?
      || state.value.venue.None? || state.value.selectedDate.None?
      || state.value.selectedTimeSlot.None? || state.value.selectedTimeSlot.value == ""
    ensures r.ShowForm? ==>
      && Some(r.venue) == state.value.venue
      && Some(r.date) == state.value.selectedDate
      && Some(r.slot) == state.value.selectedTimeSlot
  {
    if state.None? then RedirectHome
    else
      var s := state.value;
      if s.venue.None? || s.selectedDate.None? || s.selectedTimeSlot.None? || s.selectedTimeSlot.value == ""
      then RedirectHome
      else ShowForm(s.venue.value, s.selectedDate.value, s.selectedTimeSlot.value)
  }

  /** What the venue page hands over always opens the form. */
  lemma FromVenuePageShowsForm(venue: VenueDetail, date: CalendarDate, slot: string)
    requires slot in TimeSlotNames
    ensures EnterBookingForm(Some(NavState(Some(venue), Some(date), Some(slot)))) == ShowForm(venue, date, slot)
  {
  }

  // ----- submitting -----

  /** The result of pressing "Submit Booking Request". */
  datatype SubmitOutcome =
    | FieldErrors(errors: seq<FieldError>)
    | SubmittedToDashboard
    | SubmitFailedToast

  class BookingFormPage {
    const venue: VenueDetail
    const date: CalendarDate
    const slot: string
    var isSubmitting: bool

    constructor (venue: VenueDetail, date: CalendarDate, slot: string)
      ensures this.venue == venue && this.date == date && this.slot == slot
      ensures !isSubmitting
    {
      this.venue, this.date, this.slot := venue, date, slot;
      isSubmitting := false;
    }

    /** The simulated request; it runs only while `isSubmitting` is set. Whether it
        fails is an input of the model. */
    method AwaitRequest(requestFails: bool) returns (ok: bool)
      requires isSubmitting
      ensures ok == !requestFails
    {
      ok := !requestFails;
    }

    /** `form.handleSubmit(onSubmit)`: invalid values give the field messages and leave
        the page alone; valid ones set `isSubmitting`, await the request, go to the
        dashboard on success or show an error toast, and clear `isSubmitting` either way.
        The values themselves are not kept anywhere. */
    method Submit(input: FormInput, requestFails: bool) returns (outcome: SubmitOutcome)
      modifies this
      ensures ValidateBookingForm(input).Failure? ==>
        outcome == FieldErrors(ValidateBookingForm(input).error) && isSubmitting == old(isSubmitting)
      ensures ValidateBookingForm(input).Success? ==>
        outcome == (if requestFails then SubmitFailedToast else SubmittedToDashboard) && !isSubmitting
    {
      var validated := ValidateBookingForm(input);
      if validated.Failure? {
        return FieldErrors(validated.error);
      }
      isSubmitting := true;
      var ok := AwaitRequest(requestFails);
      if ok {
        outcome := SubmittedToDashboard;
      } else {
        outcome := SubmitFailedToast;
      }
      isSubmitting := false;
    }
  }
}
