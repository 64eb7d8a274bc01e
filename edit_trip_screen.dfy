/**
 * The trip edit screen: the form is filled from the loaded trip, the two
 * date pickers keep the range in order as far as the start date goes,
 * validation checks title, destination and date order, and saving returns
 * to the trip's details.
 */
module EditTripScreen {
  import opened Common
  import opened Text
  import opened Validation
  import opened Domain
  import opened Routes

  /** One day in milliseconds; `setDate(getDate() + 1)` is modelled without daylight-saving shifts. */
  const DayMs: int := 86_400_000

  // --------------------------------------------------------- date range

  /** The two dates of the form. */
  datatype DateRange = DateRange(start: Timestamp, end: Timestamp)

  /** The range is in order: the end is not before the start. */
  predicate Ordered(r: DateRange) {
    r.start <= r.end
  }

  /**
   * `onStartDateChange`: a dismissed picker (no date) changes nothing. A
   * chosen date becomes the start; an end before it is pushed to one day
   * after it, and an end already at or after it is kept.
   */
  function StartDateChanged(r: DateRange, selected: Option<Timestamp>): (r': DateRange)
    ensures selected.None? ==> r' == r
    ensures selected.Some? ==> r'.start == selected.value && Ordered(r')
    ensures selected.Some? && selected.value <= r.end ==> r'.end == r.end
    ensures selected.Some? && r.end < selected.value ==> r'.end - r'.start == DayMs
  {
    match selected
    case None => r
    case Some(d) => if r.end < d then DateRange(d, d + DayMs) else DateRange(d, r.end)
  }

  /** `onEndDateChange`: a chosen date becomes the end, in order or not; the start is kept. */
  function EndDateChanged(r: DateRange, selected: Option<Timestamp>): (r': DateRange)
    ensures r'.start == r.start
    ensures r'.end == selected.GetOr(r.end)
  {
    match selected
    case None => r
    case Some(d) => DateRange(r.start, d)
  }

  /** Any start-date choice leaves the range in order, whatever it was before. */
  lemma StartChoiceOrdersRange(r: DateRange, d: Timestamp)
    ensures Ordered(StartDateChanged(r, Some(d)))
    ensures Ordered(r) && r.start <= d <= r.end ==> StartDateChanged(r, Some(d)) == DateRange(d, r.end)
  {
  }

  // ---------------------------------------------------------- validation

  datatype EditError = TitleMissing | DestinationMissing | EndBeforeStart
  {
    function Message(): string {
      match this
      case TitleMissing => "Please enter a trip title"
      case DestinationMissing => "Please enter a destination"
      case EndBeforeStart => "End date cannot be before start date"
    }
  }

  /** The checks of `validateForm`, in order: title and destination are trimmed first. */
  function EditChecks(title: string, destination: string, dates: DateRange): seq<Check<EditError>> {
    [ Check(Trim(title) != "", TitleMissing),
      Check(Trim(destination) != "", DestinationMissing),
      Check(!(dates.end < dates.start), EndBeforeStart) ]
  }

  /**
   * The error `validateForm` reports, or `None`. The date comparison is
   * strict, so a trip that starts and ends on the same instant is accepted.
   */
  function CheckEditForm(title: string, destination: string, dates: DateRange): (r: Option<EditError>)
    ensures r.None? <==> !IsBlank(title) && !IsBlank(destination) && Ordered(dates)
    ensures IsBlank(title) ==> r == Some(TitleMissing)
    ensures !IsBlank(title) && IsBlank(destination) ==> r == Some(DestinationMissing)
    ensures !IsBlank(title) && !IsBlank(destination) && !Ordered(dates) ==> r == Some(EndBeforeStart)
  {
    EditChecksInOrder(title, destination, dates);
    FirstFailing(EditChecks(title, destination, dates))
  }

  /** Which of the three checks pass, in terms of the fields. */
  lemma EditChecksPass(title: string, destination: string, dates: DateRange)
    ensures var c := EditChecks(title, destination, dates);
      && |c| == 3
      && (c[0].passes <==> !IsBlank(title))
      && (c[1].passes <==> !IsBlank(destination))
      && (c[2].passes <==> Ordered(dates))
  {
  }

  lemma EditChecksInOrder(title: string, destination: string, dates: DateRange)
    ensures var c := EditChecks(title, destination, dates);
      && (!IsBlank(title) && IsBlank(destination) ==> FirstFailing(c) == Some(DestinationMissing))
      && (!IsBlank(title) && !IsBlank(destination) && !Ordered(dates) ==> FirstFailing(c) == Some(EndBeforeStart))
  {
    EditChecksPass(title, destination, dates);
    SecondOrThirdFailsFirst(EditChecks(title, destination, dates));
  }

  /**
   * The date rule and validation together: after a start-date choice the
   * dates never fail validation, while an end date chosen before the start
   * is caught by validation (when title and destination are filled in).
   */
  lemma DateChoicesAndValidation(title: string, destination: string, r: DateRange, d: Timestamp)
    ensures CheckEditForm(title, destination, StartDateChanged(r, Some(d))) != Some(EndBeforeStart)
    ensures !IsBlank(title) && !IsBlank(destination) && d < r.start ==>
      CheckEditForm(title, destination, EndDateChanged(r, Some(d))) == Some(EndBeforeStart)
  {
  }

  // -------------------------------------------------------- form filling

  /** The editable fields of the form; budget, transportation and description are text inputs. */
  datatype FormFields = FormFields(
    title: string,
    destination: string,
    dates: DateRange,
    budget: string,
    transportation: string,
    description: string,
    coverImage: Option<string>,
    state: TripState)

  /**
   * What `fetchTrip` copies into the form: a missing budget becomes '', a
   * present one its decimal text; missing texts become ''; a missing or
   * empty cover image becomes `null`.
   */
  function Populate(t: Trip): (f: FormFields)
    ensures f.title == t.title && f.destination == t.destinationRegion && f.state == t.state
    ensures f.dates == DateRange(t.startDate, t.endDate)
    ensures f.budget == "" <==> t.budget.None?
    ensures t.budget.Some? ==> ParseInt(f.budget) == t.budget
    ensures f.transportation == t.generalTransportation.GetOr("")
    ensures f.description == t.description.GetOr("")
    ensures f.coverImage.Some? <==> t.coverImage.Some? && t.coverImage.value != ""
    ensures f.coverImage.Some? ==> f.coverImage == t.coverImage
  {
    FormFields(
      t.title,
      t.destinationRegion,
      DateRange(t.startDate, t.endDate),
      match t.budget case Some(b) => IntToString(b) case None => "",
      t.generalTransportation.GetOr(""),
      t.description.GetOr(""),
      if t.coverImage == Some("") then None else t.coverImage,
      t.state)
  }

  const LoadFailedMessage: string := "Failed to load trip details. Please try again."
  const UpdateFailedMessage: string := "Failed to update trip. Please try again."

  // ---------------------------------------------------------- the screen

  class EditTripForm {
    /** The route parameter. */
    const tripId: Id
    var title: string
    var destination: string
    var startDate: Timestamp
    var endDate: Timestamp
    var budget: string
    var transportation: string
    var description: string
    var coverImage: Option<string>
    var tripState: TripState
    var error: string
    var loading: bool
    var showStartDatePicker: bool
    var showEndDatePicker: bool

    function Dates(): DateRange
      reads this`startDate, this`endDate
    {
      DateRange(startDate, endDate)
    }

    function Form(): FormFields
      reads this`title, this`destination, this`startDate, this`endDate, this`budget,
        this`transportation, this`description, this`coverImage, this`tripState
    {
      FormFields(title, destination, Dates(), budget, transportation, description, coverImage, tripState)
    }

    /** The first render at time `now`: empty texts, a week from now, loading. */
    constructor (tripId: Id, now: Timestamp)
      ensures this.tripId == tripId
      ensures Form() == FormFields("", "", DateRange(now, now + 7 * DayMs), "", "", "", None, InCreation)
      ensures Ordered(Dates())
      ensures error == "" && loading && !showStartDatePicker && !showEndDatePicker
    {
      this.tripId := tripId;
      title, destination := "", "";
      startDate, endDate := now, now + 7 * DayMs;
      budget, transportation, description := "", "", "";
      coverImage, tripState := None, InCreation;
      error, loading := "", true;
      showStartDatePicker, showEndDatePicker := false, false;
    }

    /**
     * The mount effect `fetchTrip`, given the trip it loads: on success the
     * form is filled from it, on failure only the error is set; loading ends
     * either way.
     */
    method FetchTrip(trip: Trip, outcome: Settled)
      modifies this
      ensures Form() == if outcome.Fulfilled? then Populate(trip) else old(Form())
      ensures error == if outcome.Fulfilled? then old(error) else LoadFailedMessage
      ensures !loading
      ensures showStartDatePicker == old(showStartDatePicker) && showEndDatePicker == old(showEndDatePicker)
    {
      if outcome.Fulfilled? {
        var f := Populate(trip);
        title, destination := f.title, f.destination;
        startDate, endDate := f.dates.start, f.dates.end;
        budget, transportation, description := f.budget, f.transportation, f.description;
        coverImage, tripState := f.coverImage, f.state;
      } else {
        error := LoadFailedMessage;
      }
      loading := false;
    }

    /** The start picker's callback: closes the picker and applies the date rule. */
    method OnStartDateChange(selected: Option<Timestamp>)
      modifies this`startDate, this`endDate, this`showStartDatePicker
      ensures Dates() == StartDateChanged(old(Dates()), selected)
      ensures !showStartDatePicker
    {
      showStartDatePicker := false;
      if selected.Some? {
        startDate := selected.value;
        if endDate < selected.value {
          endDate := selected.value + DayMs;
        }
      }
    }

    /** The end picker's callback: closes the picker and takes the date as it comes. */
    method OnEndDateChange(selected: Option<Timestamp>)
      modifies this`endDate, this`showEndDatePicker
      ensures Dates() == EndDateChanged(old(Dates()), selected)
      ensures !showEndDatePicker
    {
      showEndDatePicker := false;
      if selected.Some? {
        endDate := selected.value;
      }
    }

    /** `validateForm`: sets the first failing check's message; a valid form leaves `error` alone. */
    method ValidateForm() returns (ok: bool)
      modifies this`error
      ensures ok <==> old(CheckEditForm(title, destination, Dates())).None?
      ensures error == if ok then old(error) else old(CheckEditForm(title, destination, Dates())).value.Message()
    {
      var r := CheckEditForm(title, destination, Dates());
      if r.Some? {
        error := r.value.Message();
        return false;
      }
      return true;
    }

    /**
     * `handleUpdateTrip`. An invalid form only sets the error. A valid one
     * clears it and awaits the save: on success the screen goes to the
     * details of the same trip, on failure it shows the update error; loading
     * ends either way.
     */
    method HandleUpdateTrip(outcome: Settled) returns (nav: Option<TripsRoute>)
      modifies this`error, this`loading
      ensures old(CheckEditForm(title, destination, Dates())).Some? ==>
        && nav == None && loading == old(loading)
        && error == old(CheckEditForm(title, destination, Dates())).value.Message()
      ensures old(CheckEditForm(title, destination, Dates())).None? ==>
        && !loading
        && nav == (if outcome.Fulfilled? then Some(TripDetails(tripId)) else None)
        && error == (if outcome.Fulfilled? then "" else UpdateFailedMessage)
    {
      var ok := ValidateForm();
      if !ok {
        assert old(CheckEditForm(title, destination, Dates())).Some?;
        return None;
      }
      assert old(CheckEditForm(title, destination, Dates())).None?;
      loading := true;
      error := "";
      if outcome.Fulfilled? {
        nav := Some(TripDetails(tripId));
      } else {
        nav := None;
        error := UpdateFailedMessage;
      }
      loading := false;
    }
  }
}
