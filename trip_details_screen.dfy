/**
 * The trip details screen: one summary card per day, the day-card target,
 * and the menu, share and delete-dialog state. The header's state colour and
 * collaborator line are `TripsListScreen.TripStateColor` and
 * `TripsListScreen.CollaboratorLabel`, which this screen declares identically.
 */
module TripDetailsScreen {
  import opened Common
  import opened Text
  import opened Domain
  import opened Routes

  // ----------------------------------------------------------- day cards

  /** `day.accommodations.some(acc => acc.isSelected)`. */
  function AnySelected(accs: seq<Accommodation>): (b: bool)
    ensures b <==> exists i | 0 <= i < |accs| :: accs[i].isSelected
  {
    if accs == [] then false
    else if accs[0].isSelected then true
    else
      var b := AnySelected(accs[1..]);
      assert b ==> exists i | 0 <= i < |accs| :: accs[i].isSelected by {
        if b {
          var i :| 0 <= i < |accs[1..]| && accs[1..][i].isSelected;
          assert accs[i + 1].isSelected;
        }
      }
      b
  }

  /** The card title `Day {index + 1}`: "Day " then the 1-based day number. */
  function DayTitle(index: nat): (title: string)
    ensures |title| > 4 && title[..4] == "Day "
    ensures AllDigits(title[4..]) && DecimalValue(title[4..]) == index + 1
  {
    var digits := NatToString(index + 1);
    assert ("Day " + digits)[4..] == digits;
    "Day " + digits
  }

  /** What a day card shows: its title, and the two indicators with their lines of text. */
  datatype DayCard = DayCard(
    title: string,
    hasActivities: bool,
    activitiesLine: string,
    hasAccommodation: bool,
    accommodationLine: string)

  const NoActivitiesLine: string := "No activities planned yet"
  const AccommodationSelectedLine: string := "Accommodation selected"
  const NoAccommodationLine: string := "No accommodation selected"

  /** `renderDayCard`, without dates and styling. */
  function RenderDayCard(day: Day): (card: DayCard)
    ensures card.hasActivities <==> |day.activities| > 0
    ensures card.hasAccommodation <==> exists i | 0 <= i < |day.accommodations| :: day.accommodations[i].isSelected
    ensures card.hasAccommodation <==> SelectedCount(day.accommodations) > 0
    ensures card.title == DayTitle(day.index)
    ensures card.activitiesLine == if card.hasActivities
      then NatToString(|day.activities|) + " activities planned" else NoActivitiesLine
    ensures card.accommodationLine == if card.hasAccommodation then AccommodationSelectedLine else NoAccommodationLine
  {
    var hasActivities := |day.activities| > 0;
    var hasAccommodation := AnySelected(day.accommodations);
    DayCard(
      DayTitle(day.index),
      hasActivities,
      if hasActivities then NatToString(|day.activities|) + " activities planned" else NoActivitiesLine,
      hasAccommodation,
      if hasAccommodation then AccommodationSelectedLine else NoAccommodationLine)
  }

  /**
   * Under the selection rule, the "Accommodation selected" indicator of a
   * day past IN_CREATION means exactly one accommodation of that day is selected.
   */
  lemma IndicatorMeansTheSelection(ft: FullTrip, d: int)
    requires SelectionRuleHolds(ft) && ft.trip.state != InCreation && 0 <= d < |ft.days|
    ensures RenderDayCard(ft.days[d]).hasAccommodation <==> SelectedCount(ft.days[d].accommodations) == 1
  {
  }

  // ------------------------------------------------------------- the view

  class TripDetailsView {
    /** The route parameter. */
    const tripId: Id
    var trip: Option<FullTrip>
    var menuVisible: bool
    var deleteDialogVisible: bool
    var loading: bool

    constructor (tripId: Id)
      ensures this.tripId == tripId
      ensures trip.None? && !menuVisible && !deleteDialogVisible && loading
    {
      this.tripId := tripId;
      trip := None;
      menuVisible, deleteDialogVisible, loading := false, false, true;
    }

    /** `loading || !trip`: the "Loading trip details..." placeholder. */
    function ShowsPlaceholder(): bool
      reads this`loading, this`trip
    {
      loading || trip.None?
    }

    /**
     * The mount effect `fetchTrip`, given the trip it loads: stored on success,
     * nothing on failure (the error is only logged); loading ends either way.
     */
    method FetchTrip(loaded: FullTrip, outcome: Settled)
      modifies this`trip, this`loading
      ensures trip == if outcome.Fulfilled? then Some(loaded) else old(trip)
      ensures !loading
      ensures ShowsPlaceholder() <==> trip.None?
    {
      if outcome.Fulfilled? {
        trip := Some(loaded);
      }
      loading := false;
    }

    /** The header button opens the menu; dismissing it closes it. */
    method SetMenuVisible(visible: bool)
      modifies this`menuVisible
      ensures menuVisible == visible
    {
      menuVisible := visible;
    }

    /** "Edit Trip": closes the menu and opens the editor for this route's trip. */
    method HandleEditTrip() returns (nav: NavAction<TripsRoute>)
      modifies this`menuVisible
      ensures !menuVisible
      ensures nav.Navigate? && nav.route.EditTrip? && nav.route.tripId == tripId
    {
      menuVisible := false;
      nav := Navigate(EditTrip(tripId));
    }

    /** "Manage Collaborators": closes the menu and opens the collaborator screen for this trip. */
    method HandleManageCollaborators() returns (nav: NavAction<TripsRoute>)
      modifies this`menuVisible
      ensures !menuVisible
      ensures nav.Navigate? && nav.route.ManageCollaborators? && nav.route.tripId == tripId
    {
      menuVisible := false;
      nav := Navigate(ManageCollaborators(tripId));
    }

    /**
     * "Share Trip": closes the menu; the share sheet opens only once a trip
     * is loaded (the sheet itself is a platform call outside the model).
     */
    method HandleShareTrip() returns (opensShareSheet: bool)
      modifies this`menuVisible
      ensures !menuVisible
      ensures opensShareSheet <==> trip.Some?
    {
      menuVisible := false;
      if trip.None? {
        return false;
      }
      return true;
    }

    /** "Delete Trip": swaps the menu for the confirmation dialog. */
    method HandleDeleteTrip()
      modifies this`menuVisible, this`deleteDialogVisible
      ensures !menuVisible && deleteDialogVisible
    {
      menuVisible := false;
      deleteDialogVisible := true;
    }

    /** The dialog's Cancel button and its dismissal. */
    method CancelDelete()
      modifies this`deleteDialogVisible
      ensures !deleteDialogVisible
    {
      deleteDialogVisible := false;
    }

    /** The dialog's Delete button: closes the dialog and goes back; nothing is deleted. */
    method ConfirmDeleteTrip() returns (nav: NavAction<TripsRoute>)
      modifies this`deleteDialogVisible
      ensures !deleteDialogVisible && nav == GoBack
    {
      deleteDialogVisible := false;
      nav := GoBack;
    }

    /** Pressing a day card opens that day of this route's trip. */
    method HandleDayPress(day: Day) returns (nav: NavAction<TripsRoute>)
      ensures nav.Navigate? && nav.route.DayDetails?
      ensures nav.route.tripId == tripId && nav.route.dayIndex == day.index
    {
      nav := Navigate(DayDetails(tripId, day.index));
    }
  }
}
