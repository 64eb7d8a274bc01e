/**
 * The shared data model of the trip planner: users, trips, the days of a
 * trip and what is planned on them. Dates and times are millisecond
 * timestamps; optional fields are `Option`s.
 */
module Domain {
  import opened Common

  type Id = string

  /** Milliseconds since the epoch; the source keeps these as ISO strings. */
  type Timestamp = int

  datatype User = User(
    id: Id,
    email: string,
    name: string,
    profilePicture: Option<string>,
    createdAt: Timestamp,
    updatedAt: Timestamp)

  /** The four stages of a trip; nothing in the application moves a trip between them. */
  datatype TripState = InCreation | WaitingToStart | InProgress | Completed {
    /** The enum's string value, which the state chip displays. */
    function Label(): string {
      match this
      case InCreation => "IN_CREATION"
      case WaitingToStart => "WAITING_TO_START"
      case InProgress => "IN_PROGRESS"
      case Completed => "COMPLETED"
    }
  }

  /** A trip; `budget`, `description`, `coverImage` and `generalTransportation` are optional. */
  datatype Trip = Trip(
    id: Id,
    title: string,
    destinationRegion: string,
    startDate: Timestamp,
    endDate: Timestamp,
    budget: Option<int>,
    description: Option<string>,
    coverImage: Option<string>,
    state: TripState,
    generalTransportation: Option<string>,
    ownerId: Id,
    collaborators: seq<Id>,
    createdAt: Timestamp,
    updatedAt: Timestamp)

  datatype Location = Location(
    latitude: real,
    longitude: real,
    address: Option<string>,
    name: Option<string>)

  /** A lodging option for one day of a trip; `dayIndex` is the 0-based day offset. */
  datatype Accommodation = Accommodation(
    id: Id,
    tripId: Id,
    dayIndex: nat,
    name: string,
    location: Location,
    price: Option<int>,
    url: Option<string>,
    photos: Option<seq<string>>,
    isSelected: bool,
    createdAt: Timestamp,
    updatedAt: Timestamp)

  /** A plannable event of one day; `votes` lists the ids of the users who voted for it. */
  datatype Activity = Activity(
    id: Id,
    tripId: Id,
    dayIndex: nat,
    name: string,
    location: Location,
    startTime: Option<Timestamp>,
    endTime: Option<Timestamp>,
    price: Option<int>,
    url: Option<string>,
    photos: Option<seq<string>>,
    votes: seq<Id>,
    createdAt: Timestamp,
    updatedAt: Timestamp)

  /** How the travellers move on one day; `kind` is the source's `type` ("car", "train", ...). */
  datatype DailyTransportation = DailyTransportation(
    id: Id,
    tripId: Id,
    dayIndex: nat,
    kind: string,
    details: Option<string>,
    createdAt: Timestamp,
    updatedAt: Timestamp)

  /** The kind of entity a comment is attached to. */
  datatype EntityType = ActivityEntity | AccommodationEntity

  /** A comment on exactly one activity or accommodation. */
  datatype Comment = Comment(
    id: Id,
    tripId: Id,
    entityId: Id,
    entityType: EntityType,
    text: string,
    userId: Id,
    createdAt: Timestamp,
    updatedAt: Timestamp)

  /** One day of a trip: any number of accommodations and activities, at most one transportation. */
  datatype Day = Day(
    index: nat,
    date: Timestamp,
    accommodations: seq<Accommodation>,
    activities: seq<Activity>,
    transportation: Option<DailyTransportation>)

  /** A trip together with its days and comments (`FullTrip extends Trip`). */
  datatype FullTrip = FullTrip(trip: Trip, days: seq<Day>, comments: seq<Comment>)

  // ---------------------------------------------- the selection invariant

  /** How many of the accommodations are marked selected. */
  function SelectedCount(accs: seq<Accommodation>): (n: nat)
    ensures n <= |accs|
    ensures n == 0 <==> forall i | 0 <= i < |accs| :: !accs[i].isSelected
  {
    if accs == [] then 0
    else (if accs[0].isSelected then 1 else 0) + SelectedCount(accs[1..])
  }

  /** No two different accommodations of the list are both selected. */
  ghost predicate NoTwoSelected(accs: seq<Accommodation>) {
    forall i, j | 0 <= i < j < |accs| :: !(accs[i].isSelected && accs[j].isSelected)
  }

  /** Counting at most one selected accommodation is the same as no two being selected. */
  lemma {:induction false} AtMostOneSelectedIffNoTwo(accs: seq<Accommodation>)
    ensures SelectedCount(accs) <= 1 <==> NoTwoSelected(accs)
  {
    if accs != [] {
      var tail := accs[1..];
      AtMostOneSelectedIffNoTwo(tail);
      if accs[0].isSelected {
        if SelectedCount(accs) <= 1 {
          forall i, j | 0 <= i < j < |accs| ensures !(accs[i].isSelected && accs[j].isSelected) {
            if i > 0 {
              assert tail[i - 1] == accs[i] && tail[j - 1] == accs[j];
            } else {
              assert !tail[j - 1].isSelected;
            }
          }
        } else {
          var j :| 0 <= j < |tail| && tail[j].isSelected;
          assert accs[0].isSelected && accs[j + 1].isSelected;
        }
      } else {
        if NoTwoSelected(accs) {
          forall i, j | 0 <= i < j < |tail| ensures !(tail[i].isSelected && tail[j].isSelected) {
            assert accs[i + 1] == tail[i] && accs[j + 1] == tail[j];
          }
        } else {
          var i, j :| 0 <= i < j < |accs| && accs[i].isSelected && accs[j].isSelected;
          assert tail[i - 1].isSelected && tail[j - 1].isSelected;
        }
      }
    }
  }

  /**
   * The rule the comment on the type's `isSelected` field declares: once a trip has left
   * IN_CREATION, each of its days has at most one selected accommodation.
   * Nothing in the application enforces it.
   */
  predicate SelectionRuleHolds(ft: FullTrip) {
    ft.trip.state != InCreation ==>
      forall d | 0 <= d < |ft.days| :: SelectedCount(ft.days[d].accommodations) <= 1
  }

  /** The rule, stated over pairs of accommodations of one day. */
  lemma SelectionRuleAsPairs(ft: FullTrip)
    ensures SelectionRuleHolds(ft) <==>
      (ft.trip.state != InCreation ==> forall d | 0 <= d < |ft.days| :: NoTwoSelected(ft.days[d].accommodations))
  {
    forall d | 0 <= d < |ft.days| {
      AtMostOneSelectedIffNoTwo(ft.days[d].accommodations);
    }
  }
}
