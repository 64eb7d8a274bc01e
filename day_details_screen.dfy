/**
 * The day details screen: the lookup of the route's day in the loaded trip,
 * the copy of the day's activities sorted by start time, which of them the
 * timeline shows, the header counts, and the routes its buttons open.
 */
module DayDetailsScreen {
  import opened Common
  import opened Text
  import opened Domain
  import opened Routes
  import TripDetailsScreen

  // ----------------------------------------------------------- day lookup

  /** `k` is the first position whose day has index `dayIndex`. */
  ghost predicate FirstWithIndex(days: seq<Day>, dayIndex: int, k: int) {
    0 <= k < |days| && days[k].index == dayIndex && forall j | 0 <= j < k :: days[j].index != dayIndex
  }

  /** `days.find(d => d.index === dayIndex)`, with `undefined` as `None`. */
  function FindDay(days: seq<Day>, dayIndex: int): (r: Option<Day>)
    ensures r.None? <==> forall k | 0 <= k < |days| :: days[k].index != dayIndex
    ensures r.Some? ==> exists k :: FirstWithIndex(days, dayIndex, k) && days[k] == r.value
  {
    if days == [] then
      None
    else if days[0].index == dayIndex then
      assert FirstWithIndex(days, dayIndex, 0);
      Some(days[0])
    else
      var r := FindDay(days[1..], dayIndex);
      assert r.Some? ==> exists k :: FirstWithIndex(days, dayIndex, k) && days[k] == r.value by {
        if r.Some? {
          var k :| FirstWithIndex(days[1..], dayIndex, k) && days[1..][k] == r.value;
          assert FirstWithIndex(days, dayIndex, k + 1);
        }
      }
      r
  }

  /**
   * Pressing the card of a day on the trip details screen opens this screen
   * with that day's index; when no earlier day of the same trip has the same
   * index, the lookup finds exactly the pressed day.
   */
  lemma {:induction false} DayPressFindsPressedDay(days: seq<Day>, k: int)
    requires 0 <= k < |days| && forall j | 0 <= j < k :: days[j].index != days[k].index
    ensures FindDay(days, days[k].index) == Some(days[k])
  {
    if k > 0 {
      assert days[0].index != days[k].index;
      DayPressFindsPressedDay(days[1..], k - 1);
    }
  }

  /**
   * In a trip whose days are indexed by position, as in both screens' sample
   * trips, the lookup finds the day at that position for an index inside
   * the trip and nothing for any other, leaving the screen on its spinner.
   */
  lemma {:induction false} PositionIndexedLookup(days: seq<Day>, i: int)
    requires forall k | 0 <= k < |days| :: days[k].index == k
    ensures 0 <= i < |days| ==> FindDay(days, i) == Some(days[i])
    ensures !(0 <= i < |days|) ==> FindDay(days, i) == None
  {
    if 0 <= i < |days| {
      DayPressFindsPressedDay(days, i);
    }
  }

  // ------------------------------------------------------ activity order

  /** The sort comparator: 0 unless both have a start time, else the difference of the start times. */
  function CompareByStart(a: Activity, b: Activity): int {
    if a.startTime.None? || b.startTime.None? then 0 else a.startTime.value - b.startTime.value
  }

  predicate AllTimed(acts: seq<Activity>) {
    forall i | 0 <= i < |acts| :: acts[i].startTime.Some?
  }

  /** Nondecreasing by start time; said only of activities that all have one. */
  predicate SortedByStart(acts: seq<Activity>)
    requires AllTimed(acts)
  {
    forall i, j | 0 <= i < j < |acts| :: acts[i].startTime.value <= acts[j].startTime.value
  }

  /**
   * Inserts `x` into `acts` before the first element that compares greater
   * than it, so after every element it ties with.
   */
  function InsertByStart(x: Activity, acts: seq<Activity>): (r: seq<Activity>)
    ensures multiset(r) == multiset(acts) + multiset{x}
    ensures AllTimed(acts) && x.startTime.Some? ==> AllTimed(r)
  {
    if acts == [] then
      [x]
    else if CompareByStart(x, acts[0]) < 0 then
      [x] + acts
    else
      var rest := InsertByStart(x, acts[1..]);
      var r := [acts[0]] + rest;
      assert acts == [acts[0]] + acts[1..];
      assert AllTimed(acts) && x.startTime.Some? ==> AllTimed(r) by {
        if AllTimed(acts) && x.startTime.Some? {
          forall i | 0 <= i < |r| ensures r[i].startTime.Some? {
            if i > 0 {
              assert r[i] == rest[i - 1];
            }
          }
        }
      }
      r
  }

  /** Every activity of the list starts no earlier than `lo`. */
  predicate StartsFrom(acts: seq<Activity>, lo: int)
    requires AllTimed(acts)
  {
    forall i | 0 <= i < |acts| :: lo <= acts[i].startTime.value
  }

  /** Dropping the first activity of a sorted list leaves a sorted list that starts from the first one's time. */
  lemma SortedTail(acts: seq<Activity>)
    requires acts != [] && AllTimed(acts) && SortedByStart(acts)
    ensures AllTimed(acts[1..]) && SortedByStart(acts[1..])
    ensures StartsFrom(acts[1..], acts[0].startTime.value)
  {
    var tail := acts[1..];
    forall i | 0 <= i < |tail| ensures tail[i] == acts[i + 1] {
    }
  }

  /** Inserting an activity that starts from `lo` into a list that starts from `lo` gives such a list. */
  lemma InsertStartsFrom(x: Activity, acts: seq<Activity>, lo: int)
    requires AllTimed(acts) && x.startTime.Some? && StartsFrom(acts, lo) && lo <= x.startTime.value
    ensures AllTimed(InsertByStart(x, acts)) && StartsFrom(InsertByStart(x, acts), lo)
  {
    var r := InsertByStart(x, acts);
    forall j | 0 <= j < |r| ensures lo <= r[j].startTime.value {
      assert r[j] in multiset(r);
      if r[j] != x {
        assert r[j] in multiset(acts);
        var m :| 0 <= m < |acts| && acts[m] == r[j];
      }
    }
  }

  /** A timed activity put in front of a sorted list that starts from its time gives a sorted list. */
  lemma ConsSorted(a: Activity, acts: seq<Activity>)
    requires a.startTime.Some? && AllTimed(acts) && SortedByStart(acts) && StartsFrom(acts, a.startTime.value)
    ensures AllTimed([a] + acts) && SortedByStart([a] + acts)
  {
    var r := [a] + acts;
    forall i | 0 < i < |r| ensures r[i] == acts[i - 1] {
    }
  }

  /** Inserting a timed activity into a sorted list of timed activities keeps it sorted. */
  lemma {:induction false} InsertKeepsSorted(x: Activity, acts: seq<Activity>)
    requires AllTimed(acts) && x.startTime.Some? && SortedByStart(acts)
    ensures AllTimed(InsertByStart(x, acts)) && SortedByStart(InsertByStart(x, acts))
  {
    if acts == [] {
      assert InsertByStart(x, acts) == [x];
    } else if CompareByStart(x, acts[0]) < 0 {
      assert StartsFrom(acts, x.startTime.value) by {
        forall i | 0 <= i < |acts| ensures x.startTime.value <= acts[i].startTime.value {
          assert acts[0].startTime.value <= acts[i].startTime.value;
        }
      }
      ConsSorted(x, acts);
    } else {
      var tail := acts[1..];
      SortedTail(acts);
      InsertKeepsSorted(x, tail);
      InsertStartsFrom(x, tail, acts[0].startTime.value);
      ConsSorted(acts[0], InsertByStart(x, tail));
    }
  }

  /**
   * `[...day.activities].sort(compareByStart)` as a stable insertion sort of
   * a copy: the day's own list is a value and is left as it was.
   */
  function SortByStart(acts: seq<Activity>): (r: seq<Activity>)
    ensures multiset(r) == multiset(acts)
    ensures |r| == |acts|
    ensures AllTimed(acts) ==> AllTimed(r) && SortedByStart(r)
  {
    if acts == [] then
      []
    else
      var init := acts[..|acts| - 1];
      assert acts == init + [acts[|acts| - 1]];
      assert AllTimed(acts) ==> AllTimed(init) by {
        if AllTimed(acts) {
          forall i | 0 <= i < |init| ensures init[i].startTime.Some? {
            assert init[i] == acts[i];
          }
        }
      }
      var r := InsertByStart(acts[|acts| - 1], SortByStart(init));
      assert |r| == |multiset(r)|;
      assert AllTimed(acts) ==> AllTimed(r) && SortedByStart(r) by {
        if AllTimed(acts) {
          InsertKeepsSorted(acts[|acts| - 1], SortByStart(init));
        }
      }
      r
  }

  // ------------------------------------------------------------ timeline

  /** `renderTimelineItem` draws an activity only when it has both a start and an end time. */
  predicate ShowsInTimeline(a: Activity) {
    a.startTime.Some? && a.endTime.Some?
  }

  /**
   * The activities the timeline draws, in the sorted order and each as often
   * as it occurs there; the others render as `null`. Every drawn activity has
   * a start time.
   */
  function Timeline(sorted: seq<Activity>): (shown: seq<Activity>)
    ensures IsSubsequence(shown, sorted)
    ensures forall a :: multiset(shown)[a] == if ShowsInTimeline(a) then multiset(sorted)[a] else 0
    ensures forall a :: a in shown <==> a in sorted && ShowsInTimeline(a)
    ensures |shown| <= |sorted|
    ensures AllTimed(shown)
  {
    if sorted == [] then
      []
    else
      var rest := Timeline(sorted[1..]);
      assert sorted == [sorted[0]] + sorted[1..];
      if ShowsInTimeline(sorted[0]) then
        var shown := [sorted[0]] + rest;
        assert shown[1..] == rest;
        shown
      else
        rest
  }

  /** Drawing only some activities of a sorted list keeps them in sorted order. */
  lemma {:induction false} TimelineKeepsOrder(sorted: seq<Activity>)
    requires AllTimed(sorted) && SortedByStart(sorted)
    ensures SortedByStart(Timeline(sorted))
  {
    if sorted != [] {
      var rest := Timeline(sorted[1..]);
      SortedTail(sorted);
      TimelineKeepsOrder(sorted[1..]);
      if ShowsInTimeline(sorted[0]) {
        FromBoundKeptInPart(rest, sorted[1..], sorted[0].startTime.value);
        ConsSorted(sorted[0], rest);
      }
    }
  }

  /** Activities all taken from a list that starts from `lo` start from `lo` too. */
  lemma FromBoundKeptInPart(part: seq<Activity>, acts: seq<Activity>, lo: int)
    requires AllTimed(acts) && StartsFrom(acts, lo)
    requires AllTimed(part) && forall a :: a in part ==> a in acts
    ensures StartsFrom(part, lo)
  {
    forall i | 0 <= i < |part| ensures lo <= part[i].startTime.value {
      assert part[i] in acts;
      var m :| 0 <= m < |acts| && acts[m] == part[i];
    }
  }

  /**
   * The activities section: the timeline of the sorted copy, which holds
   * exactly the day's activities with both times, each as often as the day
   * lists it, sorted by start when every activity has a start time; the
   * empty message shows when the day has no activities.
   */
  lemma TimelineOfDay(day: Day)
    ensures var shown := Timeline(SortByStart(day.activities));
      && (forall a :: multiset(shown)[a] == if ShowsInTimeline(a) then multiset(day.activities)[a] else 0)
      && (forall a :: a in shown <==> a in day.activities && ShowsInTimeline(a))
      && (AllTimed(day.activities) ==> SortedByStart(shown))
      && (|SortByStart(day.activities)| == 0 <==> |day.activities| == 0)
  {
    var sorted := SortByStart(day.activities);
    if AllTimed(day.activities) {
      TimelineKeepsOrder(sorted);
    }
    forall a ensures a in sorted <==> a in day.activities {
      assert a in sorted <==> a in multiset(sorted);
      assert a in day.activities <==> a in multiset(day.activities);
    }
  }

  // -------------------------------------------------------------- header

  /** The three numbers of the header: activities, accommodations, transportation. */
  datatype HeaderStats = HeaderStats(activities: nat, accommodations: nat, transportation: nat)

  function Stats(day: Day): (s: HeaderStats)
    ensures s.activities == |day.activities| && s.accommodations == |day.accommodations|
    ensures s.transportation <= 1 && (s.transportation == 1 <==> day.transportation.Some?)
  {
    HeaderStats(|day.activities|, |day.accommodations|, if day.transportation.Some? then 1 else 0)
  }

  /** The day card on the trip details screen and this header agree on whether activities exist. */
  lemma CardAgreesWithHeader(day: Day)
    ensures TripDetailsScreen.RenderDayCard(day).hasActivities <==> Stats(day).activities > 0
    ensures TripDetailsScreen.RenderDayCard(day).hasAccommodation ==> Stats(day).accommodations > 0
  {
  }

  /** An activity card's vote line, `{votes.length} votes`, whose number reads back as the vote count. */
  function VoteLine(a: Activity): (line: string)
    ensures |line| > 6 && line[|line| - 6..] == " votes"
    ensures AllDigits(line[..|line| - 6]) && DecimalValue(line[..|line| - 6]) == |a.votes|
  {
    var digits := NatToString(|a.votes|);
    assert (digits + " votes")[..|digits|] == digits;
    digits + " votes"
  }

  // -------------------------------------------------------- the screen

  /** The buttons of the screen, each of which opens a screen about this day. */
  datatype DayAction =
    | AddActivityPressed
    | AddAccommodationPressed
    | ActivityPressed(activityId: Id)
    | AccommodationPressed(accommodationId: Id)

  /** The route a button opens: always for the same trip and day as the screen itself. */
  function ActionTarget(tripId: Id, dayIndex: nat, action: DayAction): (route: TripsRoute)
    ensures route.AddActivity? || route.AddAccommodation? || route.ActivityDetails? || route.AccommodationDetails?
    ensures route.tripId == tripId && route.dayIndex == dayIndex
    ensures action.AddActivityPressed? <==> route.AddActivity?
    ensures action.ActivityPressed? <==> route.ActivityDetails?
    ensures action.ActivityPressed? ==> route.activityId == action.activityId
    ensures action.AccommodationPressed? <==> route.AccommodationDetails?
    ensures action.AccommodationPressed? ==> route.accommodationId == action.accommodationId
  {
    match action
    case AddActivityPressed => AddActivity(tripId, dayIndex)
    case AddAccommodationPressed => AddAccommodation(tripId, dayIndex)
    case ActivityPressed(id) => ActivityDetails(tripId, dayIndex, id)
    case AccommodationPressed(id) => AccommodationDetails(tripId, dayIndex, id)
  }

  class DayDetailsView {
    /** The route parameters. */
    const tripId: Id
    const dayIndex: nat
    var trip: Option<FullTrip>
    var day: Option<Day>
    var loading: bool

    constructor (tripId: Id, dayIndex: nat)
      ensures this.tripId == tripId && this.dayIndex == dayIndex
      ensures trip.None? && day.None? && loading
    {
      this.tripId, this.dayIndex := tripId, dayIndex;
      trip, day := None, None;
      loading := true;
    }

    /** The header title set on mount: the same "Day N" as the trip's day card. */
    function Title(): (title: string)
      ensures title == TripDetailsScreen.DayTitle(dayIndex)
      ensures DecimalValue(title[4..]) == dayIndex + 1
    {
      TripDetailsScreen.DayTitle(dayIndex)
    }

    /** `loading || !trip || !day`: the spinner placeholder. */
    function ShowsPlaceholder(): bool
      reads this`loading, this`trip, this`day
    {
      loading || trip.None? || day.None?
    }

    /**
     * The mount effect `fetchTrip`, given the trip it loads: on success the
     * trip is stored and the day looked up by the route's index; on failure
     * nothing is set. Loading ends either way, so the placeholder stays
     * exactly when no trip was stored or no day of it has the route's index.
     */
    method FetchTrip(loaded: FullTrip, outcome: Settled)
      modifies this`trip, this`day, this`loading
      ensures trip == if outcome.Fulfilled? then Some(loaded) else old(trip)
      ensures day == if outcome.Fulfilled? then FindDay(loaded.days, dayIndex) else old(day)
      ensures !loading
      ensures outcome.Fulfilled? ==>
        (ShowsPlaceholder() <==> forall k | 0 <= k < |loaded.days| :: loaded.days[k].index != dayIndex)
    {
      if outcome.Fulfilled? {
        trip := Some(loaded);
        day := FindDay(loaded.days, dayIndex);
      }
      loading := false;
    }
  }
}
