/**
 * The trips list: the search filter over title and destination, the colour
 * of each trip's state chip, the collaborator line of a card, and the
 * message shown when nothing is listed. The state colour and the
 * collaborator line are declared identically by the trip details screen,
 * which uses the definitions here.
 */
module TripsListScreen {
  import opened Common
  import opened Text
  import opened Domain

  // ---------------------------------------------------------- the filter

  /** The search predicate: the lower-cased title or destination contains the lower-cased query. */
  predicate MatchesQuery(t: Trip, query: string) {
    Includes(ToLower(t.title), ToLower(query)) || Includes(ToLower(t.destinationRegion), ToLower(query))
  }

  /**
   * `filteredTrips`: the matching trips, in their original order, each as
   * often as it occurs in `trips`.
   */
  function FilterTrips(trips: seq<Trip>, query: string): (r: seq<Trip>)
    ensures IsSubsequence(r, trips)
    ensures forall t :: multiset(r)[t] == if MatchesQuery(t, query) then multiset(trips)[t] else 0
    ensures forall t :: t in r <==> t in trips && MatchesQuery(t, query)
  {
    if trips == [] then
      []
    else
      var rest := FilterTrips(trips[1..], query);
      assert trips == [trips[0]] + trips[1..];
      if MatchesQuery(trips[0], query) then
        var r := [trips[0]] + rest;
        assert r[1..] == rest;
        r
      else
        rest
  }

  /** The empty query is contained in every string, so it keeps every trip. */
  lemma {:induction false} EmptyQueryKeepsAll(trips: seq<Trip>)
    ensures FilterTrips(trips, "") == trips
  {
    if trips != [] {
      assert OccursAt(ToLower(trips[0].title), ToLower(""), 0);
      EmptyQueryKeepsAll(trips[1..]);
    }
  }

  /** Queries that differ only in ASCII case select the same trips. */
  lemma {:induction false} FilterIgnoresQueryCase(trips: seq<Trip>, q1: string, q2: string)
    requires EqualIgnoringCase(q1, q2)
    ensures FilterTrips(trips, q1) == FilterTrips(trips, q2)
  {
    ToLowerEqualIffEqualIgnoringCase(q1, q2);
    if trips != [] {
      FilterIgnoresQueryCase(trips[1..], q1, q2);
    }
  }

  // ------------------------------------------------------ state colours

  /** The four accent colours of the theme. */
  const Accent1: string := "#5AC8FA"
  const Accent2: string := "#FF9500"
  const Accent3: string := "#34C759"
  const Accent4: string := "#AF52DE"

  /** `getTripStateColor`; the `default` branch cannot be reached with a `TripState`. */
  function TripStateColor(state: TripState): (color: string)
    ensures color in {Accent1, Accent2, Accent3, Accent4}
  {
    match state
    case InCreation => Accent3
    case WaitingToStart => Accent2
    case InProgress => Accent1
    case Completed => Accent4
  }

  /** Different states get different colours, so the chip colour identifies the state. */
  lemma TripStateColorInjective(s1: TripState, s2: TripState)
    ensures TripStateColor(s1) == TripStateColor(s2) <==> s1 == s2
  {
  }

  // --------------------------------------------------- collaborator line

  /**
   * The card's collaborator line: "Just you" without collaborators,
   * otherwise "You and N others", whose number reads back as the count.
   */
  function CollaboratorLabel(collaborators: seq<Id>): (text: string)
    ensures text == "Just you" <==> |collaborators| == 0
    ensures |collaborators| > 0 ==>
      && |text| > 15 && text[..8] == "You and " && text[|text| - 7..] == " others"
      && (forall i | 8 <= i < |text| - 7 :: IsDigit(text[i]))
      && DecimalValue(text[8..|text| - 7]) == |collaborators|
  {
    if |collaborators| > 0 then
      var digits := NatToString(|collaborators|);
      var text := "You and " + digits + " others";
      assert text[8..|text| - 7] == digits;
      text
    else
      "Just you"
  }

  // ------------------------------------------------------------ the view

  const NoMatchMessage: string := "Try a different search query"
  const NoTripsMessage: string := "Create your first trip to get started"

  /** What the list area shows: the trip cards, or the empty state with its subtitle. */
  datatype ListView = Cards(trips: seq<Trip>) | EmptyState(subtitle: string)

  /**
   * The list area for a query. The empty state appears exactly when no trip
   * matches; it invites a new trip only when the query is empty, which
   * happens only when there are no trips at all.
   */
  function ListArea(trips: seq<Trip>, query: string): (v: ListView)
    ensures v.EmptyState? <==> forall t | t in trips :: !MatchesQuery(t, query)
    ensures v.Cards? ==> v.trips == FilterTrips(trips, query) && v.trips != []
    ensures v.EmptyState? ==> (v.subtitle == NoTripsMessage <==> query == "")
    ensures v == EmptyState(NoTripsMessage) ==> trips == []
  {
    var filtered := FilterTrips(trips, query);
    if |filtered| == 0 then
      if query == "" then
        EmptyQueryKeepsAll(trips);
        EmptyState(NoTripsMessage)
      else
        EmptyState(NoMatchMessage)
    else
      assert filtered[0] in filtered;
      Cards(filtered)
  }

  // ------------------------------------------------------- the mock data

  /** Neither the title nor the destination has an "m" in either case. */
  predicate LacksM(t: Trip) {
    'm' !in t.title && 'M' !in t.title && 'm' !in t.destinationRegion && 'M' !in t.destinationRegion
  }

  /** A trip titled "... Rome" matches the query "rom". */
  lemma RomeTitleMatchesRom(rome: Trip)
    requires |rome.title| >= 5 && rome.title[|rome.title| - 5..] == " Rome"
    ensures MatchesQuery(rome, "rom")
  {
    assert ToLower("rom") == "rom";
    assert OccursAt(ToLower(rome.title), "rom", |rome.title| - 4);
  }

  /** A trip without any "m" does not match the query "rom". */
  lemma NoMMissesRom(t: Trip)
    requires LacksM(t)
    ensures !MatchesQuery(t, "rom")
  {
    var q := "rom";
    assert ToLower(q) == q && q[2] == 'm';
    MissingLetterExcludes(t.title, q, 2);
    MissingLetterExcludes(t.destinationRegion, q, 2);
  }

  /**
   * Searching for "rom" keeps a trip titled "... Rome" and drops trips
   * without any "m", in either case.
   */
  lemma RomQueryKeepsOnlyRome(rome: Trip, barcelona: Trip, japan: Trip)
    requires |rome.title| >= 5 && rome.title[|rome.title| - 5..] == " Rome"
    requires LacksM(barcelona) && LacksM(japan)
    ensures FilterTrips([rome, barcelona, japan], "rom") == [rome]
  {
    RomeTitleMatchesRom(rome);
    NoMMissesRom(barcelona);
    NoMMissesRom(japan);
    assert FilterTrips([japan], "rom") == [] by {
      assert [japan][1..] == [];
    }
    assert FilterTrips([barcelona, japan], "rom") == [] by {
      assert [barcelona, japan][1..] == [japan];
    }
    assert [rome, barcelona, japan][1..] == [barcelona, japan];
  }
}

/** The trips list's sample data, as a witness for the search lemma. */
module TripsListSamples {
  import opened Common
  import opened Domain
  import opened TripsListScreen

  function SampleTrip(id: Id, title: string, destination: string, state: TripState, collaborators: seq<Id>): Trip {
    Trip(id, title, destination, 0, 0, None, None, None, state, None, "1", collaborators, 0, 0)
  }

  const Rome: Trip := SampleTrip("1", "Summer in Rome", "Rome, Italy", Completed, ["2", "3"])
  const Barcelona: Trip := SampleTrip("2", "Barcelona Weekend", "Barcelona, Spain", WaitingToStart, ["2"])
  const Japan: Trip := SampleTrip("3", "Japan Adventure", "Tokyo, Japan", InCreation, [])

  /** The screen's sample trips, in order; dates, budgets, descriptions and pictures play no part here. */
  const SampleTrips: seq<Trip> := [Rome, Barcelona, Japan]

  /** "Summer in Rome" ends in " Rome". */
  lemma RomeSampleEndsInRome()
    ensures Rome.title[|Rome.title| - 5..] == " Rome"
  {
  }

  /** "Barcelona Weekend" and "Barcelona, Spain" have no "m". */
  lemma BarcelonaSampleLacksM()
    ensures LacksM(Barcelona)
  {
  }

  /** "Japan Adventure" and "Tokyo, Japan" have no "m". */
  lemma JapanSampleLacksM()
    ensures LacksM(Japan)
  {
  }

  /** On the screen's sample trips, the query "rom" keeps only "Summer in Rome". */
  lemma RomQueryOnSamples()
    ensures FilterTrips(SampleTrips, "rom") == [Rome]
  {
    RomeSampleEndsInRome();
    BarcelonaSampleLacksM();
    JapanSampleLacksM();
    RomQueryKeepsOnlyRome(Rome, Barcelona, Japan);
  }
}
