/** The navigation targets the screens use, with the parameters each route carries. */
module Routes {
  import opened Domain

  /** The screens of the unauthenticated stack. */
  datatype AuthRoute = Welcome | Login | Register | ForgotPassword

  /** The screens of the trips stack and their route parameters. */
  datatype TripsRoute =
    | TripsList
    | TripDetails(tripId: Id)
    | CreateTrip
    | EditTrip(tripId: Id)
    | DayDetails(tripId: Id, dayIndex: nat)
    | AddActivity(tripId: Id, dayIndex: nat)
    | AddAccommodation(tripId: Id, dayIndex: nat)
    | ActivityDetails(tripId: Id, dayIndex: nat, activityId: Id)
    | AccommodationDetails(tripId: Id, dayIndex: nat, accommodationId: Id)
    | ShareTrip(tripId: Id)
    | ManageCollaborators(tripId: Id)

  /** What a handler asks of its navigator: go to a route, or pop the current screen. */
  datatype NavAction<R> = Navigate(route: R) | GoBack
}
