# Travel planner: the session, the forms and the itinerary views

A model of the logic inside the travel-planner mobile application, a React
Native client that runs on in-memory sample data. The model covers:

- the data model of trips, days, activities, accommodations, transportation
  and comments, with the rule that a trip past IN_CREATION has at most one
  selected accommodation per day;
- the authentication session store (`AuthProvider`) and its six operations;
- the separate `useAuthState` hook;
- the root router's choice between nothing, the `Main` tree and the `Auth`
  tree;
- the registration, password-reset and trip-edit forms: their ordered
  validation chains, the date-range rule and the submit handlers;
- the trips list's search filter, state colours, collaborator line and
  empty-state message;
- the trip details screen's day cards, menu and delete dialog;
- the day details screen's day lookup, activities sorted by start time,
  timeline, header counts and button targets.

Each source module has one Dafny module:

| Dafny file | module | models |
|---|---|---|
| `common.dfy` | `Common` | `Option`, and `Settled`, the outcome of an awaited promise |
| `text.dfy` | `Text` | JavaScript `trim`, ASCII `toLowerCase`, `includes`, and number-to-text |
| `validation.dfy` | `Validation` | first-failing-check validation, and the e-mail and password validators |
| `domain.dfy` | `Domain` | `src/types/index.ts` |
| `routes.dfy` | `Routes` | the screen names and parameters of `src/navigation/types.ts` |
| `auth_context.dfy` | `AuthContext` | `src/context/AuthContext.tsx` |
| `auth_state.dfy` | `AuthState` | `src/hooks/useAuthState.ts` |
| `root_navigator.dfy` | `RootNavigator` | `src/navigation/RootNavigator.tsx` |
| `register_screen.dfy` | `RegisterScreen` | `src/screens/auth/RegisterScreen.tsx` |
| `forgot_password_screen.dfy` | `ForgotPasswordScreen` | `src/screens/auth/ForgotPasswordScreen.tsx` |
| `trips_list_screen.dfy` | `TripsListScreen`, `TripsListSamples` | `src/screens/trips/TripsListScreen.tsx` |
| `edit_trip_screen.dfy` | `EditTripScreen` | `src/screens/trips/EditTripScreen.tsx` |
| `trip_details_screen.dfy` | `TripDetailsScreen` | `src/screens/trips/TripDetailsScreen.tsx` |
| `day_details_screen.dfy` | `DayDetailsScreen` | `src/screens/trips/DayDetailsScreen.tsx` |

Modelling choices:

- **State updates.** Components that update state step by step are classes:
  the session store, the hook, and the register, reset, edit, details and
  day screens. Their React state variables are fields, and their handlers
  are methods with `modifies` frames.
- **Pure logic.** Validators, filters, colour maps and labels are functions.
  Their properties are proved as `ensures` clauses and lemmas.
- **Awaited promises.** Each awaited promise is one atomic step. Its outcome
  is a `Settled` parameter, `Fulfilled` or `Rejected(reason)`, so both the
  success path and the `catch` path are modelled.
- **Dates and times.** These are integer millisecond timestamps, and "one day
  later" adds 86 400 000 ms.
- **Clock and loaded data.** The clock (`now`, `loadedAt`) and the trip a
  screen loads are parameters.
- **Shared helpers.** `validateEmail` and `validatePassword` are identical
  in the register and reset screens. `getTripStateColor` and the
  collaborator line are identical in the list and details screens. Each is
  defined once, and both screens use that one definition.

The root router (`src/navigation/RootNavigator.tsx:14-29`) reads only the
`useAuthState` hook, and nothing connects that hook to `AuthProvider`'s
session store. So a successful logout through the store leaves `Main`
mounted: see `RootNavigator.LogoutLeavesMainMounted`.

## Model

| member | source | states |
|---|---|---|
| Text.Trim | src/screens/auth/RegisterScreen.tsx:38 | the trimmed text is a piece of the input, starts and ends with non-space, and is empty exactly when the input is all white space |
| Text.TrimCutsOnlyEnds | src/screens/auth/RegisterScreen.tsx:38 | trimming cuts white space from the two ends and nothing else: the result sits in the input between a blank prefix and a blank suffix |
| Text.ToLower | src/screens/trips/TripsListScreen.tsx:95-96 | lower-casing keeps the length and maps each character through ASCII lower-casing |
| Text.ToLowerIdempotent | src/screens/trips/TripsListScreen.tsx:95-96 | lower-casing twice equals lower-casing once |
| Text.ToLowerEqualIffEqualIgnoringCase | src/screens/trips/TripsListScreen.tsx:95-96 | two strings lower-case to the same string exactly when they differ only in ASCII case |
| Text.Includes | src/screens/trips/TripsListScreen.tsx:95-96 | `includes` holds exactly when the needle occurs at some position; the empty needle occurs everywhere |
| Text.MissingLetterExcludes | src/screens/trips/TripsListScreen.tsx:95-96 | a query letter that the text lacks in both cases keeps the query out of the lower-cased text |
| Text.NatToString | src/screens/trips/TripsListScreen.tsx:134 | a count renders as decimal digits with no leading zero, which read back as the count |
| Text.IntToString | src/screens/trips/EditTripScreen.tsx:79 | a budget renders with a minus sign exactly when it is negative, and parses back to the same number |
| Validation.FirstFailing | src/screens/auth/RegisterScreen.tsx:37-62 | no error exactly when every check passes; otherwise the error of a check that fails while all earlier ones pass |
| Validation.FirstFailingReportsFirst | src/screens/auth/RegisterScreen.tsx:37-62 | the check that fails first is the one reported |
| Validation.ValidateEmail | src/screens/auth/RegisterScreen.tsx:28-31 | accepts exactly the strings in which some piece matches `\S+@\S+\.\S+` (the pattern is unanchored) |
| Validation.EmailPatternIsAtDotPair | src/screens/auth/RegisterScreen.tsx:28-31 | a match exists exactly when some `@` is followed by a `.`, with non-space before, between and after |
| Validation.ValidatePassword | src/screens/auth/RegisterScreen.tsx:33-35 | accepts exactly the strings of length at least 8 |
| Validation.ValidatorExamples | src/screens/auth/ForgotPasswordScreen.tsx:29-36 | a plain address and one inside a sentence pass; an address without a dot or without a local part fails; "short" fails the password rule |
| Domain.SelectedCount | src/types/index.ts:55 | the number of selected accommodations is at most the list length, and zero exactly when none is selected |
| Domain.AtMostOneSelectedIffNoTwo | src/types/index.ts:55 | at most one selected accommodation is the same as no two different ones both being selected |
| Domain.SelectionRuleAsPairs | src/types/index.ts:55 | the selection rule for a trip past IN_CREATION holds exactly when no day has two selected accommodations |
| AuthContext.EveryStepSettles | src/context/AuthContext.tsx:62-64 | login, logout, register, forgot-password, reset-password and start-up all end with `isLoading` false, on success and on failure |
| AuthContext.LoginAuthenticates | src/context/AuthContext.tsx:48-58 | a successful login authenticates a user record that carries the given e-mail address |
| AuthContext.LogoutIdempotent | src/context/AuthContext.tsx:91-92 | a successful logout clears the user and the flag, so logging out twice equals logging out once |
| AuthContext.FailuresAndRequestsKeepIdentity | src/context/AuthContext.tsx:68-131 | register, forgot-password and reset-password, and every failed login or logout, keep `user` and `isAuthenticated` |
| AuthContext.ConsistencyIsInvariant | src/context/AuthContext.tsx:35-36 | `isAuthenticated` holds exactly when a user is present: initially and after every operation |
| AuthContext.AuthProvider.constructor | src/context/AuthContext.tsx:35-37 | no user, not authenticated, loading |
| AuthContext.AuthProvider.Login | src/context/AuthContext.tsx:40-65 | the new session is the login step of the old one, consistency is kept, and a failure is handed back to the caller |
| AuthContext.AuthProvider.Register | src/context/AuthContext.tsx:68-82 | only the loading flag moves, ending false; the outcome is handed back |
| AuthContext.AuthProvider.Logout | src/context/AuthContext.tsx:85-99 | the new session is the logout step of the old one; a failure is handed back |
| AuthContext.AuthProvider.ForgotPassword | src/context/AuthContext.tsx:102-115 | only the loading flag moves, ending false; the outcome is handed back |
| AuthContext.AuthProvider.ResetPassword | src/context/AuthContext.tsx:118-131 | only the loading flag moves, ending false; the outcome is handed back |
| AuthContext.AuthProvider.InitializeAuth | src/context/AuthContext.tsx:134-153 | signs in the development user on success, and signs out on failure; loading ends either way |
| AuthState.AuthStateHook.constructor | src/hooks/useAuthState.ts:6-7 | not authenticated, loading |
| AuthState.AuthStateHook.CheckAuthStatus | src/hooks/useAuthState.ts:10-26 | authenticated exactly when the check succeeded; loading ends either way |
| AuthState.AuthStateHook.SetIsAuthenticated | src/hooks/useAuthState.ts:31 | overwrites the flag and leaves loading alone |
| RootNavigator.Render | src/navigation/RootNavigator.tsx:14-29 | nothing while loading; otherwise `Main` exactly when authenticated and `Auth` exactly when not |
| RootNavigator.StartUp | src/navigation/RootNavigator.tsx:14-29 | the first render mounts nothing; after the status check, `Main` on success and `Auth` on failure |
| RootNavigator.LogoutLeavesMainMounted | src/navigation/RootNavigator.tsx:8-14 | after a successful start-up, a successful logout through the session store empties the session while `Main` stays mounted |
| RegisterScreen.CheckRegisterForm | src/screens/auth/RegisterScreen.tsx:37-63 | valid exactly when the trimmed name is non-empty, the address matches, the password has at least 8 characters and the confirmation equals it; each error exactly when its check is the first to fail |
| RegisterScreen.RegisterChecksInOrder | src/screens/auth/RegisterScreen.tsx:37-61 | the case analysis behind the order of the six checks |
| RegisterScreen.RegisterChecksPass | src/screens/auth/RegisterScreen.tsx:37-61 | each of the six checks passes exactly when its field condition holds: a non-blank name, a non-empty e-mail, the e-mail pattern, a non-empty password, at least eight characters, and a matching confirmation |
| RegisterScreen.RegisterForm.constructor | src/screens/auth/RegisterScreen.tsx:18-23 | empty inputs, no error, not loading |
| RegisterScreen.RegisterForm.ValidateForm | src/screens/auth/RegisterScreen.tsx:37-63 | true exactly when the form is valid; otherwise the first failing check's message is shown |
| RegisterScreen.RegisterForm.HandleRegister | src/screens/auth/RegisterScreen.tsx:65-84 | an invalid form only sets the error, and loading is unchanged; a valid one clears the error, performs the register request and goes to Login on both outcomes, ending not loading |
| ForgotPasswordScreen.CheckSendCode | src/screens/auth/ForgotPasswordScreen.tsx:38-47 | a code is requested exactly when the address matches; an empty address gets "Please enter your email", and any other bad one "Please enter a valid email" |
| ForgotPasswordScreen.SendCodeChecksInOrder | src/screens/auth/ForgotPasswordScreen.tsx:39-47 | a non-empty address that does not match reports the second check |
| ForgotPasswordScreen.CheckReset | src/screens/auth/ForgotPasswordScreen.tsx:66-85 | the reset is requested exactly when a code is given, the new password has at least 8 characters and the confirmation equals it; otherwise the first failing check's error |
| ForgotPasswordScreen.ResetChecksInOrder | src/screens/auth/ForgotPasswordScreen.tsx:67-85 | the case analysis behind the order of the four checks |
| ForgotPasswordScreen.ForgotPasswordForm.constructor | src/screens/auth/ForgotPasswordScreen.tsx:18-25 | the e-mail phase, with empty inputs and messages |
| ForgotPasswordScreen.ForgotPasswordForm.SetEmail | src/screens/auth/ForgotPasswordScreen.tsx:144-150 | the address can be edited only in the e-mail phase |
| ForgotPasswordScreen.ForgotPasswordForm.HandleSendCode | src/screens/auth/ForgotPasswordScreen.tsx:38-64 | a bad address only sets the error and keeps the phase; a good one enters the code phase with the sent message on both outcomes, ending not loading; the code phase is entered only with a matching address |
| ForgotPasswordScreen.ForgotPasswordForm.HandleResetPassword | src/screens/auth/ForgotPasswordScreen.tsx:66-106 | bad input only sets the error; good input shows "Password reset successful" and targets Login on both outcomes, ending not loading |
| ForgotPasswordScreen.ForgotPasswordForm.ResendCode | src/screens/auth/ForgotPasswordScreen.tsx:219-226 | back to the e-mail phase with code, passwords and messages cleared; the address is kept and passes the send-code checks again |
| TripsListScreen.FilterTrips | src/screens/trips/TripsListScreen.tsx:94-97 | the result is a subsequence of the trips; each trip occurs in it as often as in the input when it matches the query, and never otherwise |
| TripsListScreen.EmptyQueryKeepsAll | src/screens/trips/TripsListScreen.tsx:94-97 | the empty query keeps every trip |
| TripsListScreen.FilterIgnoresQueryCase | src/screens/trips/TripsListScreen.tsx:95-96 | queries that differ only in ASCII case select the same trips |
| TripsListScreen.TripStateColor | src/screens/trips/TripsListScreen.tsx:67-80 | every state gets one of the four accent colours |
| TripsListScreen.TripStateColorInjective | src/screens/trips/TripsListScreen.tsx:67-80 | different states get different colours |
| TripsListScreen.CollaboratorLabel | src/screens/trips/TripsListScreen.tsx:133-136 | "Just you" exactly when there are no collaborators; otherwise "You and N others", whose N reads back as the count |
| TripsListScreen.ListArea | src/screens/trips/TripsListScreen.tsx:157-166 | the empty state appears exactly when no trip matches, and its subtitle invites a new trip exactly when the query is empty; the cards are the filtered trips |
| TripsListScreen.RomeTitleMatchesRom | src/screens/trips/TripsListScreen.tsx:94-97 | a title ending in " Rome" matches "rom" |
| TripsListScreen.NoMMissesRom | src/screens/trips/TripsListScreen.tsx:94-97 | a trip with no "m" in title or destination does not match "rom" |
| TripsListScreen.RomQueryKeepsOnlyRome | src/screens/trips/TripsListScreen.tsx:94-97 | the query "rom" keeps a Rome trip and drops two trips without any "m" |
| TripsListSamples.RomeSampleEndsInRome | src/screens/trips/TripsListScreen.tsx:18 | the first sample title ends in " Rome" |
| TripsListSamples.BarcelonaSampleLacksM | src/screens/trips/TripsListScreen.tsx:34-35 | the second sample trip has no "m" |
| TripsListSamples.JapanSampleLacksM | src/screens/trips/TripsListScreen.tsx:50-51 | the third sample trip has no "m" |
| TripsListSamples.RomQueryOnSamples | src/screens/trips/TripsListScreen.tsx:15-64 | on the sample trips, "rom" keeps only "Summer in Rome" |
| EditTripScreen.StartDateChanged | src/screens/trips/EditTripScreen.tsx:113-125 | with no date nothing changes; a chosen date becomes the start and the range is in order, with an earlier end pushed to one day after the start and any other end kept |
| EditTripScreen.EndDateChanged | src/screens/trips/EditTripScreen.tsx:127-132 | the start is kept, and the end becomes the chosen date, if any |
| EditTripScreen.StartChoiceOrdersRange | src/screens/trips/EditTripScreen.tsx:113-125 | any start choice orders the range; a start inside an ordered range keeps the end |
| EditTripScreen.CheckEditForm | src/screens/trips/EditTripScreen.tsx:96-110 | valid exactly when the trimmed title and destination are non-empty and the end is not before the start (equal dates pass); each error exactly when its check is the first to fail |
| EditTripScreen.EditChecksInOrder | src/screens/trips/EditTripScreen.tsx:96-108 | the case analysis behind the order of the three checks |
| EditTripScreen.EditChecksPass | src/screens/trips/EditTripScreen.tsx:96-108 | title and destination pass exactly when not blank after trimming, and the dates pass exactly when the end is not before the start |
| Validation.SecondOrThirdFailsFirst | src/screens/trips/EditTripScreen.tsx:96-108 | of three checks run in order, the second or third is reported when it is the first to fail |
| EditTripScreen.DateChoicesAndValidation | src/screens/trips/EditTripScreen.tsx:105-132 | after a start choice, the date check never fails; an end chosen before the start is caught by validation |
| EditTripScreen.Populate | src/screens/trips/EditTripScreen.tsx:75-83 | the form gets the trip's title, destination, dates and state; the budget text is empty exactly when there is no budget and otherwise parses back to it; missing texts become empty; a missing or empty cover image becomes none |
| EditTripScreen.EditTripForm.constructor | src/screens/trips/EditTripScreen.tsx:50-64 | empty texts, a range from now to one week later, IN_CREATION, loading |
| EditTripScreen.EditTripForm.FetchTrip | src/screens/trips/EditTripScreen.tsx:67-93 | on success the form is filled from the trip; on failure only the load error is set; loading ends either way |
| EditTripScreen.EditTripForm.OnStartDateChange | src/screens/trips/EditTripScreen.tsx:113-125 | the picker closes and the dates follow the start-date rule |
| EditTripScreen.EditTripForm.OnEndDateChange | src/screens/trips/EditTripScreen.tsx:127-132 | the picker closes and the dates follow the end-date rule |
| EditTripScreen.EditTripForm.ValidateForm | src/screens/trips/EditTripScreen.tsx:96-110 | true exactly when the form is valid; otherwise the first failing check's message is shown |
| EditTripScreen.EditTripForm.HandleUpdateTrip | src/screens/trips/EditTripScreen.tsx:140-161 | an invalid form only sets the error; a valid one goes to the same trip's details on success and shows the update error on failure, ending not loading |
| TripDetailsScreen.AnySelected | src/screens/trips/TripDetailsScreen.tsx:175 | true exactly when some accommodation is selected |
| TripDetailsScreen.DayTitle | src/screens/trips/TripDetailsScreen.tsx:187 | "Day " followed by digits that read back as the index plus one |
| TripDetailsScreen.RenderDayCard | src/screens/trips/TripDetailsScreen.tsx:171-221 | the activity indicator is on exactly when the day has activities, and the accommodation indicator exactly when one is selected; the lines of text follow the indicators |
| TripDetailsScreen.IndicatorMeansTheSelection | src/screens/trips/TripDetailsScreen.tsx:175 | under the selection rule, past IN_CREATION, the accommodation indicator means exactly one selected accommodation |
| TripDetailsScreen.TripDetailsView.constructor | src/screens/trips/TripDetailsScreen.tsx:99-102 | no trip, menu and dialog closed, loading |
| TripDetailsScreen.TripDetailsView.FetchTrip | src/screens/trips/TripDetailsScreen.tsx:104-116 | the trip is stored on success and not on failure; loading ends, so the placeholder stays exactly when no trip is stored |
| TripDetailsScreen.TripDetailsView.SetMenuVisible | src/screens/trips/TripDetailsScreen.tsx:123 | the header button and the menu's dismissal set the menu's visibility |
| TripDetailsScreen.TripDetailsView.HandleEditTrip | src/screens/trips/TripDetailsScreen.tsx:130-133 | closes the menu and opens the editor for this trip |
| TripDetailsScreen.TripDetailsView.HandleManageCollaborators | src/screens/trips/TripDetailsScreen.tsx:150-153 | closes the menu and opens collaborator management for this trip |
| TripDetailsScreen.TripDetailsView.HandleShareTrip | src/screens/trips/TripDetailsScreen.tsx:135-148 | closes the menu; the share sheet opens exactly when a trip is loaded |
| TripDetailsScreen.TripDetailsView.HandleDeleteTrip | src/screens/trips/TripDetailsScreen.tsx:155-158 | closes the menu and opens the delete dialog |
| TripDetailsScreen.TripDetailsView.CancelDelete | src/screens/trips/TripDetailsScreen.tsx:334-340 | the dialog closes |
| TripDetailsScreen.TripDetailsView.ConfirmDeleteTrip | src/screens/trips/TripDetailsScreen.tsx:160-165 | the dialog closes and the screen goes back |
| TripDetailsScreen.TripDetailsView.HandleDayPress | src/screens/trips/TripDetailsScreen.tsx:167-169 | opens the day screen for this trip and the pressed day's index |
| DayDetailsScreen.FindDay | src/screens/trips/DayDetailsScreen.tsx:144-145 | none exactly when no day has the index; otherwise the first day that has it |
| DayDetailsScreen.DayPressFindsPressedDay | src/screens/trips/DayDetailsScreen.tsx:144 | when no earlier day shares its index, the lookup by a pressed day's index finds that day |
| DayDetailsScreen.PositionIndexedLookup | src/screens/trips/DayDetailsScreen.tsx:144-145 | with days indexed by position, the lookup finds the day at that position, and nothing outside the trip |
| DayDetailsScreen.InsertByStart | src/screens/trips/DayDetailsScreen.tsx:289-292 | inserting adds exactly the new activity (as a multiset) and keeps every start time present |
| DayDetailsScreen.InsertKeepsSorted | src/screens/trips/DayDetailsScreen.tsx:289-292 | inserting a timed activity into a sorted list of timed ones keeps it sorted by start |
| DayDetailsScreen.SortByStart | src/screens/trips/DayDetailsScreen.tsx:289-292 | the sorted copy is a permutation of the day's activities; it is nondecreasing by start time when every activity has one |
| DayDetailsScreen.Timeline | src/screens/trips/DayDetailsScreen.tsx:177-178 | the timeline draws, in the given order and as often as listed, exactly the activities with both a start and an end time, and each drawn one has a start time |
| DayDetailsScreen.TimelineKeepsOrder | src/screens/trips/DayDetailsScreen.tsx:328-331 | dropping the activities the timeline does not draw leaves a sorted list sorted |
| DayDetailsScreen.TimelineOfDay | src/screens/trips/DayDetailsScreen.tsx:328-334 | the timeline of the sorted copy holds exactly the day's activities with both times, as often as the day lists them, sorted by start when every activity has a start time; the copy is empty exactly when the day has none |
| DayDetailsScreen.Stats | src/screens/trips/DayDetailsScreen.tsx:300-315 | the header shows the number of activities, the number of accommodations, and 1 or 0 for transportation |
| DayDetailsScreen.CardAgreesWithHeader | src/screens/trips/DayDetailsScreen.tsx:302 | the day card's activity indicator agrees with the header count; a selected accommodation implies a nonzero count |
| DayDetailsScreen.VoteLine | src/screens/trips/DayDetailsScreen.tsx:210 | digits that read back as the number of votes, then " votes" |
| DayDetailsScreen.ActionTarget | src/screens/trips/DayDetailsScreen.tsx:161-175 | every button opens a screen for the same trip and day; the activity and accommodation cards carry their own id |
| DayDetailsScreen.DayDetailsView.constructor | src/screens/trips/DayDetailsScreen.tsx:133-135 | no trip, no day, loading |
| DayDetailsScreen.DayDetailsView.Title | src/screens/trips/DayDetailsScreen.tsx:156-158 | the title is the day card's "Day N", whose N reads back as the index plus one |
| DayDetailsScreen.DayDetailsView.FetchTrip | src/screens/trips/DayDetailsScreen.tsx:137-151 | on success the trip is stored and the day is looked up; loading ends; the placeholder stays exactly when no day has the route's index |

## Left out

- Rendering: JSX, styles, images, icons, theme colours beyond the four accents, date and time formatting, and the accommodation and transportation sections of the day screen. None of it holds logic beyond what is modelled.
- The welcome, login, profile, create-trip, activity-details and collaborator screens, and the navigator composition (`App.tsx`, the tab and stack navigators). `src/screens/auth/LoginScreen.tsx` is not part of this model.
- Timers and races: the simulated delays, the two-second delayed navigation after a password reset (modelled as the navigation target), and unmounting during an await. Each handler is one atomic step.
- The `loading = true` moments inside a handler. Only the state before and after the awaited step is modelled.
- Console logging, `Share.share` (modelled only as whether the sheet opens), and the date pickers (modelled as the optional date they return).
- Dates are integer timestamps. ISO parsing, time zones and daylight-saving shifts of `setDate(getDate() + 1)` are not modelled.
- Lower-casing is ASCII only; Unicode case mappings are not modelled. String lengths count `char`s, not UTF-16 code units.
- Budgets and prices are integers; fractional amounts and their rendering are not modelled.
- DayDetailsScreen.SortByStart: ordering is stated only when every activity has a start time. When only some do, the source comparator returns 0 and is not a consistent order, so the engine decides the result. The model uses a stable insertion sort there, and only the permutation is proved.
- Text.IntToString: renders every integer in plain decimal digits. JavaScript switches to exponent form from 1e21 in magnitude, and that form is not modelled.
- TripsListScreen.TripStateColor: the `default` branch of the colour switch cannot be reached with a `TripState` value and is not modelled.
- The screens' `fetchTrip` always loads the same sample trip, whatever the route's `tripId`. The model makes the loaded trip a parameter.
- The trips list's card press (details of the pressed trip) and add button (trip creation) are direct navigations and are not modelled.
- No code changes a trip's state, so there is no lifecycle transition function. The selection rule on accommodations is stated as a predicate, and nothing enforces it.
