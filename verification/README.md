# Travel planner: a Dafny model of its client logic and server services

The travel planner is a web application. It has a React client and a Spring
server. Travellers browse destinations, keep favorites, and book trips for 1
to 10 people. Administrators maintain the catalogue and change the status of
bookings. This project models, in Dafny, the parts of the application that
hold logic, and proves what they promise.

- **Client list views.** The dashboard's filter-and-sort pipeline
  (`Dashboard`). The administrator's booking filters, counters and status
  buttons (`AdminBookings`). The traveller's bookings page (`MyBookings`).
  The favorites page (`FavoritesPage`). The list operations behind them
  (`Seqs`), and the case fold, substring test and string order they use
  (`Text`).
- **Client state machines.**
  - The traveller counter shared by two pages (`Travelers`), on the booking
    form (`BookingForm`) and the destination page (`TravelDetails`).
  - The favorite heart on a destination card, with its re-entrancy guard
    (`TravelCard`).
  - The session with its browser storage (`AuthProvider`, `Storage`).
  - The route guard (`ProtectedRoute`) and the colour theme (`ThemeProvider`).
  - Each page or component whose fields change is a class with those fields.
    Each handler is a method whose contract states the whole new state.
- **Server services** over one shared database object (`Database.Db`). Each
  repository is a map from id to row, and each thrown exception is an
  `Entities.Error`.
  - Bookings (`BookingService`), favorites (`FavoritesService`),
    destinations (`DestinationService`) and accounts (`UserService`).
  - Login (`AuthService`) and the bearer-token filter (`JwtFilter`).
  - The repository queries that list rows are one loop, `Tables.Select`.
- **The double removal on the favorites page** (`DoubleRemoval`; see
  Findings).

Server calls made by the client are inputs to the handlers. A value-less call
is an `Outcome` (resolved, or rejected with a message). A call with a value
is a `Result`. `window.confirm` is a boolean input. The password encoder, the
token generator and parser, the JWT payload decoder and the end-date
calculation are function-valued parameters.

Where the code and the design documents disagree, the model follows the code:

- The server accepts any positive number of travellers. Only the client caps
  the count at 10 (`BookingService.ValidationBoundaries`).
- `createBooking` says "startDate must be before endDate", but it accepts a
  trip that starts and ends on the same day.
- `cancelBooking` cancels a booking in any status, and `updateStatus` allows
  any transition, CANCELLED to PENDING included.

## Model

| member | source | states |
|---|---|---|
| Text.LowerChar | frontend/src/pages/Dashboard.tsx:54-56 | an upper-case ASCII letter becomes the same letter in lower case (its position in the alphabet is kept); every other character is kept |
| Text.Lower | frontend/src/pages/Dashboard.tsx:54-56 | `toLowerCase` keeps the length and folds every character independently |
| Text.Contains | frontend/src/pages/Dashboard.tsx:54-56 | definition of `includes` (a match can only exist when the needle is no longer than the haystack); characterised by Text.ContainsAt |
| Text.ContainsAt | frontend/src/pages/Dashboard.tsx:54-56 | `includes` holds exactly when the needle occurs as a block at some index of the haystack, in both directions |
| Text.ContainsEmpty | frontend/src/pages/Dashboard.tsx:51-58 | an empty term is found in every string, so skipping the search for an empty box loses nothing |
| Text.LowerIdempotent | frontend/src/pages/AdminBookings.tsx:35 | folding a folded string changes nothing |
| Text.StrCompare | frontend/src/pages/Dashboard.tsx:80 | `localeCompare` answers before, equal or after as -1, 0 or 1, and equal for a string compared with itself |
| Text.StrCompareZero | frontend/src/pages/Dashboard.tsx:80 | the string order calls two names equal exactly when they are the same string |
| Text.StrCompareAntisymmetric | frontend/src/pages/Dashboard.tsx:86 | swapping the arguments negates the comparison |
| Text.StrCompareTransitive | frontend/src/pages/Dashboard.tsx:86 | the string order is transitive |
| Text.StartsWith | src/main/java/com/travelapp/travelplanner/security/JwtAuthenticationFilter.java:33 | `startsWith` holds exactly when the string is the prefix followed by the rest of the string |
| Text.DigitChar | src/main/java/com/travelapp/travelplanner/destination/service/DestinationService.java:25 | a digit below ten is rendered as its own decimal digit character (the character's offset from '0' is the digit) |
| Text.NatToString | src/main/java/com/travelapp/travelplanner/destination/service/DestinationService.java:25 | Java's rendering of a non-negative id is a non-empty string of decimal digits |
| Text.NatToStringValue | src/main/java/com/travelapp/travelplanner/destination/service/DestinationService.java:25 | the rendered digits denote the id (DigitsValue of the string is n), with no leading zero except for 0 itself |
| Text.NatToStringInjective | src/main/java/com/travelapp/travelplanner/destination/service/DestinationService.java:25 | two ids with the same rendering are the same id |
| Text.IntToString | src/main/java/com/travelapp/travelplanner/destination/service/DestinationService.java:25 | a rendered id is non-empty, starts with a minus sign exactly when the id is negative, and the rest is the rendering of its magnitude |
| Text.IntToStringValue | src/main/java/com/travelapp/travelplanner/destination/service/DestinationService.java:25 | the digits after the optional minus sign denote the magnitude of the id |
| Seqs.Filter | frontend/src/pages/Favorites.tsx:35 | `filter` never lengthens a list and every kept element satisfies the predicate |
| Seqs.FilterIsSubsequence | frontend/src/pages/AdminBookings.tsx:25-39 | a filtered list keeps its elements in their original order |
| Seqs.FilterMultiplicity | frontend/src/pages/Dashboard.tsx:48-73 | each element occurs in the filtered list as often as in the input if it satisfies the predicate, and never otherwise |
| Seqs.FilterMembership | frontend/src/pages/Dashboard.tsx:48-73 | an element is in the filtered list exactly when it is in the input and satisfies the predicate |
| Seqs.FilterKeepsAll | frontend/src/pages/Favorites.tsx:35 | a predicate every element satisfies removes nothing |
| Seqs.FilterFilter | frontend/src/pages/Dashboard.tsx:51-73 | successive filters combine conjunctively |
| Seqs.Count | frontend/src/pages/AdminBookings.tsx:175 | a counter never exceeds the length of the list |
| Seqs.CountDisjoint | frontend/src/pages/AdminBookings.tsx:168-191 | counts by two predicates that never hold together add up to the count by their disjunction |
| Types.ErrorText | frontend/src/pages/MyBookings.tsx:23 | `err.message \|\| fallback`: the message when it is non-empty, the fallback otherwise |
| Dashboard.Insert | frontend/src/pages/Dashboard.tsx:76-90 | inserting into a list adds exactly one copy of the element and loses nothing |
| Dashboard.Compare | frontend/src/pages/Dashboard.tsx:78-88 | definition of the comparator; a destination compares equal to itself, and by price the sign follows the numeric order; characterised by Dashboard.CompareAntisymmetric and Dashboard.CompareTransitive |
| Dashboard.Sort | frontend/src/pages/Dashboard.tsx:76-90 | definition of the stable sort; the result is a permutation of the input; characterised by Dashboard.SortOrdered and Dashboard.SortStable |
| Dashboard.CompareAntisymmetric | frontend/src/pages/Dashboard.tsx:78-88 | for every sort key, swapping two destinations negates the comparison |
| Dashboard.CompareTransitive | frontend/src/pages/Dashboard.tsx:78-88 | for every sort key the comparison is transitive |
| Dashboard.DescendingNegates | frontend/src/pages/Dashboard.tsx:89 | descending order is ascending order with the two destinations swapped |
| Dashboard.InOrderTotal | frontend/src/pages/Dashboard.tsx:76-90 | any two destinations can be placed relative to each other |
| Dashboard.InOrderTransitive | frontend/src/pages/Dashboard.tsx:76-90 | placement is transitive in both directions of sorting |
| Dashboard.SameKeyTransitive | frontend/src/pages/Dashboard.tsx:78-88 | "equal under the sort key" is transitive |
| Dashboard.InsertSorted | frontend/src/pages/Dashboard.tsx:76-90 | inserting into a sorted list keeps it sorted |
| Dashboard.SortPermutation | frontend/src/pages/Dashboard.tsx:76-90 | the sorted list is a permutation of its input |
| Dashboard.SortOrdered | frontend/src/pages/Dashboard.tsx:76-90 | the sorted list is ordered by the chosen key and direction |
| Dashboard.InsertStable | frontend/src/pages/Dashboard.tsx:76-90 | insertion puts a new element ahead of every element that compares equal to it, and leaves the order of those elements unchanged |
| Dashboard.SortStable | frontend/src/pages/Dashboard.tsx:76-90 | destinations that compare equal keep their input order |
| Dashboard.SortByPriceIsNumeric | frontend/src/pages/Dashboard.tsx:83 | sorting by price orders prices numerically: ascending never decreases, descending never increases |
| Dashboard.FiltersMultiplicity | frontend/src/pages/Dashboard.tsx:51-73 | after the four filter steps, each destination occurs as often as fetched when it passes every active control, and never otherwise |
| Dashboard.ApplyFilters | frontend/src/pages/Dashboard.tsx:48-73 | definition of the four filter steps; never lengthens the list, keeps it whole with every control empty, and keeps no price above a set maximum; characterised by Dashboard.FiltersMultiplicity |
| Dashboard.ApplyFiltersAndSort | frontend/src/pages/Dashboard.tsx:47-93 | definition of the whole pipeline; never lengthens the list; characterised by Dashboard.PipelineSoundAndComplete, Dashboard.PipelineMultiplicity and Dashboard.PipelineOrdered |
| Dashboard.PipelineMultiplicity | frontend/src/pages/Dashboard.tsx:47-92 | the displayed list holds each matching destination exactly as often as the fetched list, and nothing else |
| Dashboard.PipelineSoundAndComplete | frontend/src/pages/Dashboard.tsx:47-92 | a destination is displayed exactly when it was fetched and matches the search (name, country or city, ignoring case), the country filter and both inclusive price bounds |
| Dashboard.PipelineOrdered | frontend/src/pages/Dashboard.tsx:76-90 | the displayed list is sorted by the chosen key and direction, with ties in fetched order |
| Dashboard.PipelinePriceBounds | frontend/src/pages/Dashboard.tsx:67-73 | displayed prices lie within the entered bounds, both ends included; an empty bound imposes nothing |
| Dashboard.NoFiltersOnlySorts | frontend/src/pages/Dashboard.tsx:48-90 | with no search, country or price set, the page shows the whole fetched list, merely sorted |
| Dashboard.DashboardPage.constructor | frontend/src/pages/Dashboard.tsx:46-93 | the page starts loading, with empty lists and cleared controls, and the derived list agrees with them |
| Dashboard.DashboardPage.FetchDestinations | frontend/src/pages/Dashboard.tsx:28-44 | stores the fetched list or the error text with its fallback, stops loading, and re-derives the displayed list |
| Dashboard.DashboardPage.SetCriteria | frontend/src/pages/Dashboard.tsx:46-96 | a control change re-derives the displayed list and leaves the fetched list untouched |
| Dashboard.DashboardPage.ClearFilters | frontend/src/pages/Dashboard.tsx:98-105 | empties the search, country and price boxes and sorts by name ascending, so the page shows the whole list sorted by name |
| AdminBookings.FiltersExact | frontend/src/pages/AdminBookings.tsx:23-42 | the listed bookings are exactly the fetched ones with the selected status ("ALL" keeps every status) whose destination name contains the search, ignoring case; each as often as fetched, in fetched order |
| AdminBookings.ApplyFilters | frontend/src/pages/AdminBookings.tsx:23-42 | definition of the status and search filters; never lengthens the list, and "ALL" with an empty search keeps it whole; characterised by AdminBookings.FiltersExact |
| AdminBookings.NoFiltersListsAll | frontend/src/pages/AdminBookings.tsx:28-37 | "ALL" with an empty search lists every fetched booking, unsorted |
| AdminBookings.CounterMatchesFilter | frontend/src/pages/AdminBookings.tsx:175-191 | a status counter equals the length of the list filtered by that status alone |
| AdminBookings.StatusCount | frontend/src/pages/AdminBookings.tsx:175-191 | definition of a status counter; never above the number of bookings; characterised by AdminBookings.CounterMatchesFilter and AdminBookings.CountersSumToTotal |
| AdminBookings.CountersSumToTotal | frontend/src/pages/AdminBookings.tsx:168-191 | when every status is one of the three, the confirmed, pending and cancelled counters add up to the total |
| AdminBookings.StatusActions | frontend/src/pages/AdminBookings.tsx:265-290 | a booking offers exactly the known statuses other than its own: two buttons for a known status, three for an unknown one |
| AdminBookings.StatusColor | frontend/src/pages/AdminBookings.tsx:74-85 | the badge colour is gray exactly for a status outside the three known ones |
| AdminBookings.StatusColorDistinct | frontend/src/pages/AdminBookings.tsx:74-85 | the three known statuses get three different colours |
| AdminBookings.AdminBookingsPage.constructor | frontend/src/pages/AdminBookings.tsx:23-42 | the page starts loading, showing all statuses with an empty search |
| AdminBookings.AdminBookingsPage.FetchBookings | frontend/src/pages/AdminBookings.tsx:44-56 | stores the fetched list or the error text, stops loading, and re-runs the filters |
| AdminBookings.AdminBookingsPage.SetFilters | frontend/src/pages/AdminBookings.tsx:23-42 | a filter change re-runs the filters and leaves the fetched list untouched |
| AdminBookings.AdminBookingsPage.HandleUpdateStatus | frontend/src/pages/AdminBookings.tsx:58-72 | a declined prompt sends nothing and changes nothing; otherwise the update is requested, and a success alerts and refetches while a failure alerts with the error and changes no list |
| MyBookings.BookingControls | frontend/src/pages/MyBookings.tsx:187-200 | cancel is offered exactly for PENDING, the confirmed marker shown exactly for CONFIRMED, never both, neither for CANCELLED |
| MyBookings.TotalPrice | frontend/src/pages/MyBookings.tsx:183 | the booking's total is Travelers.TotalPrice of its destination's price and its count, so one price per person per traveller (Travelers.TotalPriceCountsEveryTraveller) |
| MyBookings.StatusColor | frontend/src/pages/MyBookings.tsx:46-57 | the badge is gray exactly for a status outside the three known ones |
| MyBookings.StatusIcon | frontend/src/pages/MyBookings.tsx:59-66 | the icon is the clipboard exactly for a status outside the three known ones (the admin page uses the same mapping, AdminBookings.tsx:87-94) |
| MyBookings.StatusDisplayDistinct | frontend/src/pages/MyBookings.tsx:46-66 | the three known statuses get different colours and different icons |
| MyBookings.MyBookingsPage.constructor | frontend/src/pages/MyBookings.tsx:16-28 | the page starts loading with no bookings and no error |
| MyBookings.MyBookingsPage.FetchBookings | frontend/src/pages/MyBookings.tsx:16-28 | stores the fetched list or the error text; loading stops either way |
| MyBookings.MyBookingsPage.HandleCancelBooking | frontend/src/pages/MyBookings.tsx:30-44 | a declined prompt sends no cancel; a successful cancel alerts and refetches; a failed one alerts with the error and does not refetch |
| FavoritesPage.WithoutDestinationExact | frontend/src/pages/Favorites.tsx:35 | after the local removal no entry has the removed destination id; every other entry stays as often as before, in original order |
| FavoritesPage.WithoutDestination | frontend/src/pages/Favorites.tsx:35 | definition of the local removal; never lengthens the list and keeps no entry for the removed destination; characterised by FavoritesPage.WithoutDestinationExact |
| FavoritesPage.AfterRemoveCall | frontend/src/pages/Favorites.tsx:31-41 | the list after the removal call: unchanged when it rejects, with no entry for the destination when it resolves |
| FavoritesPage.WithoutAbsentDestination | frontend/src/pages/Favorites.tsx:35 | removing a destination that is not listed leaves the list unchanged |
| FavoritesPage.CountLabel | frontend/src/pages/Favorites.tsx:101 | the singular noun is used exactly when one favorite is listed |
| FavoritesPage.FavoritesPageState.constructor | frontend/src/pages/Favorites.tsx:17-29 | the page starts loading with no favorites and no error |
| FavoritesPage.FavoritesPageState.FetchFavorites | frontend/src/pages/Favorites.tsx:17-29 | stores the fetched list or the error text; loading stops either way |
| FavoritesPage.FavoritesPageState.HandleRemoveFavorite | frontend/src/pages/Favorites.tsx:31-41 | as written: always requests the removal again; filters the list only if that call resolves; on rejection leaves the list unchanged and alerts |
| FavoritesPage.FavoritesPageState.HandleCardRemoved | frontend/src/pages/Favorites.tsx:35 | corrected handler: drops the destination locally, without a second server call |
| Travelers.Decrement | frontend/src/pages/BookingForm.tsx:182 | minus never goes below 1, subtracts one above 1, and keeps a count within 1..10 |
| Travelers.Increment | frontend/src/pages/BookingForm.tsx:197 | plus never goes above 10, adds one below 10, and keeps a count within 1..10 |
| Travelers.Clamp | frontend/src/pages/BookingForm.tsx:192 | a typed value always lands in 1..10; one already in range is kept; one below goes to 1, one above to 10 |
| Travelers.StepsUndoEachOther | frontend/src/pages/TravelDetails.tsx:167-181 | away from the ends of the range, minus undoes plus and plus undoes minus |
| Travelers.StepsSaturate | frontend/src/pages/TravelDetails.tsx:167-181 | at 1 minus does nothing, at 10 plus does nothing |
| Travelers.Initial | frontend/src/pages/BookingForm.tsx:19-21 | the form's count is the navigated count, or 1 when none was passed or it was zero |
| Travelers.HandOffKeepsCount | frontend/src/pages/TravelDetails.tsx:37 | a count in 1..10 chosen on the destination page arrives unchanged in the booking form |
| Travelers.TotalPrice | frontend/src/pages/TravelDetails.tsx:63 | the total is the price for one traveller and never negative for non-negative inputs |
| Travelers.TotalPriceCountsEveryTraveller | frontend/src/pages/TravelDetails.tsx:63 | for every count the total is the price per person added once for each traveller |
| Travelers.IncrementAddsOnePrice | frontend/src/pages/BookingForm.tsx:126 | below the cap, each press of plus adds exactly one price per person to the total, and minus takes it off again |
| BookingForm.BookingFormPage.constructor | frontend/src/pages/BookingForm.tsx:19-22 | the count starts from the navigation state (1 when absent or zero), with no start date, no error and nothing submitted |
| BookingForm.BookingFormPage.FetchDestination | frontend/src/pages/BookingForm.tsx:30-42 | stores the destination or the error text; loading stops; the counter and date are untouched |
| BookingForm.BookingFormPage.SetStartDate | frontend/src/pages/BookingForm.tsx:22 | sets the start date and nothing else |
| BookingForm.BookingFormPage.DecrementTravelers | frontend/src/pages/BookingForm.tsx:182 | the count becomes the minus button's result; nothing else changes |
| BookingForm.BookingFormPage.IncrementTravelers | frontend/src/pages/BookingForm.tsx:197 | the count becomes the plus button's result; nothing else changes |
| BookingForm.BookingFormPage.TypeTravelers | frontend/src/pages/BookingForm.tsx:192 | the count becomes the typed value clamped into 1..10; nothing else changes |
| BookingForm.BookingFormPage.TotalPrice | frontend/src/pages/BookingForm.tsx:126 | the total is 0 before the destination loads and price times travellers afterwards |
| BookingForm.BookingFormPage.HandleSubmit | frontend/src/pages/BookingForm.tsx:50-82 | no start date: no request and "Please select a start date"; otherwise the request carries the route's id, the start, the computed end and the count; success sets the flag and clears the error, failure records the error; submitting is off afterwards |
| BookingForm.OutOfRangeCounts | frontend/src/pages/BookingForm.tsx:19-21 | a count outside 1..10 handed over by navigation is pulled back: plus lowers a count above 10 to 10, minus raises one below 1 to 1, and a typed value lands in range |
| TravelDetails.TravelDetailsPage.constructor | frontend/src/pages/TravelDetails.tsx:11-13 | the page starts loading with one traveller |
| TravelDetails.TravelDetailsPage.FetchDestination | frontend/src/pages/TravelDetails.tsx:21-33 | stores the destination or the error text, stops loading, and keeps the count in 1..10 |
| TravelDetails.TravelDetailsPage.DecrementTravelers | frontend/src/pages/TravelDetails.tsx:167 | the count becomes the minus button's result and stays in 1..10 |
| TravelDetails.TravelDetailsPage.IncrementTravelers | frontend/src/pages/TravelDetails.tsx:181 | the count becomes the plus button's result and stays in 1..10 |
| TravelDetails.TravelDetailsPage.TypeTravelers | frontend/src/pages/TravelDetails.tsx:177 | the count becomes the typed value clamped into 1..10 |
| TravelDetails.TravelDetailsPage.TotalPrice | frontend/src/pages/TravelDetails.tsx:63 | the total is the price per person times the count |
| TravelDetails.TravelDetailsPage.HandleBookNow | frontend/src/pages/TravelDetails.tsx:35-39 | navigates exactly when a destination is loaded, with its id and the current count, which the booking form then starts from |
| TravelCard.RemovedIsNoLongerFavorite | frontend/src/components/TravelCard.tsx:29 | after the page drops a destination, the membership check no longer finds it |
| TravelCard.CallFor | frontend/src/components/TravelCard.tsx:69-82 | a toggle removes when the card is a favorite and adds otherwise, always for the card's destination |
| TravelCard.AfterToggle | frontend/src/components/TravelCard.tsx:69-86 | a resolved call flips the membership; a rejected one keeps it |
| TravelCard.ToggleTwiceRestores | frontend/src/components/TravelCard.tsx:61-90 | two successful toggles restore the original membership |
| TravelCard.TravelCardState.constructor | frontend/src/components/TravelCard.tsx:22-23 | a card starts as not favorite and not loading |
| TravelCard.TravelCardState.Mount | frontend/src/components/TravelCard.tsx:25-43 | on the favorites page the card is a favorite without fetching; elsewhere it fetches, and membership is "some fetched favorite has this destination", or unchanged with an alert on failure |
| TravelCard.TravelCardState.BeginToggle | frontend/src/components/TravelCard.tsx:61-71 | a toggle while one is in flight does nothing; otherwise loading goes up and the call matching the membership is issued |
| TravelCard.TravelCardState.CompleteToggle | frontend/src/components/TravelCard.tsx:69-89 | a successful remove clears the heart, a successful add sets it, a failure keeps it and alerts; the parent is notified only for a successful remove on the favorites page; loading drops in every case |
| TravelCard.TravelCardState.ToggleTwice | frontend/src/components/TravelCard.tsx:61-90 | two clicks whose calls succeed issue the opposite calls in turn and leave the membership as it was |
| TravelCard.TravelCardState.HandleDelete | frontend/src/components/TravelCard.tsx:54-59 | the parent's delete handler gets the card's id exactly when one was passed |
| Storage.LocalStorage.constructor | frontend/src/context/AuthProvider.tsx:7-14 | storage holds the given token, user and theme entries |
| AuthProvider.UserFromClaims | frontend/src/context/AuthProvider.tsx:29-34 | login's user record: id from `sub`, role from the claim, email from the form, empty name |
| AuthProvider.Session.constructor | frontend/src/context/AuthProvider.tsx:7-18 | the session starts with the stored token and user, absent when not stored |
| AuthProvider.Session.IsAuthenticated | frontend/src/context/AuthProvider.tsx:82 | signed in exactly when a non-empty token is held |
| AuthProvider.Session.IsAdmin | frontend/src/context/AuthProvider.tsx:83 | administrator exactly when a user with role ADMIN is held |
| AuthProvider.Session.Login | frontend/src/context/AuthProvider.tsx:20-45 | succeeds exactly when the call returns a token whose payload decodes; then storage and session hold the token and the decoded user; on failure nothing changes |
| AuthProvider.Session.Register | frontend/src/context/AuthProvider.tsx:47-67 | logs in only after a successful registration call; on success the user is login's record with the registered name, in session and storage; any failure leaves token and user unchanged |
| AuthProvider.Session.Logout | frontend/src/context/AuthProvider.tsx:69-74 | both entries and both fields are cleared, so the session is neither signed in nor admin |
| AuthProvider.LoginRoleDecidesAdmin | frontend/src/context/AuthProvider.tsx:33 | the session is an administrator's exactly when the token's role claim is ADMIN, and register's name patch keeps the role |
| ProtectedRoute.Guard | frontend/src/components/ProtectedRoute.tsx:10-22 | redirect to login exactly when signed out; to the dashboard exactly when a signed-in non-admin opens an admin-only page; otherwise the page is shown |
| ProtectedRoute.AdminOnlyIsStricter | frontend/src/components/ProtectedRoute.tsx:17-19 | whatever an admin-only route shows, the unrestricted route shows too; for an administrator they agree |
| ProtectedRoute.AdminRoleWithoutTokenRedirectsToLogin | frontend/src/components/ProtectedRoute.tsx:13-15 | a stored ADMIN role without a token is sent to login |
| ThemeProvider.InitialTheme | frontend/src/context/ThemeProvider.tsx:4-7 | light when nothing (or an empty value) is stored, otherwise the stored value as it is |
| ThemeProvider.Toggle | frontend/src/context/ThemeProvider.tsx:12-14 | the result is dark exactly when the theme was light, and is always light or dark |
| ThemeProvider.ToggleTwiceRestores | frontend/src/context/ThemeProvider.tsx:12-14 | toggling twice restores light or dark |
| ThemeProvider.ToggleNormalisesUnknown | frontend/src/context/ThemeProvider.tsx:12-14 | a stored value other than light or dark becomes light, then dark, and is never restored |
| ThemeProvider.ThemeState.constructor | frontend/src/context/ThemeProvider.tsx:4-28 | the initial theme comes from storage and the first effect run makes storage, attribute and class agree with it |
| ThemeProvider.ThemeState.Apply | frontend/src/context/ThemeProvider.tsx:16-28 | the theme is persisted, the attribute set to it, and the dark class present exactly for dark; the session entries are untouched |
| ThemeProvider.ThemeState.ToggleTheme | frontend/src/context/ThemeProvider.tsx:12-28 | the theme toggles, is persisted, and the dark class is present exactly when the old theme was light |
| Entities.RoleName | src/main/java/com/travelapp/travelplanner/user/service/UserService.java:40 | `name()` renders USER as "USER" and ADMIN as "ADMIN", and no other way |
| Tables.Select | src/main/java/com/travelapp/travelplanner/booking/service/BookingService.java:71-75 | a repository query lists the id of every row satisfying the condition exactly once, and nothing else |
| Database.Db.constructor | src/main/java/com/travelapp/travelplanner/favorites/model/Favorite.java:11 | an empty database satisfies every table invariant, the unique (user, destination) constraint included |
| BookingService.ValidateExact | src/main/java/com/travelapp/travelplanner/booking/service/BookingService.java:37-48 | validation passes exactly the requests with every field present, start not after end and a positive count; every failure is a bad request |
| BookingService.Validate | src/main/java/com/travelapp/travelplanner/booking/service/BookingService.java:37-48 | every failure is a bad request, and a start after the end always fails; characterised by BookingService.ValidateExact |
| BookingService.ValidationBoundaries | src/main/java/com/travelapp/travelplanner/booking/service/BookingService.java:43-48 | a same-day trip passes, eleven travellers pass (no upper bound), and a start after the end fails with its message |
| BookingService.ToResponse | src/main/java/com/travelapp/travelplanner/booking/service/BookingService.java:118-128 | the response carries all seven fields: the booking's id, dates, count, status and creation time, with its destination row resolved |
| BookingService.NewBooking | src/main/java/com/travelapp/travelplanner/booking/service/BookingService.java:56-64 | a new booking is PENDING, belongs to the caller, copies the request's destination, dates and positive count, and is stamped with `now` |
| BookingService.CreateBooking | src/main/java/com/travelapp/travelplanner/booking/service/BookingService.java:36-68 | the guard errors in their order, then user and destination not found; on any error nothing is saved; on success exactly one new booking is stored under a fresh id and returned |
| BookingService.Responses | src/main/java/com/travelapp/travelplanner/booking/service/BookingService.java:72-74 | one response per listed booking, in order |
| BookingService.GetUserBookings | src/main/java/com/travelapp/travelplanner/booking/service/BookingService.java:71-75 | every booking of the user exactly once, and no one else's |
| BookingService.GetAllBookings | src/main/java/com/travelapp/travelplanner/booking/service/BookingService.java:103-107 | every stored booking exactly once; as many responses as rows |
| BookingService.DistinctKeysCoverTable | src/main/java/com/travelapp/travelplanner/booking/service/BookingService.java:103-107 | a duplicate-free listing of exactly a table's ids has one entry per row |
| BookingService.GetUserBooking | src/main/java/com/travelapp/travelplanner/booking/service/BookingService.java:78-87 | the booking exactly when it exists and is the caller's; not found when absent; refused for someone else's |
| BookingService.CancelBooking | src/main/java/com/travelapp/travelplanner/booking/service/BookingService.java:90-100 | not found or refused for a non-owner with the store unchanged; for the owner only that booking's status becomes CANCELLED, whatever it was |
| BookingService.UpdateStatus | src/main/java/com/travelapp/travelplanner/booking/service/BookingService.java:110-116 | any existing booking takes any target status, with nothing else changed; an unknown id is not found |
| BookingService.CancelledBookingReadsBack | src/main/java/com/travelapp/travelplanner/booking/service/BookingService.java:78-100 | after a cancel, the owner's lookup shows the booking cancelled with its other fields intact |
| FavoritesService.FindByUserAndDestination | src/main/java/com/travelapp/travelplanner/favorites/service/FavoritesService.java:81-82 | the row for a (user, destination) pair is found exactly when one exists |
| FavoritesService.RemoveByDestination | src/main/java/com/travelapp/travelplanner/favorites/service/FavoritesService.java:80-85 | not found exactly when the user has no favorite for the destination; otherwise exactly that row goes, every other row stays as it was, and the unique constraint still holds |
| FavoritesService.SecondRemoveFails | src/main/java/com/travelapp/travelplanner/favorites/service/FavoritesService.java:80-85 | removing the same destination twice makes the second call fail with not found |
| FavoritesService.AddThenRemove | src/main/java/com/travelapp/travelplanner/favorites/service/FavoritesService.java:51-57 | adding a new pair and removing it by destination gives back the original table |
| FavoritesService.AddFavorite | src/main/java/com/travelapp/travelplanner/favorites/service/FavoritesService.java:34-58 | missing destination id, duplicate pair, unknown user and unknown destination fail in that order and save nothing; success stores one favorite linking the pair and returns its id and destination |
| FavoritesService.ToResponse | src/main/java/com/travelapp/travelplanner/favorites/service/FavoritesService.java:63 | the response carries the favorite's id and its destination row |
| FavoritesService.Responses | src/main/java/com/travelapp/travelplanner/favorites/service/FavoritesService.java:62-64 | one response per listed favorite, in order |
| FavoritesService.GetFavorites | src/main/java/com/travelapp/travelplanner/favorites/service/FavoritesService.java:61-65 | every favorite of the user exactly once, and no one else's |
| FavoritesService.ListingHasNoDuplicateDestination | src/main/java/com/travelapp/travelplanner/favorites/model/Favorite.java:11 | two favorites of one user for the same destination are the same row |
| FavoritesService.RemoveFavorite | src/main/java/com/travelapp/travelplanner/favorites/service/FavoritesService.java:68-77 | not found for an unknown id and refused for another user's favorite, with the store unchanged; the owner's call deletes exactly that row |
| FavoritesService.RemoveFavoriteByDestination | src/main/java/com/travelapp/travelplanner/favorites/service/FavoritesService.java:80-85 | the table afterwards is what RemoveByDestination gives, and on failure it is unchanged; other tables are untouched |
| DestinationService.NotFoundMessage | src/main/java/com/travelapp/travelplanner/destination/service/DestinationService.java:25 | the message is the fixed text followed by the decimal id |
| DestinationService.GetDestination | src/main/java/com/travelapp/travelplanner/destination/service/DestinationService.java:23-26 | the stored destination exactly when the id exists, else not found with the id in the message |
| DestinationService.Values | src/main/java/com/travelapp/travelplanner/destination/service/DestinationService.java:20 | one destination per listed id, in order |
| DestinationService.GetAllDestinations | src/main/java/com/travelapp/travelplanner/destination/service/DestinationService.java:19-21 | every stored destination, each once |
| DestinationService.CreateDestination | src/main/java/com/travelapp/travelplanner/destination/service/DestinationService.java:28-31 | any client id is discarded; the content is saved under a fresh id, so no existing row is overwritten |
| DestinationService.UpdateDestination | src/main/java/com/travelapp/travelplanner/destination/service/DestinationService.java:33-44 | the six content fields are overwritten and the id kept; an unknown id is not found and changes nothing |
| DestinationService.DeleteDestination | src/main/java/com/travelapp/travelplanner/destination/service/DestinationService.java:46-49 | an unknown id is not found; a referenced row is refused by the database; otherwise exactly that row is deleted |
| DestinationService.CreatedReadsBack | src/main/java/com/travelapp/travelplanner/destination/service/DestinationService.java:23-31 | a created destination reads back with the content it was sent with |
| UserService.FindByEmail | src/main/java/com/travelapp/travelplanner/user/service/UserService.java:43-45 | the one user with this email, or none exactly when no such user exists |
| UserService.FindById | src/main/java/com/travelapp/travelplanner/user/service/UserService.java:47-49 | the stored user, or none exactly when the id is unknown |
| UserService.Register | src/main/java/com/travelapp/travelplanner/user/service/UserService.java:26-41 | a taken email is refused with nothing saved; otherwise an active USER with the encoded password is stored under a fresh id, found by its email, and returned as a DTO with role "USER" |
| UserService.EmailRegisteredOnce | src/main/java/com/travelapp/travelplanner/user/service/UserService.java:27-29 | once an email is stored, registering it again is refused and lookup finds that user |
| AuthService.Login | backend/src/main/java/com/travelapp/travelplanner/user/service/AuthService.java:28-42 | unknown email: invalid credentials; inactive: bad request before the password check; success exactly for an active user with a matching password, returning the token for its id and role name |
| AuthService.UnknownEmailLooksLikeWrongPassword | backend/src/main/java/com/travelapp/travelplanner/user/service/AuthService.java:29-38 | an unknown email and a wrong password for an active account give the same answer |
| AuthService.RegisteredUserLogsIn | backend/src/main/java/com/travelapp/travelplanner/user/service/AuthService.java:28-42 | a freshly registered account logs in with its password and gets a USER token |
| JwtFilter.BearerToken | src/main/java/com/travelapp/travelplanner/security/JwtAuthenticationFilter.java:31-34 | a token is read exactly when the header starts with "Bearer ", and it is the rest of the header |
| JwtFilter.BearerRoundTrip | src/main/java/com/travelapp/travelplanner/security/JwtAuthenticationFilter.java:33-34 | prefixing a token with "Bearer " and reading it back gives the token |
| JwtFilter.SchemeIsCaseSensitive | src/main/java/com/travelapp/travelplanner/security/JwtAuthenticationFilter.java:33 | a lower-case "bearer " header is ignored |
| JwtFilter.Authority | src/main/java/com/travelapp/travelplanner/security/JwtAuthenticationFilter.java:39-44 | the authority is "ROLE_" followed by the role, or by "null" when the claim is missing |
| JwtFilter.Decide | src/main/java/com/travelapp/travelplanner/security/JwtAuthenticationFilter.java:31-49 | the context is kept exactly without a bearer header, cleared exactly when the token cannot be read, and otherwise set to the user id with the single role authority |
| JwtFilter.SecurityContext.constructor | src/main/java/com/travelapp/travelplanner/security/JwtAuthenticationFilter.java:46 | a new context holds no authentication |
| JwtFilter.DoFilterInternal | src/main/java/com/travelapp/travelplanner/security/JwtAuthenticationFilter.java:26-53 | the context is kept, cleared or set as Decide says, and the chain always continues |
| JwtFilter.LoginTokenAuthenticates | src/main/java/com/travelapp/travelplanner/security/JwtAuthenticationFilter.java:36-46 | when the parser reads back what the generator wrote, a login token authenticates its bearer as that user with the user's role authority |
| DoubleRemoval.OutcomeOf | frontend/src/pages/Favorites.tsx:33 | the client's call resolves exactly when the server call succeeds |
| DoubleRemoval.DoubleRemovalKeepsEntry | frontend/src/pages/Favorites.tsx:31-41 | as written: after the card's successful removal, the page's second removal fails as not found and the page still lists the destination |
| DoubleRemoval.DoubleRemovalExample | frontend/src/components/TravelCard.tsx:69-77 | as written, concretely: user 1's favorite for destination 7 is removed once, the repeat fails, and the page list is unchanged |
| DoubleRemoval.SingleRemovalDropsEntry | frontend/src/components/TravelCard.tsx:69-77 | corrected: one server removal, after which neither the server nor the page holds the destination, and every other entry stays |
| DoubleRemoval.RemoveFromFavoritesPage | frontend/src/components/TravelCard.tsx:61-90 | corrected flow on the card and page objects: a successful remove notifies the page, which drops the destination locally |

## Left out

- Locale rules: `localeCompare` is code-unit lexicographic order and `toLowerCase` an ASCII fold, so accents and non-Latin case are not modelled.
- Number formats: prices are whole currency units, where the client has JS numbers and the server a Java `Double`. `toFixed(2)` formatting is not modelled.
- `Number(...)` on a non-numeric price box (NaN empties the list) and on a fractional traveller value. Price boxes are `None` or a whole number; the number box is an integer.
- `calculateEndDate` (BookingForm.tsx:44-48) is the parameter `endDateOf`, because it depends on the time zone.
- Async interleaving: each awaited call completes before the next event; state updates after unmount and the card fetches racing on mount are not modelled. The toggle is split at its await into `BeginToggle` and `CompleteToggle`.
- The delayed redirect after a booking (BookingForm.tsx:72-74), all navigation other than "Book Now" (TravelCard.tsx:45-52), JSX rendering, `alert` text beyond its value, `console.error`.
- Rejections that are not `Error` instances: the model treats every rejection as an `Error` with a message.
- HTTP wrappers under frontend/src/api: each call is an outcome input, and the message the HTTP layer puts on a rejection is that input's message.
- JSON serialisation of the stored user: storage holds the record itself.
- `createdAt` (`LocalDateTime.now()`) is the parameter `now`; dates on the server are day numbers.
- The password encoder and the token provider (BCrypt, HMAC signing, expiry) are function parameters; JwtProvider.java is not part of this model.
- Ids come from one counter shared by all tables, where the database has a sequence per table.
- Deleting a referenced destination: the database's foreign-key refusal is `IntegrityViolation`; the cascade settings of the schema are not modelled.
- `SecurityContextHolder.clearContext()` is modelled as removing the authentication.
- DestinationService.CreateDestination, DestinationService.UpdateDestination and the Dashboard pipeline (Dashboard.ApplyFiltersAndSort) do not model null destination fields. Only `name` is declared non-null (Destination.java:19-30); `country`, `city`, `description`, `imageUrl` and `price` may be null, and the server stores whatever arrives (DestinationService.java:29, :36-41). The client forms mark these fields `required` (AddTravel.tsx:119, :135, :171; EditDestination.tsx:157, :172, :205), but the server does not check them. In the model every field is a present string or number. So the model does not capture the client's TypeError on a null country or city (Dashboard.tsx:55-56, :63, :86), or a null price taken as 0 against the bounds.
- DestinationService.CreateDestination, DestinationService.UpdateDestination: column lengths are not modelled. These two operations always succeed in the model. In the schema `description` holds at most 2000 characters (Destination.java:25-26), and `name`, `country`, `city` and `imageUrl` hold the default 255. A longer value makes `save` fail in the database, and the model has no branch for that failure.
- Dashboard's `handleDeleteDestination` (Dashboard.tsx:107 onwards), the AddTravel, EditDestination and Settings forms, the route table in App.tsx, the controllers and SecurityConfig are not part of this model.
- Dashboard.Sort: the library `sort` on the copied array is a stable insertion sort function; the in-place update of the copy is not modelled.
- TravelDetails.TravelDetailsPage.TotalPrice requires a loaded destination, because the page renders the total only after its loading and not-found branches have returned.

## Findings

| source | as written | input that shows it | evidently intended | confidence | as-written member | corrected member |
|---|---|---|---|---|---|---|
| frontend/src/pages/Favorites.tsx:33 | On the favorites page the card removes the favorite on the server (TravelCard.tsx:71) and then calls the page's handler. The handler asks the server to remove it again; that call fails as not found (FavoritesService.java:83). The handler keeps the destination listed and alerts. | User 1's only favorite is destination 7, and the favorites page lists it. The card's click removes it, and the page's repeat call fails. | The card's successful removal drops the entry from the page. | high, not executed | DoubleRemoval.DoubleRemovalKeepsEntry | DoubleRemoval.SingleRemovalDropsEntry |
