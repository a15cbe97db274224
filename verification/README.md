# Futsal booking: a verified model of the booking domain

This project models the booking logic of a futsal-field booking web app in Dafny. The app is a
React front end over in-memory mock data. The model covers:

- the catalog of users, fields and reviews, and the seeded booking ledger;
- the generator that cuts a field's opening hours into one-hour time slots;
- the login lookup and the per-user and per-field list lookups;
- the tabs of the "My bookings" list (upcoming, past, cancelled) and cancellation by booking id;
- the two-step booking wizard: date, slot and duration, then payment;
- the field search, the `city` query parameter, and the filter panel with its criteria;
- the authentication provider, kept in step with the `user` record in browser storage;
- the login and sign-up forms' validation.

Modules, one file each:

| file | module | models |
|---|---|---|
| `seqs.dfy` | `Seqs` | `Option`, `Array.prototype.filter` and `find`, the order-preserving subsequence relation |
| `text.dfy` | `Text` | `toString`, `padStart(2, '0')`, `parseInt`, `split(':')[0]`, ASCII `toLowerCase`, `includes`, `trim` |
| `mock_data.dfy` | `MockData` | `src/data/mockData.ts` and the record types of `src/types/index.ts` |
| `booking_list.dfy` | `BookingList` | `src/components/booking/BookingList.tsx` |
| `bookings_page.dfy` | `BookingsPage` | `src/pages/BookingsPage.tsx` |
| `booking_form.dfy` | `BookingForm` | `src/components/booking/BookingForm.tsx` |
| `field_filter.dfy` | `FieldFilter` | `src/components/fields/FieldFilter.tsx` |
| `fields_page.dfy` | `FieldsPage` | `src/pages/FieldsPage.tsx` |
| `auth_context.dfy` | `AuthContext` | `src/context/AuthContext.tsx` |
| `auth_forms.dfy` | `AuthForms` | `src/components/auth/LoginForm.tsx`, `src/components/auth/SignupForm.tsx` |

Conventions of the model:

- **Availability draws.** `Math.random() > 0.3` for the k-th slot of one generator call is
  `coin(k)`, an oracle parameter of type `nat -> bool`.
- **Dates.**
  - A booking's `"yyyy-MM-dd"` date is an integer day number.
  - `new Date()` is `now`, in milliseconds of local time.
  - `parseISO(date)` is `Midnight(day)`, the first millisecond of that day.
  - The seeded ledger's dates are relative to `loadDay`, the day the data module was loaded.
  - `createdAt` values are milliseconds since the epoch.
- **Slot identifiers.** The date text inside a slot identifier is a `dateKey` string parameter.
  The wizard passes `DayKey(day)`, a decimal rendering of the day number that stands in for
  `format(date, 'yyyy-MM-dd')`.
- **Browser storage.** The stored `user` entry is an `Option<User>`.
  - A record that `JSON.parse` rejects is the `parseFails` input.
  - A `setItem` that throws is the `storageThrows` input. It selects the provider's `catch` branches.
- **React state.** Components whose handlers update state become classes. Each handler becomes a
  method whose `ensures` gives the new state, often through a pure step function. The properties
  are proved as lemmas about those step functions.
- **Handler preconditions.** A handler is only reachable while its button is on screen; that
  appears as a `requires` on the step or tab. A `disabled` button is a no-op.

## Model

| member | source | states |
|---|---|---|
| `MockData.GenerateTimeSlots` | src/data/mockData.ts:168-193 | the loop builds exactly `GeneratedSlots`: nothing for an unknown field or unreadable hours, else one slot per hour from the opening hour up to the closing hour, with the k-th draw as availability |
| `MockData.NoSlotsWithoutHours` | src/data/mockData.ts:170-175 | an unknown field id, or an opening or closing time `parseInt` reads as NaN, yields no slot |
| `MockData.SlotsCoverOpeningHours` | src/data/mockData.ts:174-189 | for a known field with hours o and c: `max(0, c - o)` slots, slot k runs from `pad2(o+k):00` to `pad2(o+k+1):00`, consecutive slots touch, the first starts at o and the last ends at c |
| `MockData.SlotHoursReadBack` | src/data/mockData.ts:174-179 | reading a slot's start and end back with `parseInt(t.split(':')[0])` gives hours o+k and o+k+1 |
| `MockData.SlotIdsDistinct` | src/data/mockData.ts:184-189 | the identifiers `fieldId-date-startTime` of one call are pairwise distinct |
| `MockData.SlotsIgnoreOracleExceptAvailability` | src/data/mockData.ts:177-189 | two calls with different random draws give the same number of slots with the same identifiers and times |
| `MockData.ArenaProSlots` | src/data/mockData.ts:36-63 | field "1" (08:00 to 22:00) has 14 slots, the first 08:00-09:00 and the last 21:00-22:00 |
| `MockData.GetUserByCredentials` | src/data/mockData.ts:270-279 | a user is returned only for one of the two hard-coded pairs, and it is a seeded user whose email is the argument |
| `MockData.CredentialsAcceptOnlyAdmin` | src/data/mockData.ts:5-33 | with the seeded users a user comes back exactly for admin@example.com/admin123 (user "3"); john@example.com has no account |
| `MockData.FindFieldAt` | src/data/mockData.ts:170 | `fields.find` by id returns the field carrying that id when no earlier field carries it |
| `MockData.GetBookingsByUserId` | src/data/mockData.ts:282-284 | the result is an order-preserving subsequence of the ledger holding every booking of the user, each as often as in the ledger, and no other |
| `MockData.GetReviewsByFieldId` | src/data/mockData.ts:287-289 | the result is an order-preserving subsequence of the reviews holding every review of the field, each as often as in the list, and no other |
| `MockData.SeedBookingsByUser` | src/data/mockData.ts:196-240 | in the seeded ledger the admin (user "3") has no booking and user "1" has the first two |
| `MockData.SeedReviewsByField` | src/data/mockData.ts:242-267 | field "1" has the first two seeded reviews |
| `MockData.SeedFieldsOpenBeforeClose` | src/data/mockData.ts:36-165 | every seeded field's opening hour is below its closing hour |
| `MockData.SeedBookingsConsistent` | src/data/mockData.ts:196-240 | every seeded booking refers to a seeded field, costs that field's hourly price times its duration, and ends `duration` hours after it starts |
| `BookingList.FilteredBookings` | src/components/booking/BookingList.tsx:60-73 | the shown bookings are an order-preserving subsequence of the input holding exactly the bookings the tab predicate accepts |
| `BookingList.InTab` | src/components/booking/BookingList.tsx:60-73 | the per-booking test of each tab: upcoming is a day not yet begun and not cancelled, or pending; past is a day already begun and completed; cancelled is the status alone; any other tab keeps everything |
| `BookingList.StatusColor` | src/components/booking/BookingList.tsx:30-43 | every status gets one of its own badge classes, never the grey default |
| `BookingList.CancelledTabExact` | src/components/booking/BookingList.tsx:68-69 | the cancelled tab holds exactly the cancelled bookings, and does not depend on the time |
| `BookingList.UpcomingTab` | src/components/booking/BookingList.tsx:64-65 | every pending booking is upcoming whatever its date; no cancelled booking is |
| `BookingList.PastTab` | src/components/booking/BookingList.tsx:66-67 | the past tab holds only completed bookings whose day began before now |
| `BookingList.TabsDisjoint` | src/components/booking/BookingList.tsx:64-70 | no booking appears under two of the three tabs |
| `BookingList.ConfirmedStartedInNoTab` | src/components/booking/BookingList.tsx:61-70 | a confirmed booking whose day has begun is in none of the tabs |
| `BookingList.SeededConfirmedVanishes` | src/data/mockData.ts:197-210 | the seeded confirmed booking "1", dated the load day, is in no tab once that day has begun |
| `BookingList.UnknownTabKeepsAll` | src/components/booking/BookingList.tsx:72 | a tab value other than the three labels keeps the whole list |
| `BookingList.CancelTargets` | src/components/booking/BookingList.tsx:134-143 | the cancel buttons carry the ids of the confirmed shown bookings, in list order; an id gets a button exactly when a shown booking with that id is confirmed |
| `BookingList.CancelOfferedOnlyUpcoming` | src/components/booking/BookingList.tsx:60-73 | the past and cancelled tabs offer no cancel button; the upcoming tab offers one exactly for confirmed bookings whose day has not begun |
| `BookingList.StatusColorInjective` | src/components/booking/BookingList.tsx:30-43 | the four statuses get four different badge colours |
| `BookingList.BookingListView.constructor` | src/components/booking/BookingList.tsx:15 | the list opens on the "upcoming" tab, one of the three labels |
| `BookingList.BookingListView.SelectTab` | src/components/booking/BookingList.tsx:79-82 | a tab click makes that tab active, which keeps the active tab one of the three labels |
| `BookingList.BookingListView.Shown` | src/components/booking/BookingList.tsx:60-98 | the rendered bookings are an order-preserving subsequence of the input holding exactly the bookings the active tab admits |
| `BookingsPage.CancelBooking` | src/pages/BookingsPage.tsx:22-31 | length and order are kept; each booking keeps every field except its status, which becomes cancelled exactly when the id matches |
| `BookingsPage.BookingsView.HandleCancelBooking` | src/pages/BookingsPage.tsx:22-31 | the page's list becomes `CancelBooking` of the old list, so every property of `CancelBooking` holds of the new state |
| `BookingsPage.CancelEffect` | src/pages/BookingsPage.tsx:24-28 | a matched booking becomes itself with status cancelled, whatever its earlier status, and shows under the cancelled tab; other bookings are unchanged |
| `BookingsPage.CancelIdempotent` | src/pages/BookingsPage.tsx:24-28 | cancelling the same id twice is cancelling once |
| `BookingsPage.CancelUnknownId` | src/pages/BookingsPage.tsx:24-28 | an id that matches no booking leaves the list unchanged |
| `BookingsPage.CancelCommutes` | src/pages/BookingsPage.tsx:24-28 | two cancellations give the same list in either order |
| `BookingsPage.ShownList` | src/pages/BookingsPage.tsx:40-43 | the list handed to the view is the page's list, or the full seeded ledger when the page's list is empty |
| `BookingsPage.BookingsView.constructor` | src/pages/BookingsPage.tsx:13 | the page's own list starts empty over the given ledger |
| `BookingsPage.BookingsView.Load` | src/pages/BookingsPage.tsx:15-20 | with a user, the page's list becomes `getBookingsByUserId(user.id)`; without one it stays |
| `BookingsPage.BookingsView.Shown` | src/pages/BookingsPage.tsx:41 | the list handed to the booking list is the page's own list, or the whole ledger when that is empty |
| `BookingsPage.CancelOnFallbackIsNoOp` | src/pages/BookingsPage.tsx:22-43 | while the seeded fallback is shown, a cancel click changes nothing that is shown |
| `BookingsPage.SeededUsersSee` | src/pages/BookingsPage.tsx:15-43 | the admin, who has no booking, is shown the whole seeded ledger; user "1" is shown their two bookings |
| `BookingForm.GetNextDays` | src/components/booking/BookingForm.tsx:50-56 | seven days, the i-th being today plus i |
| `BookingForm.EndTimeLabel` | src/components/booking/BookingForm.tsx:181-183 | the end label is `"NaN:00"` exactly when the start time has no leading hour |
| `BookingForm.TotalPrice` | src/components/booking/BookingForm.tsx:196 | each extra hour adds exactly one hourly price, so the total is the hourly price per hour booked; at least that price for a positive duration, and zero only for a free field or no hours |
| `BookingForm.EndTimeOfSlot` | src/components/booking/BookingForm.tsx:181-183 | for a slot starting at hour h, the end label is `h + duration` without zero padding followed by ":00", and it reads back as that hour |
| `BookingForm.EndTimeMatchesSlotLabel` | src/components/booking/BookingForm.tsx:181-183 | the summary's end label equals the generator's padded label exactly when the end hour is 10 or later |
| `BookingForm.EightOClockForOneHour` | src/components/booking/BookingForm.tsx:181-183 | "08:00" for one hour ends at "9:00" |
| `BookingForm.SummaryBookingConsistent` | src/components/booking/BookingForm.tsx:181-196 | a booking built from the summary's start, end and total satisfies the seeded ledger's price and time rule |
| `BookingForm.BookingWizard.constructor` | src/components/booking/BookingForm.tsx:15-26 | step 1, today's date, the slots generated for the field and today, no slot or payment chosen, duration 1 |
| `BookingForm.BookingWizard.ChangeDate` | src/components/booking/BookingForm.tsx:22-30 | a new date regenerates the slots for that field and date and clears the chosen slot |
| `BookingForm.BookingWizard.SelectSlot` | src/components/booking/BookingForm.tsx:111-126 | an available slot's start becomes the choice; an unavailable slot's button does nothing |
| `BookingForm.BookingWizard.SetDuration` | src/components/booking/BookingForm.tsx:137-150 | duration becomes the clicked value, one of 1, 2 or 3 |
| `BookingForm.BookingWizard.Next` | src/components/booking/BookingForm.tsx:153-160 | step 2 is reached only with a chosen slot |
| `BookingForm.BookingWizard.Back` | src/components/booking/BookingForm.tsx:229-234 | back returns to step 1 and keeps every choice |
| `BookingForm.BookingWizard.SetPaymentMethod` | src/components/booking/BookingForm.tsx:207-224 | the payment method becomes one of the three listed labels |
| `BookingForm.BookingWizard.Submit` | src/components/booking/BookingForm.tsx:32-39 | with a payment method chosen, the payload is exactly (date, chosen start, duration, payment method); the start is an available slot's start, the duration is 1, 2 or 3 and the method a listed one; without a method nothing is submitted |
| `FieldFilter.ToggleFacility` | src/components/fields/FieldFilter.tsx:39-47 | a listed facility is removed wherever it occurs, an unlisted one appended at the end; exactly that facility's membership flips |
| `FieldFilter.ToggleTwiceRestores` | src/components/fields/FieldFilter.tsx:41-43 | toggling an unlisted facility twice restores the list |
| `FieldFilter.ToggleTwiceMovesToEnd` | src/components/fields/FieldFilter.tsx:41-43 | toggling a listed facility twice removes its duplicates and moves it to the end |
| `FieldFilter.ToggleTouchesOnlyItsFacility` | src/components/fields/FieldFilter.tsx:39-46 | a toggle keeps city, price range, type and every other facility's membership |
| `FieldFilter.FilterPanel.HandleCityChange` | src/components/fields/FieldFilter.tsx:31-33 | only the city changes |
| `FieldFilter.FilterPanel.constructor` | src/components/fields/FieldFilter.tsx:18-25 | the panel starts closed with the initial criteria: no city, price range `[0, 300000]`, no type, no facility |
| `FieldFilter.FilterPanel.ToggleOpen` | src/components/fields/FieldFilter.tsx:73 | the filter button flips the panel open or closed and leaves the criteria alone |
| `FieldFilter.FilterPanel.Close` | src/components/fields/FieldFilter.tsx:84-89 | the close button in the header closes the panel and leaves the criteria alone |
| `FieldFilter.FilterPanel.HandleTypeChange` | src/components/fields/FieldFilter.tsx:35-37 | only the type changes |
| `FieldFilter.FilterPanel.HandleFacilityChange` | src/components/fields/FieldFilter.tsx:39-47 | only the facility list changes, by the toggle |
| `FieldFilter.FilterPanel.HandlePriceChange` | src/components/fields/FieldFilter.tsx:49-52 | the price range becomes `[0, value]` and nothing else changes |
| `FieldFilter.FilterPanel.HandleApplyFilters` | src/components/fields/FieldFilter.tsx:54-57 | the current record is reported unchanged and the panel closes |
| `FieldFilter.FilterPanel.HandleResetFilters` | src/components/fields/FieldFilter.tsx:59-68 | the record becomes the initial one (no city, `[0, 300000]`, no type, no facility) and that is what is reported |
| `FieldsPage.FilterFields` | src/pages/FieldsPage.tsx:43-69 | the successive filters give the single-pass filter by all criteria: an order-preserving subsequence of the catalog holding exactly the fields that meet every active criterion |
| `FieldsPage.MoreFacilitiesNeverEnlarge` | src/pages/FieldsPage.tsx:62-66 | selecting one more facility gives a subsequence of the previous result |
| `FieldsPage.TickingFacilityNarrows` | src/components/fields/FieldFilter.tsx:39-47 | ticking an unticked facility box and applying never shows more fields |
| `FieldsPage.InitialFiltersKeepSeededFields` | src/components/fields/FieldFilter.tsx:20-25 | the initial criteria keep every seeded field |
| `FieldsPage.SearchResults` | src/pages/FieldsPage.tsx:29-41 | a blank term shows every field; any other term shows exactly the fields whose lower-cased name, address or city contains the lower-cased term, each as often as in the catalog, in order |
| `FieldsPage.SearchIgnoresCase` | src/pages/FieldsPage.tsx:32-37 | the result does not depend on the case of the term |
| `FieldsPage.CityResults` | src/pages/FieldsPage.tsx:17-27 | a non-empty `city` parameter keeps exactly the fields in that city compared case-insensitively, each as often as in the catalog, in order; an absent or empty one keeps all |
| `FieldsPage.FieldsView.constructor` | src/pages/FieldsPage.tsx:13-27 | the search box starts empty and the shown fields are the city result for the initial query string |
| `FieldsPage.FieldsView.OnSearchParams` | src/pages/FieldsPage.tsx:17-27 | a changed query string replaces the shown fields by its city result and keeps the search box |
| `FieldsPage.FieldsView.SetSearchTerm` | src/pages/FieldsPage.tsx:13 | typing changes the search box only; the shown fields wait for the search to be submitted |
| `FieldsPage.CityIgnoresCase` | src/pages/FieldsPage.tsx:21-23 | the city parameter's case does not matter |
| `FieldsPage.FieldsView.HandleFilter` | src/pages/FieldsPage.tsx:43-69 | the shown fields become the catalog filtered by the reported criteria |
| `FieldsPage.FieldsView.HandleSearch` | src/pages/FieldsPage.tsx:29-41 | the shown fields become the search result of the current term |
| `AuthContext.OperationsKeepConsistent` | src/context/AuthContext.tsx:28-142 | the initial state and every operation keep `isAuthenticated` true exactly when a user is present |
| `AuthContext.StartupOutcomes` | src/context/AuthContext.tsx:22-46 | a readable stored record signs its user in; an unreadable one is removed with "Invalid stored user data"; with nothing stored the provider ends signed out and not loading |
| `AuthContext.Startup` | src/context/AuthContext.tsx:22-46 | with nothing stored only `isLoading` changes |
| `AuthContext.AuthProvider.constructor` | src/context/AuthContext.tsx:15-20 | the provider starts with no user, not authenticated, loading and no error, over the given storage entry |
| `AuthContext.AuthProvider.LoadStored` | src/context/AuthContext.tsx:22-46 | the provider's state and storage become `Startup` of the old ones |
| `AuthContext.LoginStep` | src/context/AuthContext.tsx:48-81 | loading ends and the state stays consistent; a user is signed in exactly when the credentials are accepted and storage does not fail, and is then stored with no error; otherwise storage is untouched and an error is set |
| `AuthContext.LoginOutcome` | src/context/AuthContext.tsx:48-81 | success shows and stores the looked-up user with no error; failure shows no user and "Invalid email or password" and leaves storage untouched |
| `AuthContext.SeededLogins` | src/context/AuthContext.tsx:55-72 | with the seeded data the admin pair signs in user "3" and the john@example.com pair fails |
| `AuthContext.FailedLoginThenReload` | src/context/AuthContext.tsx:65-72 | after a failed login the previous user's record is still stored, so a reload signs that user back in |
| `AuthContext.RegisterOutcome` | src/context/AuthContext.tsx:83-115 | register always signs in a stored user with role user and the given name, email and phone |
| `AuthContext.RegisteredIdsDiffer` | src/context/AuthContext.tsx:91-98 | users registered at different milliseconds get different ids |
| `AuthContext.NewUser` | src/context/AuthContext.tsx:91-98 | the registered user has the given name, email and phone, role user, no avatar, creation time `now` and an id made of "user-" followed by decimal digits |
| `AuthContext.RegisterStep` | src/context/AuthContext.tsx:83-115 | loading ends and the state stays consistent; a user with role user is signed in and stored exactly when storage does not fail; otherwise storage is untouched and an error is set |
| `AuthContext.AuthProvider.Register` | src/context/AuthContext.tsx:83-115 | the provider's state and storage become `RegisterStep` of the old ones |
| `AuthContext.LogoutStep` | src/context/AuthContext.tsx:117-125 | after logout no user is signed in or stored, nothing is loading and no error is set, so storage and state agree and are consistent |
| `AuthContext.LogoutOutcome` | src/context/AuthContext.tsx:117-125 | logout clears storage and signs out with no error, from any state |
| `AuthContext.AuthProvider.Logout` | src/context/AuthContext.tsx:117-125 | the provider's state and storage become `LogoutStep` of the old ones |
| `AuthContext.UpdateProfileOutcome` | src/context/AuthContext.tsx:127-151 | with a user, the user overlaid with the supplied fields is shown and stored; without one only `isLoading` (left true) and `error` (cleared) change |
| `AuthContext.UpdateProfileStep` | src/context/AuthContext.tsx:127-151 | a user is present afterwards exactly when one was before; with a user and a working storage the new user is stored and shown with no error; without a user `isLoading` is left true; storage changes only in the success case |
| `AuthContext.Overlay` | src/context/AuthContext.tsx:135 | each of the seven fields: a supplied value replaces the user's, a missing one keeps it |
| `AuthContext.EmptyPatchKeepsUser` | src/context/AuthContext.tsx:135 | an empty patch leaves the user unchanged |
| `AuthContext.ReloadRestores` | src/context/AuthContext.tsx:22-33 | when storage holds the signed-in user, a reload signs the same user in |
| `AuthContext.AuthProvider.Login` | src/context/AuthContext.tsx:48-81 | the provider's state and storage become `LoginStep` of the old ones |
| `AuthContext.AuthProvider.UpdateProfile` | src/context/AuthContext.tsx:127-151 | the provider's state and storage become `UpdateProfileStep` of the old ones |
| `AuthForms.LoginValidation` | src/components/auth/LoginForm.tsx:20-23 | the submit passes exactly when email and password are both non-empty, and otherwise fails with "Please fill in all fields" |
| `AuthForms.SignupValidation` | src/components/auth/SignupForm.tsx:23-31 | the verdict is pass, "Please fill in all fields" or "Passwords do not match" |
| `AuthForms.SignupPrecedence` | src/components/auth/SignupForm.tsx:23-35 | any empty input gives the fill-in message even with a mismatch; with all filled, a mismatch gives the mismatch message; the submit passes exactly when all are filled and the passwords agree |
| `AuthForms.ShownMessage` | src/components/auth/LoginForm.tsx:40-44 | the validation message wins; otherwise the provider's error is shown; nothing is shown when both are empty |
| `AuthForms.LoginForm.constructor` | src/components/auth/LoginForm.tsx:12-14 | the form starts with empty email, password and validation error, and has not navigated |
| `AuthForms.LoginForm.HandleSubmit` | src/components/auth/LoginForm.tsx:16-93 | while the provider is loading the disabled button does nothing; otherwise the validation error is the form's verdict; a failing submit leaves the provider and navigation alone; a passing one runs `login` with exactly the inputs and navigates to "/" |
| `AuthForms.SignupForm.constructor` | src/components/auth/SignupForm.tsx:12-17 | the form starts with all five inputs and the validation error empty, and has not navigated |
| `AuthForms.SignupForm.HandleSubmit` | src/components/auth/SignupForm.tsx:19-153 | while the provider is loading the disabled button does nothing; otherwise the validation error is the form's verdict; a failing submit leaves the provider alone; a passing one runs `register` with (name, email, phone, password) and navigates to "/" |
| `AuthForms.WrongCredentialsMessage` | src/components/auth/LoginForm.tsx:25-44 | after a validated login with wrong credentials the form shows "Invalid email or password" |
| `Text.HourLabelParses` | src/data/mockData.ts:174-179 | `parseInt` of the text before the colon of the label `pad2(h):00` gives back h |
| `Text.TrimEmptyIffBlank` | src/pages/FieldsPage.tsx:32 | `trim()` gives the empty string exactly for strings made of white space |

## Left out

- Rendering is not modelled: JSX, CSS classes, icons, `getStatusIcon`, the `getFieldById` display
  lookup in the booking list, and the translated labels.
- `formatPrice` (`Intl.NumberFormat`) is not modelled. Prices are plain integers.
- date-fns `format`, `parseISO` and `addDays` are replaced by day numbers and `Midnight`. Time
  zones are folded into `now`. `DayKey` only stands in for the `yyyy-MM-dd` text of slot
  identifiers; it does not reproduce that format.
- The 70/30 ratio of `Math.random() > 0.3` is not modelled. Availability is whatever the oracle
  says.
- `setTimeout` delays, `async`/`await` and React's batching of state updates are not modelled. Each
  provider operation is one atomic step, so the intermediate `isLoading: true` state is not
  observable. The stale `authState` closure in `updateProfile` is not modelled either; the model
  reads the current user.
- `JSON.stringify`/`JSON.parse` are not modelled. A stored user is read back as the same record;
  in the app its `createdAt` would come back as a string.
- `parseInt` here reads leading decimal digits only. Leading white space, signs and other radixes
  are not handled. They never occur in the `"HH:MM"` times the app parses.
- `toLowerCase` is modelled for ASCII letters only.
- `trim()` is modelled for the listed white-space characters only. The remaining Unicode space
  separators are not in the model.
- `BookingForm.BookingWizard.constructor`: `generateTimeSlots` reads the module-level field list.
  The wizard receives that list as its `catalog` parameter (the seeded `Fields`).
- Two things the page does with a booking are not in the model:
  - The payload the wizard submits is only handed to `onSubmit`. The field page logs it, so no
    booking is added to the ledger.
  - Nothing in the app moves a booking between statuses except cancellation, so the model has no
    status machine.
- A `Partial<User>` that explicitly sets a field to `undefined` is not modelled. A patch field is
  either supplied with a value or left out.
- The `password` argument of `register` is accepted and ignored, as in the app.
- Routing, i18n, the language switcher, the admin dashboard, the profile and field-detail pages,
  the navigation bar and the home page are display only and not part of this model.
