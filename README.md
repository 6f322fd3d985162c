# Parking-slot booking: a Dafny model

This project models the booking engine of a parking-slot reservation application
(an Express/MongoDB backend with a React frontend) and proves properties of it.

The backend keeps two collections, parking slots and bookings. Here they are one
`Database.Store` object holding two maps and two id counters. The request handlers
are methods over that store:

- booking creation, with its availability check, closed-interval overlap check and price;
- cancellation, the admin status override, reading one booking and listing a user's bookings;
- payment handling: the gateway-configured test, the guards and amount of a new order,
  the signature-gated confirmation, and recording a failure;
- slot listing with its query filter, slot creation, update and deletion;
- the periodic job that completes expired bookings, re-checks their slots and
  activates paid bookings whose window has begun.

Each method states every error it answers and the whole new state. Several methods
keep the scheduling invariant `NoOverlap`: no two pending or confirmed bookings of one
slot have closed intervals that meet. Other operations can break it, and lemmas give
the witnesses.

The frontend's pure logic is modelled as functions:

- the booking form's 12-hour to 24-hour conversion, price preview, shown hour count
  and submit condition;
- the listing page's filter chain, city reset and sample-data fall-back;
- the state and city tables;
- the sample data and its two filters.

Times are integer milliseconds and prices are integers. Every error response is an
`Err` value of a per-controller error datatype with its HTTP status. The store is
left unchanged on every error path, except where the code writes first.

## Behaviour of the code worth knowing

- The overlap query is closed: a booking ending at 12:00 blocks one starting at 12:00
  (`BookingController.BackToBackConflicts`).
- There is no `end > start` check, so a reversed interval is stored with a
  non-positive hour count and price (`Pricing.CeilHoursSign`).
- The admin override writes any status, so a cancelled or completed booking can become
  active again (`Database.ReactivationCanBreakNoOverlap`). Payment verification
  confirms even a cancelled booking (`PaymentController.PayingCancelledCanBreakNoOverlap`).
- The availability flag is not re-derived except by the periodic job: cancellation
  frees the slot whatever other bookings it has, and creation clears the flag even for
  a booking in the future.
- The periodic job reads the clock once per pass, so activation sees a later instant
  than expiry (`BookingStatusUpdater.LateStartConfirmedInSameRun`).

## Model

| member | source | states |
|---|---|---|
| Pricing.CeilHours | backend/controllers/bookingController.js:38 | the billed hours are the one whole number h with (h-1) hours < duration <= h hours |
| Pricing.CeilHoursUnique | backend/controllers/bookingController.js:38 | any whole number of hours bracketing the duration that way is the ceiling |
| Pricing.CeilHoursSign | backend/controllers/bookingController.js:36-39 | a non-positive duration bills non-positive hours; a positive one at least one hour |
| Pricing.CeilHoursMonotone | backend/controllers/bookingController.js:38 | a longer stay never bills fewer hours |
| Pricing.ChargeExamples | backend/controllers/bookingController.js:38-39 | 90 minutes at 50 cost 100, one hour 50, 150 minutes 150, an empty interval 0 |
| ParkingSlot.ParseLocationType | backend/models/ParkingSlot.js:20-24 | a string accepted by the enum validator names the location type it spells |
| ParkingSlot.LocationTypeRoundTrip | backend/models/ParkingSlot.js:23 | each location type's stored spelling reads back as that type |
| ParkingSlot.LocationTypeEnumExact | backend/models/ParkingSlot.js:23 | the enum lists exactly ten names, one per type in declared order ("Railway Station" with a space); a string is in it iff it names a type |
| ParkingSlot.ParseVehicleType | backend/models/ParkingSlot.js:29-33 | an accepted vehicle string names the vehicle type it spells |
| ParkingSlot.VehicleTypeRoundTrip | backend/models/ParkingSlot.js:32 | car, bike and truck read back as themselves and are exactly the enum's values |
| ParkingSlot.NewSlot | backend/models/ParkingSlot.js:3-46 | validation succeeds iff the six required paths are present (strings non-empty) and both enums hold; an accepted slot stores the supplied slot number, state, city, location, floor, rate and the enum values spelled, the flag defaults to available, features to [] and address stays optional |
| ParkingSlot.NewSlotFieldsOf | backend/models/ParkingSlot.js:3-46 | a slot with non-empty required strings is rebuilt exactly from its own fields |
| Database.InsertKeepsNoOverlap | backend/controllers/bookingController.js:20-53 | storing a booking that meets no active booking of its slot keeps the invariant |
| Database.DeactivateKeepsNoOverlap | backend/controllers/bookingController.js:134-135 | moving a booking to cancelled or completed keeps the invariant |
| Database.ActiveToActiveKeepsNoOverlap | backend/jobs/bookingStatusUpdater.js:81-83 | moving a booking between pending and confirmed keeps the invariant |
| Database.AtMostOneActiveAt | backend/controllers/bookingController.js:20-29 | under the invariant at most one active booking of a slot covers any instant |
| Database.ReactivationCanBreakNoOverlap | backend/controllers/bookingController.js:150-154 | setting a cancelled booking back to confirmed can break the invariant |
| BookingController.NewBooking | backend/controllers/bookingController.js:35-51 | the stored booking is pending and unpaid, keeps the request's slot, user, vehicle number, vehicle model and times, bills the duration rounded up to hours, at the slot's rate |
| BookingController.FindOverlapping | backend/controllers/bookingController.js:20-29 | finds an active booking of the slot whose closed interval meets the request, and finds none iff there is none |
| BookingController.CreateBooking | backend/controllers/bookingController.js:5-67 | 404 iff the slot is missing, 400 iff it is flagged unavailable, 400 iff an active booking overlaps; the store is unchanged on error; on success one booking is added under a fresh id and only that slot's flag changes, to false; the invariant is kept |
| BookingController.GetUserBookings | backend/controllers/bookingController.js:70-79 | exactly the caller's bookings, newest first |
| BookingController.GetBookingById | backend/controllers/bookingController.js:95-114 | 404 for a missing booking, 403 unless owner or admin, else the booking |
| BookingController.CancelBooking | backend/controllers/bookingController.js:117-144 | 404, 403 and "cannot cancel" (already cancelled or completed) in that order with no change; else the status becomes cancelled and the slot is flagged available unconditionally; the invariant is kept |
| BookingController.UpdateBookingStatus | backend/controllers/bookingController.js:147-169 | 404 for a missing booking; otherwise the requested status is written whatever the current one; only completed frees the slot, and a missing slot then gives 500 after the write |
| BookingController.BackToBackConflicts | backend/controllers/bookingController.js:25-26 | a booking ending exactly when the request starts conflicts with it |
| BookingStatusUpdater.FindExpired | backend/jobs/bookingStatusUpdater.js:16-19 | exactly the pending or confirmed bookings that ended before now, in id order |
| BookingStatusUpdater.FindDueForActivation | backend/jobs/bookingStatusUpdater.js:68-73 | exactly the pending paid bookings with start <= now < end, in id order |
| BookingStatusUpdater.CompletingExpiredKeepsCover | backend/jobs/bookingStatusUpdater.js:31-40 | completing expired bookings does not change which active bookings cover now, so the re-check never finds the booking just completed |
| BookingStatusUpdater.ExpiryStep | backend/jobs/bookingStatusUpdater.js:29-51 | one loop iteration completes one booking and frees its slot iff no active booking covers now |
| BookingStatusUpdater.ExpiryDone | backend/jobs/bookingStatusUpdater.js:29-51 | after the loop over all expired bookings, bookings and slots are those of the whole pass |
| BookingStatusUpdater.UpdateExpiredBookings | backend/jobs/bookingStatusUpdater.js:9-57 | every expired booking becomes completed and nothing else changes; a slot is flagged available iff one of its bookings expired and no active booking of it covers now |
| BookingStatusUpdater.ActivateUpcomingBookings | backend/jobs/bookingStatusUpdater.js:63-89 | exactly the due bookings become confirmed; no slot flag changes |
| BookingStatusUpdater.RunBookingStatusUpdates | backend/jobs/bookingStatusUpdater.js:94-97 | expiry at its own clock reading, then activation at a second one; slots change only by the expiry pass; the invariant is kept |
| BookingStatusUpdater.LateStartConfirmedInSameRun | backend/jobs/bookingStatusUpdater.js:11-18 | a paid pending booking starting between the two clock readings is not due at the first but is confirmed by the run |
| BookingStatusUpdater.ExpiryChangesExactlyExpired | backend/jobs/bookingStatusUpdater.js:16-32 | the expiry pass changes exactly the expired bookings, only their status, and leaves no active booking ended before now |
| BookingStatusUpdater.ActivationChangesExactlyDue | backend/jobs/bookingStatusUpdater.js:67-84 | the activation pass changes exactly the due bookings, only their status, to confirmed, and never a cancelled or completed one |
| BookingStatusUpdater.ReleaseSlotsMeaning | backend/jobs/bookingStatusUpdater.js:35-47 | after expiry a slot is available iff it was, or it was freed; a slot still covered is untouched |
| BookingStatusUpdater.SweepKeepsNoOverlap | backend/jobs/bookingStatusUpdater.js:94-97 | a whole run keeps the invariant |
| BookingStatusUpdater.SweepIdempotent | backend/jobs/bookingStatusUpdater.js:94-97 | a second run with the same two clock readings, the second not earlier, changes neither bookings nor slots |
| Text.TrimEmptyIffBlank | backend/controllers/paymentController.js:17-18 | a string trims to empty iff it is all whitespace |
| PaymentController.ConfiguredMeaning | backend/controllers/paymentController.js:16-31 | the gateway is built iff both values are present and not blank and the trimmed key id is not the placeholder |
| PaymentController.TrimPadded | backend/controllers/paymentController.js:17 | trimming removes exactly the whitespace around a value |
| PaymentController.PaddedPlaceholderRefused | backend/controllers/paymentController.js:20 | the placeholder key id is refused however it is padded |
| PaymentController.Gateway.constructor | backend/controllers/paymentController.js:14-31 | the gateway keeps the raw environment values and is configured iff they pass the test |
| PaymentController.OrderGuard | backend/controllers/paymentController.js:39-62 | 503, 404, 403 (owner only) and 400 (already paid), first failure wins; passes iff configured, present, owned and unpaid |
| PaymentController.AdminIsNotExempt | backend/controllers/paymentController.js:55-57 | an admin who is not the owner is refused an order though allowed to read the booking |
| PaymentController.GuardIgnoresStatus | backend/controllers/paymentController.js:39-62 | the guards do not depend on the booking status |
| PaymentController.OrderOptionsFor | backend/controllers/paymentController.js:64-72 | the amount is the price times 100 (paise), the currency INR, the receipt "booking_" and the id |
| PaymentController.ReceiptRoundTrip | backend/controllers/paymentController.js:67 | the booking id reads back from its receipt |
| PaymentController.ReceiptInjective | backend/controllers/paymentController.js:67 | two bookings never share a receipt |
| PaymentController.CreatePaymentOrder | backend/controllers/paymentController.js:34-88 | guard failures answer their errors; a failing provider call answers 500; else the reply carries the provider order's id, amount and currency and the raw key id; nothing is written |
| PaymentController.SignedBodyInjective | backend/controllers/paymentController.js:105 | with no bar in the order id the signed message determines both ids |
| PaymentController.SignedBodyAmbiguous | backend/controllers/paymentController.js:105 | without that condition two id pairs share a message |
| PaymentController.MarkPaid | backend/controllers/paymentController.js:119-127 | a verified payment sets paid, the payment id and confirmed, and nothing else |
| PaymentController.VerifyPayment | backend/controllers/paymentController.js:91-139 | 503 iff unconfigured, 400 iff the signature differs from the HMAC of order id, bar and payment id, with no change; else the booking is marked paid and confirmed whatever its status and slots are untouched; a missing booking still succeeds |
| PaymentController.PayingActiveKeepsNoOverlap | backend/controllers/paymentController.js:119-127 | paying for an active booking keeps the invariant |
| PaymentController.PayingCancelledCanBreakNoOverlap | backend/controllers/paymentController.js:119-127 | paying for a cancelled booking can break the invariant |
| PaymentController.MarkFailed | backend/controllers/paymentController.js:146-148 | only the payment status of that booking changes, to failed; a missing id changes nothing |
| PaymentController.HandlePaymentFailure | backend/controllers/paymentController.js:142-155 | records the failure with no gateway or owner check; slots and counters unchanged |
| PaymentController.PaidThenFailedReopens | backend/controllers/paymentController.js:60-62 | a paid booking is refused a second order until a failure is recorded over it, after which it stays confirmed and can be paid again |
| SlotController.FilterFor | backend/controllers/slotController.js:6-13 | a string key is set iff its parameter is non-empty; isAvailable is set iff available is present, true only for "true" |
| SlotController.QueryMeaning | backend/controllers/slotController.js:9-15 | a slot matches iff it equals every non-empty string parameter and, when available is present, its flag equals (available == "true") |
| SlotController.EmptyQueryMatchesAll | backend/controllers/slotController.js:6-13 | no parameters, or empty ones, match every slot |
| SlotController.AvailableOtherThanTrue | backend/controllers/slotController.js:13 | any available value other than "true" selects only unavailable slots |
| SlotController.GetAllSlots | backend/controllers/slotController.js:4-20 | exactly the matching slots, newest first; all slots for no query |
| SlotController.CreatedSlotAvailable | backend/controllers/slotController.js:38-51 | a created slot is well formed and available whatever the body says about availability |
| SlotController.FindDuplicate | backend/controllers/slotController.js:53-57 | finds a stored slot with the same unique key iff one exists |
| SlotController.CreateSlot | backend/controllers/slotController.js:36-61 | 500 iff validation fails, 400 iff a duplicate key exists, no change on error; else one slot is added under a fresh id |
| SlotController.ValidateUpdate | backend/controllers/slotController.js:66-70 | an update passes iff each supplied required string is non-empty and each supplied enum value is listed |
| SlotController.ApplyUpdateMeaning | backend/controllers/slotController.js:66-70 | each supplied field overrides the stored one, including isAvailable |
| SlotController.ApplyUpdateProperties | backend/controllers/slotController.js:66-70 | updating twice equals once, an empty update is the identity, a valid update keeps a slot well formed |
| SlotController.UpdateSlot | backend/controllers/slotController.js:64-80 | 500 iff the update is invalid (even for a missing id), else 404 iff the id is missing, with no change; else only that slot changes |
| SlotController.DeleteSlot | backend/controllers/slotController.js:83-95 | 404 iff the id is missing, with no change; else only that slot is removed and its bookings stay |
| ClientSlot.FromSlot | backend/controllers/slotController.js:16 | the JSON form of a slot spells its enums so that they read back as the slot's values |
| BookingModal.HourTo24Bijection | frontend/src/components/BookingModal.js:25-35 | on hours 1 to 12 with either period the rule is a bijection onto 0 to 23 (PM adds 12 except at 12, 12 AM is 0, other AM hours stay) |
| BookingModal.FirstField | frontend/src/components/BookingModal.js:26 | the text before the first colon |
| BookingModal.SecondField | frontend/src/components/BookingModal.js:26 | absent iff there is no colon; otherwise colon-free |
| BookingModal.FieldsOfJoined | frontend/src/components/BookingModal.js:26 | splitting "h:m" gives back h and m |
| Text.ParseIntPaddedNat | frontend/src/components/BookingModal.js:27 | parseInt reads a zero-padded decimal back as its value |
| BookingModal.ReadPadded | frontend/src/components/BookingModal.js:26-27 | a zero-padded hour, a colon and colon-free minutes split and parse back to that hour and those minutes |
| BookingModal.ConvertParsed | frontend/src/components/BookingModal.js:25-36 | once the first field parses to a non-negative hour, the result is the converted hour padded to two digits, a colon and the second field |
| BookingModal.ConvertTo24Hour | frontend/src/components/BookingModal.js:25-36 | the result is at least three characters long |
| BookingModal.UnreadHourIsNaN | frontend/src/components/BookingModal.js:27-35 | an hour that does not parse prints as `NaN` before the colon |
| BookingModal.MissingMinutesUndefined | frontend/src/components/BookingModal.js:26-35 | a reading without a colon ends in a colon and `undefined` |
| BookingModal.MinutesCopied | frontend/src/components/BookingModal.js:26-35 | minutes that are present are copied after a colon at the end of the result |
| BookingModal.ConvertReading | frontend/src/components/BookingModal.js:25-36 | any zero-padded non-negative hour with colon-free minutes becomes the converted hour padded to two digits, a colon and the minutes |
| BookingModal.ConvertTwelveHour | frontend/src/components/BookingModal.js:25-36 | a 12-hour reading becomes the 24-hour hour padded to two digits with the minutes copied |
| BookingModal.AfternoonReadingWithPM | frontend/src/components/BookingModal.js:29-30 | a 24-hour afternoon reading with PM selected is pushed to hours 25 to 35 |
| BookingModal.CalculatePrice | frontend/src/components/BookingModal.js:38-49 | 0 unless all four date and time fields are filled |
| BookingModal.PreviewMatchesBackend | frontend/src/components/BookingModal.js:38-49 | a positive preview means a filled form, readable times, end after start and a positive rate, and equals the backend's price for that request |
| BookingModal.CeilDiv | frontend/src/components/BookingModal.js:79 | the ceiling of a quotient by its bracketing property |
| BookingModal.DisplayedHoursExact | frontend/src/components/BookingModal.js:78-79 | the shown hours equal the charged hours whenever there is a price |
| BookingModal.SubmitImpliesOrderedInterval | frontend/src/components/BookingModal.js:316 | submit is enabled only for a filled form whose end is after its start |
| Text.SortStringsCorrect | frontend/src/data/locations.js:50 | the sort yields an ascending permutation of its input |
| Locations.StateKeysExact | frontend/src/data/locations.js:2-34 | the table has 31 states, each listed once |
| Locations.GetStatesCorrect | frontend/src/data/locations.js:49-51 | getStates is sorted and holds each state exactly once and nothing else |
| Locations.GetCitiesByState | frontend/src/data/locations.js:53-55 | [] for an unknown state, else that state's list in declared order |
| Locations.CityNamesRepeat | frontend/src/data/locations.js:10-27 | Chandigarh is listed under two states, and so is Udaipur |
| Locations.LocationTypesMatchSchema | frontend/src/data/locations.js:36-47 | the filter's location types are the schema's enum in the same order |
| SampleLocations.SampleEntriesValid | frontend/src/data/sampleLocations.js:2-53 | 33 entries, each with a schema location type, car or bike, and a state and city listed together in the location table |
| SampleLocations.ForStateExact | frontend/src/data/sampleLocations.js:56-58 | exactly the entries of the state, in data order; none for a state missing from the table |
| SampleLocations.ForCityWithinState | frontend/src/data/sampleLocations.js:60-62 | the entries of both state and city, as the state's entries narrowed to the city |
| ParkingSlotsPage.FilteredIsOneFilter | frontend/src/pages/ParkingSlots.js:25-49 | the chain of conditional filters is one filter by the conjunction of the active criteria |
| ParkingSlotsPage.FilteredMeaning | frontend/src/pages/ParkingSlots.js:26-48 | an order-preserving subsequence holding a slot iff it equals each non-empty criterion (availability as isAvailable == (available == "true")) |
| ParkingSlotsPage.NoCriteriaKeepsAll | frontend/src/pages/ParkingSlots.js:26-48 | with every criterion empty the list is unchanged |
| ParkingSlotsPage.DefaultsShowAvailable | frontend/src/pages/ParkingSlots.js:15-21 | the starting filters show exactly the available slots, in order |
| ParkingSlotsPage.ClientAgreesWithServer | frontend/src/pages/ParkingSlots.js:44-46 | the page's filter equals the backend's listing filter once empty values are dropped; an available value sent as "" is where they part |
| ParkingSlotsPage.Page.constructor | frontend/src/pages/ParkingSlots.js:10-23 | the first render: no slots, the default filters, loading |
| ParkingSlotsPage.Page.ApplyFilters | frontend/src/pages/ParkingSlots.js:25-49 | the shown list is recomputed from slots and filters; nothing else changes |
| ParkingSlotsPage.Page.OnStateChange | frontend/src/pages/ParkingSlots.js:59-66 | a chosen state loads its cities and clears the city filter; clearing the state empties the list and keeps the city filter |
| ParkingSlotsPage.Page.FetchSlots | frontend/src/pages/ParkingSlots.js:68-90 | an empty or failed answer shows the sample data with its notice; otherwise the answer itself |
| ParkingSlotsPage.ChooseState | frontend/src/pages/ParkingSlots.js:55-66 | after a state is chosen and the effects run, the city filter is clear and only that state's slots are shown |

## Left out

- The HMAC-SHA-256 of the signature check is a function the gateway is given. The Razorpay order call is a function parameter, and `None` stands for its failure.
- Persistence is left out: `populate`, ObjectId casting and the 500 answers it raises for malformed ids, and `createdAt`. Ids are counters, so a larger id is a later creation.
- `getAllBookings` and `getSlotById` (plain reads) are not part of this model.
- The Booking model file is not part of this model. Its enums and the pending defaults are stated as an assumption in `Database`.
- The one-minute timer of the status job is left out. So are concurrency between requests and the job, and the `try`/`catch` around each pass; the model is sequential and store writes cannot fail.
- Logging is left out.
- ParkingSlot.NewSlot: Mongoose reports the errors of every failing path at once, and treats an empty `locationType` as a `required` failure. The model reports only the first failing path in schema order, and an empty `locationType` as not in the enum. Only the text of the 500 answer differs. `SlotController.ValidateUpdate` is the same.
- `new Date(...)` is left out. The status job's two clock readings are parameters of `BookingStatusUpdater.RunBookingStatusUpdates`. The backend receives times as milliseconds, and the booking form is given the string-to-milliseconds reading as a function, with `None` for an invalid date.
- Floating-point prices and fractional durations are left out. Prices and times are integers.
- `parseInt` is modelled in base 10 only. A `0x` prefix, which `parseInt` reads as hexadecimal, is not modelled.
- `getCitiesByState` on a name of an inherited object property (such as `"constructor"`) is not modelled. Such a state is treated as unknown.
- The default `sort()` compares UTF-16 code units. The model compares characters, which agrees for the table's ASCII names.
- `updateBookingStatus` with a value outside the status enum is not modelled, since the model's status is the enum. An absent status is also left out.
- An update body with `null` fields, and fields outside the schema, are left out of `updateSlot`.
- SlotController.CreateSlot: the duplicate-key branch (MongoDB error 11000) depends on a unique index that the slot schema does not declare. The model takes the key relation as a parameter; with no index that relation is always false.
- ParkingSlotsPage.Page.FetchSlots: the `loading` flag's intermediate value, the `error` text and the re-render are not modelled beyond their final values.
- The React rendering, `handleChange`, `handleSubmit`'s request and `handleFilterChange` are UI plumbing. `ChooseState` stands for the filter change that sets a state.
