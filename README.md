# Wander Stay booking core, in Dafny

This project models the logic of a short-term-rental booking platform. It has
three parts:

- **Reservation pricing and form state** (listing detail page). A stay
  costs `price × nights × units + 40 × nights × units + 160`: a cleaning fee
  of 40 per unit-night and a flat service fee of 160. The reservation box holds
  the guest's dates, guest count, unit count and name. It recomputes the night
  count once both dates are filled in. It posts its state, with the total it
  shows as the `price`. The page also lists the listing's perks with repeats
  dropped.
- **Listing and booking store** (REST handlers). This is a class over the two
  collections (`places`, `bookings`) and a counter for fresh identifiers:
  - Create listing: the owner is the caller.
  - Listings of the caller.
  - Listing by id, or not found.
  - All listings.
  - Update listing: only the stored owner may update. A non-owner is refused.
    A missing listing is the handler's error response. Neither changes
    anything.
  - Create booking: the user is the caller. The price is stored as sent. No
    existence or overlap check is made.
  - The caller's bookings, each with its listing resolved.
- **Booking detail page**. It finds the routed booking in the caller's list,
  or stays "Loading...". It computes:
  - the night count, as a calendar-day difference;
  - the tourism fee, `10 × units × nights`;
  - the "Completed" status, meaning the check-out instant is strictly before
    now.

The modules are:
- `Wrappers`: `Option`.
- `Domain`: the records.
- `PlacePage` (`place_page.dfy`).
- `Api` (`api.dfy`).
- `BookingPage` (`booking_page.dfy`).
- `Workflow` (`workflow.dfy`): a reservation that goes from the box,
  through the store, to the detail page.

Modelling choices:
- Identifiers are natural numbers. Dates are day numbers. "Now" is a
  millisecond instant, passed in as a parameter; the stored check-out date
  stands for the instant of its UTC midnight.
- The caller's user id arrives already resolved, so token handling is not
  modelled.
- Every operation is total. Its error paths are results (`Option`,
  `UpdateOutcome`), not preconditions.

Edge cases of the code that the model keeps:
- The code checks neither that check-out follows check-in nor that the unit
  count is positive. `NegativeNightsBelowServiceFee` shows the total for a
  reversed date pair.
- Updating a missing listing fails: the handler reads `owner` of the null
  document and answers with its generic error (`Failure`), not with
  not-found.
- The handlers' unsorted `find` queries promise no order. The model returns
  stored order: `AllPlaces` returns the collection as stored, and the
  per-user queries keep stored order. This is a choice of the model, not a
  promise of the code.

## Model

| member | source | states |
|---|---|---|
| `PlacePage.Total` | client/src/pages/PlacePage.jsx:160 | the total is the service fee plus `(price + 40) × nights × units`; with no nights or no units it is the service fee alone |
| `PlacePage.TotalIsNightlyAccrual` | client/src/pages/PlacePage.jsx:160 | for every stay length, the total is the service fee plus one nightly charge `(price + 40) × units` accrued per night (an independent night-by-night definition) |
| `PlacePage.ZeroNightsTotal` | client/src/pages/PlacePage.jsx:143-160 | with 0 nights, the state before both dates are chosen, the total is the service fee alone |
| `PlacePage.TotalAtLeastServiceFee` | client/src/pages/PlacePage.jsx:160 | for non-negative price, nights and units the total is at least the service fee 160 |
| `PlacePage.TotalMonotoneInNights` | client/src/pages/PlacePage.jsx:160 | for non-negative price and units, more nights never lower the total |
| `PlacePage.TotalMonotoneInUnit` | client/src/pages/PlacePage.jsx:160 | for non-negative price and nights, more units never lower the total |
| `PlacePage.NegativeNightsBelowServiceFee` | client/src/pages/PlacePage.jsx:150-160 | a check-out before the check-in is not rejected: negative nights give a total below the service fee |
| `PlacePage.ThreeNightsExample` | client/src/pages/PlacePage.jsx:147-160 | 100 a night, 3 nights, 1 unit costs 580 |
| `PlacePage.PriceBreakdown` | client/src/pages/PlacePage.jsx:241-255 | the stay line, cleaning-fee line and service-fee line add up to "Total before taxes", which is the reservation total |
| `PlacePage.UniquePerks` | client/src/pages/PlacePage.jsx:22 | the perk list without repeats: no duplicates, and a perk appears in it exactly when it appears in the listing's perks |
| `PlacePage.UniquePerksFirstOccurrenceOrder` | client/src/pages/PlacePage.jsx:22 | the unique perks are ordered by the position of each one's first occurrence in the listing's perks |
| `PlacePage.ReservationBox.constructor` | client/src/pages/PlacePage.jsx:139-148 | a new box has empty dates and name, 1 guest, 1 unit, 0 nights, and so shows the service fee as its total |
| `PlacePage.ReservationBox.SyncNights` | client/src/pages/PlacePage.jsx:150-158 | the effect sets nights to check-out minus check-in when both dates are filled in, and otherwise keeps the previous night count |
| `PlacePage.ReservationBox.SetCheckIn` | client/src/pages/PlacePage.jsx:199-206 | picking or clearing the check-in date, followed by the effect; only the date and the night count change, and the box stays consistent |
| `PlacePage.ReservationBox.SetCheckOut` | client/src/pages/PlacePage.jsx:208-215 | the same for the check-out date |
| `PlacePage.ReservationBox.SetNumberOfGuests` | client/src/pages/PlacePage.jsx:217-224 | the guest count input changes the guest count only |
| `PlacePage.ReservationBox.SetUnit` | client/src/pages/PlacePage.jsx:226-233 | the unit input changes the unit count only |
| `PlacePage.ReservationBox.SetUserName` | client/src/pages/PlacePage.jsx:190-197 | the name input changes the guest name only |
| `PlacePage.ReservationBox.TotalPrice` | client/src/pages/PlacePage.jsx:160 | the total the box shows and posts is the service fee plus `(price + 40)` per unit-night; in a consistent box with both dates filled in, it is the total for the days between the dates |
| `PlacePage.ReservationBox.ShownBreakdown` | client/src/pages/PlacePage.jsx:239-256 | the breakdown shows `price × nights × unit` and `40 × nights × unit`, and its lines sum to the total the box shows |
| `PlacePage.ReservationBox.BookingPayload` | client/src/pages/PlacePage.jsx:162-171 | the posted body carries the shown total as `price`, the listing id as `place`, and the dates, guests, name and unit unchanged |
| `Api.FindPlace` | api/index.js:157 | `findById`: a listing of the collection with that id; none exactly when the collection has no listing with that id |
| `Api.OwnedBy` | api/index.js:146 | the listings in a collection owned by a given user: exactly those, each as many times as the collection holds it, so no more than the collection holds |
| `Api.BookedBy` | api/index.js:232 | the bookings in a collection made by a given user: exactly those, each as many times as the collection holds it |
| `Api.Populate` | api/index.js:232 | each booking is paired, in order, with the listing its `place` names, or with none when that listing does not exist |
| `Api.Store.constructor` | api/index.js:28-35 | the store the handlers start from: no listings and no bookings, with the identifier invariant in force |
| `Api.Store.GetPlace` | api/index.js:154-165 | the stored listing with that id when there is one; not found exactly when no stored listing has that id |
| `Api.Store.AllPlaces` | api/index.js:197-205 | all stored listings, unfiltered |
| `Api.Store.UserPlaces` | api/index.js:142-151 | a listing is returned exactly when it is stored and owned by the caller, and as many times as it is stored |
| `Api.Store.UserBookings` | api/index.js:228-237 | in a valid store: every returned booking is stored, belongs to the caller and comes with its referenced listing (or none); every stored booking of the caller is returned; no booking is returned twice |
| `Api.Store.CreatePlace` | api/index.js:117-140 | appends a listing with a fresh id, owner = caller, the payload fields verbatim and no photos; no other listing, no booking and no other user's listings change |
| `Api.Store.UpdatePlace` | api/index.js:167-195 | Ok exactly when the listing exists and the caller is its owner, and then only its fields are overwritten; missing listing gives Failure, non-owner gives NotAuthorized, and the store is unchanged in both cases; owner, id and photos of every listing and every other listing are never changed |
| `Api.Store.CreateBooking` | api/index.js:207-226 | appends a booking with a fresh id, user = caller and the request (price included) verbatim, whatever listing it names; listings are untouched; the caller's booking list grows by exactly this booking, other users' lists are unchanged |
| `BookingPage.FindBooking` | client/src/pages/BookingPage.jsx:15 | the first entry of the list whose booking has the routed id; none exactly when no entry has it |
| `BookingPage.AfterFetch` | client/src/pages/BookingPage.jsx:15-18 | the page shows the found booking; when none is found, the page state is left as it was |
| `BookingPage.StaysLoadingIffMissing` | client/src/pages/BookingPage.jsx:15-28 | a loading page keeps showing "Loading..." exactly when no fetched booking has the routed id |
| `BookingPage.Nights` | client/src/pages/BookingPage.jsx:36 | the nights are the number of days that take the check-in date to the check-out date |
| `BookingPage.TourismFee` | client/src/pages/BookingPage.jsx:38 | the tourism fee is 0 without nights or without units, and never negative for non-negative nights and units |
| `BookingPage.TourismFeeIsNightlyAccrual` | client/src/pages/BookingPage.jsx:38 | the tourism fee is 10 per unit accrued once for each night of the stay |
| `BookingPage.SameDayStayNoTourismFee` | client/src/pages/BookingPage.jsx:36-38 | a same-day stay has 0 nights and a tourism fee of 0 |
| `BookingPage.StatusText` | client/src/pages/BookingPage.jsx:96-97 | the status reads "Completed" exactly when the booking is completed, and "Not Completed" otherwise |
| `BookingPage.IsCompleted` | client/src/pages/BookingPage.jsx:30-34 | a booking is completed exactly when its check-out day is before today, or is today and now is past that day's midnight |
| `BookingPage.NotCompletedAtCheckOut` | client/src/pages/BookingPage.jsx:30-34 | at the check-out instant itself the booking is "Not Completed" (strict comparison) |
| `BookingPage.CompletedStaysCompleted` | client/src/pages/BookingPage.jsx:30-34 | once completed, a booking stays completed as time goes on |
| `Workflow.ReserveAndOpen` | client/src/pages/PlacePage.jsx:162-181 | for a box of a stored listing: reserving stores the box's payload for the caller with the shown total as price, changes no listing, and the redirected detail page finds exactly that booking with that listing; its night count equals the one the box priced |

## Left out

- Authentication: token issue and verification, password hashing and cookies. Each operation takes the caller's resolved user id, so the "no token" and "bad token" failures are not modelled.
- Registration, login, profile and logout routes: they are account plumbing, not listing or booking logic.
- Database connection, routing, CORS, static and catch-all file serving, and HTTP status codes. Outcomes are results: `None` for "Place not found"; `Ok`, `NotAuthorized` and `Failure` for updates.
- Schema casting and validation: `api/models/*` is not part of this model. This has three effects:
  - Ids are numbers, so the cast error of a malformed id string is not modelled.
  - A record is stored with the fields it is given.
  - An empty date string in a booking is kept as `None`; what the database would store for it is not modelled.
- `Api.Store.UserPlaces`: states which listings are returned but not their order, because an unsorted `find` promises no order.
- Partial payloads: create and update take a complete field record, so a listing payload with missing fields (which `set` would write as undefined) is not modelled.
- `Api.Store.UserBookings`: states which bookings are returned but not their order, for the same reason.
- Concurrency between requests: each operation is one atomic step on the store.
- Listing prices are integers. The listing form's number input accepts fractions (`client/src/pages/PlacesFormPage.jsx:144-145`), and then the total and the stored booking price are floating point. Only whole prices are modelled.
- Floating point on the booking detail page: the 7% tax, the 5% municipality fee, the `toFixed` rounding and the final total are not modelled. The tourism fee and nights are integers and are modelled exactly.
- Date parsing and time zones: dates are day numbers, read at UTC midnight. The millisecond difference divided by a day's length is then the day difference. `differenceInCalendarDays` works in local time. It gives the difference of day numbers only in zones whose UTC offset keeps its sign over the stay. In Atlantic/Azores, for example, the offset goes from -1 to 0 on 2024-03-31: a stay from 2024-03-20 to 2024-04-01 is priced at 12 nights and shown as 13. `Workflow.ReserveAndOpen`'s night-count equality holds only in the first kind of zone.
- A booking whose listing is absent: the detail page reads `booking.place.title` and passes the missing listing to `PlaceImg` (`client/src/pages/BookingPage.jsx:48-51`, `client/src/pages/PlaceImg.jsx:2`), which fails at render. The model shows that booking with no listing. `Workflow.ReserveAndOpen` requires the listing to be stored, because the box exists only for a fetched listing and listings are never deleted.
- Input strings: the guest and unit inputs give strings, which the arithmetic and the database coerce to numbers. They are modelled as integers throughout.
- React rendering, requests and navigation, apart from the redirect in `Workflow.ReserveAndOpen`. The listing form, search bar, index page, bookings list page, photo components and photo overlay are presentational and are not modelled.
