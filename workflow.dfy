/**
 * The reservation round trip: the reservation box posts its payload, the
 * backend stores it for the caller, and the client opens the new booking's
 * detail page, which fetches the caller's bookings and looks the booking up.
 */
module Workflow {
  import opened Wrappers
  import opened Domain
  import PlacePage
  import Api
  import BookingPage

  /**
   * Reserve from `box` as `caller`, then open the detail page of the booking
   * just created. The page finds that booking together with its listing, its
   * stored price is the total the box showed, and its night count is the one
   * the box priced. A box is only shown for a listing that was fetched, and
   * listings are never deleted, so that listing is in the store.
   */
  method ReserveAndOpen(box: PlacePage.ReservationBox, store: Api.Store, caller: UserId)
    returns (b: Booking, page: BookingPage.PageState)
    requires store.Valid() && store.GetPlace(box.placeId).Some?
    modifies store
    ensures store.Valid()
    ensures b.user == caller && b.request == box.BookingPayload()
    ensures b.request.price == PlacePage.Total(box.price, box.nights, box.unit)
    ensures store.places == old(store.places)
    ensures page == BookingPage.Showing(PopulatedBooking(b, old(store.GetPlace(box.placeId))))
    ensures page.entry.place.Some? && page.entry.place.value.id == box.placeId
    ensures box.Consistent() && box.checkIn.Some? && box.checkOut.Some? ==>
      BookingPage.Nights(b.request.checkIn.value, b.request.checkOut.value) == box.nights
  {
    ghost var before := store.UserBookings(caller);
    b := store.CreateBooking(caller, box.BookingPayload());
    var entry := PopulatedBooking(b, store.GetPlace(box.placeId));
    var list := store.UserBookings(caller);
    assert list == before + [entry];
    forall k | 0 <= k < |before|
      ensures before[k].booking.id != b.id
    {
      assert before[k].booking in old(store.bookings);
    }
    BookingPage.FindBookingAtEnd(before, entry);
    page := BookingPage.AfterFetch(BookingPage.Loading, list, b.id);
  }
}
