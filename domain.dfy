/**
 * The records the booking platform stores and exchanges: listings (places),
 * booking requests as the reservation form sends them, stored bookings, and
 * bookings with their listing resolved, as `GET /bookings` returns them.
 */
module Domain {
  import opened Wrappers

  /** Document identifiers; the store hands out a fresh one per created record. */
  type UserId = nat
  type PlaceId = nat
  type BookingId = nat

  /** A calendar date as a day number (days since 1970-01-01, UTC). */
  type Day = int

  /** The fields of a listing that its owner supplies on create and on update. */
  datatype PlaceFields = PlaceFields(
    title: string,
    address: string,
    city: string,
    phone: string,
    description: string,
    perks: seq<string>,
    extraInfo: string,
    checkIn: int,
    checkOut: int,
    maxGuests: int,
    price: int)

  /** A stored listing: its identifier, its owner, the owner-supplied fields and its photos. */
  datatype Place = Place(id: PlaceId, owner: UserId, fields: PlaceFields, photos: seq<string>)

  /**
   * The body of `POST /bookings`. A date is `None` when its input was left
   * empty; `price` is the total the client computed.
   */
  datatype BookingRequest = BookingRequest(
    place: PlaceId,
    checkIn: Option<Day>,
    checkOut: Option<Day>,
    numberOfGuests: int,
    userName: string,
    unit: int,
    price: int)

  /** A stored booking: the request as received, plus the booking user. */
  datatype Booking = Booking(id: BookingId, user: UserId, request: BookingRequest)

  /** A booking with its listing resolved; `None` when the listing it names does not exist. */
  datatype PopulatedBooking = PopulatedBooking(booking: Booking, place: Option<Place>)

  /** What `PUT /places` answers: "ok", forbidden, or the caught server error. */
  datatype UpdateOutcome = Ok | NotAuthorized | Failure
}
