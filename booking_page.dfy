/**
 * The booking detail page: it picks the routed booking out of the caller's
 * booking list and derives the night count, the tourism fee and the
 * completion status from the booking record.
 */
module BookingPage {
  import opened Wrappers
  import opened Domain
  import PlacePage

  /** The first entry of the fetched list whose booking has identifier `id`. */
  function FindBooking(list: seq<PopulatedBooking>, id: BookingId): (r: Option<PopulatedBooking>)
    ensures r.None? <==> forall i :: 0 <= i < |list| ==> list[i].booking.id != id
    ensures r.Some? ==> exists i :: 0 <= i < |list| && list[i] == r.value && r.value.booking.id == id &&
                                    forall k :: 0 <= k < i ==> list[k].booking.id != id
  {
    if list == [] then None
    else if list[0].booking.id == id then Some(list[0])
    else
      var r := FindBooking(list[1..], id);
      assert r.Some? ==> exists i :: 1 <= i < |list| && list[i] == r.value && r.value.booking.id == id &&
                                     forall k :: 0 <= k < i ==> list[k].booking.id != id by {
        if r.Some? {
          var j :| 0 <= j < |list[1..]| && list[1..][j] == r.value && r.value.booking.id == id &&
                   forall k :: 0 <= k < j ==> list[1..][k].booking.id != id;
          assert forall k :: 1 <= k < j + 1 ==> list[k].booking.id != id by {
            forall k | 1 <= k < j + 1 ensures list[k].booking.id != id {
              assert list[k] == list[1..][k - 1];
            }
          }
          assert list[j + 1] == r.value;
        }
      }
      r
  }

  /** An entry appended behind entries with other identifiers is the one found. */
  lemma FindBookingAtEnd(list: seq<PopulatedBooking>, e: PopulatedBooking)
    requires forall k :: 0 <= k < |list| ==> list[k].booking.id != e.booking.id
    ensures FindBooking(list + [e], e.booking.id) == Some(e)
  {
    var all := list + [e];
    assert all[|list|] == e;
    assert forall k :: 0 <= k < |list| ==> all[k] == list[k];
  }

  /** What the page shows: "Loading..." until a booking is set, then its details. */
  datatype PageState = Loading | Showing(entry: PopulatedBooking)

  /** The fetch callback: the booking is set only if one with the routed id is found. */
  function AfterFetch(state: PageState, list: seq<PopulatedBooking>, id: BookingId): (s: PageState)
    ensures FindBooking(list, id).Some? ==> s == Showing(FindBooking(list, id).value)
    ensures FindBooking(list, id).None? ==> s == state
  {
    match FindBooking(list, id)
    case Some(entry) => Showing(entry)
    case None => state
  }

  /** A page that starts loading keeps loading exactly when no fetched booking has the routed id. */
  lemma StaysLoadingIffMissing(list: seq<PopulatedBooking>, id: BookingId)
    ensures AfterFetch(Loading, list, id) == Loading <==> forall i :: 0 <= i < |list| ==> list[i].booking.id != id
  {
  }

  /** Calendar days from check-in to check-out; a same-day stay has 0 nights. */
  function Nights(checkIn: Day, checkOut: Day): (n: int)
    ensures checkIn + n == checkOut
  {
    checkOut - checkIn
  }

  /** The per-night tourism fee. */
  const TourismFeePerUnitNight: int := 10

  /** The tourism fee of a stay for `unit` units: nothing without nights or units, never negative otherwise. */
  function TourismFee(unit: int, nights: int): (r: int)
    ensures nights == 0 || unit == 0 ==> r == 0
    ensures unit >= 0 && nights >= 0 ==> r >= 0
  {
    assert unit >= 0 && nights >= 0 ==> unit * nights >= 0;
    TourismFeePerUnitNight * unit * nights
  }

  /** The tourism fee is 10 for every unit and every night of the stay. */
  lemma TourismFeeIsNightlyAccrual(unit: int, nights: nat)
    ensures TourismFee(unit, nights) == PlacePage.Accrued(TourismFeePerUnitNight * unit, nights)
  {
    PlacePage.AccruedIsProduct(TourismFeePerUnitNight * unit, nights);
  }

  /** A same-day stay carries no tourism fee. */
  lemma SameDayStayNoTourismFee(day: Day, unit: int)
    ensures Nights(day, day) == 0 && TourismFee(unit, Nights(day, day)) == 0
  {
  }

  /** Milliseconds per day: a stored date is the instant of its UTC midnight. */
  const MsPerDay: int := 86400000

  /** The instant, in milliseconds since the epoch, at which day `d` begins. */
  function Midnight(d: Day): (r: int)
    ensures r / MsPerDay == d && r % MsPerDay == 0
  {
    d * MsPerDay
  }

  /** A midnight lies before an instant exactly when its day is earlier, or is the instant's day and the instant is past the midnight. */
  lemma MidnightBefore(d: Day, now: int)
    ensures Midnight(d) < now <==> d < now / MsPerDay || (d == now / MsPerDay && now % MsPerDay != 0)
  {
    var q, f := now / MsPerDay, now % MsPerDay;
    assert now == q * MsPerDay + f && 0 <= f < MsPerDay;
    if d < q {
      assert d * MsPerDay <= (q - 1) * MsPerDay;
    } else if d > q {
      assert d * MsPerDay >= (q + 1) * MsPerDay;
    }
  }

  /**
   * The status line: a booking is completed once its check-out instant is
   * strictly in the past. In calendar terms that is from the first moment
   * after the midnight that starts its check-out day, so it is already
   * "Completed" during the check-out day itself, except at that very midnight.
   */
  predicate IsCompleted(checkOut: Day, now: int): (c: bool)
    ensures c <==> checkOut < now / MsPerDay || (checkOut == now / MsPerDay && now % MsPerDay != 0)
  {
    MidnightBefore(checkOut, now);
    Midnight(checkOut) < now
  }

  function StatusText(checkOut: Day, now: int): (t: string)
    ensures t == "Completed" <==> IsCompleted(checkOut, now)
    ensures t == "Completed" || t == "Not Completed"
  {
    if IsCompleted(checkOut, now) then "Completed" else "Not Completed"
  }

  /** At the check-out instant itself the booking is not completed. */
  lemma NotCompletedAtCheckOut(checkOut: Day)
    ensures !IsCompleted(checkOut, Midnight(checkOut))
  {
  }

  /** Once completed, a booking stays completed. */
  lemma CompletedStaysCompleted(checkOut: Day, now: int, later: int)
    requires IsCompleted(checkOut, now) && now <= later
    ensures IsCompleted(checkOut, later)
  {
  }
}
