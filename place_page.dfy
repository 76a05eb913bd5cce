/**
 * The listing detail page: the reservation price, the de-duplicated perk list,
 * and the reservation box whose state the guest edits before reserving.
 */
module PlacePage {
  import opened Wrappers
  import opened Domain

  // ---------------------------------------------------------------------------
  // Pricing
  // ---------------------------------------------------------------------------

  /** Cleaning fee per unit-night. */
  const CleaningFee: int := 40
  /** Flat service fee per booking. */
  const ServiceFee: int := 160

  /** The "price x nights x units" line of the breakdown. */
  function StayCost(price: int, nights: int, unit: int): (r: int) {
    price * nights * unit
  }

  /** The "Cleaning Fee" line of the breakdown. */
  function CleaningCost(nights: int, unit: int): (r: int) {
    CleaningFee * nights * unit
  }

  /**
   * The reservation total ("Total before taxes"), the price the booking is
   * sent with: the service fee plus, per unit-night, the nightly price and the
   * cleaning fee.
   */
  function Total(price: int, nights: int, unit: int): (r: int)
    ensures r - ServiceFee == (price + CleaningFee) * nights * unit
    ensures nights == 0 || unit == 0 ==> r == ServiceFee
  {
    assert price * nights * unit + CleaningFee * nights * unit == (price + CleaningFee) * nights * unit;
    StayCost(price, nights, unit) + CleaningCost(nights, unit) + ServiceFee
  }

  /**
   * Reference definition: what a stay accrues night by night when each night
   * costs `perNight`.
   */
  function Accrued(perNight: int, nights: nat): (r: int) {
    if nights == 0 then 0 else Accrued(perNight, nights - 1) + perNight
  }

  /** A stay accrues its nightly charge once per night. */
  lemma {:induction false} AccruedIsProduct(perNight: int, nights: nat)
    ensures Accrued(perNight, nights) == perNight * nights
  {
    if nights > 0 {
      AccruedIsProduct(perNight, nights - 1);
    }
  }

  /**
   * The total is the service fee plus, for every night, the nightly rate and
   * the cleaning fee for each unit.
   */
  lemma TotalIsNightlyAccrual(price: int, nights: nat, unit: int)
    ensures Total(price, nights, unit) == Accrued((price + CleaningFee) * unit, nights) + ServiceFee
  {
    AccruedIsProduct((price + CleaningFee) * unit, nights);
  }

  /** Before any dates are chosen the box shows 0 nights, and the total is the service fee alone. */
  lemma ZeroNightsTotal(price: int, unit: int)
    ensures Total(price, 0, unit) == ServiceFee
  {
  }

  /** With a non-negative rate, stay length and unit count, the total never drops below the service fee. */
  lemma TotalAtLeastServiceFee(price: int, nights: int, unit: int)
    requires price >= 0 && nights >= 0 && unit >= 0
    ensures Total(price, nights, unit) >= ServiceFee
  {
    NonNegativeProduct(price, nights, unit);
    NonNegativeProduct(CleaningFee, nights, unit);
  }

  lemma NonNegativeProduct(a: int, b: int, c: int)
    requires a >= 0 && b >= 0 && c >= 0
    ensures a * b * c >= 0
  {
    assert a * b >= 0;
  }

  /** A longer stay never costs less, for a non-negative rate and unit count. */
  lemma TotalMonotoneInNights(price: int, n1: int, n2: int, unit: int)
    requires price >= 0 && unit >= 0 && n1 <= n2
    ensures Total(price, n1, unit) <= Total(price, n2, unit)
  {
    NonNegativeProduct(price + CleaningFee, n2 - n1, unit);
    assert Total(price, n2, unit) - Total(price, n1, unit) == (price + CleaningFee) * (n2 - n1) * unit;
  }

  /** More units never cost less, for a non-negative rate and stay length. */
  lemma TotalMonotoneInUnit(price: int, nights: int, u1: int, u2: int)
    requires price >= 0 && nights >= 0 && u1 <= u2
    ensures Total(price, nights, u1) <= Total(price, nights, u2)
  {
    NonNegativeProduct(price + CleaningFee, nights, u2 - u1);
    assert Total(price, nights, u2) - Total(price, nights, u1) == (price + CleaningFee) * nights * (u2 - u1);
  }

  /**
   * The calculator does not reject a check-out before the check-in: a negative
   * night count gives a total below the service fee.
   */
  lemma NegativeNightsBelowServiceFee(price: int, nights: int, unit: int)
    requires price >= 0 && unit >= 1 && nights < 0
    ensures Total(price, nights, unit) < ServiceFee
  {
    assert Total(price, nights, unit) - ServiceFee == (price + CleaningFee) * unit * nights;
    assert (price + CleaningFee) * unit >= 1 by {
      NonNegativeProduct(price + CleaningFee - 1, unit, 1);
    }
  }

  /** 100 a night for 3 nights and 1 unit: 300 + 120 + 160. */
  lemma ThreeNightsExample()
    ensures Total(100, 3, 1) == 580
  {
  }

  /** The lines shown under the Reserve button. */
  datatype Breakdown = Breakdown(stay: int, cleaning: int, service: int, total: int)

  /** The breakdown of a stay; its three fee lines add up to "Total before taxes". */
  function PriceBreakdown(price: int, nights: int, unit: int): (b: Breakdown)
    ensures b.stay + b.cleaning + b.service == b.total
    ensures b.total == Total(price, nights, unit)
    ensures b.service == ServiceFee
  {
    Breakdown(StayCost(price, nights, unit), CleaningCost(nights, unit), ServiceFee, Total(price, nights, unit))
  }

  // ---------------------------------------------------------------------------
  // Perks
  // ---------------------------------------------------------------------------

  predicate NoDuplicates<T(==)>(s: seq<T>) {
    forall i, j :: 0 <= i < j < |s| ==> s[i] != s[j]
  }

  /** The index of the first occurrence of `x` in `s`, or `|s|` when `x` does not occur. */
  function FirstIndex<T(==)>(s: seq<T>, x: T): (k: nat)
    ensures k <= |s| && x !in s[..k]
    ensures k < |s| <==> x in s
    ensures k < |s| ==> s[k] == x
  {
    if s == [] || s[0] == x then 0 else 1 + FirstIndex(s[1..], x)
  }

  /**
   * The perk list with repeated entries dropped, as a JavaScript `Set` built
   * from it and spread back into an array: perks are inserted left to right,
   * and a perk already present is not inserted again.
   */
  function UniquePerks(perks: seq<string>): (r: seq<string>)
    ensures NoDuplicates(r)
    ensures forall p :: p in r <==> p in perks
  {
    if perks == [] then []
    else
      var seen := UniquePerks(perks[..|perks| - 1]);
      var last := perks[|perks| - 1];
      assert perks == perks[..|perks| - 1] + [last];
      if last in seen then seen else seen + [last]
  }

  /** A first occurrence inside a prefix is the first occurrence in the whole sequence. */
  lemma {:induction false} FirstIndexInPrefix<T>(s: seq<T>, m: nat, x: T)
    requires m <= |s| && x in s[..m]
    ensures x in s && FirstIndex(s, x) == FirstIndex(s[..m], x)
  {
    if s[0] != x {
      assert s[1..][..m - 1] == s[..m][1..];
      FirstIndexInPrefix(s[1..], m - 1, x);
    }
  }

  /** Every element of `r` occurs in `s`, and `r` lists them by increasing position of first occurrence in `s`. */
  ghost predicate InFirstOccurrenceOrder(s: seq<string>, r: seq<string>) {
    && (forall x :: x in r ==> x in s)
    && (forall i, j :: 0 <= i < j < |r| ==> FirstIndex(s, r[i]) < FirstIndex(s, r[j]))
  }

  /** The unique perks are listed in the order in which each first occurs. */
  lemma {:induction false} UniquePerksFirstOccurrenceOrder(perks: seq<string>)
    ensures InFirstOccurrenceOrder(perks, UniquePerks(perks))
  {
    if perks != [] {
      var n := |perks| - 1;
      var init := perks[..n];
      var seen := UniquePerks(init);
      var last := perks[n];
      UniquePerksFirstOccurrenceOrder(init);
      forall i | 0 <= i < |seen|
        ensures FirstIndex(perks, seen[i]) == FirstIndex(init, seen[i]) < n
      {
        FirstIndexInPrefix(perks, n, seen[i]);
      }
      if last !in seen {
        assert last !in init;
        assert FirstIndex(perks, last) == n;
        var r := seen + [last];
        assert forall i :: 0 <= i < |seen| ==> r[i] == seen[i];
      }
    }
  }

  // ---------------------------------------------------------------------------
  // Reservation box
  // ---------------------------------------------------------------------------

  /**
   * The reservation form of one listing. The guest edits the dates, guest
   * count, unit count and name; after a date changes, an effect recomputes the
   * night count once both dates are filled in.
   */
  class ReservationBox {
    const price: int
    const placeId: PlaceId
    var checkIn: Option<Day>
    var checkOut: Option<Day>
    var numberOfGuests: int
    var nights: int
    var unit: int
    var userName: string

    /** Once both dates are filled in, the night count is their difference. */
    ghost predicate Consistent()
      reads this
    {
      checkIn.Some? && checkOut.Some? ==> nights == checkOut.value - checkIn.value
    }

    /**
     * The total shown as "Total before taxes" and posted as the price. Once
     * both dates are filled in, it prices the days between them.
     */
    function TotalPrice(): (r: int)
      reads this
      ensures r - ServiceFee == (price + CleaningFee) * nights * unit
      ensures Consistent() && checkIn.Some? && checkOut.Some? ==>
        r == Total(price, checkOut.value - checkIn.value, unit)
    {
      Total(price, nights, unit)
    }

    /** The lines of the price breakdown for the current state. */
    function ShownBreakdown(): (b: Breakdown)
      reads this
      ensures b.stay + b.cleaning + b.service == b.total == TotalPrice()
      ensures b.stay == price * nights * unit && b.cleaning == CleaningFee * nights * unit
    {
      PriceBreakdown(price, nights, unit)
    }

    constructor (price: int, placeId: PlaceId)
      ensures this.price == price && this.placeId == placeId
      ensures checkIn == None && checkOut == None && userName == ""
      ensures numberOfGuests == 1 && nights == 0 && unit == 1
      ensures Consistent() && TotalPrice() == ServiceFee
    {
      this.price := price;
      this.placeId := placeId;
      checkIn, checkOut, userName := None, None, "";
      numberOfGuests, nights, unit := 1, 0, 1;
    }

    /** The effect on the two dates: recompute the nights only when both dates are filled in. */
    method SyncNights()
      modifies this`nights
      ensures checkIn.Some? && checkOut.Some? ==> nights == checkOut.value - checkIn.value
      ensures !(checkIn.Some? && checkOut.Some?) ==> nights == old(nights)
      ensures Consistent()
    {
      if checkIn.Some? && checkOut.Some? {
        nights := checkOut.value - checkIn.value;
      }
    }

    /** The guest picks (or clears, with `None`) the check-in date. */
    method SetCheckIn(d: Option<Day>)
      modifies this`checkIn, this`nights
      ensures checkIn == d
      ensures d.Some? && checkOut.Some? ==> nights == checkOut.value - d.value
      ensures !(d.Some? && checkOut.Some?) ==> nights == old(nights)
      ensures Consistent()
    {
      checkIn := d;
      SyncNights();
    }

    /** The guest picks (or clears, with `None`) the check-out date. */
    method SetCheckOut(d: Option<Day>)
      modifies this`checkOut, this`nights
      ensures checkOut == d
      ensures checkIn.Some? && d.Some? ==> nights == d.value - checkIn.value
      ensures !(checkIn.Some? && d.Some?) ==> nights == old(nights)
      ensures Consistent()
    {
      checkOut := d;
      SyncNights();
    }

    method SetNumberOfGuests(n: int)
      modifies this`numberOfGuests
      ensures numberOfGuests == n
    {
      numberOfGuests := n;
    }

    method SetUnit(u: int)
      modifies this`unit
      ensures unit == u
    {
      unit := u;
    }

    method SetUserName(name: string)
      modifies this`userName
      ensures userName == name
    {
      userName := name;
    }

    /** The body that Reserve posts: the form's state unchanged, the listing id, and the shown total as the price. */
    function BookingPayload(): (r: BookingRequest)
      reads this
      ensures r.price == TotalPrice() && r.place == placeId
      ensures r.checkIn == checkIn && r.checkOut == checkOut
      ensures r.numberOfGuests == numberOfGuests && r.userName == userName && r.unit == unit
    {
      BookingRequest(placeId, checkIn, checkOut, numberOfGuests, userName, unit, TotalPrice())
    }
  }
}
