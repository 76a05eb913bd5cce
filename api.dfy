/**
 * The listing and booking handlers of the REST backend, over an in-memory
 * store of two collections. Every operation receives the caller's already
 * resolved user id.
 */
module Api {
  import opened Wrappers
  import opened Domain

  // ---------------------------------------------------------------------------
  // Queries over the collections
  // ---------------------------------------------------------------------------

  /** The position of the listing with identifier `id`, if there is one. */
  function IndexOfPlace(ps: seq<Place>, id: PlaceId): (r: Option<nat>)
    ensures r.Some? ==> r.value < |ps| && ps[r.value].id == id
    ensures r.Some? ==> forall k :: 0 <= k < r.value ==> ps[k].id != id
    ensures r.None? <==> forall k :: 0 <= k < |ps| ==> ps[k].id != id
  {
    if ps == [] then None
    else if ps[0].id == id then Some(0)
    else match IndexOfPlace(ps[1..], id)
      case None => None
      case Some(k) => Some(k + 1)
  }

  /** `findById` on the listing collection. */
  function FindPlace(ps: seq<Place>, id: PlaceId): (r: Option<Place>)
    ensures r.Some? ==> r.value in ps && r.value.id == id
    ensures r.None? <==> forall p :: p in ps ==> p.id != id
  {
    match IndexOfPlace(ps, id)
    case None => None
    case Some(k) => Some(ps[k])
  }

  /** The listings whose owner is `owner`, in stored order. */
  function OwnedBy(ps: seq<Place>, owner: UserId): (r: seq<Place>)
    ensures forall p :: p in r <==> p in ps && p.owner == owner
    ensures forall p :: multiset(r)[p] == if p.owner == owner then multiset(ps)[p] else 0
    ensures |r| <= |ps|
  {
    if ps == [] then []
    else
      assert ps == [ps[0]] + ps[1..];
      if ps[0].owner == owner then [ps[0]] + OwnedBy(ps[1..], owner) else OwnedBy(ps[1..], owner)
  }

  lemma {:induction false} OwnedByAppend(a: seq<Place>, b: seq<Place>, owner: UserId)
    ensures OwnedBy(a + b, owner) == OwnedBy(a, owner) + OwnedBy(b, owner)
  {
    if a != [] {
      assert (a + b)[1..] == a[1..] + b;
      OwnedByAppend(a[1..], b, owner);
    } else {
      assert a + b == b;
    }
  }

  /** The bookings whose user is `user`, in stored order. */
  function BookedBy(bs: seq<Booking>, user: UserId): (r: seq<Booking>)
    ensures forall b :: b in r <==> b in bs && b.user == user
    ensures forall b :: multiset(r)[b] == if b.user == user then multiset(bs)[b] else 0
    ensures |r| <= |bs|
  {
    if bs == [] then []
    else
      assert bs == [bs[0]] + bs[1..];
      if bs[0].user == user then [bs[0]] + BookedBy(bs[1..], user) else BookedBy(bs[1..], user)
  }

  lemma {:induction false} BookedByAppend(a: seq<Booking>, b: seq<Booking>, user: UserId)
    ensures BookedBy(a + b, user) == BookedBy(a, user) + BookedBy(b, user)
  {
    if a != [] {
      assert (a + b)[1..] == a[1..] + b;
      BookedByAppend(a[1..], b, user);
    } else {
      assert a + b == b;
    }
  }

  /** Filtering keeps identifiers increasing, so no booking is returned twice. */
  lemma {:induction false} BookedByIdsIncreasing(bs: seq<Booking>, user: UserId)
    requires forall i, j :: 0 <= i < j < |bs| ==> bs[i].id < bs[j].id
    ensures forall i, j :: 0 <= i < j < |BookedBy(bs, user)| ==> BookedBy(bs, user)[i].id < BookedBy(bs, user)[j].id
  {
    if bs != [] {
      BookedByIdsIncreasing(bs[1..], user);
      var rest := BookedBy(bs[1..], user);
      forall k | 0 <= k < |rest|
        ensures bs[0].id < rest[k].id
      {
        assert rest[k] in bs[1..];
      }
    }
  }

  /** `populate('place')`: each booking paired with the listing it names, or with `None`. */
  function Populate(bs: seq<Booking>, ps: seq<Place>): (r: seq<PopulatedBooking>)
    ensures |r| == |bs|
    ensures forall i :: 0 <= i < |r| ==> r[i].booking == bs[i] && r[i].place == FindPlace(ps, bs[i].request.place)
  {
    if bs == [] then []
    else [PopulatedBooking(bs[0], FindPlace(ps, bs[0].request.place))] + Populate(bs[1..], ps)
  }

  lemma {:induction false} PopulateAppend(a: seq<Booking>, b: seq<Booking>, ps: seq<Place>)
    ensures Populate(a + b, ps) == Populate(a, ps) + Populate(b, ps)
  {
    if a != [] {
      assert (a + b)[1..] == a[1..] + b;
      PopulateAppend(a[1..], b, ps);
    } else {
      assert a + b == b;
    }
  }

  /** Bookings with increasing identifiers are populated into distinct entries. */
  lemma PopulateDistinct(bs: seq<Booking>, ps: seq<Place>)
    requires forall i, j :: 0 <= i < j < |bs| ==> bs[i].id < bs[j].id
    ensures forall i, j :: 0 <= i < j < |Populate(bs, ps)| ==> Populate(bs, ps)[i].booking != Populate(bs, ps)[j].booking
  {
    var r := Populate(bs, ps);
    forall i, j | 0 <= i < j < |r|
      ensures r[i].booking != r[j].booking
    {
      assert r[i].booking.id == bs[i].id < bs[j].id == r[j].booking.id;
    }
  }

  /** Every booking of the collection has its populated entry. */
  lemma {:induction false} PopulateCovers(bs: seq<Booking>, ps: seq<Place>, r: seq<PopulatedBooking>)
    requires r == Populate(bs, ps)
    ensures forall b :: b in bs ==> exists i :: 0 <= i < |r| && r[i].booking == b
  {
    forall b | b in bs
      ensures exists i :: 0 <= i < |r| && r[i].booking == b
    {
      var i :| 0 <= i < |bs| && bs[i] == b;
      assert r[i].booking == b;
    }
  }

  /** Identifiers increase along the collection and are all below the next one to hand out. */
  ghost predicate PlaceIdsBelow(ps: seq<Place>, next: nat) {
    && (forall i, j :: 0 <= i < j < |ps| ==> ps[i].id < ps[j].id)
    && (forall i :: 0 <= i < |ps| ==> ps[i].id < next)
  }

  ghost predicate BookingIdsBelow(bs: seq<Booking>, next: nat) {
    && (forall i, j :: 0 <= i < j < |bs| ==> bs[i].id < bs[j].id)
    && (forall i :: 0 <= i < |bs| ==> bs[i].id < next)
  }

  // ---------------------------------------------------------------------------
  // The store
  // ---------------------------------------------------------------------------

  /**
   * The two collections the handlers change in place, and the source of fresh
   * document identifiers (shared by both collections).
   */
  class Store {
    var places: seq<Place>
    var bookings: seq<Booking>
    var nextId: nat

    ghost predicate Valid()
      reads this
    {
      PlaceIdsBelow(places, nextId) && BookingIdsBelow(bookings, nextId)
    }

    constructor ()
      ensures Valid() && places == [] && bookings == []
    {
      places, bookings, nextId := [], [], 0;
    }

    /** `GET /places/:id`: the stored listing, or `None` for "Place not found". */
    function GetPlace(id: PlaceId): (r: Option<Place>)
      reads this
      ensures r.Some? ==> r.value in places && r.value.id == id
      ensures r.None? <==> forall p :: p in places ==> p.id != id
    {
      FindPlace(places, id)
    }

    /** `GET /places`: every stored listing, unfiltered. */
    function AllPlaces(): (r: seq<Place>)
      reads this
      ensures r == places
    {
      places
    }

    /** `GET /user-places`: exactly the listings the caller owns. */
    function UserPlaces(caller: UserId): (r: seq<Place>)
      reads this
      ensures forall p :: p in r <==> p in places && p.owner == caller
      ensures forall p :: multiset(r)[p] == if p.owner == caller then multiset(places)[p] else 0
    {
      OwnedBy(places, caller)
    }

    /** `GET /bookings`: exactly the caller's bookings, each with its listing resolved. */
    function UserBookings(caller: UserId): (r: seq<PopulatedBooking>)
      requires Valid()
      reads this
      ensures forall i, j :: 0 <= i < j < |r| ==> r[i].booking != r[j].booking
      ensures forall i :: 0 <= i < |r| ==>
        r[i].booking in bookings && r[i].booking.user == caller && r[i].place == GetPlace(r[i].booking.request.place)
      ensures forall b :: b in bookings && b.user == caller ==> exists i :: 0 <= i < |r| && r[i].booking == b
    {
      BookedByIdsIncreasing(bookings, caller);
      PopulateDistinct(BookedBy(bookings, caller), places);
      PopulateCovers(BookedBy(bookings, caller), places, Populate(BookedBy(bookings, caller), places));
      Populate(BookedBy(bookings, caller), places)
    }

    /** `POST /places`: stores a new listing owned by the caller, with the payload fields as given. */
    method CreatePlace(caller: UserId, fields: PlaceFields) returns (p: Place)
      requires Valid()
      modifies this
      ensures Valid()
      ensures p.owner == caller && p.fields == fields && p.photos == []
      ensures old(GetPlace(p.id)) == None
      ensures places == old(places) + [p] && bookings == old(bookings)
      ensures GetPlace(p.id) == Some(p)
      ensures forall id :: id != p.id ==> GetPlace(id) == old(GetPlace(id))
      ensures UserPlaces(caller) == old(UserPlaces(caller)) + [p]
      ensures forall other :: other != caller ==> UserPlaces(other) == old(UserPlaces(other))
    {
      p := Place(nextId, caller, fields, []);
      ghost var before := places;
      PlaceIdsSnoc(places, p, nextId);
      forall o
        ensures OwnedBy(before + [p], o) == OwnedBy(before, o) + (if o == caller then [p] else [])
      {
        OwnedBySnoc(before, p, o);
      }
      forall id | id != p.id
        ensures FindPlace(before + [p], id) == FindPlace(before, id)
      {
        PlaceIndexInPrefix(before, p, id);
      }
      PlaceIndexAtEnd(before, p);
      places := places + [p];
      nextId := nextId + 1;
    }

    /**
     * `PUT /places`: only the stored owner may overwrite the listing's fields.
     * A missing listing fails (the handler dereferences the null document and
     * answers with its error response); a non-owner is refused; neither
     * changes anything.
     */
    method UpdatePlace(caller: UserId, id: PlaceId, fields: PlaceFields) returns (o: UpdateOutcome)
      requires Valid()
      modifies this
      ensures Valid()
      ensures o == (if old(GetPlace(id)).None? then Failure
                    else if old(GetPlace(id)).value.owner == caller then Ok
                    else NotAuthorized)
      ensures o != Ok ==> places == old(places)
      ensures o == Ok ==> GetPlace(id) == Some(old(GetPlace(id)).value.(fields := fields))
      ensures forall other :: other != id ==> GetPlace(other) == old(GetPlace(other))
      ensures |places| == |old(places)|
      ensures forall k :: 0 <= k < |places| ==>
        places[k].id == old(places)[k].id && places[k].owner == old(places)[k].owner && places[k].photos == old(places)[k].photos
      ensures bookings == old(bookings) && nextId == old(nextId)
    {
      var k := IndexOfPlace(places, id);
      if k.None? {
        return Failure;
      }
      var doc := places[k.value];
      if doc.owner != caller {
        return NotAuthorized;
      }
      places := places[k.value := doc.(fields := fields)];
      SameIdsSameIndex(old(places), places, id);
      forall other | other != id
        ensures GetPlace(other) == old(GetPlace(other))
      {
        SameIdsSameIndex(old(places), places, other);
      }
      return Ok;
    }

    /**
     * `POST /bookings`: stores the request as received, with the caller as its
     * user. Neither the listing's existence nor overlapping bookings are
     * checked, the price is not recomputed, and no listing changes.
     */
    method CreateBooking(caller: UserId, req: BookingRequest) returns (b: Booking)
      requires Valid()
      modifies this
      ensures Valid()
      ensures b.user == caller && b.request == req
      ensures forall x :: x in old(bookings) ==> x.id != b.id
      ensures bookings == old(bookings) + [b] && places == old(places)
      ensures UserBookings(caller) == old(UserBookings(caller)) + [PopulatedBooking(b, GetPlace(req.place))]
      ensures forall other :: other != caller ==> UserBookings(other) == old(UserBookings(other))
    {
      b := Booking(nextId, caller, req);
      BookingIdsSnoc(bookings, b, nextId);
      forall u
        ensures Populate(BookedBy(bookings + [b], u), places) ==
          Populate(BookedBy(bookings, u), places) + (if u == caller then [PopulatedBooking(b, FindPlace(places, req.place))] else [])
      {
        PopulatedSnoc(bookings, b, places, u);
      }
      bookings := bookings + [b];
      nextId := nextId + 1;
    }
  }

  lemma OwnedBySnoc(ps: seq<Place>, p: Place, owner: UserId)
    ensures OwnedBy(ps + [p], owner) == OwnedBy(ps, owner) + (if p.owner == owner then [p] else [])
  {
    OwnedByAppend(ps, [p], owner);
    assert [p][1..] == [];
  }

  lemma PopulatedSnoc(bs: seq<Booking>, b: Booking, ps: seq<Place>, user: UserId)
    ensures Populate(BookedBy(bs + [b], user), ps) ==
      Populate(BookedBy(bs, user), ps) + (if b.user == user then [PopulatedBooking(b, FindPlace(ps, b.request.place))] else [])
  {
    BookedByAppend(bs, [b], user);
    assert [b][1..] == [];
    var tail := if b.user == user then [b] else [];
    assert BookedBy([b], user) == tail;
    PopulateAppend(BookedBy(bs, user), tail, ps);
    if b.user == user {
      assert Populate(tail, ps) == [PopulatedBooking(b, FindPlace(ps, b.request.place))] by {
        assert tail[1..] == [];
      }
    }
  }

  lemma PlaceIdsSnoc(ps: seq<Place>, p: Place, next: nat)
    requires PlaceIdsBelow(ps, next) && p.id == next
    ensures PlaceIdsBelow(ps + [p], next + 1)
  {
  }

  lemma BookingIdsSnoc(bs: seq<Booking>, b: Booking, next: nat)
    requires BookingIdsBelow(bs, next) && b.id == next
    ensures BookingIdsBelow(bs + [b], next + 1)
  {
  }

  /** A listing appended with an identifier not yet in use is found at the end. */
  lemma PlaceIndexAtEnd(ps: seq<Place>, p: Place)
    requires forall k :: 0 <= k < |ps| ==> ps[k].id != p.id
    ensures IndexOfPlace(ps + [p], p.id) == Some(|ps|)
    ensures FindPlace(ps + [p], p.id) == Some(p)
  {
    var qs := ps + [p];
    assert qs[|ps|].id == p.id;
    assert forall k :: 0 <= k < |ps| ==> qs[k] == ps[k];
  }

  /** Appending a listing with another identifier does not move the position of `id`. */
  lemma PlaceIndexInPrefix(ps: seq<Place>, p: Place, id: PlaceId)
    requires id != p.id
    ensures IndexOfPlace(ps + [p], id) == IndexOfPlace(ps, id)
    ensures FindPlace(ps + [p], id) == FindPlace(ps, id)
  {
    var qs := ps + [p];
    assert forall k :: 0 <= k < |ps| ==> qs[k] == ps[k];
  }

  /** The position of an identifier depends only on the identifiers along the collection. */
  lemma SameIdsSameIndex(a: seq<Place>, b: seq<Place>, id: PlaceId)
    requires |a| == |b| && forall k :: 0 <= k < |a| ==> a[k].id == b[k].id
    ensures IndexOfPlace(a, id) == IndexOfPlace(b, id)
  {
  }
}
