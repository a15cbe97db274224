// The "My bookings" page: the list loaded for the signed-in user, the fallback
// to the whole seeded ledger when that list is empty, and cancellation by id.
module BookingsPage {
  import opened Seqs
  import opened MockData
  import opened BookingList

  /** `handleCancelBooking`'s `map`: every booking with the id becomes cancelled, nothing else changes. */
  function CancelBooking(bookings: seq<Booking>, bookingId: string): (r: seq<Booking>)
    ensures |r| == |bookings|
    ensures forall i :: 0 <= i < |r| ==> r[i].(status := bookings[i].status) == bookings[i]
    ensures forall i :: 0 <= i < |r| ==>
              r[i].status == (if bookings[i].id == bookingId then Cancelled else bookings[i].status)
  {
    seq(|bookings|, i requires 0 <= i < |bookings| =>
      if bookings[i].id == bookingId then bookings[i].(status := Cancelled) else bookings[i])
  }

  /** The list handed to the booking list: the page's own list, or every seeded booking when it is empty. */
  function ShownList(bookings: seq<Booking>, allBookings: seq<Booking>): (r: seq<Booking>)
    ensures r == bookings || (bookings == [] && r == allBookings)
    ensures r == [] ==> bookings == [] && allBookings == []
  {
    if |bookings| > 0 then bookings else allBookings
  }

  /** The page's `bookings` state over the seeded ledger `allBookings`. */
  class BookingsView {
    var bookings: seq<Booking>
    const allBookings: seq<Booking>

    constructor (allBookings: seq<Booking>)
      ensures this.allBookings == allBookings && bookings == []
    {
      this.allBookings := allBookings;
      bookings := [];
    }

    /** The effect run when the signed-in user changes; nothing happens without a user. */
    method Load(user: Option<User>)
      modifies this
      ensures bookings == if user.Some? then GetBookingsByUserId(allBookings, user.value.id) else old(bookings)
    {
      if user.Some? {
        bookings := GetBookingsByUserId(allBookings, user.value.id);
      }
    }

    method HandleCancelBooking(bookingId: string)
      modifies this
      ensures bookings == CancelBooking(old(bookings), bookingId)
    {
      bookings := CancelBooking(bookings, bookingId);
    }

    function Shown(): (r: seq<Booking>)
      reads this
      ensures r == ShownList(bookings, allBookings)
    {
      if |bookings| > 0 then bookings else allBookings
    }
  }

  // ----- lemmas -----

  /** Every booking carrying the id ends up cancelled whatever its earlier status, and lands in the
      cancelled tab; bookings with other ids are left exactly as they were. */
  lemma CancelEffect(bookings: seq<Booking>, bookingId: string, now: int)
    ensures forall i :: 0 <= i < |bookings| && bookings[i].id == bookingId ==>
              CancelBooking(bookings, bookingId)[i] == bookings[i].(status := Cancelled) &&
              CancelBooking(bookings, bookingId)[i] in FilteredBookings(CancelBooking(bookings, bookingId), "cancelled", now)
    ensures forall i :: 0 <= i < |bookings| && bookings[i].id != bookingId ==>
              CancelBooking(bookings, bookingId)[i] == bookings[i]
  {
    var r := CancelBooking(bookings, bookingId);
    forall i | 0 <= i < |bookings| && bookings[i].id == bookingId
      ensures r[i] in FilteredBookings(r, "cancelled", now)
    {
      assert r[i] in r;
    }
  }

  /** Cancelling twice is cancelling once. */
  lemma CancelIdempotent(bookings: seq<Booking>, bookingId: string)
    ensures CancelBooking(CancelBooking(bookings, bookingId), bookingId) == CancelBooking(bookings, bookingId)
  {
  }

  /** An id that matches no booking leaves the list as it was. */
  lemma CancelUnknownId(bookings: seq<Booking>, bookingId: string)
    requires forall i :: 0 <= i < |bookings| ==> bookings[i].id != bookingId
    ensures CancelBooking(bookings, bookingId) == bookings
  {
  }

  /** Two cancellations can be made in either order. */
  lemma CancelCommutes(bookings: seq<Booking>, a: string, b: string)
    ensures CancelBooking(CancelBooking(bookings, a), b) == CancelBooking(CancelBooking(bookings, b), a)
  {
  }

  /** While the page shows the seeded fallback, a cancel click changes nothing that is shown. */
  lemma CancelOnFallbackIsNoOp(allBookings: seq<Booking>, bookingId: string)
    ensures ShownList(CancelBooking([], bookingId), allBookings) == allBookings
  {
  }

  /** The seeded admin has no booking of their own and so sees the whole seeded ledger; the first
      user sees their two bookings. */
  lemma SeededUsersSee(loadDay: int)
    ensures ShownList(GetBookingsByUserId(SeedBookings(loadDay), Users[2].id), SeedBookings(loadDay)) ==
            SeedBookings(loadDay)
    ensures ShownList(GetBookingsByUserId(SeedBookings(loadDay), Users[0].id), SeedBookings(loadDay)) ==
            SeedBookings(loadDay)[..2]
  {
    SeedBookingsByUser(loadDay);
  }
}
