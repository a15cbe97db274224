// The "My bookings" list: which bookings each tab shows, the status badge
// colour, and which bookings offer a cancel button.
module BookingList {
  import opened Seqs
  import opened MockData

  /** Milliseconds in a day; `now` and booking midnights are milliseconds of local time. */
  const MsPerDay: int := 86400000

  /** `parseISO("yyyy-MM-dd")`: midnight at the start of the booking's day. */
  function Midnight(day: int): int
  {
    day * MsPerDay
  }

  /** The tab labels the list renders buttons for. */
  const Tabs: set<string> := {"upcoming", "past", "cancelled"}

  /** The predicate `filteredBookings` applies to one booking, `now` being `new Date()`. */
  predicate InTab(tab: string, now: int, b: Booking)
  {
    var date := Midnight(b.date);
    if tab == "upcoming" then (date >= now && b.status != Cancelled) || b.status == Pending
    else if tab == "past" then date < now && b.status == Completed
    else if tab == "cancelled" then b.status == Cancelled
    else true
  }

  function TabPredicate(tab: string, now: int): Booking -> bool
  {
    (b: Booking) => InTab(tab, now, b)
  }

  /** `filteredBookings`: the bookings the active tab shows, in list order. */
  function FilteredBookings(bookings: seq<Booking>, tab: string, now: int): (r: seq<Booking>)
    ensures IsSubseq(r, bookings)
    ensures forall b :: multiset(r)[b] == if InTab(tab, now, b) then multiset(bookings)[b] else 0
    ensures forall b :: b in r <==> b in bookings && InTab(tab, now, b)
  {
    FilterContents(bookings, TabPredicate(tab, now));
    Filter(bookings, TabPredicate(tab, now))
  }

  /** Badge classes per status; every status gets its own colour. */
  function StatusColor(s: Status): (c: string)
    ensures c != "bg-gray-100 text-gray-700"
  {
    match s
    case Confirmed => "bg-success-100 text-success-700"
    case Pending => "bg-warning-100 text-warning-700"
    case Cancelled => "bg-error-100 text-error-700"
    case Completed => "bg-secondary-100 text-secondary-700"
  }

  /** A cancel button is rendered for a booking exactly when it is confirmed. */
  predicate OffersCancel(b: Booking)
  {
    b.status == Confirmed
  }

  /** The ids the visible cancel buttons would pass to `onCancelBooking`, in list order. */
  function CancelTargets(shown: seq<Booking>): (ids: seq<string>)
    ensures |ids| <= |shown|
    ensures forall id :: id in ids <==> exists b :: b in shown && OffersCancel(b) && b.id == id
    ensures ids == IdsOf(Filter(shown, Cancellable()))
  {
    if shown == [] then []
    else
      var rest := CancelTargets(shown[1..]);
      assert forall b :: b in shown <==> b == shown[0] || b in shown[1..];
      if OffersCancel(shown[0]) then
        IdsOfCons(shown[0], Filter(shown[1..], Cancellable()));
        [shown[0].id] + rest
      else rest
  }

  function Cancellable(): Booking -> bool { (b: Booking) => OffersCancel(b) }

  /** The identifiers of `bookings`, in order. */
  function IdsOf(bookings: seq<Booking>): (ids: seq<string>)
    ensures |ids| == |bookings| && forall i :: 0 <= i < |ids| ==> ids[i] == bookings[i].id
  {
    seq(|bookings|, i requires 0 <= i < |bookings| => bookings[i].id)
  }

  lemma IdsOfCons(b: Booking, rest: seq<Booking>)
    ensures IdsOf([b] + rest) == [b.id] + IdsOf(rest)
  {
    assert forall i :: 0 <= i < |rest| ==> ([b] + rest)[i + 1] == rest[i];
  }

  /** The tab state of the list: it starts on "upcoming" and a tab click selects that tab. */
  class BookingListView {
    var activeTab: string

    predicate Valid()
      reads this
    {
      activeTab in Tabs
    }

    constructor ()
      ensures activeTab == "upcoming" && Valid()
    {
      activeTab := "upcoming";
    }

    /** A click on one of the three tab buttons. */
    method SelectTab(tab: string)
      requires tab in Tabs
      modifies this
      ensures activeTab == tab && Valid()
    {
      activeTab := tab;
    }

    /** The bookings rendered for `bookings` at instant `now`. */
    function Shown(bookings: seq<Booking>, now: int): (r: seq<Booking>)
      reads this
      ensures IsSubseq(r, bookings)
      ensures forall b :: b in r <==> b in bookings && InTab(activeTab, now, b)
    {
      FilteredBookings(bookings, activeTab, now)
    }
  }

  // ----- lemmas -----

  /** The cancelled tab holds exactly the cancelled bookings, whatever the time. */
  lemma CancelledTabExact(bookings: seq<Booking>, now: int, later: int)
    ensures forall b :: b in FilteredBookings(bookings, "cancelled", now) <==>
                        b in bookings && b.status == Cancelled
    ensures FilteredBookings(bookings, "cancelled", now) == FilteredBookings(bookings, "cancelled", later)
  {
    FilterExt(bookings, TabPredicate("cancelled", now), TabPredicate("cancelled", later));
  }

  /** Every pending booking is upcoming whatever its date; no cancelled booking is. */
  lemma UpcomingTab(bookings: seq<Booking>, now: int)
    ensures forall i :: 0 <= i < |bookings| && bookings[i].status == Pending ==>
                        bookings[i] in FilteredBookings(bookings, "upcoming", now)
    ensures forall b :: b in FilteredBookings(bookings, "upcoming", now) ==> b.status != Cancelled
  {
  }

  /** The past tab holds only completed bookings whose day began before now. */
  lemma PastTab(bookings: seq<Booking>, now: int)
    ensures forall b :: b in FilteredBookings(bookings, "past", now) ==>
                        b.status == Completed && Midnight(b.date) < now
  {
  }

  /** No booking is shown under two of the three tabs. */
  lemma TabsDisjoint(bookings: seq<Booking>, now: int, b: Booking)
    ensures !(b in FilteredBookings(bookings, "upcoming", now) && b in FilteredBookings(bookings, "past", now))
    ensures !(b in FilteredBookings(bookings, "upcoming", now) && b in FilteredBookings(bookings, "cancelled", now))
    ensures !(b in FilteredBookings(bookings, "past", now) && b in FilteredBookings(bookings, "cancelled", now))
  {
  }

  /** A confirmed booking whose day has begun is listed under none of the tabs. */
  lemma ConfirmedStartedInNoTab(bookings: seq<Booking>, now: int, b: Booking)
    requires b.status == Confirmed && Midnight(b.date) < now
    ensures forall tab :: tab in Tabs ==> b !in FilteredBookings(bookings, tab, now)
  {
  }

  /** The seeded booking "1" (confirmed, dated the load day) vanishes from every tab once that day has begun. */
  lemma SeededConfirmedVanishes(loadDay: int, now: int)
    requires Midnight(loadDay) < now
    ensures forall tab :: tab in Tabs ==> SeedBookings(loadDay)[0] !in FilteredBookings(SeedBookings(loadDay), tab, now)
  {
    ConfirmedStartedInNoTab(SeedBookings(loadDay), now, SeedBookings(loadDay)[0]);
  }

  /** A tab value other than the three labels keeps the whole list. */
  lemma UnknownTabKeepsAll(bookings: seq<Booking>, tab: string, now: int)
    requires tab !in Tabs
    ensures FilteredBookings(bookings, tab, now) == bookings
  {
    assert tab != "upcoming" && tab != "past" && tab != "cancelled";
    forall i | 0 <= i < |bookings| ensures TabPredicate(tab, now)(bookings[i]) {
      assert InTab(tab, now, bookings[i]);
    }
    FilterKeepsAll(bookings, TabPredicate(tab, now));
  }

  /** The past and cancelled tabs never offer a cancel button; in the upcoming tab, exactly the
      confirmed bookings whose day has not begun do. */
  lemma CancelOfferedOnlyUpcoming(bookings: seq<Booking>, now: int)
    ensures CancelTargets(FilteredBookings(bookings, "past", now)) == []
    ensures CancelTargets(FilteredBookings(bookings, "cancelled", now)) == []
    ensures forall i :: 0 <= i < |bookings| ==>
              (bookings[i] in FilteredBookings(bookings, "upcoming", now) && OffersCancel(bookings[i]) <==>
               bookings[i].status == Confirmed && Midnight(bookings[i].date) >= now)
  {
    NoCancelTargets(FilteredBookings(bookings, "past", now));
    NoCancelTargets(FilteredBookings(bookings, "cancelled", now));
  }

  lemma {:induction false} NoCancelTargets(shown: seq<Booking>)
    requires forall i :: 0 <= i < |shown| ==> !OffersCancel(shown[i])
    ensures CancelTargets(shown) == []
  {
    if shown != [] {
      NoCancelTargets(shown[1..]);
    }
  }

  /** Distinct statuses get distinct badge colours. */
  lemma StatusColorInjective(s: Status, t: Status)
    requires StatusColor(s) == StatusColor(t)
    ensures s == t
  {
  }
}
