// The in-memory catalog (users, fields, reviews), the seeded booking ledger,
// the one-hour slot generator and the three lookups over those lists.
module MockData {
  import opened Seqs
  import opened Text

  datatype Role = UserRole | AdminRole
  datatype FieldType = Indoor | Outdoor
  datatype FieldSize = FiveASide | SevenASide
  datatype Status = Pending | Confirmed | Cancelled | Completed
  datatype PaymentStatus = PaymentPending | Paid

  /** `createdAt` is a `Date`, kept as milliseconds since the epoch. */
  datatype User = User(
    id: string, name: string, email: string, phone: string,
    role: Role, avatar: Option<string>, createdAt: int)

  /** `rating` is kept in tenths (4.8 is 48); times of day are `"HH:MM"` text. */
  datatype Field = Field(
    id: string, name: string, description: string, address: string, city: string,
    pricePerHour: nat, ratingTenths: nat, images: seq<string>,
    fieldType: FieldType, size: FieldSize, facilities: seq<string>,
    openingTime: string, closingTime: string, rules: seq<string>,
    featured: bool, createdAt: int)

  datatype TimeSlot = TimeSlot(id: string, startTime: string, endTime: string, isAvailable: bool)

  /** `date` is the calendar day the `"yyyy-MM-dd"` text names, as a day number. */
  datatype Booking = Booking(
    id: string, userId: string, fieldId: string, date: int,
    startTime: string, endTime: string, duration: nat, totalPrice: nat,
    status: Status, paymentMethod: string, paymentStatus: PaymentStatus, createdAt: int)

  datatype Review = Review(
    id: string, userId: string, fieldId: string, rating: nat, comment: string, createdAt: int)

  function FieldTypeName(t: FieldType): string
  {
    match t
    case Indoor => "indoor"
    case Outdoor => "outdoor"
  }

  // ----- seeded data -----

  /** A user's avatar picture. */
  function Avatar(photoId: string): string
  {
    "https://images.pexels.com/photos/" + photoId + "/pexels-photo-" + photoId + ".jpeg?auto=compress&cs=tinysrgb&w=600"
  }

  /** A field picture at 1260x750 and device pixel ratio `dpr`. */
  function Photo(photoId: string, dpr: string): string
  {
    "https://images.pexels.com/photos/" + photoId + "/pexels-photo-" + photoId + ".jpeg?" + PhotoQuery(dpr)
  }

  /** A field picture published under a descriptive file name. */
  function NamedPhoto(photoId: string, name: string, dpr: string): string
  {
    "https://images.pexels.com/photos/" + photoId + "/pexels-photo-" + photoId + "/free-photo-of-" + name +
    ".jpeg?" + PhotoQuery(dpr)
  }

  function PhotoQuery(dpr: string): string
  {
    "auto=compress&cs=tinysrgb&w=1260&h=750&dpr=" + dpr
  }

  const Users: seq<User> := [
    User("1", "Sanjaya", "sanjaya20@example.com", "081234567890", UserRole,
         Some(Avatar("220453")),
         1673308800000),
    User("2", "Zahra Arin", "zahra25@example.com", "081234567891", UserRole,
         Some(Avatar("415829")),
         1673740800000),
    User("3", "Admin Fikri", "admin@example.com", "081234567892", AdminRole,
         Some(Avatar("2379004")),
         1669852800000)
  ]

  const Fields: seq<Field> := [
    Field("1", "Futsal Arena Pro",
          "Professional indoor futsal field with top-quality turf and modern facilities.",
          "Jl. Sudirman No. 123", "Jakarta", 200000, 48,
          [Photo("114296", "1"),
           Photo("209956", "1"),
           Photo("274506", "1")],
          Outdoor, FiveASide, ["Parking", "Shower", "Locker", "Cafeteria", "WiFi"],
          "08:00", "22:00",
          ["No smoking", "No food or drinks on the field", "Proper footwear required"],
          true, 1655251200000),
    Field("2", "Golden Goal Futsal",
          "Premium outdoor futsal field with natural grass and excellent lighting for night games.",
          "Jl. Gatot Subroto No. 45", "Jakarta", 150000, 45,
          [Photo("274422", "1")],
          Outdoor, SevenASide, ["Parking", "Locker", "Cafeteria"],
          "09:00", "21:00",
          ["No smoking", "Proper footwear required"],
          true, 1658275200000),
    Field("3", "Victory Futsal Center",
          "Modern indoor futsal center with multiple fields and professional equipment.",
          "Jl. Kemang Raya No. 78", "Jakarta", 180000, 46,
          [Photo("6077792", "2")],
          Indoor, FiveASide, ["Parking", "Shower", "Locker", "WiFi"],
          "08:00", "23:00",
          ["No smoking", "No food or drinks on the field", "Proper footwear required"],
          false, 1660089600000),
    Field("4", "Champion Futsal",
          "Affordable indoor futsal field with good facilities and friendly staff.",
          "Jl. Kebon Jeruk No. 56", "Jakarta", 120000, 43,
          [NamedPhoto("16378313", "girls-playing-soccer-at-the-gymnasium", "2")],
          Indoor, FiveASide, ["Parking", "Locker"],
          "10:00", "22:00",
          ["No smoking", "Proper footwear required"],
          false, 1662336000000),
    Field("5", "Elite Futsal Stadium",
          "High-end futsal stadium with professional-grade turf and advanced facilities.",
          "Jl. Pantai Indah Kapuk No. 22", "Jakarta", 250000, 49,
          [NamedPhoto("15818644", "men-playing-football-indoors", "2")],
          Indoor, SevenASide,
          ["Parking", "Shower", "Locker", "Cafeteria", "WiFi", "Air Conditioning", "Pro Shop"],
          "07:00", "23:00",
          ["No smoking", "No food or drinks on the field", "Proper footwear required",
           "Booking confirmation required"],
          true, 1652313600000)
  ]

  /** The seeded ledger; its dates are relative to `loadDay`, the day the module was loaded. */
  function SeedBookings(loadDay: int): seq<Booking>
  {
    [
      Booking("1", "1", "1", loadDay, "18:00", "20:00", 2, 400000,
              Confirmed, "Credit Card", Paid, 1683676800000),
      Booking("2", "1", "2", loadDay + 2, "19:00", "21:00", 2, 300000,
              Pending, "Bank Transfer", PaymentPending, 1683849600000),
      Booking("3", "2", "3", loadDay - 5, "16:00", "18:00", 2, 360000,
              Completed, "E-Wallet", Paid, 1682640000000)
    ]
  }

  const Reviews: seq<Review> := [
    Review("1", "1", "1", 5, "Excellent field with great facilities. The staff was very helpful.", 1681516800000),
    Review("2", "2", "1", 4, "Good field and nice atmosphere. Would recommend for casual games.", 1681948800000),
    Review("3", "1", "2", 4, "Nice outdoor field with good pricing. The only downside is limited parking.", 1678406400000)
  ]

  // ----- lookups -----

  /** `fields.find(f => f.id === fieldId)` over a catalog. */
  function FindField(catalog: seq<Field>, fieldId: string): Option<Field>
  {
    Find(catalog, HasId(fieldId))
  }

  function HasId(fieldId: string): Field -> bool
  {
    (f: Field) => f.id == fieldId
  }

  /** A field whose identifier no earlier field carries is the one the lookup finds. */
  lemma FindFieldAt(catalog: seq<Field>, k: nat)
    requires k < |catalog|
    requires forall j :: 0 <= j < k ==> catalog[j].id != catalog[k].id
    ensures FindField(catalog, catalog[k].id) == Some(catalog[k])
  {
    var p := HasId(catalog[k].id);
    assert p(catalog[k]);
    assert forall j :: 0 <= j < k ==> !p(catalog[j]);
    var r := Find(catalog, p);
    var m :| 0 <= m < |catalog| && catalog[m] == r.value && p(catalog[m]) &&
             forall j :: 0 <= j < m ==> !p(catalog[j]);
    assert m == k;
  }

  /** `parseInt(t.split(':')[0])`: the hour of an `"HH:MM"` time. */
  function HourOf(t: string): Option<nat>
  {
    ParseInt(BeforeColon(t))
  }

  /** `getUserByCredentials`: only two hard-coded pairs are accepted, and the user is looked up by email. */
  function GetUserByCredentials(email: string, password: string): (r: Option<User>)
    ensures r.Some? ==> r.value in Users && r.value.email == email
    ensures r.Some? ==> (email == "john@example.com" && password == "password123") ||
                        (email == "admin@example.com" && password == "admin123")
  {
    if email == "john@example.com" && password == "password123" then
      Find(Users, (u: User) => u.email == email)
    else if email == "admin@example.com" && password == "admin123" then
      Find(Users, (u: User) => u.email == email)
    else None
  }

  /** `getBookingsByUserId`: exactly the user's bookings, in ledger order. */
  function GetBookingsByUserId(ledger: seq<Booking>, userId: string): (r: seq<Booking>)
    ensures IsSubseq(r, ledger)
    ensures forall b :: multiset(r)[b] == if b.userId == userId then multiset(ledger)[b] else 0
  {
    FilterContents(ledger, BookedBy(userId));
    Filter(ledger, BookedBy(userId))
  }

  function BookedBy(userId: string): Booking -> bool
  {
    (b: Booking) => b.userId == userId
  }

  /** `getReviewsByFieldId`: exactly the field's reviews, in list order. */
  function GetReviewsByFieldId(reviews: seq<Review>, fieldId: string): (r: seq<Review>)
    ensures IsSubseq(r, reviews)
    ensures forall v :: multiset(r)[v] == if v.fieldId == fieldId then multiset(reviews)[v] else 0
  {
    FilterContents(reviews, ReviewOf(fieldId));
    Filter(reviews, ReviewOf(fieldId))
  }

  function ReviewOf(fieldId: string): Review -> bool
  {
    (v: Review) => v.fieldId == fieldId
  }

  // ----- slot generation -----

  /** The slot for one hour; its identifier is `fieldId-date-startTime`. */
  function MakeSlot(fieldId: string, dateKey: string, hour: nat, available: bool): TimeSlot
  {
    var startTime := HourLabel(hour);
    TimeSlot(fieldId + "-" + dateKey + "-" + startTime, startTime, HourLabel(hour + 1), available)
  }

  /** One slot per hour from `opening` up to `closing`; the k-th draw of the oracle decides availability. */
  function SlotsBetween(fieldId: string, dateKey: string, opening: nat, closing: nat, coin: nat -> bool)
    : seq<TimeSlot>
  {
    if closing <= opening then []
    else seq(closing - opening, k requires 0 <= k < closing - opening =>
               MakeSlot(fieldId, dateKey, opening + k, coin(k)))
  }

  /** What `generateTimeSlots` returns; `coin(k)` is the k-th `Math.random() > 0.3`. */
  function GeneratedSlots(catalog: seq<Field>, fieldId: string, dateKey: string, coin: nat -> bool)
    : seq<TimeSlot>
  {
    var field := FindField(catalog, fieldId);
    if field.None? then []
    else
      var o, c := HourOf(field.value.openingTime), HourOf(field.value.closingTime);
      if o.None? || c.None? then [] else SlotsBetween(fieldId, dateKey, o.value, c.value, coin)
  }

  lemma SlotsBetweenGrow(fieldId: string, dateKey: string, o: nat, h: nat, coin: nat -> bool)
    requires o <= h
    ensures SlotsBetween(fieldId, dateKey, o, h + 1, coin) ==
            SlotsBetween(fieldId, dateKey, o, h, coin) + [MakeSlot(fieldId, dateKey, h, coin(h - o))]
  {
    var longer := SlotsBetween(fieldId, dateKey, o, h + 1, coin);
    var shorter := SlotsBetween(fieldId, dateKey, o, h, coin);
    var grown := shorter + [MakeSlot(fieldId, dateKey, h, coin(h - o))];
    assert |longer| == |grown|;
    forall k | 0 <= k < |longer| ensures longer[k] == grown[k] {
      SlotAt(fieldId, dateKey, o, h + 1, coin, k);
      if k < h - o {
        SlotAt(fieldId, dateKey, o, h, coin, k);
      }
    }
  }

  /** `generateTimeSlots(fieldId, date)`: the hour loop pushing one slot per iteration. */
  method GenerateTimeSlots(catalog: seq<Field>, fieldId: string, dateKey: string, coin: nat -> bool)
    returns (slots: seq<TimeSlot>)
    ensures slots == GeneratedSlots(catalog, fieldId, dateKey, coin)
  {
    slots := [];
    var field := FindField(catalog, fieldId);
    if field.None? {
      return;
    }
    var openingHour := HourOf(field.value.openingTime);
    var closingHour := HourOf(field.value.closingTime);
    if openingHour.None? || closingHour.None? {
      // a NaN bound makes `hour < closingHour` false at once
      return;
    }
    var o, c := openingHour.value, closingHour.value;
    var hour := o;
    while hour < c
      invariant o <= hour && (hour == o || hour <= c)
      invariant slots == SlotsBetween(fieldId, dateKey, o, hour, coin)
    {
      var startTime := HourLabel(hour);
      var endTime := HourLabel(hour + 1);
      var isAvailable := coin(hour - o);
      SlotsBetweenGrow(fieldId, dateKey, o, hour, coin);
      slots := slots + [TimeSlot(fieldId + "-" + dateKey + "-" + startTime, startTime, endTime, isAvailable)];
      hour := hour + 1;
    }
  }

  // ----- properties of the slot generator -----

  /** An unknown field, or an unreadable opening or closing time, yields no slot. */
  lemma NoSlotsWithoutHours(catalog: seq<Field>, fieldId: string, dateKey: string, coin: nat -> bool)
    requires FindField(catalog, fieldId).None? ||
             HourOf(FindField(catalog, fieldId).value.openingTime).None? ||
             HourOf(FindField(catalog, fieldId).value.closingTime).None?
    ensures GeneratedSlots(catalog, fieldId, dateKey, coin) == []
  {
  }

  /** For a known field with readable hours: `max(0, closing - opening)` slots, slot k running
      from `HH:00` of hour `opening + k` to that of the next hour, so consecutive slots touch,
      the first starts at the opening hour and the last ends at the closing hour. */
  lemma SlotsCoverOpeningHours(catalog: seq<Field>, fieldId: string, dateKey: string, coin: nat -> bool,
                               o: nat, c: nat)
    requires FindField(catalog, fieldId).Some?
    requires HourOf(FindField(catalog, fieldId).value.openingTime) == Some(o)
    requires HourOf(FindField(catalog, fieldId).value.closingTime) == Some(c)
    ensures GeneratedSlots(catalog, fieldId, dateKey, coin) == SlotsBetween(fieldId, dateKey, o, c, coin)
    ensures SlotsSpanHours(SlotsBetween(fieldId, dateKey, o, c, coin), o, c)
  {
    SlotsBetweenSpan(fieldId, dateKey, o, c, coin);
  }

  /** Slot k runs from hour `o + k` to the next hour. */
  predicate HourlyFrom(slots: seq<TimeSlot>, o: nat)
  {
    forall k :: 0 <= k < |slots| ==>
      slots[k].startTime == HourLabel(o + k) && slots[k].endTime == HourLabel(o + k + 1)
  }

  /** `slots` holds one slot per hour from `o` to `c`, each one hour long, touching the next. */
  predicate SlotsSpanHours(slots: seq<TimeSlot>, o: nat, c: nat)
  {
    && |slots| == (if c > o then c - o else 0)
    && HourlyFrom(slots, o)
    && (forall k :: 0 <= k < |slots| - 1 ==> slots[k].endTime == slots[k + 1].startTime)
    && (slots != [] ==> slots[0].startTime == HourLabel(o) && slots[|slots| - 1].endTime == HourLabel(c))
  }

  lemma HourlySlotsSpan(slots: seq<TimeSlot>, o: nat, c: nat)
    requires |slots| == (if c > o then c - o else 0) && HourlyFrom(slots, o)
    ensures SlotsSpanHours(slots, o, c)
  {
    HourlySlotsTouch(slots, o);
    HourlySlotsEnds(slots, o, c);
  }

  lemma HourlySlotsTouch(slots: seq<TimeSlot>, o: nat)
    requires HourlyFrom(slots, o)
    ensures forall k :: 0 <= k < |slots| - 1 ==> slots[k].endTime == slots[k + 1].startTime
  {
  }

  lemma HourlySlotsEnds(slots: seq<TimeSlot>, o: nat, c: nat)
    requires |slots| == (if c > o then c - o else 0) && HourlyFrom(slots, o)
    ensures slots != [] ==> slots[0].startTime == HourLabel(o) && slots[|slots| - 1].endTime == HourLabel(c)
  {
  }

  lemma SlotsBetweenSpan(fieldId: string, dateKey: string, o: nat, c: nat, coin: nat -> bool)
    ensures SlotsSpanHours(SlotsBetween(fieldId, dateKey, o, c, coin), o, c)
  {
    var slots := SlotsBetween(fieldId, dateKey, o, c, coin);
    forall k | 0 <= k < |slots|
      ensures slots[k].startTime == HourLabel(o + k) && slots[k].endTime == HourLabel(o + k + 1)
    {
      SlotAt(fieldId, dateKey, o, c, coin, k);
    }
    HourlySlotsSpan(slots, o, c);
  }

  lemma SlotAt(fieldId: string, dateKey: string, o: nat, c: nat, coin: nat -> bool, k: nat)
    requires k < |SlotsBetween(fieldId, dateKey, o, c, coin)|
    ensures SlotsBetween(fieldId, dateKey, o, c, coin)[k] == MakeSlot(fieldId, dateKey, o + k, coin(k))
  {
  }

  /** Reading a slot's times back with `parseInt(t.split(':')[0])` gives its hours. */
  lemma SlotHoursReadBack(fieldId: string, dateKey: string, o: nat, c: nat, coin: nat -> bool, k: nat)
    requires k < |SlotsBetween(fieldId, dateKey, o, c, coin)|
    ensures var slot := SlotsBetween(fieldId, dateKey, o, c, coin)[k];
      HourOf(slot.startTime) == Some(o + k) && HourOf(slot.endTime) == Some(o + k + 1)
  {
    SlotAt(fieldId, dateKey, o, c, coin, k);
    HourLabelParses(o + k);
    HourLabelParses(o + k + 1);
  }

  lemma SlotIdsDistinctBetween(fieldId: string, dateKey: string, o: nat, c: nat, coin: nat -> bool)
    ensures var slots := SlotsBetween(fieldId, dateKey, o, c, coin);
      forall i, j :: 0 <= i < j < |slots| ==> slots[i].id != slots[j].id
  {
    var slots := SlotsBetween(fieldId, dateKey, o, c, coin);
    forall i, j | 0 <= i < j < |slots| ensures slots[i].id != slots[j].id {
      SlotIdsDiffer(fieldId, dateKey, o, c, coin, i, j);
    }
  }

  lemma SlotIdsDiffer(fieldId: string, dateKey: string, o: nat, c: nat, coin: nat -> bool, i: nat, j: nat)
    requires i < j < |SlotsBetween(fieldId, dateKey, o, c, coin)|
    ensures SlotsBetween(fieldId, dateKey, o, c, coin)[i].id != SlotsBetween(fieldId, dateKey, o, c, coin)[j].id
  {
    SlotAt(fieldId, dateKey, o, c, coin, i);
    SlotAt(fieldId, dateKey, o, c, coin, j);
    MakeSlotIdsDiffer(fieldId, dateKey, o + i, o + j, coin(i), coin(j));
  }

  lemma MakeSlotIdsDiffer(fieldId: string, dateKey: string, h1: nat, h2: nat, a1: bool, a2: bool)
    requires h1 != h2
    ensures MakeSlot(fieldId, dateKey, h1, a1).id != MakeSlot(fieldId, dateKey, h2, a2).id
  {
    PrefixedLabelsDiffer(fieldId + "-" + dateKey + "-", h1, h2);
  }

  lemma PrefixedLabelsDiffer(prefix: string, h1: nat, h2: nat)
    requires h1 != h2
    ensures prefix + HourLabel(h1) != prefix + HourLabel(h2)
  {
    var s1, s2 := HourLabel(h1), HourLabel(h2);
    assert s1 == (prefix + s1)[|prefix|..];
    assert s2 == (prefix + s2)[|prefix|..];
    if s1 == s2 {
      HourLabelInjective(h1, h2);
    }
  }

  /** Slot identifiers are pairwise distinct within one call. */
  lemma SlotIdsDistinct(catalog: seq<Field>, fieldId: string, dateKey: string, coin: nat -> bool)
    ensures var slots := GeneratedSlots(catalog, fieldId, dateKey, coin);
      forall i, j :: 0 <= i < j < |slots| ==> slots[i].id != slots[j].id
  {
    var field := FindField(catalog, fieldId);
    if field.Some? {
      var o, c := HourOf(field.value.openingTime), HourOf(field.value.closingTime);
      if o.Some? && c.Some? {
        SlotIdsDistinctBetween(fieldId, dateKey, o.value, c.value, coin);
      }
    }
  }

  /** The oracle decides availability and nothing else: identifiers and times do not depend on it. */
  lemma SlotsIgnoreOracleExceptAvailability(catalog: seq<Field>, fieldId: string, dateKey: string,
                                            coin1: nat -> bool, coin2: nat -> bool)
    ensures var s1, s2 := GeneratedSlots(catalog, fieldId, dateKey, coin1),
                          GeneratedSlots(catalog, fieldId, dateKey, coin2);
      |s1| == |s2| &&
      forall k :: 0 <= k < |s1| ==>
        s1[k].id == s2[k].id && s1[k].startTime == s2[k].startTime && s1[k].endTime == s2[k].endTime
  {
    var field := FindField(catalog, fieldId);
    if field.Some? {
      var o, c := HourOf(field.value.openingTime), HourOf(field.value.closingTime);
      if o.Some? && c.Some? {
        SlotsBetweenIgnoreOracle(fieldId, dateKey, o.value, c.value, coin1, coin2);
      }
    }
  }

  lemma SlotsBetweenIgnoreOracle(fieldId: string, dateKey: string, o: nat, c: nat,
                                 coin1: nat -> bool, coin2: nat -> bool)
    ensures var s1, s2 := SlotsBetween(fieldId, dateKey, o, c, coin1), SlotsBetween(fieldId, dateKey, o, c, coin2);
      |s1| == |s2| &&
      forall k :: 0 <= k < |s1| ==>
        s1[k].id == s2[k].id && s1[k].startTime == s2[k].startTime && s1[k].endTime == s2[k].endTime
  {
    var s1, s2 := SlotsBetween(fieldId, dateKey, o, c, coin1), SlotsBetween(fieldId, dateKey, o, c, coin2);
    forall k | 0 <= k < |s1|
      ensures s1[k].id == s2[k].id && s1[k].startTime == s2[k].startTime && s1[k].endTime == s2[k].endTime
    {
      SlotAt(fieldId, dateKey, o, c, coin1, k);
      SlotAt(fieldId, dateKey, o, c, coin2, k);
    }
  }

  /** Field "1" (08:00 to 22:00) has fourteen slots, from 08:00-09:00 to 21:00-22:00. */
  lemma ArenaProSlots(dateKey: string, coin: nat -> bool)
    ensures var slots := GeneratedSlots(Fields, "1", dateKey, coin);
      |slots| == 14 &&
      slots[0].startTime == "08:00" && slots[0].endTime == "09:00" &&
      slots[13].startTime == "21:00" && slots[13].endTime == "22:00"
  {
    ArenaProHours();
    SlotsCoverOpeningHours(Fields, "1", dateKey, coin, 8, 22);
    ArenaProLabels(SlotsBetween("1", dateKey, 8, 22, coin));
  }

  lemma ArenaProHours()
    ensures FindField(Fields, "1") == Some(Fields[0])
    ensures HourOf(Fields[0].openingTime) == Some(8) && HourOf(Fields[0].closingTime) == Some(22)
  {
    SeedFieldFound(0);
    HourOfLiteral(8, "08:00");
    HourOfLiteral(22, "22:00");
  }

  lemma ArenaProLabels(slots: seq<TimeSlot>)
    requires SlotsSpanHours(slots, 8, 22)
    ensures |slots| == 14
    ensures slots[0].startTime == "08:00" && slots[0].endTime == "09:00"
    ensures slots[13].startTime == "21:00" && slots[13].endTime == "22:00"
  {
    assert HourlyFrom(slots, 8);
    ArenaProFirstLabels(slots[0]);
    ArenaProLastLabels(slots[13]);
  }

  lemma ArenaProFirstLabels(slot: TimeSlot)
    requires slot.startTime == HourLabel(8) && slot.endTime == HourLabel(9)
    ensures slot.startTime == "08:00" && slot.endTime == "09:00"
  {
    HourLabelLiteral(8, "08:00");
    HourLabelLiteral(9, "09:00");
  }

  lemma ArenaProLastLabels(slot: TimeSlot)
    requires slot.startTime == HourLabel(21) && slot.endTime == HourLabel(22)
    ensures slot.startTime == "21:00" && slot.endTime == "22:00"
  {
    HourLabelLiteral(21, "21:00");
    HourLabelLiteral(22, "22:00");
  }

  /** A literal `"HH:00"` text is the label of hour HH ... */
  lemma HourLabelLiteral(h: nat, s: string)
    requires h < 100 && |s| == 5 && s[0] == DigitChar(h / 10) && s[1] == DigitChar(h % 10) && s[2..] == ":00"
    ensures HourLabel(h) == s
  {
    HourLabelDigits(h);
    TwoDigitsThenColon(s, DigitChar(h / 10), DigitChar(h % 10));
  }

  lemma TwoDigitsThenColon(s: string, tens: char, units: char)
    requires |s| == 5 && s[0] == tens && s[1] == units && s[2..] == ":00"
    ensures s == [tens, units] + ":00"
  {
    assert s == [s[0], s[1]] + s[2..];
  }

  /** ... and reads back as HH. */
  lemma HourOfLiteral(h: nat, s: string)
    requires h < 100 && |s| == 5 && s[0] == DigitChar(h / 10) && s[1] == DigitChar(h % 10) && s[2..] == ":00"
    ensures HourOf(s) == Some(h)
  {
    HourLabelLiteral(h, s);
    HourLabelParses(h);
  }

  /** Every slot label reads back as its hour. */
  lemma HourOfLabel(h: nat)
    ensures HourOf(HourLabel(h)) == Some(h)
  {
    HourLabelParses(h);
  }

  /** An hour written without padding and followed by `":00"` reads back as that hour. */
  lemma HourOfUnpadded(n: nat)
    ensures HourOf(NatToString(n) + ":00") == Some(n)
  {
    ParseNatToString(n);
    BeforeColonOf(NatToString(n), "00");
    assert NatToString(n) + ":00" == NatToString(n) + ":" + "00";
  }

  predicate OpensBeforeCloses(f: Field)
  {
    HourOf(f.openingTime).Some? && HourOf(f.closingTime).Some? &&
    HourOf(f.openingTime).value < HourOf(f.closingTime).value
  }

  /** Every seeded field opens strictly before it closes. */
  lemma SeedFieldsOpenBeforeClose()
    ensures forall i :: 0 <= i < |Fields| ==> OpensBeforeCloses(Fields[i])
  {
    forall i | 0 <= i < |Fields| ensures OpensBeforeCloses(Fields[i]) {
      SeedFieldOpensBeforeCloses(i);
    }
  }

  lemma SeedFieldOpensBeforeCloses(i: nat)
    requires i < |Fields|
    ensures OpensBeforeCloses(Fields[i])
  {
    if i == 0 {
      HourOfLiteral(8, "08:00");
      HourOfLiteral(22, "22:00");
    } else if i == 1 {
      HourOfLiteral(9, "09:00");
      HourOfLiteral(21, "21:00");
    } else if i == 2 {
      HourOfLiteral(8, "08:00");
      HourOfLiteral(23, "23:00");
    } else if i == 3 {
      HourOfLiteral(10, "10:00");
      HourOfLiteral(22, "22:00");
    } else {
      HourOfLiteral(7, "07:00");
      HourOfLiteral(23, "23:00");
    }
  }

  /** The booking costs its field's hourly price times its duration and ends `duration`
      hours after it starts. */
  predicate PricedAndTimed(catalog: seq<Field>, b: Booking)
  {
    FindField(catalog, b.fieldId).Some? &&
    b.totalPrice == FindField(catalog, b.fieldId).value.pricePerHour * b.duration &&
    HourOf(b.startTime).Some? && HourOf(b.endTime).Some? &&
    HourOf(b.endTime).value == HourOf(b.startTime).value + b.duration
  }

  /** Every seeded booking is priced and timed consistently with the catalog. */
  lemma SeedBookingsConsistent(loadDay: int)
    ensures forall i :: 0 <= i < |SeedBookings(loadDay)| ==> PricedAndTimed(Fields, SeedBookings(loadDay)[i])
  {
    forall i | 0 <= i < |SeedBookings(loadDay)| ensures PricedAndTimed(Fields, SeedBookings(loadDay)[i]) {
      SeedBookingConsistent(loadDay, i);
    }
  }

  lemma SeedBookingConsistent(loadDay: int, i: nat)
    requires i < |SeedBookings(loadDay)|
    ensures PricedAndTimed(Fields, SeedBookings(loadDay)[i])
  {
    var b := SeedBookings(loadDay)[i];
    if i == 0 {
      TwoHourBooking(b, 18, "18:00", 20, "20:00");
    } else if i == 1 {
      TwoHourBooking(b, 19, "19:00", 21, "21:00");
    } else {
      TwoHourBooking(b, 16, "16:00", 18, "18:00");
    }
    SeedBookingPriced(b, i);
  }

  lemma SeedBookingPriced(b: Booking, k: nat)
    requires k < 3 && b.fieldId == Fields[k].id && b.totalPrice == Fields[k].pricePerHour * b.duration
    requires HourOf(b.startTime).Some? && HourOf(b.endTime).Some?
    requires HourOf(b.endTime).value == HourOf(b.startTime).value + b.duration
    ensures PricedAndTimed(Fields, b)
  {
    SeedFieldFound(k);
  }

  lemma SeedFieldFound(i: nat)
    requires i < 3
    ensures FindField(Fields, Fields[i].id) == Some(Fields[i])
  {
    assert Fields[0].id == "1" && Fields[1].id == "2" && Fields[2].id == "3";
    FindFieldAt(Fields, i);
  }

  lemma TwoHourBooking(b: Booking, h1: nat, s1: string, h2: nat, s2: string)
    requires h1 < 99 && h2 < 100 && b.startTime == s1 && b.endTime == s2 && b.duration == 2 && h2 == h1 + 2
    requires |s1| == 5 && s1[0] == DigitChar(h1 / 10) && s1[1] == DigitChar(h1 % 10) && s1[2..] == ":00"
    requires |s2| == 5 && s2[0] == DigitChar(h2 / 10) && s2[1] == DigitChar(h2 % 10) && s2[2..] == ":00"
    ensures HourOf(b.startTime) == Some(h1) && HourOf(b.endTime) == Some(h1 + b.duration)
  {
    HourOfLiteral(h1, s1);
    HourOfLiteral(h2, s2);
  }

  /** Only the seeded admin can log in: the john@example.com account does not exist. */
  lemma CredentialsAcceptOnlyAdmin(email: string, password: string)
    ensures GetUserByCredentials(email, password).Some? <==>
            email == "admin@example.com" && password == "admin123"
    ensures GetUserByCredentials("admin@example.com", "admin123") == Some(Users[2])
  {
    var john := (u: User) => u.email == "john@example.com";
    assert forall i :: 0 <= i < |Users| ==> !john(Users[i]);
  }

  /** The seeded admin has no booking; the first user has two. */
  lemma SeedBookingsByUser(loadDay: int)
    ensures GetBookingsByUserId(SeedBookings(loadDay), "3") == []
    ensures GetBookingsByUserId(SeedBookings(loadDay), "1") == SeedBookings(loadDay)[..2]
  {
    var l := SeedBookings(loadDay);
    assert l == [l[0], l[1], l[2]];
    OwnersOfThree(l[0], l[1], l[2]);
    assert l[..2] == [l[0], l[1]];
  }

  lemma OwnersOfThree(a: Booking, b: Booking, c: Booking)
    requires a.userId == "1" && b.userId == "1" && c.userId == "2"
    ensures Filter([a, b, c], BookedBy("3")) == []
    ensures Filter([a, b, c], BookedBy("1")) == [a, b]
  {
    var admin, first := BookedBy("3"), BookedBy("1");
    assert !admin(a) && !admin(b) && !admin(c);
    assert first(a) && first(b) && !first(c);
    FilterOfThree(a, b, c, admin);
    FilterOfThree(a, b, c, first);
  }

  /** Field "1" has the first two reviews. */
  lemma SeedReviewsByField()
    ensures GetReviewsByFieldId(Reviews, "1") == Reviews[..2]
  {
    var l := Reviews;
    assert l == [l[0], l[1], l[2]];
    ReviewsOfThree(l[0], l[1], l[2]);
    assert l[..2] == [l[0], l[1]];
  }

  lemma ReviewsOfThree(a: Review, b: Review, c: Review)
    requires a.fieldId == "1" && b.fieldId == "1" && c.fieldId == "2"
    ensures Filter([a, b, c], ReviewOf("1")) == [a, b]
  {
    FilterOfThree(a, b, c, ReviewOf("1"));
  }

  lemma FilterOfThree<T(!new)>(a: T, b: T, c: T, p: T -> bool)
    ensures Filter([a, b, c], p) ==
            (if p(a) then [a] else []) + (if p(b) then [b] else []) + (if p(c) then [c] else [])
  {
    var one, two := if p(b) then [b] else [], if p(c) then [c] else [];
    assert Filter([c], p) == two by { assert [c][1..] == []; }
    assert Filter([b, c], p) == one + two by { assert [b, c][1..] == [c]; }
    assert [a, b, c][1..] == [b, c];
  }
}
