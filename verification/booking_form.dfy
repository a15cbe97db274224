// The two-step booking wizard on a field's page: pick a day, an available
// slot and a duration, then a payment method, then submit.
module BookingForm {
  import opened Seqs
  import opened Text
  import opened MockData

  /** What the wizard submits; `date` is the chosen day number. */
  datatype BookingFormData = BookingFormData(date: int, startTime: string, duration: nat, paymentMethod: string)

  /** The three payment buttons. */
  const PaymentMethods: set<string> := {"Credit Card", "Bank Transfer", "E-Wallet"}

  /** The three duration buttons. */
  const Durations: set<nat> := {1, 2, 3}

  /** The summary's end time: `${parseInt(start.split(':')[0]) + duration}:00`, not zero-padded;
      an unreadable start gives `NaN`. */
  function EndTimeLabel(startTime: string, duration: nat): (r: string)
    ensures HourOf(startTime).None? <==> r == "NaN:00"
  {
    match HourOf(startTime)
    case None => "NaN:00"
    case Some(h) =>
      var r := NatToString(h + duration) + ":00";
      assert IsDigit(r[0]);
      r
  }

  /** The summary's total: the hourly price times the duration. */
  function TotalPrice(field: Field, duration: nat): (r: nat)
    ensures duration > 0 ==> r >= field.pricePerHour
    ensures r == 0 <==> field.pricePerHour == 0 || duration == 0
    ensures duration > 0 ==> r == TotalPrice(field, duration - 1) + field.pricePerHour
  {
    field.pricePerHour * duration
  }

  /** `getNextDays`: today and the six days after it. */
  method GetNextDays(today: int) returns (days: seq<int>)
    ensures |days| == 7
    ensures forall i :: 0 <= i < |days| ==> days[i] == today + i
  {
    days := [];
    var i := 0;
    while i < 7
      invariant 0 <= i <= 7 && |days| == i
      invariant forall j :: 0 <= j < i ==> days[j] == today + j
    {
      days := days + [today + i];
      i := i + 1;
    }
  }

  /** The wizard's state for one field. Handlers are called only while their buttons are on screen:
      the day, slot, duration and next buttons at step 1, the payment, back and confirm buttons at step 2. */
  class BookingWizard {
    const catalog: seq<Field>
    const field: Field
    var step: nat
    var date: int
    var timeSlots: seq<TimeSlot>
    var selectedTimeSlot: string
    var duration: nat
    var paymentMethod: string

    /** The rules the handlers keep: a valid step and duration, step 2 only with a chosen slot, a chosen
        slot is the start of an available slot of the current day, and a payment method is one listed. */
    predicate Valid()
      reads this
    {
      (step == 1 || step == 2) &&
      duration in Durations &&
      (step == 2 ==> selectedTimeSlot != "") &&
      (selectedTimeSlot != "" ==> exists i :: 0 <= i < |timeSlots| && timeSlots[i].isAvailable &&
                                              timeSlots[i].startTime == selectedTimeSlot) &&
      (paymentMethod == "" || paymentMethod in PaymentMethods)
    }

    /** Mounting the form on `today`; the slot effect runs once with the first availability draws `coin`.
        `catalog` is the field list the slot generator looks the field up in (the seeded `Fields`). */
    constructor (catalog: seq<Field>, field: Field, today: int, coin: nat -> bool)
      ensures this.catalog == catalog && this.field == field && step == 1 && date == today
      ensures timeSlots == GeneratedSlots(catalog, field.id, DayKey(today), coin)
      ensures selectedTimeSlot == "" && duration == 1 && paymentMethod == ""
      ensures Valid()
    {
      this.catalog := catalog;
      this.field := field;
      step := 1;
      date := today;
      selectedTimeSlot := "";
      duration := 1;
      paymentMethod := "";
      new;
      timeSlots := GenerateTimeSlots(catalog, field.id, DayKey(today), coin);
    }

    /** A day button: the date changes, the slot effect regenerates the slots and clears the choice. */
    method ChangeDate(newDate: int, coin: nat -> bool)
      requires step == 1 && Valid()
      modifies this
      ensures date == newDate && timeSlots == GeneratedSlots(catalog, field.id, DayKey(newDate), coin)
      ensures selectedTimeSlot == ""
      ensures step == old(step) && duration == old(duration) && paymentMethod == old(paymentMethod)
      ensures Valid()
    {
      date := newDate;
      timeSlots := GenerateTimeSlots(catalog, field.id, DayKey(newDate), coin);
      selectedTimeSlot := "";
    }

    /** A slot button; the button of an unavailable slot is disabled. */
    method SelectSlot(i: nat)
      requires step == 1 && Valid() && i < |timeSlots|
      modifies this
      ensures selectedTimeSlot == if old(timeSlots[i].isAvailable) then old(timeSlots[i].startTime)
                                  else old(selectedTimeSlot)
      ensures step == old(step) && date == old(date) && timeSlots == old(timeSlots)
      ensures duration == old(duration) && paymentMethod == old(paymentMethod)
      ensures Valid()
    {
      if timeSlots[i].isAvailable {
        selectedTimeSlot := timeSlots[i].startTime;
      }
    }

    /** A duration button. */
    method SetDuration(hours: nat)
      requires step == 1 && Valid() && hours in Durations
      modifies this
      ensures duration == hours
      ensures step == old(step) && date == old(date) && timeSlots == old(timeSlots)
      ensures selectedTimeSlot == old(selectedTimeSlot) && paymentMethod == old(paymentMethod)
      ensures Valid()
    {
      duration := hours;
    }

    /** The next button, disabled while no slot is chosen. */
    method Next()
      requires step == 1 && Valid()
      modifies this
      ensures step == if old(selectedTimeSlot) != "" then 2 else 1
      ensures date == old(date) && timeSlots == old(timeSlots) && selectedTimeSlot == old(selectedTimeSlot)
      ensures duration == old(duration) && paymentMethod == old(paymentMethod)
      ensures Valid()
    {
      if selectedTimeSlot != "" {
        step := 2;
      }
    }

    /** The back button: returns to step 1 keeping every choice. */
    method Back()
      requires step == 2 && Valid()
      modifies this
      ensures step == 1
      ensures date == old(date) && timeSlots == old(timeSlots) && selectedTimeSlot == old(selectedTimeSlot)
      ensures duration == old(duration) && paymentMethod == old(paymentMethod)
      ensures Valid()
    {
      step := 1;
    }

    /** A payment button. */
    method SetPaymentMethod(choice: string)
      requires step == 2 && Valid() && choice in PaymentMethods
      modifies this
      ensures paymentMethod == choice
      ensures step == old(step) && date == old(date) && timeSlots == old(timeSlots)
      ensures selectedTimeSlot == old(selectedTimeSlot) && duration == old(duration)
      ensures Valid()
    {
      paymentMethod := choice;
    }

    /** The confirm button, disabled until a payment method is chosen; the payload is the current
        day, start time, duration and payment method. */
    method Submit() returns (data: Option<BookingFormData>)
      requires step == 2 && Valid()
      ensures data.Some? <==> paymentMethod != ""
      ensures data.Some? ==> data.value == BookingFormData(date, selectedTimeSlot, duration, paymentMethod)
      ensures data.Some? ==> data.value.duration in Durations && data.value.paymentMethod in PaymentMethods
      ensures data.Some? ==> exists i :: 0 <= i < |timeSlots| && timeSlots[i].isAvailable &&
                                         timeSlots[i].startTime == data.value.startTime
    {
      if paymentMethod == "" {
        return None;
      }
      data := Some(BookingFormData(date, selectedTimeSlot, duration, paymentMethod));
    }
  }

  // ----- lemmas -----

  /** For a slot label, the end time is the hour plus the duration, written without padding. */
  lemma EndTimeOfSlot(h: nat, duration: nat)
    ensures EndTimeLabel(HourLabel(h), duration) == NatToString(h + duration) + ":00"
    ensures HourOf(EndTimeLabel(HourLabel(h), duration)) == Some(h + duration)
  {
    HourOfLabel(h);
    EndTimeAfter(HourLabel(h), duration, h);
    HourOfUnpadded(h + duration);
  }

  lemma EndTimeAfter(startTime: string, duration: nat, h: nat)
    requires HourOf(startTime) == Some(h)
    ensures EndTimeLabel(startTime, duration) == NatToString(h + duration) + ":00"
  {
  }

  /** The summary's end time agrees with the generator's padded label exactly from ten o'clock on. */
  lemma EndTimeMatchesSlotLabel(h: nat, duration: nat)
    ensures EndTimeLabel(HourLabel(h), duration) == HourLabel(h + duration) <==> h + duration >= 10
  {
    EndTimeOfSlot(h, duration);
    var s := NatToString(h + duration);
    if h + duration < 10 {
      assert |s + ":00"| == 4 && |HourLabel(h + duration)| == 5;
    }
  }

  /** An eight o'clock one-hour booking ends at `"9:00"`, not `"09:00"`. */
  lemma EightOClockForOneHour()
    ensures EndTimeLabel("08:00", 1) == "9:00"
  {
    HourOfLiteral(8, "08:00");
  }

  /** A booking built from the summary's figures satisfies the ledger's consistency rule. */
  lemma SummaryBookingConsistent(field: Field, h: nat, duration: nat, b: Booking)
    requires FindField(Fields, b.fieldId) == Some(field)
    requires b.startTime == HourLabel(h) && b.duration == duration
    requires b.endTime == EndTimeLabel(b.startTime, duration) && b.totalPrice == TotalPrice(field, duration)
    ensures PricedAndTimed(Fields, b)
  {
    EndTimeOfSlot(h, duration);
    HourLabelParses(h);
  }
}
