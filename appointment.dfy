/**
 * The appointment booking wizard (app/appointment.tsx): pick a doctor, a
 * service, a date and a time, in that order, then confirm the booking. The
 * step indicator shows four circles; the date list covers 21 days from today.
 */
module Appointment {
  import opened Wrappers

  /** A doctor of the catalogue; name, rating and photo are display-only. */
  datatype Doctor = Doctor(id: nat, price: nat)

  /** A service of the catalogue; name, duration and description are display-only. */
  datatype Service = Service(id: nat, price: nat)

  const Doctors: seq<Doctor> := [Doctor(1, 150), Doctor(2, 200), Doctor(3, 180)]

  const Services: seq<Service> := [Service(1, 0), Service(2, 50), Service(3, 100), Service(4, 25)]

  const TimeSlots: seq<string> := [
    "9:00 ص", "9:30 ص", "10:00 ص", "10:30 ص",
    "11:00 ص", "11:30 ص", "2:00 م", "2:30 م",
    "3:00 م", "3:30 م", "4:00 م", "4:30 م"
  ]

  /** The number of days offered by the calendar. */
  const DateCount: nat := 21

  // ---------------------------------------------------------------------------
  // The date list
  // ---------------------------------------------------------------------------

  /**
   * One day of the calendar, `offset` days after today. `weekday` is the
   * day of the week numbered as JavaScript's getDay (0 is Sunday).
   */
  datatype DateEntry = DateEntry(offset: nat, weekday: nat, isToday: bool, isWeekend: bool)

  predicate IsWeekendDay(weekday: nat)
  {
    weekday == 5 || weekday == 6
  }

  /** Build the 21 calendar entries starting from today, whose weekday is `todayWeekday`. */
  method GenerateDates(todayWeekday: nat) returns (dates: seq<DateEntry>)
    ensures |dates| == DateCount
    ensures forall i :: 0 <= i < |dates| ==> dates[i].offset == i && dates[i].weekday == (todayWeekday + i) % 7
    ensures forall i :: 0 <= i < |dates| ==> (dates[i].isToday <==> i == 0)
    ensures forall i :: 0 <= i < |dates| ==> (dates[i].isWeekend <==> IsWeekendDay(dates[i].weekday))
  {
    dates := [];
    for i := 0 to DateCount
      invariant |dates| == i
      invariant forall k :: 0 <= k < i ==> dates[k].offset == k && dates[k].weekday == (todayWeekday + k) % 7
      invariant forall k :: 0 <= k < i ==> (dates[k].isToday <==> k == 0)
      invariant forall k :: 0 <= k < i ==> (dates[k].isWeekend <==> IsWeekendDay(dates[k].weekday))
    {
      var weekday := (todayWeekday + i) % 7;
      dates := dates + [DateEntry(i, weekday, i == 0, IsWeekendDay(weekday))];
    }
  }

  /** The number of weekend entries in a date list. */
  function CountWeekends(dates: seq<DateEntry>): nat
  {
    if dates == [] then 0
    else CountWeekends(dates[..|dates| - 1]) + (if dates[|dates| - 1].isWeekend then 1 else 0)
  }

  /** 1 when the day `x` days after a Sunday is a weekend day. */
  function WeekendIndicator(x: nat): nat
  {
    if IsWeekendDay(x % 7) then 1 else 0
  }

  /** The number of weekend days among the `n` days starting on weekday `w`. */
  function WeekendDaysFrom(w: nat, n: nat): nat
  {
    if n == 0 then 0 else WeekendDaysFrom(w, n - 1) + WeekendIndicator(w + n - 1)
  }

  /** Seven consecutive days hold exactly two weekend days. */
  lemma {:induction false} SevenDaysTwoWeekendDays(x: nat)
    ensures WeekendIndicator(x) + WeekendIndicator(x + 1) + WeekendIndicator(x + 2) + WeekendIndicator(x + 3)
          + WeekendIndicator(x + 4) + WeekendIndicator(x + 5) + WeekendIndicator(x + 6) == 2
  {
    if x > 0 {
      SevenDaysTwoWeekendDays(x - 1);
      assert (x - 1 + 7) % 7 == (x - 1) % 7;
    }
  }

  /** Any seven consecutive days of the calendar hold exactly two weekend days. */
  lemma WeekHasTwoWeekendDays(w: nat, n: nat)
    ensures WeekendDaysFrom(w, n + 7) == WeekendDaysFrom(w, n) + 2
  {
    assert WeekendDaysFrom(w, n + 7) == WeekendDaysFrom(w, n + 6) + WeekendIndicator(w + n + 6);
    assert WeekendDaysFrom(w, n + 6) == WeekendDaysFrom(w, n + 5) + WeekendIndicator(w + n + 5);
    assert WeekendDaysFrom(w, n + 5) == WeekendDaysFrom(w, n + 4) + WeekendIndicator(w + n + 4);
    assert WeekendDaysFrom(w, n + 4) == WeekendDaysFrom(w, n + 3) + WeekendIndicator(w + n + 3);
    assert WeekendDaysFrom(w, n + 3) == WeekendDaysFrom(w, n + 2) + WeekendIndicator(w + n + 2);
    assert WeekendDaysFrom(w, n + 2) == WeekendDaysFrom(w, n + 1) + WeekendIndicator(w + n + 1);
    assert WeekendDaysFrom(w, n + 1) == WeekendDaysFrom(w, n) + WeekendIndicator(w + n);
    SevenDaysTwoWeekendDays(w + n);
  }

  /** The first `n` entries of a calendar starting on weekday `w` count the weekend days among those days. */
  lemma {:induction false} CountWeekendsOfCalendar(dates: seq<DateEntry>, w: nat, n: nat)
    requires n <= |dates|
    requires forall i :: 0 <= i < |dates| ==> dates[i].weekday == (w + i) % 7
    requires forall i :: 0 <= i < |dates| ==> (dates[i].isWeekend <==> IsWeekendDay(dates[i].weekday))
    ensures CountWeekends(dates[..n]) == WeekendDaysFrom(w, n)
  {
    if n > 0 {
      assert dates[n - 1].isWeekend <==> WeekendIndicator(w + n - 1) == 1;
      assert dates[..n][..n - 1] == dates[..n - 1];
      CountWeekendsOfCalendar(dates, w, n - 1);
    }
  }

  /** The 21-day calendar always shows exactly six weekend days, whatever today is. */
  lemma CalendarHasSixWeekendDays(dates: seq<DateEntry>, todayWeekday: nat)
    requires |dates| == DateCount
    requires forall i :: 0 <= i < |dates| ==> dates[i].weekday == (todayWeekday + i) % 7
    requires forall i :: 0 <= i < |dates| ==> (dates[i].isWeekend <==> IsWeekendDay(dates[i].weekday))
    ensures CountWeekends(dates) == 6
  {
    CountWeekendsOfCalendar(dates, todayWeekday, DateCount);
    assert dates[..DateCount] == dates;
    WeekHasTwoWeekendDays(todayWeekday, 0);
    WeekHasTwoWeekendDays(todayWeekday, 7);
    WeekHasTwoWeekendDays(todayWeekday, 14);
  }

  // ---------------------------------------------------------------------------
  // Costs
  // ---------------------------------------------------------------------------

  /** A price shown in the summary, where a missing selection counts 0. */
  function DoctorPriceOrZero(d: Option<Doctor>): nat
  {
    if d.Some? then d.value.price else 0
  }

  function ServicePriceOrZero(s: Option<Service>): nat
  {
    if s.Some? then s.value.price else 0
  }

  /** The total shown in the booking summary. */
  function SummaryTotal(d: Option<Doctor>, s: Option<Service>): nat
  {
    DoctorPriceOrZero(d) + ServicePriceOrZero(s)
  }

  /** Once a doctor and a service are chosen, the summary shows the booking's total, and never less than the doctor's fee. */
  lemma SummaryTotalMatchesBooking(d: Option<Doctor>, s: Option<Service>)
    ensures d.Some? && s.Some? ==> SummaryTotal(d, s) == d.value.price + s.value.price
    ensures d.Some? ==> SummaryTotal(d, s) >= d.value.price
    ensures d.None? && s.None? ==> SummaryTotal(d, s) == 0
  {
  }

  // ---------------------------------------------------------------------------
  // The step indicator
  // ---------------------------------------------------------------------------

  /** Circle `step` (1 to 4) is highlighted. */
  predicate CircleActive(currentStep: int, step: int)
  {
    currentStep >= step
  }

  /** Circle `step` shows a check mark; the line after it (for steps 1 to 3) is filled likewise. */
  predicate CircleCompleted(currentStep: int, step: int)
  {
    currentStep > step
  }

  /** A completed circle is active, and the circles before a completed one are completed too. */
  lemma CompletedCircles(currentStep: int, step: int, earlier: int)
    requires earlier <= step
    ensures CircleCompleted(currentStep, step) ==> CircleActive(currentStep, step)
    ensures CircleCompleted(currentStep, step) ==> CircleCompleted(currentStep, earlier)
    ensures CircleActive(currentStep, step) ==> CircleActive(currentStep, earlier)
    ensures CircleActive(currentStep, step) && !CircleCompleted(currentStep, step) <==> currentStep == step
  {
  }

  // ---------------------------------------------------------------------------
  // The wizard state
  // ---------------------------------------------------------------------------

  /** The selection that step `k` (1 to 4) of the wizard makes has been made. */
  predicate Selected(k: int, d: Option<Doctor>, s: Option<Service>, date: Option<nat>, time: string)
  {
    match k
    case 1 => d.Some?
    case 2 => s.Some?
    case 3 => date.Some?
    case 4 => time != ""
    case _ => false
  }

  /**
   * The states the handlers can reach: each selection needs the one before
   * it (its section is shown only then), and `currentStep` is one past the
   * selection made last.
   */
  predicate Consistent(currentStep: int, d: Option<Doctor>, s: Option<Service>, date: Option<nat>, time: string)
  {
    && 1 <= currentStep <= 5
    && (s.Some? ==> d.Some?)
    && (date.Some? ==> s.Some?)
    && (time != "" ==> date.Some?)
    && (currentStep == 1 <==> d.None?)
    && (currentStep > 1 ==> Selected(currentStep - 1, d, s, date, time))
  }

  /** Every selection before the current step has been made. */
  lemma {:induction false} StepsBeforeCurrentAreSelected(currentStep: int, d: Option<Doctor>, s: Option<Service>,
                                                          date: Option<nat>, time: string, k: int)
    requires Consistent(currentStep, d, s, date, time)
    requires 1 <= k < currentStep
    ensures Selected(k, d, s, date, time)
    decreases currentStep - k
  {
    if k < currentStep - 1 {
      StepsBeforeCurrentAreSelected(currentStep, d, s, date, time, k + 1);
    }
  }

  /** A completed circle stands for a selection that was made. */
  lemma CompletedCircleIsSelected(currentStep: int, d: Option<Doctor>, s: Option<Service>,
                                  date: Option<nat>, time: string, step: int)
    requires Consistent(currentStep, d, s, date, time)
    requires 1 <= step <= 4 && CircleCompleted(currentStep, step)
    ensures Selected(step, d, s, date, time)
  {
    StepsBeforeCurrentAreSelected(currentStep, d, s, date, time, step);
  }

  /** When the time, and with it the book button, is shown, every selection is made. */
  lemma TimeSelectedMeansComplete(currentStep: int, d: Option<Doctor>, s: Option<Service>,
                                  date: Option<nat>, time: string)
    requires Consistent(currentStep, d, s, date, time)
    requires time != ""
    ensures d.Some? && s.Some? && date.Some?
  {
  }

  /** The result of pressing the book button. */
  datatype BookingOutcome =
    | Incomplete
    | Confirmed(doctor: Doctor, service: Service, date: nat, time: string, totalCost: nat)

  class AppointmentWizard {
    var selectedDoctor: Option<Doctor>
    var selectedService: Option<Service>
    var selectedDate: Option<nat>
    var selectedTime: string
    var currentStep: int

    ghost predicate Valid()
      reads this
    {
      Consistent(currentStep, selectedDoctor, selectedService, selectedDate, selectedTime)
    }

    constructor ()
      ensures Valid()
      ensures selectedDoctor.None? && selectedService.None? && selectedDate.None? && selectedTime == ""
      ensures currentStep == 1
    {
      selectedDoctor := None;
      selectedService := None;
      selectedDate := None;
      selectedTime := "";
      currentStep := 1;
    }

    /** The service section is rendered. */
    predicate ServiceSectionShown()
      reads this
    {
      selectedDoctor.Some?
    }

    /** The date section is rendered. */
    predicate DateSectionShown()
      reads this
    {
      selectedService.Some?
    }

    /** The time section is rendered. */
    predicate TimeSectionShown()
      reads this
    {
      selectedDate.Some?
    }

    /** The summary and the book button are rendered. */
    predicate SummaryShown()
      reads this
    {
      selectedTime != ""
    }

    method HandleDoctorSelect(doctor: Doctor)
      requires Valid() && doctor in Doctors
      modifies this
      ensures Valid()
      ensures selectedDoctor == Some(doctor) && currentStep == 2
      ensures selectedService == old(selectedService) && selectedDate == old(selectedDate)
      ensures selectedTime == old(selectedTime)
    {
      selectedDoctor := Some(doctor);
      currentStep := 2;
    }

    method HandleServiceSelect(service: Service)
      requires Valid() && ServiceSectionShown() && service in Services
      modifies this
      ensures Valid()
      ensures selectedService == Some(service) && currentStep == 3
      ensures selectedDoctor == old(selectedDoctor) && selectedDate == old(selectedDate)
      ensures selectedTime == old(selectedTime)
    {
      selectedService := Some(service);
      currentStep := 3;
    }

    method HandleDateSelect(offset: nat)
      requires Valid() && DateSectionShown() && offset < DateCount
      modifies this
      ensures Valid()
      ensures selectedDate == Some(offset) && currentStep == 4
      ensures selectedDoctor == old(selectedDoctor) && selectedService == old(selectedService)
      ensures selectedTime == old(selectedTime)
    {
      selectedDate := Some(offset);
      currentStep := 4;
    }

    method HandleTimeSelect(time: string)
      requires Valid() && TimeSectionShown() && time in TimeSlots
      modifies this
      ensures Valid()
      ensures selectedTime == time && currentStep == 5
      ensures selectedDoctor == old(selectedDoctor) && selectedService == old(selectedService)
      ensures selectedDate == old(selectedDate)
    {
      selectedTime := time;
      currentStep := 5;
    }

    /** Confirm the booking, or report that a selection is missing; the state is left as it is. */
    method HandleBooking() returns (outcome: BookingOutcome)
      ensures outcome.Incomplete? <==>
                selectedDoctor.None? || selectedService.None? || selectedDate.None? || selectedTime == ""
      ensures outcome.Confirmed? ==>
                && Some(outcome.doctor) == selectedDoctor && Some(outcome.service) == selectedService
                && Some(outcome.date) == selectedDate && outcome.time == selectedTime
                && outcome.totalCost == outcome.doctor.price + outcome.service.price
                && outcome.totalCost == SummaryTotal(selectedDoctor, selectedService)
      ensures Valid() && SummaryShown() ==> outcome.Confirmed?
    {
      if selectedDoctor.None? || selectedService.None? || selectedDate.None? || selectedTime == "" {
        return Incomplete;
      }
      var totalCost := selectedDoctor.value.price + selectedService.value.price;
      outcome := Confirmed(selectedDoctor.value, selectedService.value, selectedDate.value, selectedTime, totalCost);
    }
  }
}
