/** The appointment slot-availability calculator (apps/web/lib/availability.ts).

    Time is counted in whole minutes from midnight of the target day, on the
    shop's wall clock. Appointment and block instants, the shift limits and
    "now" all live on that one line. The clock read is replaced by the `now`
    parameter. */
module Availability {
  import opened Prelude
  import opened Text

  /** Defaults of the source's optional parameters. */
  const DefaultSlotIntervalMin := 30
  const DefaultLeadHours := 2

  /** An "HH:MM" string after `split(':').map(Number)`. */
  datatype ClockTime = ClockTime(hours: int, minutes: int)

  /** The recurring working-hours rule for one weekday (0 = Sunday). */
  datatype WorkingHours = WorkingHours(dayOfWeek: int, startTime: ClockTime, endTime: ClockTime, isActive: bool)

  datatype AppointmentStatus = Scheduled | Confirmed | Completed | NoShow | Canceled

  /** The part of an appointment the calculator reads. */
  datatype Appointment = Appointment(barberId: string, startsAt: int, endsAt: int, status: AppointmentStatus)

  datatype BlockStatus = Pending | Approved | Rejected

  datatype ScheduleBlock = ScheduleBlock(barberId: string, startsAt: int, endsAt: int, reason: Option<string>, status: BlockStatus)

  datatype TimeSlot = TimeSlot(time: string, startsAt: int, endsAt: int, isAvailable: bool)

  /** The parameter object of `getAvailableSlots`, without the target date and the
      timezone: both are folded into the choice of time line. */
  datatype SlotQuery = SlotQuery(
    workingHours: Option<WorkingHours>,
    existingAppointments: seq<Appointment>,
    scheduleBlocks: seq<ScheduleBlock>,
    serviceDurationMin: int,
    slotIntervalMin: int,
    leadHours: int)

  // ---------------------------------------------------------------------------
  // Clock times and their "HH:mm" rendering
  // ---------------------------------------------------------------------------

  /** `timeStringToDate`: `setHours(h)` then `setMinutes(m)` on the target day.
      Out-of-range fields roll over, so the instant is h * 60 + m either way. */
  function MinutesOfDay(t: ClockTime): int {
    t.hours * 60 + t.minutes
  }

  /** `getHours()` of an instant: the wall-clock hour, also for instants before
      or after the target day (Euclidean division gives the right wrap). */
  function HourOf(m: int): (h: int)
    ensures 0 <= h < 24
  {
    (m / 60) % 24
  }

  function Digit(d: int): (c: char)
    requires 0 <= d < 10
    ensures IsDigit(c)
  {
    ('0' as int + d) as char
  }

  function DigitValue(c: char): (d: int)
    requires IsDigit(c)
    ensures 0 <= d < 10 && Digit(d) == c
  {
    c as int - '0' as int
  }

  function TwoDigits(n: int): (s: string)
    requires 0 <= n < 100
    ensures |s| == 2 && IsDigit(s[0]) && IsDigit(s[1])
  {
    [Digit(n / 10), Digit(n % 10)]
  }

  /** `format(instant, 'HH:mm')`: zero-padded wall-clock hour and minute. */
  function FormatHHMM(m: int): (s: string)
    ensures |s| == 5 && s[2] == ':'
    ensures IsDigit(s[0]) && IsDigit(s[1]) && IsDigit(s[3]) && IsDigit(s[4])
  {
    TwoDigits(HourOf(m)) + ":" + TwoDigits(m % 60)
  }

  /** The well-formed case of the "HH:MM" parsing in `timeStringToDate`: two digits,
      a colon, two digits. Other strings are not modelled and give None. */
  function ParseHHMM(s: string): Option<ClockTime> {
    if |s| == 5 && IsDigit(s[0]) && IsDigit(s[1]) && s[2] == ':' && IsDigit(s[3]) && IsDigit(s[4])
    then Some(ClockTime(DigitValue(s[0]) * 10 + DigitValue(s[1]), DigitValue(s[3]) * 10 + DigitValue(s[4])))
    else None
  }

  /** Reading back a rendered slot time gives the wall-clock hour and minute of
      the instant, which name the same minute of the day. */
  lemma FormatThenParse(m: int)
    ensures ParseHHMM(FormatHHMM(m)) == Some(ClockTime(HourOf(m), m % 60))
    ensures MinutesOfDay(ClockTime(HourOf(m), m % 60)) == m % 1440
  {
    TwoDigitsValue(HourOf(m));
    TwoDigitsValue(m % 60);
    WallClockMinute(m);
  }

  lemma TwoDigitsValue(n: int)
    requires 0 <= n < 100
    ensures DigitValue(TwoDigits(n)[0]) * 10 + DigitValue(TwoDigits(n)[1]) == n
  {
  }

  /** Hour and minute of the wall clock together give the minute of the day. */
  lemma WallClockMinute(m: int)
    ensures HourOf(m) * 60 + m % 60 == m % 1440
  {
    var d, mm := m / 60, m % 60;
    var h := d % 24;
    assert m == d * 60 + mm;
    assert d == (d / 24) * 24 + h;
    assert m == (d / 24) * 1440 + (h * 60 + mm) by {
      assert d * 60 == ((d / 24) * 24 + h) * 60;
    }
    ModUnique(m, d / 24, h * 60 + mm);
  }

  lemma ModUnique(m: int, q: int, r: int)
    requires 0 <= r < 1440
    requires m == q * 1440 + r
    ensures m % 1440 == r
  {
  }

  /** A well-formed in-range "HH:MM" string is exactly the rendering of the minute
      it parses to. */
  lemma ParseThenFormat(s: string)
    requires ParseHHMM(s).Some?
    requires ParseHHMM(s).value.hours < 24 && ParseHHMM(s).value.minutes < 60
    ensures FormatHHMM(MinutesOfDay(ParseHHMM(s).value)) == s
  {
    var t := ParseHHMM(s).value;
    var m := MinutesOfDay(t);
    calc {
      FormatHHMM(m);
      TwoDigits(HourOf(m)) + ":" + TwoDigits(m % 60);
      { ClockMinuteParts(t.hours, t.minutes); }
      TwoDigits(t.hours) + ":" + TwoDigits(t.minutes);
      { TwoDigitsOfValue(s[0], s[1]); TwoDigitsOfValue(s[3], s[4]); }
      [s[0], s[1]] + ":" + [s[3], s[4]];
      s;
    }
  }

  /** Hour and minute are read back from the minute of the day they name. */
  lemma ClockMinuteParts(h: int, mi: int)
    requires 0 <= h < 24 && 0 <= mi < 60
    ensures HourOf(h * 60 + mi) == h && (h * 60 + mi) % 60 == mi
  {
    assert (h * 60 + mi) / 60 == h;
  }

  /** Two digits are rendered back from the number they spell. */
  lemma TwoDigitsOfValue(a: char, b: char)
    requires IsDigit(a) && IsDigit(b)
    ensures TwoDigits(DigitValue(a) * 10 + DigitValue(b)) == [a, b]
  {
    var n := DigitValue(a) * 10 + DigitValue(b);
    assert n / 10 == DigitValue(a) && n % 10 == DigitValue(b);
  }

  // ---------------------------------------------------------------------------
  // Specification of the calculator
  // ---------------------------------------------------------------------------

  /** The rule applies and spans a non-empty stretch of the day. */
  predicate IsOpen(wh: Option<WorkingHours>) {
    && wh.Some?
    && wh.value.isActive
    && MinutesOfDay(wh.value.startTime) < MinutesOfDay(wh.value.endTime)
  }

  function WorkStart(wh: Option<WorkingHours>): int
    requires wh.Some?
  {
    MinutesOfDay(wh.value.startTime)
  }

  function WorkEnd(wh: Option<WorkingHours>): int
    requires wh.Some?
  {
    MinutesOfDay(wh.value.endTime)
  }

  /** The loop keeps going at `cursor`: it is before the end of the shift and the
      whole service fits before that end. */
  predicate Fits(cursor: int, workEnd: int, duration: int) {
    cursor < workEnd && cursor + duration <= workEnd
  }

  /** A candidate as the loop pushes it: still marked available. */
  function NewSlot(start: int, duration: int): TimeSlot {
    TimeSlot(FormatHHMM(start), start, start + duration, true)
  }

  /** The start minutes the generation loop visits and emits from `cursor` on. */
  function CandidateStarts(cursor: int, workEnd: int, duration: int, interval: int): seq<int>
    requires interval > 0
    decreases workEnd - cursor
  {
    if Fits(cursor, workEnd, duration)
    then [cursor] + CandidateStarts(cursor + interval, workEnd, duration, interval)
    else []
  }

  /** The candidate slots pushed for the given start minutes. */
  function SlotsAt(starts: seq<int>, duration: int): seq<TimeSlot> {
    seq(|starts|, i requires 0 <= i < |starts| => NewSlot(starts[i], duration))
  }

  function Min(a: int, b: int): int { if a <= b then a else b }
  function Max(a: int, b: int): int { if a <= b then b else a }

  /** `areIntervalsOverlapping(left, right, { inclusive: false })` of date-fns 3:
      each interval's ends are put in order, then the intervals must overlap
      strictly; sharing only an end point is no overlap. */
  predicate Overlaps(leftStart: int, leftEnd: int, rightStart: int, rightEnd: int) {
    && Min(leftStart, leftEnd) < Max(rightStart, rightEnd)
    && Min(rightStart, rightEnd) < Max(leftStart, leftEnd)
  }

  predicate IsActiveAppointment(a: Appointment) {
    a.status == Scheduled || a.status == Confirmed
  }

  predicate IsApprovedBlock(b: ScheduleBlock) {
    b.status == Approved
  }

  predicate AppointmentConflict(slot: TimeSlot, appointments: seq<Appointment>) {
    exists i :: 0 <= i < |appointments| && Overlaps(slot.startsAt, slot.endsAt, appointments[i].startsAt, appointments[i].endsAt)
  }

  predicate BlockConflict(slot: TimeSlot, blocks: seq<ScheduleBlock>) {
    exists i :: 0 <= i < |blocks| && Overlaps(slot.startsAt, slot.endsAt, blocks[i].startsAt, blocks[i].endsAt)
  }

  /** The per-slot decision of the final `map`, checks in source order. */
  function MarkSlot(slot: TimeSlot, minBookingTime: int, active: seq<Appointment>, approved: seq<ScheduleBlock>): TimeSlot {
    if slot.startsAt < minBookingTime then slot.(isAvailable := false)
    else if AppointmentConflict(slot, active) then slot.(isAvailable := false)
    else if BlockConflict(slot, approved) then slot.(isAvailable := false)
    else slot.(isAvailable := true)
  }

  function MarkAvailability(candidates: seq<TimeSlot>, minBookingTime: int, active: seq<Appointment>, approved: seq<ScheduleBlock>): seq<TimeSlot> {
    seq(|candidates|, i requires 0 <= i < |candidates| => MarkSlot(candidates[i], minBookingTime, active, approved))
  }

  /** `addMinutes(now, leadHours * 60)`. */
  function MinBookingTime(now: int, leadHours: int): int {
    now + leadHours * 60
  }

  /** What `getAvailableSlots` returns for query `q` when the clock reads `now`. */
  function AvailableSlots(q: SlotQuery, now: int): seq<TimeSlot>
    requires q.slotIntervalMin > 0
  {
    if !IsOpen(q.workingHours) then []
    else
      MarkAvailability(
        SlotsAt(CandidateStarts(WorkStart(q.workingHours), WorkEnd(q.workingHours), q.serviceDurationMin, q.slotIntervalMin), q.serviceDurationMin),
        MinBookingTime(now, q.leadHours),
        Filter(q.existingAppointments, IsActiveAppointment),
        Filter(q.scheduleBlocks, IsApprovedBlock))
  }

  // ---------------------------------------------------------------------------
  // The calculator and its two helpers
  // ---------------------------------------------------------------------------

  /** `getAvailableSlots`. A non-positive interval would loop forever in the
      source, so callers must pass a positive one. */
  method GetAvailableSlots(q: SlotQuery, now: int) returns (slots: seq<TimeSlot>)
    requires q.slotIntervalMin > 0
    ensures slots == AvailableSlots(q, now)
  {
    if q.workingHours.None? || !q.workingHours.value.isActive {
      return [];
    }
    var workStart := MinutesOfDay(q.workingHours.value.startTime);
    var workEnd := MinutesOfDay(q.workingHours.value.endTime);
    if workEnd <= workStart {
      return [];
    }

    var minBookingTime := now + q.leadHours * 60;

    var candidateSlots: seq<TimeSlot> := [];
    ghost var starts: seq<int> := [];
    var cursor := workStart;
    while cursor < workEnd
      invariant starts + CandidateStarts(cursor, workEnd, q.serviceDurationMin, q.slotIntervalMin)
             == CandidateStarts(workStart, workEnd, q.serviceDurationMin, q.slotIntervalMin)
      invariant candidateSlots == SlotsAt(starts, q.serviceDurationMin)
      decreases workEnd - cursor
    {
      var slotStart := cursor;
      var slotEnd := slotStart + q.serviceDurationMin;
      if slotEnd > workEnd {
        break;
      }
      candidateSlots := candidateSlots + [TimeSlot(FormatHHMM(slotStart), slotStart, slotEnd, true)];
      starts := starts + [slotStart];
      cursor := cursor + q.slotIntervalMin;
    }
    assert starts == CandidateStarts(workStart, workEnd, q.serviceDurationMin, q.slotIntervalMin);

    var activeAppointments := Filter(q.existingAppointments, IsActiveAppointment);
    var approvedBlocks := Filter(q.scheduleBlocks, IsApprovedBlock);
    slots := MarkAvailability(candidateSlots, minBookingTime, activeAppointments, approvedBlocks);
  }

  predicate IsAvailable(slot: TimeSlot) {
    slot.isAvailable
  }

  /** `getOnlyAvailableSlots`: the calculator's output, available slots only, in
      order. No returned slot is too soon or collides with an active appointment
      or an approved block. */
  method GetOnlyAvailableSlots(q: SlotQuery, now: int) returns (slots: seq<TimeSlot>)
    requires q.slotIntervalMin > 0
    ensures slots == Filter(AvailableSlots(q, now), IsAvailable)
    ensures forall s :: s in slots ==> Bookable(s, q, now)
  {
    var all := GetAvailableSlots(q, now);
    slots := Filter(all, IsAvailable);
    forall s | s in slots
      ensures Bookable(s, q, now)
    {
      FilterMembership(all, IsAvailable, s);
      var k :| 0 <= k < |all| && all[k] == s;
      AvailabilityDecision(q, now);
    }
  }

  datatype Period = Morning | Afternoon | Evening

  /** The bucket of a slot: hour < 12, 12 <= hour < 18, or later. */
  function PeriodOf(slot: TimeSlot): Period {
    var hour := HourOf(slot.startsAt);
    if hour < 12 then Morning else if hour < 18 then Afternoon else Evening
  }

  predicate InMorning(slot: TimeSlot) { PeriodOf(slot) == Morning }
  predicate InAfternoon(slot: TimeSlot) { PeriodOf(slot) == Afternoon }
  predicate InEvening(slot: TimeSlot) { PeriodOf(slot) == Evening }

  datatype GroupedSlots = GroupedSlots(morning: seq<TimeSlot>, afternoon: seq<TimeSlot>, evening: seq<TimeSlot>)

  /** `groupSlotsByPeriod`: one pass that pushes each slot onto the bucket of its
      period. Each bucket is the input filtered to that period, in input order. */
  method GroupSlotsByPeriod(slots: seq<TimeSlot>) returns (g: GroupedSlots)
    ensures g.morning == Filter(slots, InMorning)
    ensures g.afternoon == Filter(slots, InAfternoon)
    ensures g.evening == Filter(slots, InEvening)
  {
    var morning, afternoon, evening := [], [], [];
    for i := 0 to |slots|
      invariant morning == Filter(slots[..i], InMorning)
      invariant afternoon == Filter(slots[..i], InAfternoon)
      invariant evening == Filter(slots[..i], InEvening)
    {
      var slot := slots[i];
      var hour := HourOf(slot.startsAt);
      if hour < 12 {
        morning := morning + [slot];
      } else if hour < 18 {
        afternoon := afternoon + [slot];
      } else {
        evening := evening + [slot];
      }
      assert slots[..i + 1] == slots[..i] + [slot];
      FilterSnoc(slots[..i], slot, InMorning);
      FilterSnoc(slots[..i], slot, InAfternoon);
      FilterSnoc(slots[..i], slot, InEvening);
    }
    assert slots[..|slots|] == slots;
    g := GroupedSlots(morning, afternoon, evening);
  }

  // ---------------------------------------------------------------------------
  // Properties
  // ---------------------------------------------------------------------------

  /** The k-th start is `origin + k * interval`. */
  predicate OnGrid(starts: seq<int>, origin: int, interval: int) {
    forall k :: 0 <= k < |starts| ==> starts[k] == origin + k * interval
  }

  predicate AllFit(starts: seq<int>, workEnd: int, duration: int) {
    forall k :: 0 <= k < |starts| ==> Fits(starts[k], workEnd, duration)
  }

  /** The start minutes from `cursor` on lie on the grid cursor + k * interval
      and each of them fits the shift. */
  lemma {:induction false} CandidateStartsOnGrid(cursor: int, workEnd: int, duration: int, interval: int)
    requires interval > 0
    ensures OnGrid(CandidateStarts(cursor, workEnd, duration, interval), cursor, interval)
    ensures AllFit(CandidateStarts(cursor, workEnd, duration, interval), workEnd, duration)
    decreases workEnd - cursor
  {
    var r := CandidateStarts(cursor, workEnd, duration, interval);
    if Fits(cursor, workEnd, duration) {
      var next := cursor + interval;
      CandidateStartsOnGrid(next, workEnd, duration, interval);
      var rest := CandidateStarts(next, workEnd, duration, interval);
      assert r == [cursor] + rest;
      forall k | 0 <= k < |r|
        ensures r[k] == cursor + k * interval && Fits(r[k], workEnd, duration)
      {
        if k > 0 {
          var j := k - 1;
          assert r[k] == rest[j];
          GridStep(cursor, interval, k);
        }
      }
    }
  }

  /** Generation stops at the first grid point whose slot does not fit. */
  lemma {:induction false} CandidateStartsStop(cursor: int, workEnd: int, duration: int, interval: int)
    requires interval > 0
    ensures !Fits(cursor + |CandidateStarts(cursor, workEnd, duration, interval)| * interval, workEnd, duration)
    decreases workEnd - cursor
  {
    if Fits(cursor, workEnd, duration) {
      var next := cursor + interval;
      CandidateStartsStop(next, workEnd, duration, interval);
      assert |CandidateStarts(cursor, workEnd, duration, interval)| == 1 + |CandidateStarts(next, workEnd, duration, interval)|;
      GridStep(cursor, interval, |CandidateStarts(cursor, workEnd, duration, interval)|);
    }
  }

  /** One step further along the grid is one more interval. */
  lemma GridStep(cursor: int, interval: int, k: int)
    ensures cursor + interval + (k - 1) * interval == cursor + k * interval
  {
  }

  /** Nothing is offered when the rule is missing or inactive, or when the shift
      ends at or before it starts. */
  lemma ClosedDayHasNoSlots(q: SlotQuery, now: int)
    requires q.slotIntervalMin > 0
    requires q.workingHours.None? || !q.workingHours.value.isActive
          || MinutesOfDay(q.workingHours.value.endTime) <= MinutesOfDay(q.workingHours.value.startTime)
    ensures AvailableSlots(q, now) == []
  {
  }

  /** On an open day the slots start at workStart, workStart + interval, ...
      without gaps and strictly ascending; each lies inside the shift, lasts the
      service duration and is labelled with its "HH:mm"; generation stops at the
      first grid point whose slot would not fit. */
  lemma SlotsOnShiftGrid(q: SlotQuery, now: int)
    requires q.slotIntervalMin > 0
    requires IsOpen(q.workingHours)
    ensures var r := AvailableSlots(q, now);
            var workStart := WorkStart(q.workingHours);
            var workEnd := WorkEnd(q.workingHours);
      && (forall k :: 0 <= k < |r| ==>
            && r[k].startsAt == workStart + k * q.slotIntervalMin
            && workStart <= r[k].startsAt < workEnd
            && r[k].endsAt == r[k].startsAt + q.serviceDurationMin <= workEnd
            && r[k].time == FormatHHMM(r[k].startsAt))
      && (forall j, k :: 0 <= j < k < |r| ==> r[j].startsAt < r[k].startsAt)
      && !Fits(workStart + |r| * q.slotIntervalMin, workEnd, q.serviceDurationMin)
  {
    var workStart := WorkStart(q.workingHours);
    var workEnd := WorkEnd(q.workingHours);
    CandidateStartsOnGrid(workStart, workEnd, q.serviceDurationMin, q.slotIntervalMin);
    CandidateStartsStop(workStart, workEnd, q.serviceDurationMin, q.slotIntervalMin);
    var r := AvailableSlots(q, now);
    forall k | 0 <= k < |r|
      ensures workStart <= workStart + k * q.slotIntervalMin
    {
      MulNonNegative(k, q.slotIntervalMin);
    }
    forall j, k | 0 <= j < k < |r|
      ensures r[j].startsAt < r[k].startsAt
    {
      MulStrictlyMonotone(j, k, q.slotIntervalMin);
    }
  }

  lemma MulNonNegative(k: int, n: int)
    requires 0 <= k && 0 < n
    ensures 0 <= k * n
  {
  }

  lemma MulStrictlyMonotone(j: int, k: int, n: int)
    requires j < k && 0 < n
    ensures j * n < k * n
  {
    assert k * n - j * n == (k - j) * n;
  }

  /** A slot is bookable: not before now + lead time, and clear of every active
      appointment and every approved block. */
  predicate Bookable(slot: TimeSlot, q: SlotQuery, now: int) {
    && MinBookingTime(now, q.leadHours) <= slot.startsAt
    && (forall a :: a in q.existingAppointments && IsActiveAppointment(a) ==> !Overlaps(slot.startsAt, slot.endsAt, a.startsAt, a.endsAt))
    && (forall b :: b in q.scheduleBlocks && IsApprovedBlock(b) ==> !Overlaps(slot.startsAt, slot.endsAt, b.startsAt, b.endsAt))
  }

  /** Each slot is marked available exactly when it is bookable, judged against the
      full, unfiltered lists: appointments that are not scheduled or confirmed and
      blocks that are not approved never count. */
  lemma AvailabilityDecision(q: SlotQuery, now: int)
    requires q.slotIntervalMin > 0
    ensures var r := AvailableSlots(q, now);
      forall k :: 0 <= k < |r| ==> (r[k].isAvailable <==> Bookable(r[k], q, now))
  {
    var r := AvailableSlots(q, now);
    forall k | 0 <= k < |r|
      ensures r[k].isAvailable <==> Bookable(r[k], q, now)
    {
      ActiveConflictIff(r[k], q.existingAppointments);
      ApprovedConflictIff(r[k], q.scheduleBlocks);
    }
  }

  /** A slot collides with some active appointment exactly when it collides
      with an entry of the filtered list. */
  lemma ActiveConflictIff(slot: TimeSlot, appointments: seq<Appointment>)
    ensures AppointmentConflict(slot, Filter(appointments, IsActiveAppointment)) <==>
      exists a :: a in appointments && IsActiveAppointment(a) && Overlaps(slot.startsAt, slot.endsAt, a.startsAt, a.endsAt)
  {
    var active := Filter(appointments, IsActiveAppointment);
    if AppointmentConflict(slot, active) {
      var i :| 0 <= i < |active| && Overlaps(slot.startsAt, slot.endsAt, active[i].startsAt, active[i].endsAt);
      FilterMembership(appointments, IsActiveAppointment, active[i]);
    }
    if exists a :: a in appointments && IsActiveAppointment(a) && Overlaps(slot.startsAt, slot.endsAt, a.startsAt, a.endsAt) {
      var a :| a in appointments && IsActiveAppointment(a) && Overlaps(slot.startsAt, slot.endsAt, a.startsAt, a.endsAt);
      FilterMembership(appointments, IsActiveAppointment, a);
      var i :| 0 <= i < |active| && active[i] == a;
    }
  }

  /** A slot collides with some approved block exactly when it collides with an
      entry of the filtered list. */
  lemma ApprovedConflictIff(slot: TimeSlot, blocks: seq<ScheduleBlock>)
    ensures BlockConflict(slot, Filter(blocks, IsApprovedBlock)) <==>
      exists b :: b in blocks && IsApprovedBlock(b) && Overlaps(slot.startsAt, slot.endsAt, b.startsAt, b.endsAt)
  {
    var approved := Filter(blocks, IsApprovedBlock);
    if BlockConflict(slot, approved) {
      var i :| 0 <= i < |approved| && Overlaps(slot.startsAt, slot.endsAt, approved[i].startsAt, approved[i].endsAt);
      FilterMembership(blocks, IsApprovedBlock, approved[i]);
    }
    if exists b :: b in blocks && IsApprovedBlock(b) && Overlaps(slot.startsAt, slot.endsAt, b.startsAt, b.endsAt) {
      var b :| b in blocks && IsApprovedBlock(b) && Overlaps(slot.startsAt, slot.endsAt, b.startsAt, b.endsAt);
      FilterMembership(blocks, IsApprovedBlock, b);
      var i :| 0 <= i < |approved| && approved[i] == b;
    }
  }

  /** The calculator reads the bookings only through their active part: two
      queries whose active appointments and approved blocks agree give the same
      slots. */
  lemma OnlyActiveBookingsMatter(q1: SlotQuery, q2: SlotQuery, now: int)
    requires q1.slotIntervalMin > 0
    requires q2 == q1.(existingAppointments := q2.existingAppointments, scheduleBlocks := q2.scheduleBlocks)
    requires Filter(q1.existingAppointments, IsActiveAppointment) == Filter(q2.existingAppointments, IsActiveAppointment)
    requires Filter(q1.scheduleBlocks, IsApprovedBlock) == Filter(q2.scheduleBlocks, IsApprovedBlock)
    ensures AvailableSlots(q1, now) == AvailableSlots(q2, now)
  {
  }

  /** Adding an appointment that is completed, a no-show or canceled anywhere in
      the list changes nothing. */
  lemma InactiveAppointmentIgnored(q: SlotQuery, now: int, before: seq<Appointment>, a: Appointment, after: seq<Appointment>)
    requires q.slotIntervalMin > 0
    requires !IsActiveAppointment(a)
    ensures AvailableSlots(q.(existingAppointments := before + [a] + after), now)
         == AvailableSlots(q.(existingAppointments := before + after), now)
  {
    FilterConcat(before + [a], after, IsActiveAppointment);
    FilterConcat(before, [a], IsActiveAppointment);
    FilterConcat(before, after, IsActiveAppointment);
    assert Filter([a], IsActiveAppointment) == [];
    OnlyActiveBookingsMatter(q.(existingAppointments := before + [a] + after), q.(existingAppointments := before + after), now);
  }

  /** Adding a pending or rejected block anywhere in the list changes nothing. */
  lemma UnapprovedBlockIgnored(q: SlotQuery, now: int, before: seq<ScheduleBlock>, b: ScheduleBlock, after: seq<ScheduleBlock>)
    requires q.slotIntervalMin > 0
    requires !IsApprovedBlock(b)
    ensures AvailableSlots(q.(scheduleBlocks := before + [b] + after), now)
         == AvailableSlots(q.(scheduleBlocks := before + after), now)
  {
    FilterConcat(before + [b], after, IsApprovedBlock);
    FilterConcat(before, [b], IsApprovedBlock);
    FilterConcat(before, after, IsApprovedBlock);
    assert Filter([b], IsApprovedBlock) == [];
    OnlyActiveBookingsMatter(q.(scheduleBlocks := before + [b] + after), q.(scheduleBlocks := before + after), now);
  }

  /** Ignoring the flags, the slot list depends only on the working hours, the
      duration and the interval: not on the clock, the lead time or the bookings. */
  lemma SlotGridIgnoresBookings(q1: SlotQuery, now1: int, q2: SlotQuery, now2: int)
    requires q1.slotIntervalMin > 0
    requires q2.workingHours == q1.workingHours
    requires q2.serviceDurationMin == q1.serviceDurationMin
    requires q2.slotIntervalMin == q1.slotIntervalMin
    ensures |AvailableSlots(q1, now1)| == |AvailableSlots(q2, now2)|
    ensures forall k :: 0 <= k < |AvailableSlots(q1, now1)| ==>
      AvailableSlots(q1, now1)[k].(isAvailable := true) == AvailableSlots(q2, now2)[k].(isAvailable := true)
  {
  }

  /** A slot that is bookable with the clock at `later` is still bookable at any
      earlier reading: moving the clock back or shortening the lead never takes
      a slot away. */
  lemma EarlierClockKeepsAvailability(q: SlotQuery, earlier: int, later: int)
    requires q.slotIntervalMin > 0
    requires earlier <= later
    ensures |AvailableSlots(q, earlier)| == |AvailableSlots(q, later)|
    ensures forall k :: 0 <= k < |AvailableSlots(q, later)| && AvailableSlots(q, later)[k].isAvailable ==>
      AvailableSlots(q, earlier)[k].isAvailable
  {
    AvailabilityDecision(q, earlier);
    AvailabilityDecision(q, later);
  }

  /** Lead-time monotonicity: lowering `leadHours` never takes a slot away. */
  lemma ShorterLeadKeepsAvailability(q: SlotQuery, now: int, shorter: int)
    requires q.slotIntervalMin > 0
    requires shorter <= q.leadHours
    ensures |AvailableSlots(q.(leadHours := shorter), now)| == |AvailableSlots(q, now)|
    ensures forall k :: 0 <= k < |AvailableSlots(q, now)| && AvailableSlots(q, now)[k].isAvailable ==>
      AvailableSlots(q.(leadHours := shorter), now)[k].isAvailable
  {
    var q' := q.(leadHours := shorter);
    assert MinBookingTime(now, shorter) <= MinBookingTime(now, q.leadHours);
    AvailabilityDecision(q, now);
    AvailabilityDecision(q', now);
  }

  /** Minute `m` lies in the half-open interval [start, end). */
  predicate Covers(start: int, end: int, m: int) {
    start <= m < end
  }

  /** For proper intervals, exclusive overlap means sharing at least one minute. */
  lemma OverlapsIffSharedMinute(s1: int, e1: int, s2: int, e2: int)
    requires s1 < e1 && s2 < e2
    ensures Overlaps(s1, e1, s2, e2) <==> exists m :: Covers(s1, e1, m) && Covers(s2, e2, m)
  {
    if Overlaps(s1, e1, s2, e2) {
      var m := Max(s1, s2);
      assert Covers(s1, e1, m) && Covers(s2, e2, m);
    }
  }

  /** Intervals that only touch at an end point do not conflict, in either order. */
  lemma TouchingIntervalsDoNotOverlap(s1: int, e1: int, s2: int, e2: int)
    requires s1 <= e1 && s2 <= e2
    requires e1 == s2 || e2 == s1
    ensures !Overlaps(s1, e1, s2, e2)
  {
  }

  /** A slot that ends exactly when an active appointment starts, or starts
      exactly when one ends, is not held up by it: it is available exactly when
      it is late enough and the other bookings leave it free. */
  lemma BoundaryBookingLeavesSlotFree(q: SlotQuery, now: int, k: int, a: Appointment)
    requires q.slotIntervalMin > 0 && q.serviceDurationMin >= 0
    requires IsActiveAppointment(a) && a.startsAt <= a.endsAt
    requires 0 <= k < |AvailableSlots(q, now)|
    requires var slot := AvailableSlots(q, now)[k];
      slot.endsAt == a.startsAt || slot.startsAt == a.endsAt
    ensures var slot := AvailableSlots(q, now)[k];
      AvailableSlots(q.(existingAppointments := q.existingAppointments + [a]), now)[k] == slot
  {
    var q2 := q.(existingAppointments := q.existingAppointments + [a]);
    var r := AvailableSlots(q, now);
    var r2 := AvailableSlots(q2, now);
    SlotGridIgnoresBookings(q, now, q2, now);
    AvailabilityDecision(q, now);
    AvailabilityDecision(q2, now);
    SlotsOnShiftGrid(q, now);
    TouchingIntervalsDoNotOverlap(r[k].startsAt, r[k].endsAt, a.startsAt, a.endsAt);
    assert Bookable(r2[k], q2, now) <==> Bookable(r[k], q, now);
  }

  /** The same for an approved block that only touches the slot at an end. */
  lemma BoundaryBlockLeavesSlotFree(q: SlotQuery, now: int, k: int, b: ScheduleBlock)
    requires q.slotIntervalMin > 0 && q.serviceDurationMin >= 0
    requires IsApprovedBlock(b) && b.startsAt <= b.endsAt
    requires 0 <= k < |AvailableSlots(q, now)|
    requires var slot := AvailableSlots(q, now)[k];
      slot.endsAt == b.startsAt || slot.startsAt == b.endsAt
    ensures var slot := AvailableSlots(q, now)[k];
      AvailableSlots(q.(scheduleBlocks := q.scheduleBlocks + [b]), now)[k] == slot
  {
    var q2 := q.(scheduleBlocks := q.scheduleBlocks + [b]);
    var r := AvailableSlots(q, now);
    var r2 := AvailableSlots(q2, now);
    SlotGridIgnoresBookings(q, now, q2, now);
    AvailabilityDecision(q, now);
    AvailabilityDecision(q2, now);
    SlotsOnShiftGrid(q, now);
    TouchingIntervalsDoNotOverlap(r[k].startsAt, r[k].endsAt, b.startsAt, b.endsAt);
    assert Bookable(r2[k], q2, now) <==> Bookable(r[k], q, now);
  }

  /** Every slot lands in exactly one period. */
  lemma PeriodsAreExclusive(slot: TimeSlot)
    ensures InMorning(slot) || InAfternoon(slot) || InEvening(slot)
    ensures !(InMorning(slot) && InAfternoon(slot))
    ensures !(InMorning(slot) && InEvening(slot))
    ensures !(InAfternoon(slot) && InEvening(slot))
  {
  }

  /** The three buckets together hold exactly the input slots, each as often as
      it occurs in the input. */
  lemma {:induction false} PeriodPartition(slots: seq<TimeSlot>)
    ensures multiset(Filter(slots, InMorning)) + multiset(Filter(slots, InAfternoon)) + multiset(Filter(slots, InEvening))
         == multiset(slots)
  {
    if slots != [] {
      var head, tail := slots[0], slots[1..];
      PeriodPartition(tail);
      assert slots == [head] + tail;
      assert multiset(slots) == multiset{head} + multiset(tail);
      var morning, afternoon, evening := Filter(tail, InMorning), Filter(tail, InAfternoon), Filter(tail, InEvening);
      match PeriodOf(head)
      case Morning =>
        assert Filter(slots, InMorning) == [head] + morning;
        assert Filter(slots, InAfternoon) == afternoon && Filter(slots, InEvening) == evening;
      case Afternoon =>
        assert Filter(slots, InAfternoon) == [head] + afternoon;
        assert Filter(slots, InMorning) == morning && Filter(slots, InEvening) == evening;
      case Evening =>
        assert Filter(slots, InEvening) == [head] + evening;
        assert Filter(slots, InMorning) == morning && Filter(slots, InAfternoon) == afternoon;
    }
  }

  // ---------------------------------------------------------------------------
  // Worked days: a 09:00-18:00 shift
  // ---------------------------------------------------------------------------

  function NineToSix(): WorkingHours {
    WorkingHours(1, ClockTime(9, 0), ClockTime(18, 0), true)
  }

  /** With nothing booked and the clock at midnight, a 09:00-18:00 shift with
      30-minute services every 30 minutes offers 18 slots, 09:00 to 17:30, all
      available. */
  lemma FreeDayScenario()
    ensures var r := AvailableSlots(SlotQuery(Some(NineToSix()), [], [], 30, DefaultSlotIntervalMin, DefaultLeadHours), 0);
      && |r| == 18
      && r[0].time == "09:00" && r[17].time == "17:30"
      && forall k :: 0 <= k < |r| ==> r[k].isAvailable
  {
    var q := SlotQuery(Some(NineToSix()), [], [], 30, DefaultSlotIntervalMin, DefaultLeadHours);
    SlotsOnShiftGrid(q, 0);
    AvailabilityDecision(q, 0);
    var r := AvailableSlots(q, 0);
    assert !Fits(540 + |r| * 30, 1080, 30);
    assert |r| >= 18;
    assert r[|r| - 1].endsAt == 540 + (|r| - 1) * 30 + 30 <= 1080;
    assert r[0].startsAt == 540;
    assert r[17].startsAt == 1050;
    NineAndHalfPastFive();
  }

  lemma NineAndHalfPastFive()
    ensures FormatHHMM(540) == "09:00" && FormatHHMM(1050) == "17:30"
  {
    ClockMinuteParts(9, 0);
    ClockMinuteParts(17, 30);
  }

  lemma FivePmAndNoon()
    ensures FormatHHMM(1020) == "17:00" && FormatHHMM(720) == "12:00"
  {
    ClockMinuteParts(17, 0);
    ClockMinuteParts(12, 0);
  }

  /** A confirmed 12:00-13:00 appointment takes the 12:00 and 12:30 slots; the
      11:30 slot ending at 12:00 and the 13:00 slot starting at 13:00 stay free.
      (Times are minutes from midnight: 690 is 11:30.) */
  lemma BookedNoonScenario(q: SlotQuery)
    requires q == SlotQuery(Some(NineToSix()), [Appointment("b1", 720, 780, Confirmed)], [], 30, 30, 2)
    ensures var r := AvailableSlots(q, 0);
      && |r| == 18
      && r[5].startsAt == 690 && r[5].isAvailable
      && r[6].startsAt == 720 && !r[6].isAvailable
      && r[7].startsAt == 750 && !r[7].isAvailable
      && r[8].startsAt == 780 && r[8].isAvailable
  {
    SlotsOnShiftGrid(q, 0);
    var r := AvailableSlots(q, 0);
    assert !Fits(540 + |r| * 30, 1080, 30);
    assert r[|r| - 1].endsAt == 540 + (|r| - 1) * 30 + 30 <= 1080;
    OneAppointmentDecision(q, 0, 5);
    OneAppointmentDecision(q, 0, 6);
    OneAppointmentDecision(q, 0, 7);
    OneAppointmentDecision(q, 0, 8);
  }

  /** With a single booking and no blocks, a slot late enough is available
      exactly when it does not overlap that booking. */
  lemma OneAppointmentDecision(q: SlotQuery, now: int, k: int)
    requires q.slotIntervalMin > 0
    requires |q.existingAppointments| == 1 && IsActiveAppointment(q.existingAppointments[0]) && q.scheduleBlocks == []
    requires 0 <= k < |AvailableSlots(q, now)|
    requires MinBookingTime(now, q.leadHours) <= AvailableSlots(q, now)[k].startsAt
    ensures var slot := AvailableSlots(q, now)[k];
      var a := q.existingAppointments[0];
      slot.isAvailable <==> !Overlaps(slot.startsAt, slot.endsAt, a.startsAt, a.endsAt)
  {
    AvailabilityDecision(q, now);
    assert forall a :: a in q.existingAppointments <==> a == q.existingAppointments[0];
  }

  /** 45-minute services on the 30-minute grid: 17 slots, the last at 17:00
      (17:30 + 45 minutes would overrun 18:00). */
  lemma LongServiceScenario()
    ensures var r := AvailableSlots(SlotQuery(Some(NineToSix()), [], [], 45, 30, 2), 0);
      |r| == 17 && r[16].time == "17:00" && r[16].endsAt == 1065
  {
    var q := SlotQuery(Some(NineToSix()), [], [], 45, 30, 2);
    SlotsOnShiftGrid(q, 0);
    var r := AvailableSlots(q, 0);
    assert !Fits(540 + |r| * 30, 1080, 45);
    assert |r| >= 17;
    assert r[|r| - 1].endsAt == 540 + (|r| - 1) * 30 + 45 <= 1080;
    assert r[16].startsAt == 1020;
    FivePmAndNoon();
  }

  /** At 10:00 with the default two-hour lead, everything before 12:00 is too
      soon and 12:00 is the first bookable slot. */
  lemma LeadTimeScenario()
    ensures var r := AvailableSlots(SlotQuery(Some(NineToSix()), [], [], 30, 30, DefaultLeadHours), 600);
      && (forall k :: 0 <= k < 6 ==> !r[k].isAvailable)
      && r[6].time == "12:00" && r[6].isAvailable
  {
    var q := SlotQuery(Some(NineToSix()), [], [], 30, 30, DefaultLeadHours);
    SlotsOnShiftGrid(q, 600);
    AvailabilityDecision(q, 600);
    var r := AvailableSlots(q, 600);
    assert r[6].startsAt == 720;
    FivePmAndNoon();
  }
}
