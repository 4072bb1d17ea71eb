/**
 Member booking. The slots offered for a day are exactly those that the booking transaction accepts,
 although it reads only the shifts and reservations that overlap the slot. Instants are
 milliseconds; Japan is nine hours ahead all year, so a date is a day number.
 */
module MemberBooking {
  import opened Common
  import opened Tables
  import opened Reservations
  import opened Capacity
  import opened Placement

  const DAY := 86_400_000
  const MINUTE := 60_000
  const HOUR := 3_600_000
  const JAPAN_OFFSET := 9 * HOUR
  const MINUTES_OF_DAY := 1440

  // ---- Dates ----

  function JapanDay(t: int): int {
    (t + JAPAN_OFFSET) / DAY
  }

  /** The minute of the Japanese day, seconds dropped. */
  function JapanMinute(t: int): int {
    (t + JAPAN_OFFSET) % DAY / MINUTE
  }

  function JapanInstant(day: int, minute: int): int {
    day * DAY - JAPAN_OFFSET + minute * MINUTE
  }

  lemma JapanRoundTrip(day: int, minute: int)
    requires 0 <= minute < MINUTES_OF_DAY
    ensures JapanDay(JapanInstant(day, minute)) == day && JapanMinute(JapanInstant(day, minute)) == minute
  {
    assert JapanInstant(day, minute) + JAPAN_OFFSET == day * DAY + minute * MINUTE;
    assert 0 <= minute * MINUTE < DAY;
  }

  /** An instant lies in its day, and the day has exactly the instants between its midnights. */
  lemma DayOfInstant(day: int, t: int)
    ensures JapanDay(t) == day <==> JapanInstant(day, 0) <= t < JapanInstant(day + 1, 0)
  {
  }

  // ---- Working staff ----

  predicate WorksAt(sh: Shift, who: nat, t: int) {
    sh.kind == Available && sh.staffId == Some(who) && sh.startsAt <= t < sh.endsAt
  }

  /** Some available shift of the staff member contains the instant. */
  ghost predicate CoveredAt(shifts: seq<Shift>, who: nat, t: int) {
    exists sh :: sh in shifts && WorksAt(sh, who, t)
  }

  ghost predicate Covered(shifts: seq<Shift>, who: nat, start: int, end: int) {
    forall t :: start <= t < end ==> CoveredAt(shifts, who, t)
  }

  /** A shift of any other kind, of the staff member or the whole salon, that overlaps the interval. */
  predicate Prevents(sh: Shift, who: nat, start: int, end: int) {
    && (sh.staffId.None? || sh.staffId == Some(who)) && sh.kind != Available
    && sh.startsAt < end && sh.endsAt > start
  }

  ghost predicate Prevented(shifts: seq<Shift>, who: nat, start: int, end: int) {
    exists sh :: sh in shifts && Prevents(sh, who, start, end)
  }

  ghost predicate IsWorking(who: nat, staff: Staff, shifts: seq<Shift>, start: int, end: int) {
    staff.active && !staff.roomResource && Covered(shifts, who, start, end) && !Prevented(shifts, who, start, end)
  }

  predicate ByStart(shifts: seq<Shift>) {
    forall i, j :: 0 <= i < j < |shifts| ==> shifts[i].startsAt <= shifts[j].startsAt
  }

  method SortByStart(shifts: seq<Shift>) returns (sorted: seq<Shift>)
    ensures ByStart(sorted) && multiset(sorted) == multiset(shifts)
  {
    sorted := [];
    for i := 0 to |shifts|
      invariant ByStart(sorted) && multiset(sorted) == multiset(shifts[..i])
    {
      var p := StartPoint(sorted, shifts[i].startsAt);
      assert sorted == sorted[..p] + sorted[p..];
      sorted := sorted[..p] + [shifts[i]] + sorted[p..];
      assert shifts[..i + 1] == shifts[..i] + [shifts[i]];
    }
    assert shifts[..|shifts|] == shifts;
  }

  method StartPoint(sorted: seq<Shift>, start: int) returns (p: nat)
    requires ByStart(sorted)
    ensures p <= |sorted|
    ensures forall k :: 0 <= k < p ==> sorted[k].startsAt <= start
    ensures forall k :: p <= k < |sorted| ==> sorted[k].startsAt > start
  {
    p := |sorted|;
    while p > 0 && sorted[p - 1].startsAt > start
      invariant p <= |sorted|
      invariant forall k :: p <= k < |sorted| ==> sorted[k].startsAt > start
    {
      p := p - 1;
    }
  }

  predicate Within(sh: Shift, t: int) {
    sh.startsAt <= t < sh.endsAt
  }

  predicate InSome(shifts: seq<Shift>, t: int) {
    exists k :: 0 <= k < |shifts| && Within(shifts[k], t)
  }

  /** How far the sorted shifts reach from `start` without a gap. */
  method GreedyReach(shifts: seq<Shift>, start: int) returns (through: int)
    requires ByStart(shifts)
    ensures through >= start
    ensures forall t :: start <= t < through ==> InSome(shifts, t)
    ensures !InSome(shifts, through)
  {
    through := start;
    for i := 0 to |shifts|
      invariant through >= start
      invariant forall t :: start <= t < through ==> InSome(shifts, t)
      invariant forall k :: 0 <= k < i ==> shifts[k].endsAt <= through
    {
      if shifts[i].startsAt > through { break; }
      if shifts[i].endsAt > through {
        forall t | through <= t < shifts[i].endsAt ensures InSome(shifts, t) {
          assert Within(shifts[i], t);
        }
        through := shifts[i].endsAt;
      }
    }
  }

  function OwnAvailable(who: nat): Shift -> bool {
    (sh: Shift) => sh.kind == Available && sh.staffId == Some(who)
  }

  /** The greedy pass over the sorted available shifts decides coverage of every instant. */
  method MemberStaffIsWorking(who: nat, staff: Staff, shifts: seq<Shift>, start: int, end: int) returns (working: bool)
    ensures working == IsWorking(who, staff, shifts, start, end)
  {
    if !staff.active || staff.roomResource { return false; }
    var available := SortByStart(Where(shifts, OwnAvailable(who)));
    var through := GreedyReach(available, start);
    ReachDecides(shifts, who, available, start, end, through);
    if through < end { return false; }
    var i := 0;
    while i < |shifts|
      invariant i <= |shifts|
      invariant forall k :: 0 <= k < i ==> !Prevents(shifts[k], who, start, end)
    {
      if Prevents(shifts[i], who, start, end) { return false; }
      i := i + 1;
    }
    return true;
  }

  lemma {:induction false} ReachDecides(shifts: seq<Shift>, who: nat, available: seq<Shift>, start: int, end: int, through: int)
    requires multiset(available) == multiset(Where(shifts, OwnAvailable(who))) && through >= start
    requires forall t :: start <= t < through ==> InSome(available, t)
    requires !InSome(available, through)
    ensures Covered(shifts, who, start, end) <==> end <= through
  {
    forall t ensures CoveredAt(shifts, who, t) <==> InSome(available, t) {
      CoveredInSorted(shifts, who, available, t);
    }
    assert start <= through < end ==> !CoveredAt(shifts, who, through);
  }

  lemma {:induction false} CoveredInSorted(shifts: seq<Shift>, who: nat, available: seq<Shift>, t: int)
    requires multiset(available) == multiset(Where(shifts, OwnAvailable(who)))
    ensures CoveredAt(shifts, who, t) <==> InSome(available, t)
  {
    SameMembers(available, Where(shifts, OwnAvailable(who)));
    if CoveredAt(shifts, who, t) {
      var sh :| sh in shifts && WorksAt(sh, who, t);
      assert sh in available;
      var k :| 0 <= k < |available| && available[k] == sh;
      assert Within(available[k], t);
    }
    if InSome(available, t) {
      var k :| 0 <= k < |available| && Within(available[k], t);
      assert available[k] in available;
      assert WorksAt(available[k], who, t);
    }
  }

  lemma SameMembers(a: seq<Shift>, b: seq<Shift>)
    requires multiset(a) == multiset(b)
    ensures forall x :: x in a <==> x in b
  {
    forall x ensures x in a <==> x in b {
      assert x in a <==> x in multiset(a);
      assert x in b <==> x in multiset(b);
    }
  }

  // ---- Cutoffs and bookable starts ----

  datatype CutoffMode = HoursBefore | DaysBefore | SameDay | UnknownMode

  datatype Cutoff = Cutoff(mode: CutoffMode, hours: int, days: int, minute: Option<int>)

  /** Opening hours and cutoffs of a salon; a malformed time is absent. */
  datatype BookingRules = BookingRules(accepting: bool, maxConcurrent: int, openMinute: Option<int>, closeMinute: Option<int>,
                                       interval: int, reservation: Cutoff, cancellation: Cutoff)

  predicate MinuteOk(m: Option<int>) {
    m.Some? ==> 0 <= m.value < MINUTES_OF_DAY
  }

  predicate RulesOk(rules: BookingRules) {
    && MinuteOk(rules.openMinute) && MinuteOk(rules.closeMinute)
    && MinuteOk(rules.reservation.minute) && MinuteOk(rules.cancellation.minute)
  }

  function CutoffAt(c: Cutoff, startsAt: int): Option<int> {
    match c.mode
    case HoursBefore => if c.hours >= 0 then Some(startsAt - c.hours * HOUR) else None
    case UnknownMode => None
    case _ =>
      var days := if c.mode == SameDay then 0 else c.days;
      if days < 0 || c.minute.None? then None
      else Some(Capacity.Min(startsAt, JapanInstant(JapanDay(startsAt - days * DAY), c.minute.value)))
  }

  /** A cutoff is never after the start; a day cutoff falls on the Japanese date that many days before. */
  lemma CutoffBeforeStart(c: Cutoff, startsAt: int)
    requires CutoffAt(c, startsAt).Some? && MinuteOk(c.minute)
    ensures CutoffAt(c, startsAt).value <= startsAt
    ensures c.mode == DaysBefore ==>
              CutoffAt(c, startsAt).value == startsAt || JapanDay(CutoffAt(c, startsAt).value) == JapanDay(startsAt) - c.days
  {
    if c.mode == DaysBefore {
      DaysEarlier(startsAt, c.days);
      JapanRoundTrip(JapanDay(startsAt) - c.days, c.minute.value);
    }
  }

  lemma DaysEarlier(t: int, days: int)
    ensures JapanDay(t - days * DAY) == JapanDay(t) - days
  {
    var day := JapanDay(t);
    DayOfInstant(day, t);
    DayOfInstant(day - days, t - days * DAY);
    assert JapanInstant(day - days, 0) == JapanInstant(day, 0) - days * DAY;
    assert JapanInstant(day - days + 1, 0) == JapanInstant(day + 1, 0) - days * DAY;
  }

  /** The instant as its date and time of day, compared with a minute of some date. */
  lemma BeforeMinute(t: int, day: int, minute: int)
    requires 0 <= minute < MINUTES_OF_DAY
    ensures t < JapanInstant(day, minute) <==> JapanDay(t) < day || (JapanDay(t) == day && JapanMinute(t) < minute)
  {
    var since := t + JAPAN_OFFSET - JapanDay(t) * DAY;
    assert since == (t + JAPAN_OFFSET) % DAY;
    assert 0 <= since < DAY && 0 <= minute * MINUTE < DAY;
    assert JapanMinute(t) < minute <==> since < minute * MINUTE;
    if JapanDay(t) < day { assert JapanDay(t) * DAY + DAY <= day * DAY; }
    if JapanDay(t) > day { assert JapanDay(t) * DAY >= day * DAY + DAY; }
  }

  /**
   Which settings give a cutoff at all, and when an instant is before it: so many hours before the
   start, or before a time of day on the date so many days earlier, and never after the start.
   */
  lemma BeforeCutoffIff(c: Cutoff, startsAt: int, t: int)
    requires MinuteOk(c.minute)
    ensures var days := if c.mode == SameDay then 0 else c.days;
            && (CutoffAt(c, startsAt).Some? <==>
                  (c.mode == HoursBefore && 0 <= c.hours)
                  || ((c.mode == DaysBefore || c.mode == SameDay) && 0 <= days && c.minute.Some?))
            && (CutoffAt(c, startsAt).Some? && c.mode == HoursBefore ==>
                  (t < CutoffAt(c, startsAt).value <==> t + c.hours * HOUR < startsAt))
            && (CutoffAt(c, startsAt).Some? && c.mode != HoursBefore ==>
                  (t < CutoffAt(c, startsAt).value <==>
                     && t < startsAt
                     && (JapanDay(t) < JapanDay(startsAt) - days
                         || (JapanDay(t) == JapanDay(startsAt) - days && JapanMinute(t) < c.minute.value))))
  {
    var days := if c.mode == SameDay then 0 else c.days;
    DaysEarlier(startsAt, days);
    if c.minute.Some? { BeforeMinute(t, JapanDay(startsAt) - days, c.minute.value); }
  }

  // ---- How far ahead may be booked ----

  /** So many days, or up to the same date so many months later; weeks are given in days. */
  datatype Window = Days(days: nat) | Months(months: nat)

  const MAX_WINDOW := 180
  const EPOCH_MONTH := 12 * 1970

  /** Months are numbered from January of year 0, days from the first of January 1970. */
  predicate LeapYear(year: int) {
    year % 4 == 0 && (year % 100 != 0 || year % 400 == 0)
  }

  function MonthLength(month: int): (n: int)
    ensures 28 <= n <= 31
  {
    if month % 12 == 1 then (if LeapYear(month / 12) then 29 else 28)
    else if month % 12 == 3 || month % 12 == 5 || month % 12 == 8 || month % 12 == 10 then 30
    else 31
  }

  /** The first day of a month. */
  function MonthStart(month: int): int
    decreases if month < EPOCH_MONTH then EPOCH_MONTH - month else month - EPOCH_MONTH
  {
    if month == EPOCH_MONTH then 0
    else if month > EPOCH_MONTH then MonthStart(month - 1) + MonthLength(month - 1)
    else MonthStart(month + 1) - MonthLength(month)
  }

  lemma {:induction false} NextMonth(month: int)
    ensures MonthStart(month + 1) == MonthStart(month) + MonthLength(month)
  {
  }

  lemma {:induction false} MonthsInOrder(a: int, b: int)
    requires a < b
    ensures MonthStart(a + 1) <= MonthStart(b)
    decreases b - a
  {
    if a + 1 < b {
      MonthsInOrder(a, b - 1);
      NextMonth(b - 1);
    }
  }

  predicate InMonth(day: int, month: int) {
    MonthStart(month) <= day < MonthStart(month + 1)
  }

  /** The month of a day, searched from a month that is not too late, or not too early. */
  function MonthFrom(day: int, month: int): (m: int)
    requires MonthStart(month) <= day
    ensures InMonth(day, m)
    decreases day - MonthStart(month)
  {
    NextMonth(month);
    if day < MonthStart(month + 1) then month else MonthFrom(day, month + 1)
  }

  function MonthBefore(day: int, month: int): (m: int)
    requires day < MonthStart(month + 1)
    ensures InMonth(day, m)
    decreases MonthStart(month + 1) - day
  {
    NextMonth(month);
    if MonthStart(month) <= day then month else MonthBefore(day, month - 1)
  }

  function MonthOf(day: int): (m: int)
    ensures InMonth(day, m)
  {
    NextMonth(EPOCH_MONTH);
    if day >= 0 then MonthFrom(day, EPOCH_MONTH) else MonthBefore(day, EPOCH_MONTH)
  }

  /** The same date so many months later, or that month's last day. */
  function MonthsLater(day: int, months: nat): int {
    var m := MonthOf(day);
    MonthStart(m + months) + Capacity.Min(day - MonthStart(m), MonthLength(m + months) - 1)
  }

  function WindowDays(w: Window, today: int): int {
    match w
    case Days(n) => Capacity.Min(MAX_WINDOW, n)
    case Months(n) => Capacity.Min(MAX_WINDOW, Capacity.Max(0, MonthsLater(today, n) - today))
  }

  /** The last day that may be booked on a given day. */
  function Reach(w: Window, today: int): int {
    today + WindowDays(w, today)
  }

  lemma {:induction false} LaterIsLater(a: int, b: int, months: nat)
    requires a <= b
    ensures MonthsLater(a, months) <= MonthsLater(b, months)
  {
    var m, n := MonthOf(a), MonthOf(b);
    if n < m { MonthsInOrder(n, m); }
    if m < n {
      MonthsInOrder(m + months, n + months);
      NextMonth(m + months);
    }
  }

  /** The last day that may be booked never moves back, although a window of months gets shorter and longer. */
  lemma {:induction false} ReachOnlyGrows(w: Window, a: int, b: int)
    requires a <= b
    ensures Reach(w, a) <= Reach(w, b)
  {
    if w.Months? { LaterIsLater(a, b, w.months); }
  }

  /** The first day on which a day may be booked, found by going back from a day on which it may. */
  lemma {:induction false} FirstDay(w: Window, day: int, today: int) returns (first: int)
    requires day <= Reach(w, today)
    ensures first <= today && forall d :: day <= Reach(w, d) <==> first <= d
    decreases today - (day - MAX_WINDOW)
  {
    if day <= Reach(w, today - 1) {
      first := FirstDay(w, day, today - 1);
    } else {
      first := today;
      forall d ensures day <= Reach(w, d) <==> first <= d {
        if first <= d { ReachOnlyGrows(w, first, d); } else { ReachOnlyGrows(w, d, first - 1); }
      }
    }
  }

  /** What a calendar decides: how far ahead may be booked, and which days are open. */
  datatype Calendar = Calendar(window: Window, openDays: set<int>)

  predicate StartIsBookable(rules: BookingRules, calendar: Calendar, startsAt: int, duration: int, now: int) {
    var day := JapanDay(startsAt);
    var distance := day - JapanDay(now);
    var start := JapanMinute(startsAt);
    var cutoff := CutoffAt(rules.reservation, startsAt);
    && rules.accepting && startsAt > now && 0 <= distance <= WindowDays(calendar.window, JapanDay(now)) && day in calendar.openDays
    && rules.openMinute.Some? && rules.closeMinute.Some? && rules.closeMinute.value > rules.openMinute.value
    && duration > 0 && start >= rules.openMinute.value && start + duration <= rules.closeMinute.value
    && 5 <= rules.interval <= 240 && (start - rules.openMinute.value) % rules.interval == 0
    && cutoff.Some? && now < cutoff.value
  }

  predicate CanCancel(status: ReservationStatus, payment: PaymentStatus, startsAt: int, rules: Option<BookingRules>, now: int) {
    && rules.Some? && (status == Pending || status == Confirmed || status == Waitlist) && payment == Unpaid && startsAt > now
    && CutoffAt(rules.value.cancellation, startsAt).Some? && now < CutoffAt(rules.value.cancellation, startsAt).value
  }

  /**
   A start that can be booked at some time can be booked at exactly the instants from a certain midnight, the one from
   which its day is in reach, up to its cutoff.
   */
  lemma BookableFromWindowToCutoff(rules: BookingRules, calendar: Calendar, startsAt: int, duration: int, sometime: int)
    returns (opening: int)
    requires RulesOk(rules) && StartIsBookable(rules, calendar, startsAt, duration, sometime)
    ensures forall d :: JapanDay(startsAt) <= Reach(calendar.window, d) <==> opening <= d
    ensures forall now :: StartIsBookable(rules, calendar, startsAt, duration, now)
                     <==> JapanInstant(opening, 0) <= now < CutoffAt(rules.reservation, startsAt).value
  {
    opening := FirstDay(calendar.window, JapanDay(startsAt), JapanDay(sometime));
    CutoffBeforeStart(rules.reservation, startsAt);
    forall now ensures StartIsBookable(rules, calendar, startsAt, duration, now)
                  <==> JapanInstant(opening, 0) <= now < CutoffAt(rules.reservation, startsAt).value
    {
      BookableWhen(rules, calendar, startsAt, duration, sometime, now, opening);
    }
  }

  lemma BookableWhen(rules: BookingRules, calendar: Calendar, startsAt: int, duration: int, sometime: int, now: int, opening: int)
    requires RulesOk(rules) && StartIsBookable(rules, calendar, startsAt, duration, sometime)
    requires JapanDay(startsAt) <= Reach(calendar.window, JapanDay(now)) <==> opening <= JapanDay(now)
    requires CutoffAt(rules.reservation, startsAt).value <= startsAt
    ensures StartIsBookable(rules, calendar, startsAt, duration, now)
       <==> JapanInstant(opening, 0) <= now < CutoffAt(rules.reservation, startsAt).value
  {
    BeforeMinute(now, opening, 0);
    if now < startsAt { assert now + JAPAN_OFFSET < startsAt + JAPAN_OFFSET && JapanDay(now) <= JapanDay(startsAt); }
  }

  /** A reservation that could be cancelled at some time can be cancelled exactly before its cutoff. */
  lemma CancellableUntilCutoff(status: ReservationStatus, payment: PaymentStatus, startsAt: int, rules: BookingRules,
                               sometime: int, now: int)
    requires RulesOk(rules) && CanCancel(status, payment, startsAt, Some(rules), sometime)
    ensures CanCancel(status, payment, startsAt, Some(rules), now) <==> now < CutoffAt(rules.cancellation, startsAt).value
  {
    CutoffBeforeStart(rules.cancellation, startsAt);
  }

  // ---- Offered slots ----

  datatype Member = Member(id: nat, staff: Staff, nominationFee: int)

  datatype Slot = Slot(startsAt: int, endsAt: int, staffId: nat, price: int)

  ghost predicate SlotIsAvailable(rules: BookingRules, m: Member, shifts: seq<Shift>, busy: seq<Span>, start: int, end: int) {
    && IsWorking(m.id, m.staff, shifts, start, end)
    && Peak(busy, start, end) < rules.maxConcurrent
    && Peak(OfStaff(busy, m.id), start, end) < m.staff.parallelCapacity
  }

  method MemberSlotIsAvailable(rules: BookingRules, m: Member, shifts: seq<Shift>, busy: seq<Span>, start: int, end: int)
    returns (free: bool)
    ensures free == SlotIsAvailable(rules, m, shifts, busy, start, end)
  {
    free := MemberStaffIsWorking(m.id, m.staff, shifts, start, end);
    if !free { return; }
    var peak := PeakConcurrentReservations(busy, start, end);
    PeakIsPeak(busy, start, end);
    PeakIsUnique(busy, start, end, peak, Peak(busy, start, end));
    var own := OfStaff(busy, m.id);
    var ownPeak := PeakConcurrentReservations(own, start, end);
    PeakIsPeak(own, start, end);
    PeakIsUnique(own, start, end, ownPeak, Peak(own, start, end));
    free := peak < rules.maxConcurrent && ownPeak < m.staff.parallelCapacity;
  }

  /** Everything the availability page works from. */
  datatype Query = Query(rules: BookingRules, calendar: Calendar, staff: seq<Member>, shifts: seq<Shift>, busy: seq<Span>,
                         day: int, duration: int, price: int, now: int)

  function EndOf(q: Query, minute: int): int {
    JapanInstant(q.day, minute) + q.duration * MINUTE
  }

  function SlotFor(q: Query, m: Member, minute: int): Slot {
    Slot(JapanInstant(q.day, minute), EndOf(q, minute), m.id, q.price + m.nominationFee)
  }

  predicate Bookable(q: Query, minute: int) {
    StartIsBookable(q.rules, q.calendar, JapanInstant(q.day, minute), q.duration, q.now)
  }

  ghost predicate Free(q: Query, m: Member, minute: int) {
    SlotIsAvailable(q.rules, m, q.shifts, q.busy, JapanInstant(q.day, minute), EndOf(q, minute))
  }

  ghost predicate FreeAt(q: Query, x: Slot, minute: int) {
    exists j :: 0 <= j < |q.staff| && x == SlotFor(q, q.staff[j], minute) && Free(q, q.staff[j], minute)
  }

  /** x is a free slot of some member at a bookable minute of the day below `bound`. */
  ghost predicate Offered(q: Query, x: Slot, bound: int) {
    exists minute :: OfferedAt(q, x, bound, minute)
  }

  ghost predicate OfferedAt(q: Query, x: Slot, bound: int, minute: int) {
    0 <= minute < bound && minute < MINUTES_OF_DAY && Bookable(q, minute) && FreeAt(q, x, minute)
  }

  predicate DistinctStaff(staff: seq<Member>) {
    forall i, j :: 0 <= i < j < |staff| ==> staff[i].id != staff[j].id
  }

  /** Nothing is listed twice. */
  predicate Once(slots: seq<Slot>) {
    forall i, j :: 0 <= i < j < |slots| ==> slots[i] != slots[j]
  }

  lemma NotYetListed(q: Query, slots: seq<Slot>, minute: int, k: nat)
    requires k < |q.staff| && DistinctStaff(q.staff)
    requires forall x :: x in slots ==> exists j :: 0 <= j < k && x == SlotFor(q, q.staff[j], minute)
    ensures SlotFor(q, q.staff[k], minute) !in slots
  {
    assert forall j :: 0 <= j < k ==> SlotFor(q, q.staff[j], minute).staffId != q.staff[k].id;
  }

  method SlotsAt(q: Query, minute: int) returns (slots: seq<Slot>)
    ensures forall x :: x in slots <==> FreeAt(q, x, minute)
    ensures forall i :: 0 <= i < |slots| ==> slots[i].startsAt == JapanInstant(q.day, minute)
    ensures DistinctStaff(q.staff) ==> Once(slots)
  {
    slots := [];
    for k := 0 to |q.staff|
      invariant DistinctStaff(q.staff) ==> Once(slots)
      invariant forall i :: 0 <= i < |slots| ==> slots[i].startsAt == JapanInstant(q.day, minute)
      invariant forall x :: x in slots <==>
                  exists j :: 0 <= j < k && x == SlotFor(q, q.staff[j], minute) && Free(q, q.staff[j], minute)
    {
      var free := MemberSlotIsAvailable(q.rules, q.staff[k], q.shifts, q.busy, JapanInstant(q.day, minute), EndOf(q, minute));
      if free {
        if DistinctStaff(q.staff) { NotYetListed(q, slots, minute, k); }
        slots := slots + [SlotFor(q, q.staff[k], minute)];
      }
    }
  }

  predicate InTimeOrder(slots: seq<Slot>) {
    forall i, j :: 0 <= i < j < |slots| ==> slots[i].startsAt <= slots[j].startsAt
  }

  /** The slots of a day are exactly the free ones at its bookable minutes, in time order. */
  method MemberAvailabilitySlots(q: Query) returns (slots: seq<Slot>)
    requires RulesOk(q.rules) && q.duration > 0
    ensures forall x :: x in slots <==> Offered(q, x, MINUTES_OF_DAY)
    ensures InTimeOrder(slots)
    ensures DistinctStaff(q.staff) ==> Once(slots)
  {
    slots := [];
    if q.rules.openMinute.None? || q.rules.closeMinute.None? || q.rules.closeMinute.value <= q.rules.openMinute.value
       || q.rules.interval < 5 || q.rules.interval > 240 {
      NothingEver(q);
      return;
    }
    var open, close := q.rules.openMinute.value, q.rules.closeMinute.value;
    NothingBefore(q, open);
    var minute := open;
    ghost var steps := 0;
    while minute + q.duration <= close
      invariant open <= minute == open + steps * q.rules.interval
      invariant forall x :: x in slots <==> Offered(q, x, minute)
      invariant InTimeOrder(slots)
      invariant DistinctStaff(q.staff) ==> Once(slots)
      invariant forall i :: 0 <= i < |slots| ==> slots[i].startsAt < JapanInstant(q.day, minute)
      decreases close - minute
    {
      var more := [];
      if StartIsBookable(q.rules, q.calendar, JapanInstant(q.day, minute), q.duration, q.now) {
        more := SlotsAt(q, minute);
      }
      OfferedNext(q, open, minute, steps, slots, more);
      slots := slots + more;
      Distribute(q.rules.interval, steps, 1);
      steps := steps + 1;
      minute := minute + q.rules.interval;
    }
    NothingAfter(q, minute);
  }

  lemma MulStep(a: int, b: int, d: int)
    requires a < b && d > 0
    ensures a * d + d <= b * d
  {
    assert (a + 1) * d == a * d + d;
    assert (b - (a + 1)) * d >= 0;
  }

  lemma OnlyAligned(open: int, steps: int, interval: int, m: int)
    requires interval > 0 && (m - open) % interval == 0 && open + steps * interval <= m < open + steps * interval + interval
    ensures m == open + steps * interval
  {
    var b := (m - open) / interval;
    assert m - open == b * interval;
    if b > steps { MulStep(steps, b, interval); }
    if b < steps { MulStep(b, steps, interval); }
  }

  lemma BookableMinute(q: Query, minute: int)
    requires 0 <= minute < MINUTES_OF_DAY && Bookable(q, minute)
    ensures q.rules.openMinute.Some? && q.rules.closeMinute.Some?
    ensures q.rules.openMinute.value <= minute && minute + q.duration <= q.rules.closeMinute.value
    ensures 5 <= q.rules.interval && (minute - q.rules.openMinute.value) % q.rules.interval == 0
  {
    JapanRoundTrip(q.day, minute);
  }

  lemma NothingBefore(q: Query, open: int)
    requires RulesOk(q.rules) && q.rules.openMinute == Some(open)
    ensures forall x :: !Offered(q, x, open)
  {
    forall x: Slot ensures !Offered(q, x, open) {
      forall minute ensures !OfferedAt(q, x, open, minute) {
        if OfferedAt(q, x, open, minute) { BookableMinute(q, minute); }
      }
    }
  }

  lemma OfferedNext(q: Query, open: int, minute: int, steps: int, slots: seq<Slot>, more: seq<Slot>)
    requires RulesOk(q.rules) && q.rules.openMinute == Some(open) && q.rules.interval > 0
    requires 0 <= minute < MINUTES_OF_DAY && minute == open + steps * q.rules.interval
    requires forall x :: x in slots <==> Offered(q, x, minute)
    requires forall x :: x in more <==> Bookable(q, minute) && FreeAt(q, x, minute)
    ensures forall x :: x in slots + more <==> Offered(q, x, minute + q.rules.interval)
  {
    forall x: Slot ensures x in slots + more <==> Offered(q, x, minute + q.rules.interval) {
      if Offered(q, x, minute) {
        var m :| OfferedAt(q, x, minute, m);
        assert OfferedAt(q, x, minute + q.rules.interval, m);
      }
      if x in more { assert OfferedAt(q, x, minute + q.rules.interval, minute); }
      if Offered(q, x, minute + q.rules.interval) {
        var m :| OfferedAt(q, x, minute + q.rules.interval, m);
        BookableMinute(q, m);
        if m < minute {
          assert OfferedAt(q, x, minute, m);
        } else {
          OnlyAligned(open, steps, q.rules.interval, m);
        }
      }
    }
  }

  lemma NothingAfter(q: Query, bound: int)
    requires RulesOk(q.rules) && q.rules.closeMinute.Some? && bound + q.duration > q.rules.closeMinute.value
    ensures forall x :: Offered(q, x, bound) <==> Offered(q, x, MINUTES_OF_DAY)
  {
    forall x: Slot ensures Offered(q, x, bound) <==> Offered(q, x, MINUTES_OF_DAY) {
      if Offered(q, x, bound) {
        var minute :| OfferedAt(q, x, bound, minute);
        assert OfferedAt(q, x, MINUTES_OF_DAY, minute);
      }
      if Offered(q, x, MINUTES_OF_DAY) {
        var minute :| OfferedAt(q, x, MINUTES_OF_DAY, minute);
        BookableMinute(q, minute);
        assert OfferedAt(q, x, bound, minute);
      }
    }
  }

  lemma NothingEver(q: Query)
    requires RulesOk(q.rules)
    requires || q.rules.openMinute.None? || q.rules.closeMinute.None?
             || q.rules.closeMinute.value <= q.rules.openMinute.value
             || q.rules.interval < 5 || q.rules.interval > 240
    ensures forall x :: !Offered(q, x, MINUTES_OF_DAY)
  {
    forall x: Slot ensures !Offered(q, x, MINUTES_OF_DAY) {
      assert forall minute :: !OfferedAt(q, x, MINUTES_OF_DAY, minute);
    }
  }

  // ---- The booking transaction ----

  /** What the member sent and what the salon has of it now. */
  datatype Request = Request(day: int, minute: int, expectedPrice: int, expectedDuration: int)

  function OverlapsOwn(who: nat, start: int, end: int): Shift -> bool {
    (sh: Shift) => sh.startsAt < end && sh.endsAt > start && (sh.staffId.None? || sh.staffId == Some(who))
  }

  /** The shifts the transaction reads: those overlapping the slot, of the staff member or the salon. */
  function SlotShifts(s: Salon, who: nat, start: int, end: int): seq<Shift> {
    Where(s.shifts, OverlapsOwn(who, start, end))
  }

  /** The first reason why the transaction refuses, given how many future reservations the member has. */
  ghost function BookingProblem(s: Salon, rules: BookingRules, calendar: Calendar, m: Member, duration: int, price: int, r: Request,
                                future: nat, now: int): Option<string>
  {
    var startsAt := JapanInstant(r.day, r.minute);
    var endsAt := startsAt + duration * MINUTE;
    if !m.staff.active || m.staff.roomResource then Some("INVALID_STAFF")
    else if r.expectedPrice != price + m.nominationFee then Some("PRICE_CHANGED")
    else if r.expectedDuration != duration then Some("DURATION_CHANGED")
    else if !StartIsBookable(rules, calendar, startsAt, duration, now) then Some("SLOT_UNAVAILABLE")
    else if !IsWorking(m.id, m.staff, SlotShifts(s, m.id, startsAt, endsAt), startsAt, endsAt) then Some("SLOT_UNAVAILABLE")
    else
      var capacity := CapacityProblem(s, startsAt, endsAt, Some(m.id), None);
      if capacity.Some? then capacity
      else if future >= 8 then Some("BOOKING_LIMIT")
      else None
  }

  /** The salon's tables as the availability page and the transaction both see them. */
  predicate SeenBy(s: Salon, rules: BookingRules, m: Member) {
    && s.settings == Some(Settings(rules.accepting, rules.maxConcurrent))
    && m.id in s.staff && s.staff[m.id] == m.staff
  }

  function InDay(day: int): Shift -> bool {
    (sh: Shift) => sh.startsAt < JapanInstant(day + 1, 0) && sh.endsAt > JapanInstant(day, 0)
  }

  predicate For(sh: Shift, who: nat) {
    sh.staffId.None? || sh.staffId == Some(who)
  }

  /** Everything the page reads of the day: all its shifts of listed staff or the salon, all its reservations. */
  ghost predicate ReadsDay(q: Query, s: Salon) {
    && q.busy == Overlaps(s.bookings, JapanInstant(q.day, 0), JapanInstant(q.day + 1, 0), None, |s.bookings|)
    && (forall sh :: sh in q.shifts ==> sh in s.shifts && InDay(q.day)(sh))
    && (forall sh, j :: 0 <= j < |q.staff| && sh in s.shifts && InDay(q.day)(sh) && For(sh, q.staff[j].id) ==> sh in q.shifts)
  }

  /** Both readings contain every shift that can matter to the slot, so they decide alike. */
  lemma SameWorking(who: nat, staff: Staff, all: seq<Shift>, read: seq<Shift>, start: int, end: int)
    requires forall sh :: sh in read ==> sh in all
    requires forall sh :: sh in all && (sh.staffId.None? || sh.staffId == Some(who)) && sh.startsAt < end && sh.endsAt > start ==>
               sh in read
    ensures IsWorking(who, staff, read, start, end) <==> IsWorking(who, staff, all, start, end)
  {
    forall t | start <= t < end ensures CoveredAt(read, who, t) <==> CoveredAt(all, who, t) {
      if CoveredAt(all, who, t) {
        var sh :| sh in all && WorksAt(sh, who, t);
        assert sh in read;
      }
      if CoveredAt(read, who, t) {
        var sh :| sh in read && WorksAt(sh, who, t);
        assert sh in all;
      }
    }
    if Prevented(all, who, start, end) {
      var sh :| sh in all && Prevents(sh, who, start, end);
      assert sh in read && Prevents(sh, who, start, end);
    }
    if Prevented(read, who, start, end) {
      var sh :| sh in read && Prevents(sh, who, start, end);
      assert sh in all && Prevents(sh, who, start, end);
    }
  }

  /** A slot inside the day sees the same peaks in the day's reservations as in those overlapping it. */
  lemma {:induction false} SamePeaks(bookings: seq<Booking>, from: int, to: int, start: int, end: int, who: nat)
    requires from <= start < end <= to
    ensures var day, slot := Overlaps(bookings, from, to, None, |bookings|), Overlaps(bookings, start, end, None, |bookings|);
            && Peak(day, start, end) == Peak(slot, start, end)
            && Peak(OfStaff(day, who), start, end) == Peak(OfStaff(slot, who), start, end)
  {
    var n := |bookings|;
    var day, slot := Overlaps(bookings, from, to, None, n), Overlaps(bookings, start, end, None, n);
    forall t | start <= t < end
      ensures Occupied(day, t) == Occupied(slot, t) && Occupied(OfStaff(day, who), t) == Occupied(OfStaff(slot, who), t)
    {
      OverlapsOccupied(bookings, from, to, None, n, who, t);
      OverlapsOccupied(bookings, start, end, None, n, who, t);
    }
    SamePeak(day, slot, start, end);
    SamePeak(OfStaff(day, who), OfStaff(slot, who), start, end);
  }

  lemma SamePeak(a: seq<Span>, b: seq<Span>, start: int, end: int)
    requires forall t :: start <= t < end ==> Occupied(a, t) == Occupied(b, t)
    ensures Peak(a, start, end) == Peak(b, start, end)
  {
    PeakIsPeak(a, start, end);
    PeakIsPeak(b, start, end);
    var m := Peak(a, start, end);
    if m > 0 {
      var t :| start <= t < end && Occupied(a, t) == m;
      assert Occupied(b, t) == m;
    }
    assert IsPeak(b, start, end, m);
    PeakIsUnique(b, start, end, m, Peak(b, start, end));
  }

  /** A bookable slot lies within its day. */
  lemma SlotInDay(q: Query, minute: int)
    requires RulesOk(q.rules) && 0 <= minute < MINUTES_OF_DAY && Bookable(q, minute)
    ensures JapanInstant(q.day, 0) <= JapanInstant(q.day, minute) < EndOf(q, minute) <= JapanInstant(q.day + 1, 0)
  {
    BookableMinute(q, minute);
  }

  /** No blocking shift in the sense of the capacity check is left once the staff member is working. */
  lemma WorkingIsNotBlocked(s: Salon, m: Member, start: int, end: int)
    requires IsWorking(m.id, m.staff, s.shifts, start, end)
    ensures !Blocked(s.shifts, None, start, end) && !Blocked(s.shifts, Some(m.id), start, end)
  {
    forall i | 0 <= i < |s.shifts|
      ensures !Blocks(s.shifts[i], None, start, end) && !Blocks(s.shifts[i], Some(m.id), start, end)
    {
      assert s.shifts[i] in s.shifts;
      assert !Prevents(s.shifts[i], m.id, start, end);
    }
  }

  lemma WorkingInEveryReading(q: Query, s: Salon, j: nat, start: int, end: int)
    requires j < |q.staff| && ReadsDay(q, s) && JapanInstant(q.day, 0) <= start < end <= JapanInstant(q.day + 1, 0)
    ensures var m := q.staff[j];
            && (IsWorking(m.id, m.staff, q.shifts, start, end) <==> IsWorking(m.id, m.staff, s.shifts, start, end))
            && (IsWorking(m.id, m.staff, SlotShifts(s, m.id, start, end), start, end)
                <==> IsWorking(m.id, m.staff, s.shifts, start, end))
  {
    var m := q.staff[j];
    SameWorking(m.id, m.staff, s.shifts, q.shifts, start, end);
    SameWorking(m.id, m.staff, s.shifts, SlotShifts(s, m.id, start, end), start, end);
  }

  /** For a working staff member of an accepting salon, capacity is only a question of the two peaks. */
  lemma {:induction false} CapacityWhileWorking(s: Salon, rules: BookingRules, m: Member, start: int, end: int)
    requires SeenBy(s, rules, m) && rules.accepting && m.staff.active && start < end
    requires IsWorking(m.id, m.staff, s.shifts, start, end)
    ensures var overlaps := Overlaps(s.bookings, start, end, None, |s.bookings|);
            CapacityProblem(s, start, end, Some(m.id), None).None?
            <==> && Peak(overlaps, start, end) < rules.maxConcurrent
                 && Peak(OfStaff(overlaps, m.id), start, end) < m.staff.parallelCapacity
  {
    WorkingIsNotBlocked(s, m, start, end);
  }

  lemma FreeIffPlaceable(q: Query, s: Salon, j: nat, minute: int)
    requires RulesOk(q.rules) && j < |q.staff| && SeenBy(s, q.rules, q.staff[j]) && ReadsDay(q, s)
    requires 0 <= minute < MINUTES_OF_DAY && Bookable(q, minute)
    ensures var m := q.staff[j];
            var start, end := JapanInstant(q.day, minute), EndOf(q, minute);
            Free(q, m, minute) <==> && IsWorking(m.id, m.staff, SlotShifts(s, m.id, start, end), start, end)
                                    && CapacityProblem(s, start, end, Some(m.id), None).None?
  {
    var m := q.staff[j];
    var start, end := JapanInstant(q.day, minute), EndOf(q, minute);
    SlotInDay(q, minute);
    WorkingInEveryReading(q, s, j, start, end);
    SamePeaks(s.bookings, JapanInstant(q.day, 0), JapanInstant(q.day + 1, 0), start, end, m.id);
    if IsWorking(m.id, m.staff, s.shifts, start, end) { CapacityWhileWorking(s, q.rules, m, start, end); }
  }

  function RequestFor(q: Query, m: Member, minute: int): Request {
    Request(q.day, minute, q.price + m.nominationFee, q.duration)
  }

  /**
   With unchanged tables and time, a bookable minute is offered for a listed member exactly when the
   booking transaction would accept it from a member with room for another reservation.
   */
  lemma OfferedIffAccepted(q: Query, s: Salon, j: nat, minute: int, future: nat)
    requires RulesOk(q.rules) && j < |q.staff| && SeenBy(s, q.rules, q.staff[j]) && ReadsDay(q, s)
    requires 0 <= minute < MINUTES_OF_DAY && future < 8
    ensures (Bookable(q, minute) && Free(q, q.staff[j], minute))
       <==> BookingProblem(s, q.rules, q.calendar, q.staff[j], q.duration, q.price, RequestFor(q, q.staff[j], minute), future,
                           q.now).None?
  {
    if Bookable(q, minute) { FreeIffPlaceable(q, s, j, minute); }
  }

  /** So every slot on the page can be booked as shown: its start, its member and its price. */
  lemma ListedSlotIsAccepted(q: Query, s: Salon, x: Slot, future: nat)
    requires RulesOk(q.rules) && ReadsDay(q, s) && future < 8 && Offered(q, x, MINUTES_OF_DAY)
    requires forall j :: 0 <= j < |q.staff| ==> SeenBy(s, q.rules, q.staff[j])
    ensures exists j, minute ::
              && 0 <= j < |q.staff| && 0 <= minute < MINUTES_OF_DAY && x == SlotFor(q, q.staff[j], minute)
              && BookingProblem(s, q.rules, q.calendar, q.staff[j], q.duration, q.price,
                                Request(q.day, minute, x.price, q.duration), future, q.now).None?
  {
    var minute :| OfferedAt(q, x, MINUTES_OF_DAY, minute);
    var j :| 0 <= j < |q.staff| && x == SlotFor(q, q.staff[j], minute) && Free(q, q.staff[j], minute);
    OfferedIffAccepted(q, s, j, minute, future);
    assert RequestFor(q, q.staff[j], minute) == Request(q.day, minute, x.price, q.duration);
  }
}
