/**
 Placing reservations. Every creation, move and status change that needs capacity is checked against
 the limits in force; cancellations and changed limits are not.
 */
module Placement {
  import opened Common
  import opened Tables
  import opened Reservations
  import opened Capacity

  datatype Booking = Booking(startsAt: int, endsAt: int, staffId: Option<nat>, status: ReservationStatus)

  datatype Settings = Settings(accepting: bool, maxConcurrent: int)

  datatype Staff = Staff(active: bool, roomResource: bool, parallelCapacity: int)

  datatype ShiftKind = Available | Off | Break | SalesStop | Training

  /** A shift of one staff member, or of the whole salon. */
  datatype Shift = Shift(staffId: Option<nat>, kind: ShiftKind, startsAt: int, endsAt: int)

  /** Bookings are never deleted; a booking's number is its position. */
  datatype Salon = Salon(settings: Option<Settings>, staff: map<nat, Staff>, shifts: seq<Shift>, bookings: seq<Booking>)

  predicate Counted(s: ReservationStatus) {
    s == Pending || s == Confirmed || s == Arrived || s == Completed
  }

  // ---- The check ----

  /** Booking k as the check reads it: nothing unless it counts, overlaps and is not the excluded one. */
  function Read(bookings: seq<Booking>, start: int, end: int, exclude: Option<nat>, k: nat): (r: seq<Span>)
    requires k < |bookings|
    ensures |r| <= 1
  {
    var b := bookings[k];
    if Counted(b.status) && b.startsAt < end && b.endsAt > start && exclude != Some(k)
    then [Span(b.startsAt, b.endsAt, b.staffId)] else []
  }

  /** The counted bookings among the first k, other than the excluded one, that overlap the interval. */
  function Overlaps(bookings: seq<Booking>, start: int, end: int, exclude: Option<nat>, k: nat): seq<Span>
    requires k <= |bookings|
  {
    if k == 0 then [] else Overlaps(bookings, start, end, exclude, k - 1) + Read(bookings, start, end, exclude, k - 1)
  }

  predicate Of(r: Span, id: nat) {
    r.staffId == Some(id)
  }

  function OfStaff(rs: seq<Span>, id: nat): seq<Span> {
    if |rs| == 0 then []
    else OfStaff(rs[..|rs| - 1], id) + (if Of(rs[|rs| - 1], id) then [rs[|rs| - 1]] else [])
  }

  predicate Blocks(sh: Shift, staffId: Option<nat>, start: int, end: int) {
    && (sh.kind == Off || sh.kind == Break || sh.kind == SalesStop)
    && sh.startsAt < end && sh.endsAt > start && sh.staffId == staffId
  }

  predicate Blocked(shifts: seq<Shift>, staffId: Option<nat>, start: int, end: int) {
    exists i :: 0 <= i < |shifts| && Blocks(shifts[i], staffId, start, end)
  }

  function CapacityProblem(s: Salon, start: int, end: int, staffId: Option<nat>, exclude: Option<nat>): Option<string> {
    var overlaps := Overlaps(s.bookings, start, end, exclude, |s.bookings|);
    if start >= end then Some("INVALID_RESERVATION_TIME")
    else if s.settings.Some? && !s.settings.value.accepting then Some("RESERVATIONS_SUSPENDED")
    else if Blocked(s.shifts, None, start, end) then Some("SALON_UNAVAILABLE")
    else if s.settings.Some? && Peak(overlaps, start, end) >= s.settings.value.maxConcurrent then Some("SALON_CAPACITY_EXCEEDED")
    else if staffId.None? then None
    else if staffId.value !in s.staff || !s.staff[staffId.value].active then Some("INVALID_STAFF")
    else if Peak(OfStaff(overlaps, staffId.value), start, end) >= s.staff[staffId.value].parallelCapacity then Some("STAFF_CONFLICT")
    else if Blocked(s.shifts, staffId, start, end) then Some("STAFF_UNAVAILABLE")
    else None
  }

  /** The check with the sweep doing the counting. */
  method ReservationCapacityProblem(s: Salon, start: int, end: int, staffId: Option<nat>, exclude: Option<nat>)
    returns (problem: Option<string>)
    ensures problem == CapacityProblem(s, start, end, staffId, exclude)
  {
    if start >= end { return Some("INVALID_RESERVATION_TIME"); }
    var overlaps := Overlaps(s.bookings, start, end, exclude, |s.bookings|);
    if s.settings.Some? && !s.settings.value.accepting { return Some("RESERVATIONS_SUSPENDED"); }
    if Blocked(s.shifts, None, start, end) { return Some("SALON_UNAVAILABLE"); }
    if s.settings.Some? {
      var peak := PeakConcurrentReservations(overlaps, start, end);
      PeakIsPeak(overlaps, start, end);
      PeakIsUnique(overlaps, start, end, peak, Peak(overlaps, start, end));
      if peak >= s.settings.value.maxConcurrent { return Some("SALON_CAPACITY_EXCEEDED"); }
    }
    if staffId.None? { return None; }
    var id := staffId.value;
    if id !in s.staff || !s.staff[id].active { return Some("INVALID_STAFF"); }
    var own := OfStaff(overlaps, id);
    var peak := PeakConcurrentReservations(own, start, end);
    PeakIsPeak(own, start, end);
    PeakIsUnique(own, start, end, peak, Peak(own, start, end));
    if peak >= s.staff[id].parallelCapacity { return Some("STAFF_CONFLICT"); }
    if Blocked(s.shifts, staffId, start, end) { return Some("STAFF_UNAVAILABLE"); }
    return None;
  }

  // ---- Occupancy of a salon and of a staff member ----

  function PresentAt(t: int): Booking -> int {
    (b: Booking) => if (b.status == Pending || b.status == Confirmed || b.status == Arrived || b.status == Completed)
                       && b.startsAt <= t < b.endsAt then 1 else 0
  }

  function StaffPresentAt(id: nat, t: int): Booking -> int {
    (b: Booking) => if (b.status == Pending || b.status == Confirmed || b.status == Arrived || b.status == Completed)
                       && b.startsAt <= t < b.endsAt && b.staffId == Some(id) then 1 else 0
  }

  function Occupancy(bookings: seq<Booking>, t: int): int {
    Total(bookings, PresentAt(t))
  }

  function StaffOccupancy(bookings: seq<Booking>, id: nat, t: int): int {
    Total(bookings, StaffPresentAt(id, t))
  }

  /** The bookings with one of them set aside, as the check sees them. */
  function Without(bookings: seq<Booking>, exclude: Option<nat>): (r: seq<Booking>)
    ensures |r| == |bookings|
  {
    if exclude.Some? && exclude.value < |bookings|
    then bookings[exclude.value := bookings[exclude.value].(status := Cancelled)] else bookings
  }

  /** What one booking contributes at an instant of the interval, read or set aside. */
  lemma ReadOccupied(bookings: seq<Booking>, start: int, end: int, exclude: Option<nat>, k: nat, id: nat, t: int)
    requires k < |bookings| && start <= t < end
    ensures var r := Read(bookings, start, end, exclude, k);
            var b := Without(bookings, exclude)[k];
            && PresentAt(t)(b) == (if |r| == 1 then Covers(t)(r[0]) else 0)
            && StaffPresentAt(id, t)(b) == (if |r| == 1 && Of(r[0], id) then Covers(t)(r[0]) else 0)
  {
  }

  lemma AppendSpan(rs: seq<Span>, r: seq<Span>, t: int)
    requires |r| <= 1
    ensures Occupied(rs + r, t) == Occupied(rs, t) + (if |r| == 1 then Covers(t)(r[0]) else 0)
  {
    if |r| == 1 {
      assert rs + r == rs + [r[0]];
      TotalSnoc(rs, r[0], Covers(t));
    } else {
      assert rs + r == rs;
    }
  }

  lemma {:induction false} AppendOfStaff(rs: seq<Span>, r: seq<Span>, id: nat, t: int)
    requires |r| <= 1
    ensures Occupied(OfStaff(rs + r, id), t)
         == Occupied(OfStaff(rs, id), t) + (if |r| == 1 && Of(r[0], id) then Covers(t)(r[0]) else 0)
  {
    if |r| == 1 {
      assert (rs + r)[..|rs|] == rs;
      AppendSpan(OfStaff(rs, id), if Of(r[0], id) then r else [], t);
      assert OfStaff(rs + r, id) == OfStaff(rs, id) + (if Of(r[0], id) then r else []);
    } else {
      assert rs + r == rs;
    }
  }

  /** The spans read stand for the bookings: the same occupancy of the salon and of a staff member. */
  predicate StandsFor(spans: seq<Span>, bookings: seq<Booking>, id: nat, t: int) {
    Occupied(spans, t) == Occupancy(bookings, t) && Occupied(OfStaff(spans, id), t) == StaffOccupancy(bookings, id, t)
  }

  lemma {:induction false} OverlapsOccupied(bookings: seq<Booking>, start: int, end: int, exclude: Option<nat>, k: nat,
                                            id: nat, t: int)
    requires k <= |bookings| && start <= t < end
    ensures StandsFor(Overlaps(bookings, start, end, exclude, k), Without(bookings, exclude)[..k], id, t)
  {
    if k != 0 {
      OverlapsOccupied(bookings, start, end, exclude, k - 1, id, t);
      ReadOccupied(bookings, start, end, exclude, k - 1, id, t);
      OneMoreOf(Overlaps(bookings, start, end, exclude, k - 1), Read(bookings, start, end, exclude, k - 1),
                Without(bookings, exclude), k, id, t);
    }
  }

  lemma {:induction false} OneMoreOf(before: seq<Span>, r: seq<Span>, rest: seq<Booking>, k: nat, id: nat, t: int)
    requires 0 < k <= |rest| && |r| <= 1 && StandsFor(before, rest[..k - 1], id, t)
    requires PresentAt(t)(rest[k - 1]) == (if |r| == 1 then Covers(t)(r[0]) else 0)
    requires StaffPresentAt(id, t)(rest[k - 1]) == (if |r| == 1 && Of(r[0], id) then Covers(t)(r[0]) else 0)
    ensures StandsFor(before + r, rest[..k], id, t)
  {
    assert rest[..k] == rest[..k - 1] + [rest[k - 1]];
    OneMore(before, r, rest[..k - 1], rest[k - 1], id, t);
  }

  lemma OneMore(before: seq<Span>, r: seq<Span>, rest: seq<Booking>, b: Booking, id: nat, t: int)
    requires |r| <= 1 && StandsFor(before, rest, id, t)
    requires PresentAt(t)(b) == (if |r| == 1 then Covers(t)(r[0]) else 0)
    requires StaffPresentAt(id, t)(b) == (if |r| == 1 && Of(r[0], id) then Covers(t)(r[0]) else 0)
    ensures StandsFor(before + r, rest + [b], id, t)
  {
    TotalSnoc(rest, b, PresentAt(t));
    TotalSnoc(rest, b, StaffPresentAt(id, t));
    AppendSpan(before, r, t);
    AppendOfStaff(before, r, id, t);
  }

  /** What an accepted request knows: there is room for one more at every instant of its interval. */
  lemma AcceptedHasRoom(s: Salon, start: int, end: int, staffId: Option<nat>, exclude: Option<nat>, t: int)
    requires CapacityProblem(s, start, end, staffId, exclude).None? && start <= t < end
    ensures s.settings.Some? ==> Occupancy(Without(s.bookings, exclude), t) < s.settings.value.maxConcurrent
    ensures staffId.Some? ==>
              && staffId.value in s.staff && s.staff[staffId.value].active
              && StaffOccupancy(Without(s.bookings, exclude), staffId.value, t) < s.staff[staffId.value].parallelCapacity
  {
    var n := |s.bookings|;
    var overlaps := Overlaps(s.bookings, start, end, exclude, n);
    assert Without(s.bookings, exclude)[..n] == Without(s.bookings, exclude);
    PeakIsPeak(overlaps, start, end);
    OverlapsOccupied(s.bookings, start, end, exclude, n, if staffId.Some? then staffId.value else 0, t);
    if staffId.Some? { PeakIsPeak(OfStaff(overlaps, staffId.value), start, end); }
  }

  // ---- Steps ----

  datatype Step =
    | Create(startsAt: int, endsAt: int, staffId: Option<nat>, status: ReservationStatus)
    | MemberCreate(startsAt: int, endsAt: int, member: nat, bookable: bool)
    | Edit(id: nat, startsAt: int, endsAt: int, staffId: Option<nat>, status: ReservationStatus, recorded: bool)
    | SetStatus(id: nat, status: ReservationStatus)
    | MemberCancel(id: nat, cancellable: bool)
    | Configure(settings: Option<Settings>)
    | SetStaff(who: nat, staff: Staff)
    | SetShifts(shifts: seq<Shift>)

  /** Adds a booking, or replaces one, if it needs no capacity or there is enough. */
  function Place(s: Salon, b: Booking, at: Option<nat>): Salon
    requires at.Some? ==> at.value < |s.bookings|
  {
    if !Gone(b.status) && CapacityProblem(s, b.startsAt, b.endsAt, b.staffId, at).Some? then s
    else if at.Some? then s.(bookings := s.bookings[at.value := b])
    else s.(bookings := s.bookings + [b])
  }

  function Apply(s: Salon, step: Step): Salon {
    match step
    case Create(startsAt, endsAt, staffId, status) => Place(s, Booking(startsAt, endsAt, staffId, status), None)
    case MemberCreate(startsAt, endsAt, member, bookable) =>
      if bookable then Place(s, Booking(startsAt, endsAt, Some(member), Confirmed), None) else s
    case Edit(id, startsAt, endsAt, staffId, status, recorded) =>
      if id >= |s.bookings| then s
      else
        var b := s.bookings[id];
        if recorded && !(startsAt == b.startsAt && endsAt == b.endsAt && staffId == b.staffId) then s
        else Place(s, Booking(startsAt, endsAt, staffId, status), Some(id))
    case SetStatus(id, status) =>
      if id >= |s.bookings| then s else Place(s, s.bookings[id].(status := status), Some(id))
    case MemberCancel(id, cancellable) =>
      if id >= |s.bookings| || !cancellable then s
      else s.(bookings := s.bookings[id := s.bookings[id].(status := Cancelled)])
    case Configure(settings) => s.(settings := settings)
    case SetStaff(who, staff) => s.(staff := s.staff[who := staff])
    case SetShifts(shifts) => s.(shifts := shifts)
  }

  function Run(s: Salon, steps: seq<Step>): Salon {
    if |steps| == 0 then s else Apply(Run(s, steps[..|steps| - 1]), steps[|steps| - 1])
  }

  // ---- One placement ----

  lemma WithoutLowers(bookings: seq<Booking>, exclude: Option<nat>, id: nat, t: int)
    ensures Occupancy(Without(bookings, exclude), t) <= Occupancy(bookings, t)
    ensures StaffOccupancy(Without(bookings, exclude), id, t) <= StaffOccupancy(bookings, id, t)
  {
    if exclude.Some? && exclude.value < |bookings| {
      var gone := bookings[exclude.value].(status := Cancelled);
      TotalUpdate(bookings, exclude.value, gone, PresentAt(t));
      TotalUpdate(bookings, exclude.value, gone, StaffPresentAt(id, t));
    }
  }

  /** The bookings after a placement are those set aside plus the placed one. */
  lemma PlacedOccupancy(bookings: seq<Booking>, b: Booking, at: Option<nat>, id: nat, t: int)
    requires at.Some? ==> at.value < |bookings|
    ensures var now := if at.Some? then bookings[at.value := b] else bookings + [b];
            && Occupancy(now, t) == Occupancy(Without(bookings, at), t) + PresentAt(t)(b)
            && StaffOccupancy(now, id, t) == StaffOccupancy(Without(bookings, at), id, t) + StaffPresentAt(id, t)(b)
  {
    if at.Some? {
      var rest := Without(bookings, at);
      TotalUpdate(rest, at.value, b, PresentAt(t));
      TotalUpdate(rest, at.value, b, StaffPresentAt(id, t));
      assert rest[at.value := b] == bookings[at.value := b];
    } else {
      TotalSnoc(bookings, b, PresentAt(t));
      TotalSnoc(bookings, b, StaffPresentAt(id, t));
    }
  }

  /**
   A committed placement leaves every instant of its interval within the salon's limit and its staff
   member's, and raises occupancy nowhere else, neither of the salon nor of any staff member.
   */
  lemma PlacementWithinLimits(s: Salon, b: Booking, at: Option<nat>, id: nat, t: int)
    requires at.Some? ==> at.value < |s.bookings|
    requires !Gone(b.status) && CapacityProblem(s, b.startsAt, b.endsAt, b.staffId, at).None?
    ensures var now := Place(s, b, at).bookings;
            && (b.startsAt <= t < b.endsAt ==>
                  && (s.settings.Some? ==> Occupancy(now, t) <= s.settings.value.maxConcurrent)
                  && (b.staffId == Some(id) ==> id in s.staff && StaffOccupancy(now, id, t) <= s.staff[id].parallelCapacity))
            && (!(b.startsAt <= t < b.endsAt) ==> Occupancy(now, t) <= Occupancy(s.bookings, t))
            && (!(b.startsAt <= t < b.endsAt) || b.staffId != Some(id) ==>
                  StaffOccupancy(now, id, t) <= StaffOccupancy(s.bookings, id, t))
  {
    PlacedOccupancy(s.bookings, b, at, id, t);
    WithoutLowers(s.bookings, at, id, t);
    if b.startsAt <= t < b.endsAt {
      AcceptedHasRoom(s, b.startsAt, b.endsAt, b.staffId, at, t);
    }
  }

  // ---- Every step ----

  /** Nothing raises the salon's occupancy at any instant above the limit in force. */
  lemma NeverRaisedOverLimit(s: Salon, step: Step, t: int)
    ensures Occupancy(Apply(s, step).bookings, t) <= Occupancy(s.bookings, t)
         || s.settings.None? || Occupancy(Apply(s, step).bookings, t) <= s.settings.value.maxConcurrent
  {
    StepOccupancy(s, step, 0, t);
  }

  lemma StaffNeverRaisedOverLimit(s: Salon, step: Step, id: nat, t: int)
    ensures StaffOccupancy(Apply(s, step).bookings, id, t) <= StaffOccupancy(s.bookings, id, t)
         || (id in s.staff && StaffOccupancy(Apply(s, step).bookings, id, t) <= s.staff[id].parallelCapacity)
  {
    StepOccupancy(s, step, id, t);
  }

  /** Where a step may raise occupancy, and how far. */
  ghost predicate RaisedWithin(s: Salon, now: seq<Booking>, id: nat, t: int) {
    && (Occupancy(now, t) <= Occupancy(s.bookings, t) || s.settings.None?
        || Occupancy(now, t) <= s.settings.value.maxConcurrent)
    && (StaffOccupancy(now, id, t) <= StaffOccupancy(s.bookings, id, t)
        || (id in s.staff && StaffOccupancy(now, id, t) <= s.staff[id].parallelCapacity))
  }

  lemma PlaceBounded(s: Salon, b: Booking, at: Option<nat>, id: nat, t: int)
    requires at.Some? ==> at.value < |s.bookings|
    ensures RaisedWithin(s, Place(s, b, at).bookings, id, t)
  {
    if Gone(b.status) {
      PlacedOccupancy(s.bookings, b, at, id, t);
      WithoutLowers(s.bookings, at, id, t);
    } else if CapacityProblem(s, b.startsAt, b.endsAt, b.staffId, at).None? {
      PlacementWithinLimits(s, b, at, id, t);
    }
  }

  lemma StepOccupancy(s: Salon, step: Step, id: nat, t: int)
    ensures RaisedWithin(s, Apply(s, step).bookings, id, t)
  {
    match step
    case Create(startsAt, endsAt, staffId, status) => PlaceBounded(s, Booking(startsAt, endsAt, staffId, status), None, id, t);
    case MemberCreate(startsAt, endsAt, member, bookable) =>
      PlaceBounded(s, Booking(startsAt, endsAt, Some(member), Confirmed), None, id, t);
    case Edit(at, startsAt, endsAt, staffId, status, recorded) =>
      if at < |s.bookings| { PlaceBounded(s, Booking(startsAt, endsAt, staffId, status), Some(at), id, t); }
    case SetStatus(at, status) =>
      if at < |s.bookings| { PlaceBounded(s, s.bookings[at].(status := status), Some(at), id, t); }
    case MemberCancel(at, cancellable) =>
      WithoutLowers(s.bookings, Some(at), id, t);
    case _ =>
  }

  /** The same time and the same staff member. */
  predicate SamePlace(a: Booking, b: Booking) {
    a.startsAt == b.startsAt && a.endsAt == b.endsAt && a.staffId == b.staffId
  }

  /**
   Bookings are never dropped; what has a chart or checkout stays at its time and with its staff
   member; and a booking that counts after a change has been checked, reactivated ones included.
   */
  lemma ChangesAreChecked(s: Salon, step: Step, k: nat)
    requires k < |Apply(s, step).bookings|
    ensures var now := Apply(s, step).bookings;
            && |s.bookings| <= |now| <= |s.bookings| + 1
            && (k < |s.bookings| && !SamePlace(now[k], s.bookings[k]) ==> step.Edit? && step.id == k && !step.recorded)
            && (k == |s.bookings| ==> step.Create? || (step.MemberCreate? && step.bookable && now[k].status == Confirmed))
            && (!Gone(now[k].status) && (k < |s.bookings| ==> now[k] != s.bookings[k]) ==>
                  CapacityProblem(s, now[k].startsAt, now[k].endsAt, now[k].staffId,
                                  if k < |s.bookings| then Some(k) else None).None?)
            && (k < |s.bookings| && step.MemberCancel? && now[k] != s.bookings[k] ==> step.cancellable && Gone(now[k].status))
  {
    var now := Apply(s, step).bookings;
    assert k < |s.bookings| && now[k] != s.bookings[k] ==>
        (step.Edit? || step.SetStatus? || step.MemberCancel?) && step.id == k;
  }

  // ---- Whole runs ----

  ghost predicate SalonWithin(s: Salon) {
    s.settings.Some? ==> forall t :: Occupancy(s.bookings, t) <= s.settings.value.maxConcurrent
  }

  ghost predicate StaffWithin(s: Salon) {
    forall id: nat, t: int :: id in s.staff ==> StaffOccupancy(s.bookings, id, t) <= s.staff[id].parallelCapacity
  }

  /** Counted bookings name staff the salon knows. */
  predicate StaffKnown(s: Salon) {
    forall i :: 0 <= i < |s.bookings| && Counted(s.bookings[i].status) && s.bookings[i].staffId.Some? ==>
      s.bookings[i].staffId.value in s.staff
  }

  ghost predicate WithinLimits(s: Salon) {
    SalonWithin(s) && StaffWithin(s) && StaffKnown(s)
  }

  /** A step that does not lower a limit: dropping the settings removes it, adding them introduces one. */
  predicate LowersNothing(s: Salon, step: Step) {
    match step
    case Configure(settings) =>
      settings.None? || (s.settings.Some? && s.settings.value.maxConcurrent <= settings.value.maxConcurrent)
    case SetStaff(who, staff) =>
      staff.parallelCapacity >= (if who in s.staff then s.staff[who].parallelCapacity else 0)
    case _ => true
  }

  ghost predicate NeverLowers(s: Salon, steps: seq<Step>) {
    forall i :: 0 <= i < |steps| ==> LowersNothing(Run(s, steps[..i]), steps[i])
  }

  lemma StepKeepsStaffKnown(s: Salon, step: Step)
    requires StaffKnown(s)
    ensures StaffKnown(Apply(s, step))
  {
    var now := Apply(s, step);
    forall i | 0 <= i < |now.bookings| && Counted(now.bookings[i].status) && now.bookings[i].staffId.Some?
      ensures now.bookings[i].staffId.value in now.staff
    {
      if i < |s.bookings| && now.bookings[i] == s.bookings[i] {
        assert s.bookings[i].staffId.value in s.staff;
      }
    }
  }

  lemma UnknownStaffIsFree(s: Salon, id: nat, t: int)
    requires StaffKnown(s) && id !in s.staff
    ensures StaffOccupancy(s.bookings, id, t) == 0
  {
    TotalZero(s.bookings, StaffPresentAt(id, t));
  }

  lemma StepKeepsLimits(s: Salon, step: Step)
    requires WithinLimits(s) && LowersNothing(s, step)
    ensures WithinLimits(Apply(s, step))
  {
    var now := Apply(s, step);
    StepKeepsStaffKnown(s, step);
    if now.settings.Some? {
      forall t ensures Occupancy(now.bookings, t) <= now.settings.value.maxConcurrent {
        StepOccupancy(s, step, 0, t);
      }
    }
    forall id: nat, t: int | id in now.staff ensures StaffOccupancy(now.bookings, id, t) <= now.staff[id].parallelCapacity {
      StepOccupancy(s, step, id, t);
      if id !in s.staff { UnknownStaffIsFree(s, id, t); }
    }
  }

  lemma {:induction false} RunTakes(s: Salon, steps: seq<Step>, i: nat)
    requires i < |steps|
    ensures Run(s, steps[..i + 1]) == Apply(Run(s, steps[..i]), steps[i])
  {
    assert steps[..i + 1][..i] == steps[..i];
  }

  // ---- Exactly which steps keep the limits ----

  /** At the start of each counted booking the salon is within the limit: finitely many instants. */
  predicate StartsWithin(bookings: seq<Booking>, limit: int) {
    0 <= limit && forall i :: 0 <= i < |bookings| && Counted(bookings[i].status) ==>
                    Occupancy(bookings, bookings[i].startsAt) <= limit
  }

  /** The same for one staff member and that member's own bookings. */
  predicate OwnStartsWithin(bookings: seq<Booking>, id: nat, limit: int) {
    0 <= limit && forall i :: 0 <= i < |bookings| && Counted(bookings[i].status) && bookings[i].staffId == Some(id) ==>
                    StaffOccupancy(bookings, id, bookings[i].startsAt) <= limit
  }

  /** A booking that counts towards the salon, or towards one staff member. */
  predicate CountsFor(b: Booking, who: Option<nat>) {
    Counted(b.status) && (who.Some? ==> b.staffId == who)
  }

  function OccupancyOf(bookings: seq<Booking>, who: Option<nat>, t: int): int {
    if who.None? then Occupancy(bookings, t) else StaffOccupancy(bookings, who.value, t)
  }

  lemma OneBooking(bookings: seq<Booking>, b: Booking, who: Option<nat>, t: int)
    ensures OccupancyOf(bookings + [b], who, t)
         == OccupancyOf(bookings, who, t) + (if CountsFor(b, who) && b.startsAt <= t < b.endsAt then 1 else 0)
  {
    TotalSnoc(bookings, b, PresentAt(t));
    if who.Some? { TotalSnoc(bookings, b, StaffPresentAt(who.value, t)); }
  }

  /** Whenever anyone is present at t, some counted booking has started last, and then at least as many were present. */
  lemma {:induction false} LastStartIsFuller(bookings: seq<Booking>, who: Option<nat>, t: int) returns (u: int)
    ensures 0 <= OccupancyOf(bookings, who, t) && (OccupancyOf(bookings, who, t) == 0 || StartedLast(bookings, who, t, u))
    ensures StartedLast(bookings, who, t, u) ==> OccupancyOf(bookings, who, t) <= OccupancyOf(bookings, who, u)
  {
    u := LatestStart(bookings, who, t);
    if StartedLast(bookings, who, t, u) { FullerAt(bookings, who, t, u); }
    if forall i :: 0 <= i < |bookings| && CountsFor(bookings[i], who) ==> bookings[i].startsAt > t {
      NobodyYet(bookings, who, t);
    }
    OccupancyNonnegative(bookings, who, t);
  }

  /** u is the latest start up to t of the bookings that count. */
  predicate StartedLast(bookings: seq<Booking>, who: Option<nat>, t: int, u: int) {
    && u <= t
    && (exists i :: 0 <= i < |bookings| && CountsFor(bookings[i], who) && bookings[i].startsAt == u)
    && (forall i :: 0 <= i < |bookings| && CountsFor(bookings[i], who) && bookings[i].startsAt <= t ==> bookings[i].startsAt <= u)
  }

  lemma {:induction false} LatestStart(bookings: seq<Booking>, who: Option<nat>, t: int) returns (u: int)
    ensures StartedLast(bookings, who, t, u)
         || forall i :: 0 <= i < |bookings| && CountsFor(bookings[i], who) ==> bookings[i].startsAt > t
  {
    if |bookings| == 0 { return 0; }
    var rest, last := bookings[..|bookings| - 1], bookings[|bookings| - 1];
    u := LatestStart(rest, who, t);
    if CountsFor(last, who) && last.startsAt <= t && (!StartedLast(rest, who, t, u) || u < last.startsAt) {
      u := last.startsAt;
      assert bookings[|bookings| - 1] == last;
    } else if StartedLast(rest, who, t, u) {
      var i :| 0 <= i < |rest| && CountsFor(rest[i], who) && rest[i].startsAt == u;
      assert bookings[i] == rest[i];
    }
  }

  lemma {:induction false} FullerAt(bookings: seq<Booking>, who: Option<nat>, t: int, u: int)
    requires u <= t
    requires forall i :: 0 <= i < |bookings| && CountsFor(bookings[i], who) && bookings[i].startsAt <= t ==> bookings[i].startsAt <= u
    ensures OccupancyOf(bookings, who, t) <= OccupancyOf(bookings, who, u)
  {
    if |bookings| != 0 {
      var rest, last := bookings[..|bookings| - 1], bookings[|bookings| - 1];
      FullerAt(rest, who, t, u);
      OneBooking(rest, last, who, t);
      OneBooking(rest, last, who, u);
      assert bookings == rest + [last];
    }
  }

  lemma {:induction false} NobodyYet(bookings: seq<Booking>, who: Option<nat>, t: int)
    requires forall i :: 0 <= i < |bookings| && CountsFor(bookings[i], who) ==> bookings[i].startsAt > t
    ensures OccupancyOf(bookings, who, t) == 0
  {
    if |bookings| != 0 {
      var rest, last := bookings[..|bookings| - 1], bookings[|bookings| - 1];
      NobodyYet(rest, who, t);
      OneBooking(rest, last, who, t);
      assert bookings == rest + [last];
    }
  }

  lemma OccupancyNonnegative(bookings: seq<Booking>, who: Option<nat>, t: int)
    ensures OccupancyOf(bookings, who, t) >= 0
  {
    TotalNonnegative(bookings, PresentAt(t));
    if who.Some? { TotalNonnegative(bookings, StaffPresentAt(who.value, t)); }
  }

  /** A limit holds at every instant exactly when it is not negative and holds whenever a counted booking starts. */
  lemma LimitHoldsIff(bookings: seq<Booking>, who: Option<nat>, limit: int)
    ensures (forall t :: OccupancyOf(bookings, who, t) <= limit) <==>
              && 0 <= limit
              && forall i :: 0 <= i < |bookings| && CountsFor(bookings[i], who) ==>
                   OccupancyOf(bookings, who, bookings[i].startsAt) <= limit
  {
    OccupancyNonnegative(bookings, who, 0);
    assert OccupancyOf(bookings, who, 0) <= limit ==> 0 <= limit;
    if 0 <= limit && forall i :: 0 <= i < |bookings| && CountsFor(bookings[i], who) ==>
                       OccupancyOf(bookings, who, bookings[i].startsAt) <= limit
    {
      forall t ensures OccupancyOf(bookings, who, t) <= limit {
        var u := LastStartIsFuller(bookings, who, t);
      }
    }
  }

  lemma SalonLimitIff(bookings: seq<Booking>, limit: int)
    ensures (forall t :: Occupancy(bookings, t) <= limit) <==> StartsWithin(bookings, limit)
  {
    LimitHoldsIff(bookings, None, limit);
    forall t ensures Occupancy(bookings, t) == OccupancyOf(bookings, None, t) {
    }
  }

  lemma StaffLimitIff(bookings: seq<Booking>, id: nat, limit: int)
    ensures (forall t :: StaffOccupancy(bookings, id, t) <= limit) <==> OwnStartsWithin(bookings, id, limit)
  {
    LimitHoldsIff(bookings, Some(id), limit);
    forall t ensures StaffOccupancy(bookings, id, t) == OccupancyOf(bookings, Some(id), t) {
    }
  }

  /** What a caller can check before changing a limit; every other step keeps the limits by itself. */
  predicate FitsBookings(s: Salon, step: Step) {
    match step
    case Configure(settings) => settings.Some? ==> StartsWithin(s.bookings, settings.value.maxConcurrent)
    case SetStaff(who, staff) => OwnStartsWithin(s.bookings, who, staff.parallelCapacity)
    case _ => true
  }

  /** Within the limits, a step stays within them exactly when a changed limit fits what is already booked. */
  lemma StepKeepsLimitsIff(s: Salon, step: Step)
    requires WithinLimits(s)
    ensures WithinLimits(Apply(s, step)) <==> FitsBookings(s, step)
  {
    match step
    case Configure(settings) =>
      StepKeepsStaffKnown(s, step);
      if settings.Some? { SalonLimitIff(s.bookings, settings.value.maxConcurrent); }
    case SetStaff(who, staff) =>
      StepKeepsStaffKnown(s, step);
      StaffLimitIff(s.bookings, who, staff.parallelCapacity);
      SetStaffIff(s, who, staff);
    case _ =>
      StepKeepsLimits(s, step);
  }

  /** Changing one staff member's capacity leaves the others' limits alone. */
  lemma SetStaffIff(s: Salon, who: nat, staff: Staff)
    requires WithinLimits(s)
    ensures StaffWithin(Apply(s, SetStaff(who, staff))) <==>
              forall t :: StaffOccupancy(s.bookings, who, t) <= staff.parallelCapacity
  {
    var now := Apply(s, SetStaff(who, staff));
    if StaffWithin(now) {
      forall t ensures StaffOccupancy(s.bookings, who, t) <= staff.parallelCapacity {
        assert who in now.staff && StaffOccupancy(now.bookings, who, t) <= now.staff[who].parallelCapacity;
      }
    }
  }

  ghost predicate AlwaysWithin(s: Salon, steps: seq<Step>) {
    forall k :: 0 <= k <= |steps| ==> WithinLimits(Run(s, steps[..k]))
  }

  /** A run stays within the limits throughout exactly when each changed limit fits the bookings it meets. */
  lemma {:induction false} RunKeepsLimitsIff(s: Salon, steps: seq<Step>)
    requires WithinLimits(s)
    ensures AlwaysWithin(s, steps) <==> forall i :: 0 <= i < |steps| ==> FitsBookings(Run(s, steps[..i]), steps[i])
  {
    if AlwaysWithin(s, steps) {
      forall i | 0 <= i < |steps| ensures FitsBookings(Run(s, steps[..i]), steps[i]) {
        RunTakes(s, steps, i);
        assert WithinLimits(Run(s, steps[..i])) && WithinLimits(Run(s, steps[..i + 1]));
        StepKeepsLimitsIff(Run(s, steps[..i]), steps[i]);
      }
    } else {
      var k :| 0 <= k <= |steps| && !WithinLimits(Run(s, steps[..k]));
      var i := FirstStepOut(s, steps, k);
    }
  }

  /** If the limits are broken after k steps, one of them, the first to break them, did not fit. */
  lemma {:induction false} FirstStepOut(s: Salon, steps: seq<Step>, k: nat) returns (i: nat)
    requires WithinLimits(s) && k <= |steps| && !WithinLimits(Run(s, steps[..k]))
    ensures i < |steps| && WithinLimits(Run(s, steps[..i])) && !FitsBookings(Run(s, steps[..i]), steps[i])
  {
    i := k - 1;
    RunTakes(s, steps, i);
    if WithinLimits(Run(s, steps[..i])) {
      StepKeepsLimitsIff(Run(s, steps[..i]), steps[i]);
    } else {
      i := FirstStepOut(s, steps, k - 1);
    }
  }

  /** A limit that is not lowered always fits. */
  lemma RaisingFits(s: Salon, step: Step)
    requires WithinLimits(s) && LowersNothing(s, step)
    ensures FitsBookings(s, step)
  {
    StepKeepsLimits(s, step);
    StepKeepsLimitsIff(s, step);
  }

  /** While limits are not lowered, every reachable state stays within them at every instant. */
  lemma {:induction false} RunKeepsLimits(s: Salon, steps: seq<Step>)
    requires WithinLimits(s) && NeverLowers(s, steps)
    ensures WithinLimits(Run(s, steps))
  {
    assert steps[..|steps|] == steps;
    if !WithinLimits(Run(s, steps)) {
      var i := FirstStepOut(s, steps, |steps|);
      assert LowersNothing(Run(s, steps[..i]), steps[i]);
      RaisingFits(Run(s, steps[..i]), steps[i]);
    }
  }

  lemma TwoAtOnce(b: Booking, t: int)
    ensures Occupancy([], t) == 0 && Occupancy([b], t) == PresentAt(t)(b) && Occupancy([b, b], t) == 2 * PresentAt(t)(b)
  {
    TotalSnoc([], b, PresentAt(t));
    TotalSnoc([b], b, PresentAt(t));
    assert [] + [b] == [b] && [b] + [b] == [b, b];
  }

  /** An empty salon with room for two. */
  const EMPTY := Salon(Some(Settings(true, 2)), map[], [], [])

  lemma TwoBooked()
    ensures var b := Booking(0, 10, None, Confirmed);
            Run(EMPTY, [Create(0, 10, None, Confirmed), Create(0, 10, None, Confirmed)]) == EMPTY.(bookings := [b, b])
  {
    var step, b := Create(0, 10, None, Confirmed), Booking(0, 10, None, Confirmed);
    forall t { TwoAtOnce(b, t); }
    PlacesHalf(EMPTY, step, b);
    PlacesHalf(EMPTY.(bookings := [b]), step, b);
    RunTakes(EMPTY, [step, step], 0);
    RunTakes(EMPTY, [step, step], 1);
    assert [step, step][..0] == [] && [step, step][..2] == [step, step];
    assert [] + [b] == [b] && [b] + [b] == [b, b];
  }

  /** It accepts two bookings at once, stays within its limit, and then accepts a limit of one. */
  lemma LoweringBreaksTheLimit()
    ensures var booked := Run(EMPTY, [Create(0, 10, None, Confirmed), Create(0, 10, None, Confirmed)]);
            && WithinLimits(EMPTY) && WithinLimits(booked) && |booked.bookings| == 2
            && !SalonWithin(Apply(booked, Configure(Some(Settings(true, 1)))))
  {
    var b := Booking(0, 10, None, Confirmed);
    TwoBooked();
    forall t { TwoAtOnce(b, t); }
    assert Occupancy([b, b], 0) == 2;
  }

  lemma PlacesHalf(s: Salon, step: Step, b: Booking)
    requires s.settings == Some(Settings(true, 2)) && s.shifts == [] && b == Booking(0, 10, None, Confirmed)
    requires step == Create(0, 10, None, Confirmed) && forall t :: Occupancy(s.bookings, t) < 2
    ensures Apply(s, step) == s.(bookings := s.bookings + [b])
  {
    PeakBelow(s.bookings, 0, 10, 2);
  }

  /** Where occupancy is below a limit, so is the peak that the check finds. */
  lemma {:induction false} PeakBelow(bookings: seq<Booking>, start: int, end: int, limit: int)
    requires 0 < limit && forall t :: start <= t < end ==> Occupancy(bookings, t) < limit
    ensures Peak(Overlaps(bookings, start, end, None, |bookings|), start, end) < limit
  {
    var overlaps := Overlaps(bookings, start, end, None, |bookings|);
    PeakIsPeak(overlaps, start, end);
    if Peak(overlaps, start, end) > 0 {
      var t :| start <= t < end && Occupied(overlaps, t) == Peak(overlaps, start, end);
      OverlapsOccupied(bookings, start, end, None, |bookings|, 0, t);
      assert Without(bookings, None)[..|bookings|] == bookings;
    }
  }
}
