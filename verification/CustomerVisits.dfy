/**
 How often a customer came and when last, kept on the customer's row. The row is brought up to date in a transaction
 of its own, after a change of a reservation has committed; booking a reservation never brings it up to date.
 */
module CustomerVisits {
  import opened Common
  import opened Reservations

  datatype Booking = Booking(customer: nat, startsAt: int, status: ReservationStatus)

  datatype Visits = Visits(count: int, last: Option<int>)

  /** The recalculations that are owed belong to requests that have changed a reservation and are still running. */
  datatype Salon = Salon(bookings: seq<Booking>, customers: map<nat, Visits>, owed: multiset<nat>)

  const EMPTY := Salon([], map[], multiset{})

  predicate Came(b: Booking, k: nat) {
    b.customer == k && b.status == Completed
  }

  function Count(bookings: seq<Booking>, k: nat): nat {
    if |bookings| == 0 then 0
    else Count(bookings[..|bookings| - 1], k) + (if Came(bookings[|bookings| - 1], k) then 1 else 0)
  }

  function Later(last: Option<int>, at: int): Option<int> {
    if last.Some? && at <= last.value then last else Some(at)
  }

  /** The first start when completed reservations are ordered from the latest. */
  function Last(bookings: seq<Booking>, k: nat): Option<int> {
    if |bookings| == 0 then None
    else
      var b := bookings[|bookings| - 1];
      var before := Last(bookings[..|bookings| - 1], k);
      if Came(b, k) then Later(before, b.startsAt) else before
  }

  function VisitsOf(bookings: seq<Booking>, k: nat): Visits {
    Visits(Count(bookings, k), Last(bookings, k))
  }

  predicate Exact(s: Salon, k: nat) {
    k in s.customers && s.customers[k] == VisitsOf(s.bookings, k)
  }

  // ---- Steps ----

  /** Staff book, edit and delete; members book and cancel; a recalculation that is owed is made or, with its process, lost. */
  datatype Step =
    | AddCustomer(customer: nat)
    | DeleteCustomer(customer: nat)
    | Book(customer: nat, startsAt: int, status: ReservationStatus)
    | Edit(id: nat, customer: nat, startsAt: int, status: ReservationStatus, recorded: bool)
    | Cancel(id: nat)
    | Recalculate(customer: nat)
    | Abandon(customer: nat)

  predicate Booked(bookings: seq<Booking>, k: nat) {
    exists i :: 0 <= i < |bookings| && bookings[i].customer == k
  }

  /** With a checkout or a chart recorded, a reservation keeps its customer and time. */
  predicate EditAllowed(s: Salon, id: nat, customer: nat, startsAt: int, recorded: bool) {
    && id < |s.bookings| && customer in s.customers
    && (recorded ==> customer == s.bookings[id].customer && startsAt == s.bookings[id].startsAt)
  }

  predicate Cancellable(b: Booking) {
    b.status == Pending || b.status == Confirmed || b.status == Waitlist
  }

  function Apply(s: Salon, step: Step): Salon {
    match step
    case AddCustomer(k) => if k in s.customers then s else s.(customers := s.customers[k := Visits(0, None)])
    case DeleteCustomer(k) => if Booked(s.bookings, k) then s else s.(customers := s.customers - {k})
    case Book(k, at, status) => if k in s.customers then s.(bookings := s.bookings + [Booking(k, at, status)]) else s
    case Edit(id, k, at, status, recorded) =>
      if EditAllowed(s, id, k, at, recorded) then
        var was := s.bookings[id].customer;
        s.(bookings := s.bookings[id := Booking(k, at, status)],
           owed := s.owed + (if k == was then multiset{k} else multiset{was, k}))
      else s
    case Cancel(id) =>
      if id < |s.bookings| && Cancellable(s.bookings[id])
      then s.(bookings := s.bookings[id := s.bookings[id].(status := Cancelled)]) else s
    case Recalculate(k) =>
      if k in s.owed
      then s.(customers := if k in s.customers then s.customers[k := VisitsOf(s.bookings, k)] else s.customers,
              owed := s.owed - multiset{k})
      else s
    case Abandon(k) => s.(owed := s.owed - multiset{k})
  }

  function Run(s: Salon, steps: seq<Step>): Salon {
    if |steps| == 0 then s else Apply(Run(s, steps[..|steps| - 1]), steps[|steps| - 1])
  }

  // ---- What has happened since a customer's row was last right ----

  /** The starts booked as already completed, whether a reservation was edited, and whether a recalculation was lost. */
  datatype Since = Since(completed: seq<int>, edited: bool, abandoned: bool)

  const NOTHING := Since([], false, false)

  predicate Edits(s: Salon, step: Step, k: nat) {
    && step.Edit? && EditAllowed(s, step.id, step.customer, step.startsAt, step.recorded)
    && (step.customer == k || s.bookings[step.id].customer == k)
  }

  function Note(s: Salon, step: Step, k: nat, t: Since): Since {
    match step
    case AddCustomer(c) => if c == k && k !in s.customers then NOTHING else t
    case Book(c, at, status) =>
      if c == k && k in s.customers && status == Completed then t.(completed := t.completed + [at]) else t
    case Edit(_, _, _, _, _) => if Edits(s, step, k) then t.(edited := true) else t
    case Recalculate(c) => if c == k && k in s.owed then NOTHING else t
    case Abandon(c) => if c == k && k in s.owed then t.(abandoned := true) else t
    case _ => t
  }

  function History(steps: seq<Step>, k: nat): Since {
    if |steps| == 0 then NOTHING
    else Note(Run(EMPTY, steps[..|steps| - 1]), steps[|steps| - 1], k, History(steps[..|steps| - 1], k))
  }

  function LaterAll(last: Option<int>, starts: seq<int>): Option<int> {
    if |starts| == 0 then last else Later(LaterAll(last, starts[..|starts| - 1]), starts[|starts| - 1])
  }

  /** The row is behind by exactly what was booked as completed; an edit is still owed its recalculation, or lost it. */
  predicate Tracked(s: Salon, k: nat, t: Since) {
    && (t.edited ==> k in s.owed || t.abandoned)
    && (k in s.customers && !t.edited ==> Behind(s, k, t.completed))
  }

  predicate Behind(s: Salon, k: nat, completed: seq<int>)
    requires k in s.customers
  {
    && s.customers[k].count + |completed| == Count(s.bookings, k)
    && LaterAll(s.customers[k].last, completed) == Last(s.bookings, k)
  }

  predicate CustomersKnown(s: Salon) {
    forall i :: 0 <= i < |s.bookings| ==> s.bookings[i].customer in s.customers
  }

  // ---- Lemmas about the two fields ----

  lemma {:induction false} VisitsSnoc(bookings: seq<Booking>, b: Booking, k: nat)
    ensures Count(bookings + [b], k) == Count(bookings, k) + (if Came(b, k) then 1 else 0)
    ensures Last(bookings + [b], k) == if Came(b, k) then Later(Last(bookings, k), b.startsAt) else Last(bookings, k)
  {
    assert (bookings + [b])[..|bookings|] == bookings;
  }

  /** A reservation that is no visit of the customer before or after a change does not count. */
  lemma {:induction false} VisitsUpdate(bookings: seq<Booking>, i: nat, b: Booking, k: nat)
    requires i < |bookings| && !Came(bookings[i], k) && !Came(b, k)
    ensures VisitsOf(bookings[i := b], k) == VisitsOf(bookings, k)
  {
    var last := |bookings| - 1;
    if i == last {
      assert bookings[i := b][..last] == bookings[..last];
    } else {
      assert bookings[i := b][..last] == bookings[..last][i := b];
      VisitsUpdate(bookings[..last], i, b, k);
    }
  }

  lemma {:induction false} NeverBooked(bookings: seq<Booking>, k: nat)
    requires !Booked(bookings, k)
    ensures VisitsOf(bookings, k) == Visits(0, None)
  {
    if |bookings| != 0 {
      var last := |bookings| - 1;
      assert bookings[last].customer != k;
      assert forall i :: 0 <= i < last ==> bookings[..last][i] == bookings[i];
      NeverBooked(bookings[..last], k);
    }
  }

  predicate VisitAt(bookings: seq<Booking>, k: nat, at: int) {
    exists i :: 0 <= i < |bookings| && Came(bookings[i], k) && bookings[i].startsAt == at
  }

  predicate NoneLater(bookings: seq<Booking>, k: nat, at: int) {
    forall i :: 0 <= i < |bookings| && Came(bookings[i], k) ==> bookings[i].startsAt <= at
  }

  lemma {:induction false} LastIsVisit(bookings: seq<Booking>, k: nat)
    ensures var last := Last(bookings, k);
            && (last.None? ==> Count(bookings, k) == 0 && forall i :: 0 <= i < |bookings| ==> !Came(bookings[i], k))
            && (last.Some? ==> Count(bookings, k) > 0 && VisitAt(bookings, k, last.value) && NoneLater(bookings, k, last.value))
  {
    if |bookings| != 0 {
      var n := |bookings| - 1;
      var before, b := bookings[..n], bookings[n];
      LastIsVisit(before, k);
      assert forall i :: 0 <= i < n ==> before[i] == bookings[i];
      if Came(b, k) { assert VisitAt(bookings, k, b.startsAt); }
      if Last(before, k).Some? {
        var i :| 0 <= i < n && Came(before[i], k) && before[i].startsAt == Last(before, k).value;
        assert Came(bookings[i], k);
      }
    }
  }

  /** The last visit is the latest start of a completed reservation, and there is none exactly when nothing is counted. */
  lemma {:induction false} LastIff(bookings: seq<Booking>, k: nat, at: int)
    ensures Last(bookings, k).None? <==> Count(bookings, k) == 0
    ensures Last(bookings, k) == Some(at) <==> VisitAt(bookings, k, at) && NoneLater(bookings, k, at)
  {
    LastIsVisit(bookings, k);
  }

  // ---- Over whole runs ----

  lemma StepKeepsKnown(s: Salon, step: Step)
    requires CustomersKnown(s)
    ensures CustomersKnown(Apply(s, step))
  {
  }

  lemma StepTracks(s: Salon, step: Step, k: nat, t: Since)
    requires CustomersKnown(s) && Tracked(s, k, t)
    ensures Tracked(Apply(s, step), k, Note(s, step, k, t))
  {
    match step
    case Book(c, at, status) => BookTracks(s, c, at, status, k, t);
    case Edit(id, c, at, status, recorded) => EditTracks(s, step, k, t);
    case Cancel(id) => CancelTracks(s, id, k, t);
    case _ => RowTracks(s, step, k, t);
  }

  /** Steps that leave the reservations alone. */
  lemma RowTracks(s: Salon, step: Step, k: nat, t: Since)
    requires CustomersKnown(s) && Tracked(s, k, t) && !step.Book? && !step.Edit? && !step.Cancel?
    ensures Tracked(Apply(s, step), k, Note(s, step, k, t))
  {
    if step == AddCustomer(k) && k !in s.customers { NeverBooked(s.bookings, k); }
  }

  lemma CancelTracks(s: Salon, id: nat, k: nat, t: Since)
    requires Tracked(s, k, t)
    ensures Tracked(Apply(s, Cancel(id)), k, t)
  {
    if id < |s.bookings| && Cancellable(s.bookings[id]) {
      VisitsUpdate(s.bookings, id, s.bookings[id].(status := Cancelled), k);
    }
  }

  lemma BookTracks(s: Salon, c: nat, at: int, status: ReservationStatus, k: nat, t: Since)
    requires Tracked(s, k, t)
    ensures Tracked(Apply(s, Book(c, at, status)), k, Note(s, Book(c, at, status), k, t))
  {
    VisitsSnoc(s.bookings, Booking(c, at, status), k);
    assert (t.completed + [at])[..|t.completed|] == t.completed;
  }

  lemma EditTracks(s: Salon, step: Step, k: nat, t: Since)
    requires step.Edit? && Tracked(s, k, t)
    ensures Tracked(Apply(s, step), k, Note(s, step, k, t))
  {
    if EditAllowed(s, step.id, step.customer, step.startsAt, step.recorded) && !Edits(s, step, k) {
      VisitsUpdate(s.bookings, step.id, Booking(step.customer, step.startsAt, step.status), k);
    }
  }

  lemma {:induction false} RunTracks(steps: seq<Step>, k: nat)
    ensures CustomersKnown(Run(EMPTY, steps)) && Tracked(Run(EMPTY, steps), k, History(steps, k))
  {
    if |steps| != 0 {
      var before, step := steps[..|steps| - 1], steps[|steps| - 1];
      RunTracks(before, k);
      StepKeepsKnown(Run(EMPTY, before), step);
      StepTracks(Run(EMPTY, before), step, k, History(before, k));
    }
  }

  lemma {:induction false} LaterAllIff(last: Option<int>, starts: seq<int>)
    ensures LaterAll(last, starts) == last <==> forall i :: 0 <= i < |starts| ==> last.Some? && starts[i] <= last.value
    ensures last.Some? ==> LaterAll(last, starts).Some? && last.value <= LaterAll(last, starts).value
  {
    if |starts| != 0 {
      var n := |starts| - 1;
      LaterAllIff(last, starts[..n]);
      assert forall i :: 0 <= i < n ==> starts[..n][i] == starts[i];
    }
  }

  /**
   Once every edit of a customer's reservations has had its recalculation, the count is short by exactly the
   reservations booked as completed since then, and the last visit is right exactly when none of those is later.
   */
  lemma {:induction false} VisitsExactIff(steps: seq<Step>, k: nat)
    requires k in Run(EMPTY, steps).customers && k !in Run(EMPTY, steps).owed && !History(steps, k).abandoned
    ensures var s, missed := Run(EMPTY, steps), History(steps, k).completed;
            var row, truth := s.customers[k], VisitsOf(s.bookings, k);
            && row.count + |missed| == truth.count
            && (row.last == truth.last <==> forall i :: 0 <= i < |missed| ==> row.last.Some? && missed[i] <= row.last.value)
            && (row.last.Some? ==> truth.last.Some? && row.last.value <= truth.last.value)
            && (Exact(s, k) <==> missed == [])
  {
    RunTracks(steps, k);
    LaterAllIff(Run(EMPTY, steps).customers[k].last, History(steps, k).completed);
  }

  /** Whatever was wrong before, an edit followed by the recalculations it owes makes the rows of both customers right. */
  lemma EditThenExact(s: Salon, id: nat, k: nat, at: int, status: ReservationStatus, recorded: bool)
    requires CustomersKnown(s) && EditAllowed(s, id, k, at, recorded)
    ensures var was := s.bookings[id].customer;
            var now := Apply(Apply(Apply(s, Edit(id, k, at, status, recorded)), Recalculate(was)), Recalculate(k));
            && Exact(now, was) && Exact(now, k) && now.bookings == s.bookings[id := Booking(k, at, status)]
            && (forall c :: c in s.customers && c != was && c != k ==> now.customers[c] == s.customers[c])
  {
    var was := s.bookings[id].customer;
    var edited := Apply(s, Edit(id, k, at, status, recorded));
    var half := Apply(edited, Recalculate(was));
    assert was in edited.owed && Exact(half, was);
    assert k != was ==> k in half.owed;
  }

  /** A right row stays right under a booking exactly when the booking is not already completed. */
  lemma BookingKeepsExactIff(s: Salon, k: nat, at: int, status: ReservationStatus)
    requires Exact(s, k)
    ensures Exact(Apply(s, Book(k, at, status)), k) <==> status != Completed
  {
    VisitsSnoc(s.bookings, Booking(k, at, status), k);
  }

  /** A new customer's first visit, booked as completed, is not counted until one of the customer's reservations is edited. */
  lemma {:induction false} MissedUntilEdited(k: nat, at: int, more: seq<Step>)
    requires var start := Apply(Apply(EMPTY, AddCustomer(k)), Book(k, at, Completed));
             forall i :: 0 <= i < |more| ==> !Edits(Run(start, more[..i]), more[i], k)
    ensures var now := Run(Apply(Apply(EMPTY, AddCustomer(k)), Book(k, at, Completed)), more);
            && k in now.customers && now.customers[k] == Visits(0, None) && k !in now.owed
            && Count(now.bookings, k) > 0
            && |now.bookings| > 0 && now.bookings[0] == Booking(k, at, Completed)
  {
    var start := Apply(Apply(EMPTY, AddCustomer(k)), Book(k, at, Completed));
    if |more| != 0 {
      var n := |more| - 1;
      forall i | 0 <= i < n ensures !Edits(Run(start, more[..n][..i]), more[..n][i], k) {
        assert more[..n][..i] == more[..i];
      }
      MissedUntilEdited(k, at, more[..n]);
      MissedStays(Run(start, more[..n]), more[n], k, at);
    }
    FirstCounts(Run(start, more).bookings, k);
  }

  lemma MissedStays(s: Salon, step: Step, k: nat, at: int)
    requires k in s.customers && s.customers[k] == Visits(0, None) && k !in s.owed && !Edits(s, step, k)
    requires |s.bookings| > 0 && s.bookings[0] == Booking(k, at, Completed)
    ensures var now := Apply(s, step);
            && k in now.customers && now.customers[k] == Visits(0, None) && k !in now.owed
            && |now.bookings| > 0 && now.bookings[0] == Booking(k, at, Completed)
  {
    assert Booked(s.bookings, k);
  }

  lemma {:induction false} FirstCounts(bookings: seq<Booking>, k: nat)
    requires |bookings| > 0 && Came(bookings[0], k)
    ensures Count(bookings, k) > 0
  {
    if |bookings| > 1 { FirstCounts(bookings[..|bookings| - 1], k); }
  }
}
