/**
 Reservation capacity. The peak of simultaneous reservations in a requested interval is found by a
 sweep over start and end events; a placement is refused when the salon or the staff member would
 go over the limit in force.
 */
module Capacity {
  import opened Common
  import opened Tables

  // ---- Occupancy and its peak ----

  datatype Span = Span(startsAt: int, endsAt: int, staffId: Option<nat>)

  function Covers(t: int): Span -> int {
    (r: Span) => if r.startsAt <= t < r.endsAt then 1 else 0
  }

  /** How many spans contain the instant t. */
  function Occupied(rs: seq<Span>, t: int): int {
    Total(rs, Covers(t))
  }

  /** m is the largest occupancy over the instants of [start, end), or zero if there are none. */
  ghost predicate IsPeak(rs: seq<Span>, start: int, end: int, m: int) {
    && m >= 0
    && (forall t :: start <= t < end ==> Occupied(rs, t) <= m)
    && (m > 0 ==> exists t :: start <= t < end && Occupied(rs, t) == m)
  }

  lemma PeakIsUnique(rs: seq<Span>, start: int, end: int, m: int, n: int)
    requires IsPeak(rs, start, end, m) && IsPeak(rs, start, end, n)
    ensures m == n
  {
  }

  lemma OccupiedNonnegative(rs: seq<Span>, t: int)
    ensures Occupied(rs, t) >= 0
  {
    TotalNonnegative(rs, Covers(t));
  }

  // ---- The sweep ----

  datatype Event = Event(time: int, change: int)

  /** Ends come before starts at the same time, so adjacent reservations do not overlap. */
  predicate InOrder(a: Event, b: Event) {
    a.time < b.time || (a.time == b.time && a.change <= b.change)
  }

  predicate Sorted(events: seq<Event>) {
    forall i, j :: 0 <= i < j < |events| ==> InOrder(events[i], events[j])
  }

  function ChangeUpTo(t: int): Event -> int {
    (e: Event) => if e.time <= t then e.change else 0
  }

  /** The occupancy after every event up to and including time t. */
  function Level(events: seq<Event>, t: int): int {
    Total(events, ChangeUpTo(t))
  }

  const ANY_CHANGE: Event -> int := (e: Event) => e.change

  /** The running count after a prefix of the events. */
  function Running(events: seq<Event>): int {
    Total(events, ANY_CHANGE)
  }

  predicate Clipped(e: Event, start: int, end: int) {
    start <= e.time <= end && (e.change == -1 || (e.change == 1 && e.time < end))
  }

  predicate AllClipped(events: seq<Event>, start: int, end: int) {
    forall i :: 0 <= i < |events| ==> Clipped(events[i], start, end)
  }

  ghost predicate SameLevels(events: seq<Event>, now: seq<Event>) {
    forall t :: Level(now, t) == Level(events, t)
  }

  lemma {:induction false} TotalConcat(a: seq<Event>, b: seq<Event>, f: Event -> int)
    ensures Total(a + b, f) == Total(a, f) + Total(b, f)
  {
    if |b| == 0 {
      assert a + b == a;
    } else {
      assert (a + b)[..|a + b| - 1] == a + b[..|b| - 1];
      TotalConcat(a, b[..|b| - 1], f);
    }
  }

  /** Where an event is inserted does not matter to a total. */
  lemma {:induction false} InsertTotal(events: seq<Event>, p: nat, e: Event, f: Event -> int)
    requires p <= |events|
    ensures Total(events[..p] + [e] + events[p..], f) == Total(events, f) + f(e)
  {
    assert events == events[..p] + events[p..];
    TotalConcat(events[..p], events[p..], f);
    TotalConcat(events[..p] + [e], events[p..], f);
    TotalSnoc(events[..p], e, f);
  }

  lemma InsertKeeps(events: seq<Event>, was: seq<Event>, p: nat, e: Event)
    requires p <= |was| && multiset(was) == multiset(events) && SameLevels(events, was)
    ensures var now := was[..p] + [e] + was[p..];
            multiset(now) == multiset(events + [e]) && SameLevels(events + [e], now)
  {
    var now := was[..p] + [e] + was[p..];
    assert was == was[..p] + was[p..];
    forall t ensures Level(now, t) == Level(events + [e], t) {
      InsertTotal(was, p, e, ChangeUpTo(t));
      TotalSnoc(events, e, ChangeUpTo(t));
      assert Level(was, t) == Level(events, t);
      assert Level(now, t) == Level(was, t) + ChangeUpTo(t)(e);
    }
  }

  lemma InsertSorted(was: seq<Event>, p: nat, e: Event)
    requires p <= |was| && Sorted(was)
    requires forall k :: p <= k < |was| ==> !InOrder(was[k], e)
    requires p > 0 ==> InOrder(was[p - 1], e)
    ensures Sorted(was[..p] + [e] + was[p..])
  {
    var now := was[..p] + [e] + was[p..];
    forall i, j | 0 <= i < j < |now| ensures InOrder(now[i], now[j]) {
      if j == p && i < p - 1 { assert InOrder(was[i], was[p - 1]); }
    }
  }

  method SortEvents(events: seq<Event>) returns (sorted: seq<Event>)
    ensures Sorted(sorted) && multiset(sorted) == multiset(events) && SameLevels(events, sorted)
  {
    sorted := [];
    for i := 0 to |events|
      invariant Sorted(sorted) && multiset(sorted) == multiset(events[..i]) && SameLevels(events[..i], sorted)
    {
      var p := InsertionPoint(sorted, events[i]);
      InsertKeeps(events[..i], sorted, p, events[i]);
      InsertSorted(sorted, p, events[i]);
      sorted := sorted[..p] + [events[i]] + sorted[p..];
      assert events[..i + 1] == events[..i] + [events[i]];
    }
    assert events[..|events|] == events;
  }

  method InsertionPoint(sorted: seq<Event>, e: Event) returns (p: nat)
    ensures p <= |sorted| && (p > 0 ==> InOrder(sorted[p - 1], e))
    ensures forall k :: p <= k < |sorted| ==> !InOrder(sorted[k], e)
  {
    p := |sorted|;
    while p > 0 && !InOrder(sorted[p - 1], e)
      invariant p <= |sorted|
      invariant forall k :: p <= k < |sorted| ==> !InOrder(sorted[k], e)
    {
      p := p - 1;
    }
  }

  function Min(x: int, y: int): int { if x <= y then x else y }

  function Max(x: int, y: int): int { if x >= y then x else y }

  /** The start and end events of one reservation inside the requested interval, if it has any. */
  function EventsOf(r: Span, start: int, end: int): seq<Event> {
    var from, to := Max(start, r.startsAt), Min(end, r.endsAt);
    if from < to then [Event(from, 1), Event(to, -1)] else []
  }

  lemma EventsLevel(events: seq<Event>, r: Span, start: int, end: int, t: int)
    requires start <= t < end
    ensures Level(events + EventsOf(r, start, end), t) == Level(events, t) + Covers(t)(r)
  {
    var more := EventsOf(r, start, end);
    if |more| == 2 {
      TotalSnoc(events, more[0], ChangeUpTo(t));
      TotalSnoc(events + [more[0]], more[1], ChangeUpTo(t));
      assert events + more == events + [more[0]] + [more[1]];
    } else {
      assert events + more == events;
    }
  }

  /** How many of the sorted events happen no later than t. */
  function Elapsed(events: seq<Event>, t: int): (n: nat)
    requires Sorted(events)
    ensures n <= |events|
    ensures forall i :: 0 <= i < n ==> events[i].time <= t
    ensures forall i :: n <= i < |events| ==> events[i].time > t
  {
    if |events| == 0 then 0
    else if events[|events| - 1].time <= t then |events|
    else Elapsed(events[..|events| - 1], t)
  }

  /** The level at t is the running count when the events up to t have been swept. */
  lemma {:induction false} LevelIsRunning(events: seq<Event>, t: int)
    requires Sorted(events)
    ensures Level(events, t) == Running(events[..Elapsed(events, t)])
  {
    var n := Elapsed(events, t);
    assert events == events[..n] + events[n..];
    TotalConcat(events[..n], events[n..], ChangeUpTo(t));
    TotalAgree(events[..n], ChangeUpTo(t), ANY_CHANGE);
    TotalZero(events[n..], ChangeUpTo(t));
  }

  /** Right after a start event the count is at most the level at that time: only starts can follow at once. */
  lemma StartBelowLevel(events: seq<Event>, i: nat, start: int, end: int)
    requires Sorted(events) && AllClipped(events, start, end) && i < |events| && events[i].change == 1
    ensures Running(events[..i + 1]) <= Level(events, events[i].time)
  {
    var n := Elapsed(events, events[i].time);
    assert i < n;
    LevelIsRunning(events, events[i].time);
    assert events[..n] == events[..i + 1] + events[i + 1..n];
    TotalConcat(events[..i + 1], events[i + 1..n], ANY_CHANGE);
    var rest := events[i + 1..n];
    forall k | 0 <= k < |rest| ensures ANY_CHANGE(rest[k]) >= 0 {
      assert InOrder(events[i], events[i + 1 + k]);
    }
    TotalNonnegative(rest, ANY_CHANGE);
  }

  /** Every running count is at most zero or reached at some instant of the interval. */
  lemma {:induction false} RunningIsReached(events: seq<Event>, start: int, end: int, i: nat)
    requires Sorted(events) && AllClipped(events, start, end) && i <= |events|
    ensures Running(events[..i]) <= 0 || exists t :: start <= t < end && Running(events[..i]) <= Level(events, t)
  {
    if i != 0 {
      RunningStep(events, i - 1);
      if events[i - 1].change == 1 {
        StartBelowLevel(events, i - 1, start, end);
      } else {
        RunningIsReached(events, start, end, i - 1);
      }
    }
  }

  lemma RunningStep(events: seq<Event>, i: nat)
    requires i < |events|
    ensures Running(events[..i + 1]) == Running(events[..i]) + events[i].change
  {
    assert events[..i + 1] == events[..i] + [events[i]];
    TotalSnoc(events[..i], events[i], ANY_CHANGE);
  }

  /** The sweep: its maximum is the peak occupancy over all instants of the half-open interval. */
  method PeakConcurrentReservations(rs: seq<Span>, start: int, end: int) returns (maximum: int)
    ensures IsPeak(rs, start, end, maximum)
  {
    var events := CollectEvents(rs, start, end);
    var sorted := SortEvents(events);
    assert AllClipped(sorted, start, end) by {
      forall i | 0 <= i < |sorted| ensures Clipped(sorted[i], start, end) {
        assert sorted[i] in multiset(sorted);
      }
    }
    var occupied := 0;
    maximum := 0;
    for i := 0 to |sorted|
      invariant occupied == Running(sorted[..i]) && maximum >= 0
      invariant forall k :: 0 <= k <= i ==> Running(sorted[..k]) <= maximum
      invariant maximum > 0 ==> exists k :: 0 <= k <= i && Running(sorted[..k]) == maximum
    {
      RunningStep(sorted, i);
      occupied := occupied + sorted[i].change;
      if occupied > maximum {
        maximum := occupied;
        assert Running(sorted[..i + 1]) == maximum;
      }
    }
    SweepIsPeak(rs, sorted, start, end, maximum);
  }

  method CollectEvents(rs: seq<Span>, start: int, end: int) returns (events: seq<Event>)
    ensures AllClipped(events, start, end)
    ensures forall t :: start <= t < end ==> Level(events, t) == Occupied(rs, t)
  {
    events := [];
    for i := 0 to |rs|
      invariant AllClipped(events, start, end)
      invariant forall t :: start <= t < end ==> Level(events, t) == Occupied(rs[..i], t)
    {
      forall t | start <= t < end
        ensures Level(events + EventsOf(rs[i], start, end), t) == Occupied(rs[..i + 1], t)
      {
        EventsLevel(events, rs[i], start, end, t);
        assert rs[..i + 1] == rs[..i] + [rs[i]];
        TotalSnoc(rs[..i], rs[i], Covers(t));
      }
      events := events + EventsOf(rs[i], start, end);
    }
    assert rs[..|rs|] == rs;
  }

  lemma SweepIsPeak(rs: seq<Span>, sorted: seq<Event>, start: int, end: int, maximum: int)
    requires Sorted(sorted) && AllClipped(sorted, start, end) && maximum >= 0
    requires forall t :: start <= t < end ==> Level(sorted, t) == Occupied(rs, t)
    requires forall k :: 0 <= k <= |sorted| ==> Running(sorted[..k]) <= maximum
    requires maximum > 0 ==> exists k :: 0 <= k <= |sorted| && Running(sorted[..k]) == maximum
    ensures IsPeak(rs, start, end, maximum)
  {
    forall t | start <= t < end ensures Occupied(rs, t) <= maximum {
      LevelIsRunning(sorted, t);
    }
    if maximum > 0 {
      var k :| 0 <= k <= |sorted| && Running(sorted[..k]) == maximum;
      RunningIsReached(sorted, start, end, k);
      var t :| start <= t < end && Running(sorted[..k]) <= Level(sorted, t);
      assert Occupied(rs, t) == maximum;
    }
  }

  // ---- The peak as a function, for the rules that use it ----

  /** The largest occupancy at `start` and at the starts of the first k spans inside the interval. */
  function PeakOver(rs: seq<Span>, start: int, end: int, k: nat): int
    requires k <= |rs|
  {
    if k == 0 then Occupied(rs, start)
    else
      var before := PeakOver(rs, start, end, k - 1);
      if start < rs[k - 1].startsAt < end then Max(before, Occupied(rs, rs[k - 1].startsAt)) else before
  }

  function Peak(rs: seq<Span>, start: int, end: int): int {
    if start < end then PeakOver(rs, start, end, |rs|) else 0
  }

  lemma {:induction false} PeakOverAttained(rs: seq<Span>, start: int, end: int, k: nat)
    requires k <= |rs| && start < end
    ensures exists t :: start <= t < end && Occupied(rs, t) == PeakOver(rs, start, end, k)
    ensures PeakOver(rs, start, end, k) >= Occupied(rs, start)
    ensures forall i :: 0 <= i < k && start < rs[i].startsAt < end ==>
              Occupied(rs, rs[i].startsAt) <= PeakOver(rs, start, end, k)
  {
    if k == 0 {
      assert Occupied(rs, start) == PeakOver(rs, start, end, 0);
    } else {
      PeakOverAttained(rs, start, end, k - 1);
    }
  }

  /** The last start in (start, t], or `start` itself. */
  function LastStart(rs: seq<Span>, start: int, t: int): (u: int)
    requires start <= t
    ensures start <= u <= t
    ensures u == start || exists i :: 0 <= i < |rs| && rs[i].startsAt == u
    ensures forall i :: 0 <= i < |rs| && rs[i].startsAt <= t ==> rs[i].startsAt <= u
  {
    if |rs| == 0 then start
    else
      var last := |rs| - 1;
      var u := LastStart(rs[..last], start, t);
      if u < rs[last].startsAt <= t then rs[last].startsAt else u
  }

  /** Occupancy only grows when something starts. */
  lemma {:induction false} OccupiedAtLastStart(rs: seq<Span>, start: int, t: int)
    requires start <= t
    ensures Occupied(rs, t) <= Occupied(rs, LastStart(rs, start, t))
  {
    var u := LastStart(rs, start, t);
    TotalBelow(rs, Covers(t), Covers(u));
  }

  lemma {:induction false} TotalBelow(rs: seq<Span>, f: Span -> int, g: Span -> int)
    requires forall i :: 0 <= i < |rs| ==> f(rs[i]) <= g(rs[i])
    ensures Total(rs, f) <= Total(rs, g)
  {
    if |rs| != 0 { TotalBelow(rs[..|rs| - 1], f, g); }
  }

  lemma PeakIsPeak(rs: seq<Span>, start: int, end: int)
    ensures IsPeak(rs, start, end, Peak(rs, start, end))
  {
    if start < end {
      PeakOverAttained(rs, start, end, |rs|);
      OccupiedNonnegative(rs, start);
      forall t | start <= t < end ensures Occupied(rs, t) <= Peak(rs, start, end) {
        OccupiedAtLastStart(rs, start, t);
      }
    }
  }
}
