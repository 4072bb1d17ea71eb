/**
 Repeated requests. A request that is sent again with the same contents, at any later time, changes
 nothing; the one exception is a creation that was answered with somebody else's checkout.
 */
module CashReplay {
  import opened Common
  import opened CashDraft
  import opened Receipt
  import opened Reservations
  import opened Tables
  import opened CashBook
  import opened CashEffects
  import opened CashLedger
  import opened CashChain
  import opened CashRegisters
  import opened CashSafety

  // ---- What later runs keep ----

  /** The ledger is append-only, and a settled checkout keeps its amounts, member and reservation for good. */
  lemma {:induction false} SettledForGood(db: Db, steps: seq<Step>, i: nat)
    requires Reachable(db) && i < |db.checkouts| && db.checkouts[i].status != Draft
    ensures var now := Run(db, steps);
            && db.entries <= now.entries && db.movements <= now.movements
            && i < |now.checkouts| && now.checkouts[i].status != Draft
            && now.checkouts[i].totals == db.checkouts[i].totals && now.checkouts[i].payments == db.checkouts[i].payments
            && now.checkouts[i].selection == db.checkouts[i].selection && now.checkouts[i].context == db.checkouts[i].context
            && (db.checkouts[i].status == Reversed ==> now.checkouts[i] == db.checkouts[i])
  {
    ReachableInv(db);
    RunKeeps(db, steps);
    assert Settlement(db.checkouts[i]) && Keeps(db.checkouts[i], Run(db, steps).checkouts[i]);
    assert Settlement(Run(db, steps).checkouts[i]);
  }

  // ---- Lost updates ----

  /** Once a draft has moved past a version, every change based on that version is refused for ever. */
  lemma {:induction false} StaleVersionRefused(db: Db, salon: nat, id: nat, version: int, draft: DraftInput, steps: seq<Step>)
    requires Inv(db) && HasCheckout(db, salon, id) && db.checkouts[id].version > version && draft.version == version
    ensures var later := Run(db, steps);
            Update(later, salon, id, draft).Failure? && Refresh(later, salon, id, version).Failure?
  {
    RunKeeps(db, steps);
    assert Keeps(db.checkouts[id], Run(db, steps).checkouts[id]);
  }

  /** Of two edits of the same version at most one is accepted, whatever happens in between. */
  lemma {:induction false} NoLostUpdate(db: Db, salon: nat, id: nat, first: DraftInput, second: DraftInput, steps: seq<Step>)
    requires Reachable(db) && Update(db, salon, id, first).Success? && second.version == first.version
    ensures Update(Run(Update(db, salon, id, first).value, steps), salon, id, second).Failure?
  {
    ReachableInv(db);
    var c2 := UpdateEffect(db, salon, id, first);
    RedraftKeeps(db, id, c2);
    StaleVersionRefused(Update(db, salon, id, first).value, salon, id, first.version, second, steps);
  }

  // ---- Finalizing and reversing ----

  lemma FinalizeStamps(db: Db, salon: nat, id: nat, version: int, requestId: nat, register: Option<nat>, today: int)
    requires Inv(db) && Finalize(db, salon, id, version, requestId, register, today).Success?
    ensures var now := Finalize(db, salon, id, version, requestId, register, today).value;
            && HasCheckout(now, salon, id) && now.checkouts[id].finalization.Some?
            && now.checkouts[id].finalization.value.requestId == requestId
            && now.checkouts[id].finalization.value.body == FinalizeBody(version, register)
  {
    if !FinalizeReplays(db, id, requestId) {
      assert Priced(db.checkouts[id]);
      var stamp, entries, movements := FinalizeEffect(db, salon, id, version, requestId, register, today);
    }
  }

  /** Finalizing again, on any later day and after anything else, succeeds and changes nothing. */
  lemma {:induction false} FinalizeReplay(db: Db, salon: nat, id: nat, version: int, requestId: nat, register: Option<nat>, today: int,
                                          steps: seq<Step>, laterDay: int)
    requires Reachable(db) && Finalize(db, salon, id, version, requestId, register, today).Success?
    ensures var later := Run(Finalize(db, salon, id, version, requestId, register, today).value, steps);
            Finalize(later, salon, id, version, requestId, register, laterDay) == Success(later)
  {
    ReachableInv(db);
    FinalizeStamps(db, salon, id, version, requestId, register, today);
    FinalizeStep(db, salon, id, version, requestId, register, today);
    var now := Finalize(db, salon, id, version, requestId, register, today).value;
    RunKeeps(now, steps);
    assert Keeps(now.checkouts[id], Run(now, steps).checkouts[id]);
  }

  lemma ReverseStamps(db: Db, salon: nat, id: nat, requestId: nat, reason: string, register: Option<nat>, today: int)
    requires Inv(db) && Reverse(db, salon, id, requestId, reason, register, today).Success?
    ensures var now := Reverse(db, salon, id, requestId, reason, register, today).value;
            && HasCheckout(now, salon, id) && now.checkouts[id].reversal.Some?
            && now.checkouts[id].reversal.value.requestId == requestId
            && now.checkouts[id].reversal.value.body == ReverseBody(reason, register)
  {
    if !ReverseReplays(db, id, requestId) {
      var stamp, entries, movements := ReverseEffect(db, salon, id, requestId, reason, register, today);
    }
  }

  lemma {:induction false} ReverseReplay(db: Db, salon: nat, id: nat, requestId: nat, reason: string, register: Option<nat>, today: int,
                                         steps: seq<Step>, laterDay: int)
    requires Reachable(db) && Reverse(db, salon, id, requestId, reason, register, today).Success?
    ensures var later := Run(Reverse(db, salon, id, requestId, reason, register, today).value, steps);
            Reverse(later, salon, id, requestId, reason, register, laterDay) == Success(later)
  {
    ReachableInv(db);
    ReverseStamps(db, salon, id, requestId, reason, register, today);
    ReverseStep(db, salon, id, requestId, reason, register, today);
    var now := Reverse(db, salon, id, requestId, reason, register, today).value;
    RunKeeps(now, steps);
    assert Keeps(now.checkouts[id], Run(now, steps).checkouts[id]);
  }

  // ---- Registers ----

  lemma {:induction false} OpenReplay(db: Db, salon: nat, date: int, openingCashYen: int, requestId: nat, today: int,
                                      steps: seq<Step>, laterDay: int)
    requires Reachable(db) && OpenRegister(db, salon, date, openingCashYen, requestId, today).Success?
    ensures var later := Run(OpenRegister(db, salon, date, openingCashYen, requestId, today).value, steps);
            OpenRegister(later, salon, date, openingCashYen, requestId, laterDay) == Success(later)
  {
    ReachableInv(db);
    OpenKeeps(db, salon, date, openingCashYen, requestId, today);
    var now := OpenRegister(db, salon, date, openingCashYen, requestId, today).value;
    var found := LastWhere(db.registers, OpenedBy(salon, requestId));
    var s := if found.Some? then found.value else |db.registers|;
    RunKeeps(now, steps);
    var later := Run(now, steps);
    assert RegisterKeeps(now.registers[s], later.registers[s]);
    OpeningFound(later.registers, salon, requestId, s);
  }

  lemma {:induction false} OpeningFound(registers: seq<Register>, salon: nat, requestId: nat, s: nat)
    requires OpeningsUnique(registers) && s < |registers| && OpenedBy(salon, requestId)(registers[s])
    ensures LastWhere(registers, OpenedBy(salon, requestId)) == Some(s)
  {
    var found := LastWhere(registers, OpenedBy(salon, requestId));
    assert found.Some? && OpenedBy(salon, requestId)(registers[found.value]);
  }

  lemma {:induction false} MoveReplay(db: Db, salon: nat, id: nat, version: int, requestId: nat, kind: MovementKind,
                                      amountYen: int, reason: string, steps: seq<Step>)
    requires Reachable(db) && Move(db, salon, id, version, requestId, kind, amountYen, reason).Success?
    ensures var later := Run(Move(db, salon, id, version, requestId, kind, amountYen, reason).value, steps);
            Move(later, salon, id, version, requestId, kind, amountYen, reason) == Success(later)
  {
    ReachableInv(db);
    MoveKeeps(db, salon, id, version, requestId, kind, amountYen, reason);
    var now := Move(db, salon, id, version, requestId, kind, amountYen, reason).value;
    var p := MoveRecorded(db, salon, id, version, requestId, kind, amountYen, reason);
    RunKeeps(now, steps);
    var later := Run(now, steps);
    assert RegisterKeeps(now.registers[id], later.registers[id]);
    assert later.movements[p] == now.movements[p];
    MovementFound(later.movements, salon, requestId, p);
  }

  lemma MoveRecorded(db: Db, salon: nat, id: nat, version: int, requestId: nat, kind: MovementKind, amountYen: int, reason: string)
    returns (p: nat)
    requires Move(db, salon, id, version, requestId, kind, amountYen, reason).Success?
    ensures var now := Move(db, salon, id, version, requestId, kind, amountYen, reason).value;
            && HasRegister(now, salon, id) && p < |now.movements|
            && MovementRequest(salon, requestId)(now.movements[p]) && now.movements[p].session == id
            && now.movements[p].body == ManualBody(id, kind, amountYen, reason, version)
  {
    var found := LastWhere(db.movements, MovementRequest(salon, requestId));
    p := if found.Some? then found.value else |db.movements|;
  }

  lemma {:induction false} MovementFound(movements: seq<Movement>, salon: nat, requestId: nat, p: nat)
    requires MovementsUnique(movements) && p < |movements| && MovementRequest(salon, requestId)(movements[p])
    ensures LastWhere(movements, MovementRequest(salon, requestId)) == Some(p)
  {
    var found := LastWhere(movements, MovementRequest(salon, requestId));
    assert found.Some? && MovementRequest(salon, requestId)(movements[found.value]);
  }

  lemma {:induction false} CloseReplay(db: Db, salon: nat, id: nat, version: int, requestId: nat, counted: int, note: string,
                                       steps: seq<Step>)
    requires Reachable(db) && Close(db, salon, id, version, requestId, counted, note).Success?
    ensures var later := Run(Close(db, salon, id, version, requestId, counted, note).value, steps);
            Close(later, salon, id, version, requestId, counted, note) == Success(later)
  {
    ReachableInv(db);
    CloseKeeps(db, salon, id, version, requestId, counted, note);
    var now := Close(db, salon, id, version, requestId, counted, note).value;
    RunKeeps(now, steps);
    assert RegisterKeeps(now.registers[id], Run(now, steps).registers[id]);
  }

  // ---- Creating ----

  /** A creation that recorded its request number is safe to repeat for ever. */
  lemma {:induction false} CreateReplay(db: Db, salon: nat, reservationId: nat, requestId: nat, fields: MembershipFields, steps: seq<Step>)
    requires Reachable(db) && Create(db, salon, reservationId, requestId, fields).Success?
    requires LastWhere(Create(db, salon, reservationId, requestId, fields).value.checkouts, CreatedBy(salon, requestId)).Some?
    ensures var later := Run(Create(db, salon, reservationId, requestId, fields).value, steps);
            Apply(later, DoCreate(salon, reservationId, requestId, fields)) == later
  {
    ReachableInv(db);
    CreateKeeps(db, salon, reservationId, requestId, fields);
    var now := Create(db, salon, reservationId, requestId, fields).value;
    var i := LastWhere(now.checkouts, CreatedBy(salon, requestId)).value;
    RunKeeps(now, steps);
    assert Keeps(now.checkouts[i], Run(now, steps).checkouts[i]);
    RecordedCreateIsIdle(Run(now, steps), salon, reservationId, requestId, fields, i);
  }

  lemma RecordedCreateIsIdle(db: Db, salon: nat, reservationId: nat, requestId: nat, fields: MembershipFields, i: nat)
    requires i < |db.checkouts| && db.checkouts[i].salon == salon && db.checkouts[i].createRequestId == requestId
    ensures Apply(db, DoCreate(salon, reservationId, requestId, fields)) == db
  {
    assert CreatedBy(salon, requestId)(db.checkouts[i]);
    assert LastWhere(db.checkouts, CreatedBy(salon, requestId)).Some?;
  }

  /**
   Otherwise a repeated creation is harmless exactly while its reservation still has a checkout that
   is not reversed: after that the same request starts a new one.
   */
  lemma CreateReplayIff(later: Db, salon: nat, reservationId: nat, requestId: nat, fields: MembershipFields)
    requires Create(later, salon, reservationId, requestId, fields).Success?
    ensures Create(later, salon, reservationId, requestId, fields).value == later
       <==> || LastWhere(later.checkouts, CreatedBy(salon, requestId)).Some?
            || LastWhere(later.checkouts, LiveOn(salon, reservationId)).Some?
  {
    if !CreateReplays(later, salon, reservationId, requestId) {
      var c := CreateEffect(later, salon, reservationId, requestId, fields);
      assert |(later.checkouts + [c])| != |later.checkouts|;
    }
  }

  const NO_MEMBER := MembershipFields(Omitted, Omitted, None, Omitted)

  /**
   How that happens: request answered with a checkout it did not create, the checkout reversed, the
   request repeated.
   */
  lemma CreateAfterReversal(db: Db, salon: nat, id: nat, requestId: nat, reverseRequest: nat, reason: string,
                            register: Option<nat>, today: int)
    requires Reachable(db) && HasCheckout(db, salon, id)
    requires Reverse(db, salon, id, reverseRequest, reason, register, today).Success?
    requires !ReverseReplays(db, id, reverseRequest)
    requires LastWhere(db.checkouts, CreatedBy(salon, requestId)).None?
    requires db.checkouts[id].reservationId in db.reservations
    requires var r := db.reservations[db.checkouts[id].reservationId]; !Gone(r.status) && Bounded(r.price)
    ensures var create := DoCreate(salon, db.checkouts[id].reservationId, requestId, NO_MEMBER);
            var after := Apply(db, DoReverse(salon, id, reverseRequest, reason, register, today));
            && Attempt(db, create) == Success(db)
            && |Apply(after, create).checkouts| == |after.checkouts| + 1
  {
    var stamp, after := ReversalGives(db, salon, id, reverseRequest, reason, register, today);
    LiveAnswersCreate(db, salon, id, requestId);
    OnlyOneLive(db);
    ReversalFreesReservation(db, salon, id, stamp, requestId);
    FreeReservationCreates(after, salon, db.checkouts[id].reservationId, requestId, id);
  }

  lemma ReversalGives(db: Db, salon: nat, id: nat, requestId: nat, reason: string, register: Option<nat>, today: int)
    returns (stamp: Stamp, after: Db)
    requires Reverse(db, salon, id, requestId, reason, register, today).Success? && !ReverseReplays(db, id, requestId)
    ensures after == Apply(db, DoReverse(salon, id, requestId, reason, register, today))
    ensures HasCheckout(db, salon, id) && db.checkouts[id].status == Finalized
    ensures after.checkouts == db.checkouts[id := Withdrawn(db.checkouts[id], stamp)]
    ensures var rid := db.checkouts[id].reservationId;
            && HasReservation(db, salon, rid) && HasReservation(after, salon, rid)
            && after.reservations[rid].status == db.reservations[rid].status
            && after.reservations[rid].price == db.reservations[rid].price
  {
    var s, entries, movements := ReverseEffect(db, salon, id, requestId, reason, register, today);
    stamp, after := s, Settled(db, salon, id, Withdrawn(db.checkouts[id], s), entries, movements, s.session, Refunded);
  }

  lemma OnlyOneLive(db: Db)
    requires Reachable(db)
    ensures OneLive(db.checkouts)
  {
    ReachableInv(db);
  }

  lemma LiveAnswersCreate(db: Db, salon: nat, id: nat, requestId: nat)
    requires HasCheckout(db, salon, id) && db.checkouts[id].status == Finalized
    requires LastWhere(db.checkouts, CreatedBy(salon, requestId)).None?
    ensures Attempt(db, DoCreate(salon, db.checkouts[id].reservationId, requestId, NO_MEMBER)) == Success(db)
  {
    assert LiveOn(salon, db.checkouts[id].reservationId)(db.checkouts[id]);
    assert LastWhere(db.checkouts, LiveOn(salon, db.checkouts[id].reservationId)).Some?;
    assert ResolveSelection(NO_MEMBER, NOTHING_SAVED) == Success(None);
  }

  lemma FreeReservationCreates(db: Db, salon: nat, reservationId: nat, requestId: nat, id: nat)
    requires LastWhere(db.checkouts, CreatedBy(salon, requestId)).None?
    requires LastWhere(db.checkouts, LiveOn(salon, reservationId)).None?
    requires HasCheckout(db, salon, id) && ReversedOn(salon, reservationId)(db.checkouts[id])
    requires HasReservation(db, salon, reservationId)
    requires !Gone(db.reservations[reservationId].status) && Bounded(db.reservations[reservationId].price)
    ensures |Apply(db, DoCreate(salon, reservationId, requestId, NO_MEMBER)).checkouts| == |db.checkouts| + 1
  {
    StandardTotals(db.reservations[reservationId].price);
    assert LastWhere(db.checkouts, ReversedOn(salon, reservationId)).Some?;
    assert ResolveSelection(NO_MEMBER, NOTHING_SAVED) == Success(None);
    assert CreateNew(db, salon, reservationId, requestId, None).Success?;
  }

  lemma ReversalFreesReservation(db: Db, salon: nat, id: nat, stamp: Stamp, requestId: nat)
    requires OneLive(db.checkouts) && HasCheckout(db, salon, id) && db.checkouts[id].status == Finalized
    requires LastWhere(db.checkouts, CreatedBy(salon, requestId)).None?
    ensures var now := db.checkouts[id := Withdrawn(db.checkouts[id], stamp)];
            && LastWhere(now, LiveOn(salon, db.checkouts[id].reservationId)).None?
            && LastWhere(now, CreatedBy(salon, requestId)).None?
  {
    var r := db.checkouts[id].reservationId;
    var now := db.checkouts[id := Withdrawn(db.checkouts[id], stamp)];
    forall i | 0 <= i < |now| ensures !LiveOn(salon, r)(now[i]) && !CreatedBy(salon, requestId)(now[i]) {
      assert !CreatedBy(salon, requestId)(db.checkouts[i]);
      if i != id && db.checkouts[i].reservationId == r { assert i < id; }
    }
  }

  lemma SumOne(x: int)
    ensures Sum([x]) == x
  {
    SumSnoc([], x);
    assert [] + [x] == [x];
  }

  /** A menu price within the limits always gives a draft. */
  lemma StandardTotals(price: int)
    requires Bounded(price)
    ensures CheckedTotals(StandardItems(price), [], 0).Success?
  {
    var items := StandardItems(price);
    assert ValidItems(items) && ValidPayments([]);
    assert ItemRefusal(items, 0).None?;
    assert ItemRefusal(items, 1).None?;
    assert Gross(items) == [price] && Discounts(items) == [0];
    SumOne(price);
    SumOne(0);
  }

  // ---- A run in which it does ----

  function Start(): Db {
    Db([], [], [], [], map[0 := Reservation(0, Context(0, 0, None, 0, 1), Confirmed, Unpaid, 0)], map[0 := Customer(0, 0)],
       Membership(false, map[], {}))
  }

  function FreeTotals(): Totals
    requires CheckedTotals(StandardItems(0), [], 0).Success?
  {
    CheckedTotals(StandardItems(0), [], 0).value
  }

  lemma FreeIsFree()
    ensures CheckedTotals(StandardItems(0), [], 0).Success?
    ensures FreeTotals().totalYen == FreeTotals().allocatedYen == FreeTotals().cashYen == 0
  {
    StandardTotals(0);
    assert Gross(StandardItems(0)) == [0] && Discounts(StandardItems(0)) == [0];
    SumOne(0);
  }

  /** Request 2 is answered with the checkout of request 1; repeated after the reversal it adds another. */
  lemma CreateReplayFails()
    ensures exists db: Db, reverse: Step, create: Step ::
              && Reachable(db) && create.DoCreate? && reverse.DoReverse?
              && Attempt(db, create) == Success(db)
              && |Apply(Apply(db, reverse), create).checkouts| == |Apply(db, reverse).checkouts| + 1
  {
    var db := SettledRun();
    ReversibleStart(db);
    CreateAfterReversal(db, 0, 0, 2, 3, "", Some(0), 0);
    ReplayWitness(db, DoReverse(0, 0, 3, "", Some(0), 0), DoCreate(0, 0, 2, NO_MEMBER));
  }

  /** One finalized checkout without cash or member, on an open register of day 0. */
  predicate FreeCheckout(d: Db) {
    && |d.checkouts| == 1 && d.checkouts[0].salon == 0 && d.checkouts[0].status == Finalized
    && d.checkouts[0].reservationId == 0 && d.checkouts[0].createRequestId == 1 && d.checkouts[0].selection.None?
    && d.checkouts[0].reversal.None? && d.checkouts[0].totals.cashYen == 0
    && |d.registers| == 1 && d.registers[0].salon == 0 && d.registers[0].closing.None? && d.registers[0].businessDate == 0
    && 0 in d.reservations && d.reservations[0].salon == 0 && d.reservations[0].status == Confirmed
    && d.reservations[0].price == 0
  }

  lemma SettledRun() returns (db: Db)
    ensures Reachable(db) && FreeCheckout(db)
  {
    var d1 := OpenedStart();
    var d2 := CreatedStart(d1);
    db := SettledStart(d2);
    ThreeSteps(Start(), DoOpen(0, 0, 0, 0, 0), DoCreate(0, 0, 1, NO_MEMBER), DoFinalize(0, 0, 1, 2, Some(0), 0));
  }

  lemma ThreeSteps(start: Db, a: Step, b: Step, c: Step)
    requires Initial(start)
    ensures Reachable(Apply(Apply(Apply(start, a), b), c))
  {
    var steps := [a, b, c];
    assert steps[..2] == [a, b] && steps[..2][..1] == [a] && steps[..2][..1][..0] == [];
    assert Run(start, steps[..2][..1][..0]) == start;
    assert Run(start, steps[..2][..1]) == Apply(start, a);
    assert Run(start, steps) == Apply(Apply(Apply(start, a), b), c);
  }

  lemma ReplayWitness(db: Db, reverse: Step, create: Step)
    requires Reachable(db) && create.DoCreate? && reverse.DoReverse? && Attempt(db, create) == Success(db)
    requires |Apply(Apply(db, reverse), create).checkouts| == |Apply(db, reverse).checkouts| + 1
    ensures exists db: Db, reverse: Step, create: Step ::
              && Reachable(db) && create.DoCreate? && reverse.DoReverse?
              && Attempt(db, create) == Success(db)
              && |Apply(Apply(db, reverse), create).checkouts| == |Apply(db, reverse).checkouts| + 1
  {
  }

  lemma OpenedStart() returns (d: Db)
    ensures d == Apply(Start(), DoOpen(0, 0, 0, 0, 0)) == Start().(registers := [Register(0, 0, 1, 0, 0, None)])
  {
    d := Start().(registers := [Register(0, 0, 1, 0, 0, None)]);
    assert [] + [Register(0, 0, 1, 0, 0, None)] == [Register(0, 0, 1, 0, 0, None)];
    assert OpenRegister(Start(), 0, 0, 0, 0, 0) == Success(d);
  }

  lemma CreatedStart(d: Db) returns (now: Db)
    requires d == Start().(registers := [Register(0, 0, 1, 0, 0, None)])
    ensures CheckedTotals(StandardItems(0), [], 0).Success?
    ensures now == Apply(d, DoCreate(0, 0, 1, NO_MEMBER))
    ensures now == d.(checkouts := [Checkout(0, 0, 1, None, Draft, 1, Context(0, 0, None, 0, 1), [], FreeTotals(), false, None, 0,
                                             None, None)])
  {
    FreeIsFree();
    now := d.(checkouts := [Checkout(0, 0, 1, None, Draft, 1, Context(0, 0, None, 0, 1), [], FreeTotals(), false, None, 0,
                                     None, None)]);
    assert ResolveSelection(NO_MEMBER, NOTHING_SAVED) == Success(None);
    assert LastWhere(d.checkouts, CreatedBy(0, 1)).None? && LastWhere(d.checkouts, LiveOn(0, 0)).None?;
    assert LastWhere(d.checkouts, ReversedOn(0, 0)).None?;
    assert now.checkouts == d.checkouts + now.checkouts;
    assert PrepareMembership(d.membership, d.entries, 0, 0, None) == Success(0);
    assert CreateNew(d, 0, 0, 1, None) == Success(now);
  }

  lemma SettledStart(d: Db) returns (now: Db)
    requires CheckedTotals(StandardItems(0), [], 0).Success?
    requires d == Start().(registers := [Register(0, 0, 1, 0, 0, None)],
                           checkouts := [Checkout(0, 0, 1, None, Draft, 1, Context(0, 0, None, 0, 1), [], FreeTotals(), false,
                                                  None, 0, None, None)])
    ensures now == Apply(d, DoFinalize(0, 0, 1, 2, Some(0), 0))
    ensures FreeCheckout(now)
  {
    FreeIsFree();
    CheckedTotalsRead(StandardItems(0), [], 0);
    var c := d.checkouts[0];
    var stamp := Stamp(2, FinalizeBody(1, Some(0)), 0);
    assert External([]) == [];
    assert SettlementRefusal([], false, c.totals, Unpaid, Recheckout(d, 0, c)).None?;
    assert FinalizeCheck(d, 0, c, 1) == Success(None);
    now := Settled(d, 0, 0, Closed(c, None, stamp), [], [], 0, Paid);
    assert LastWhere(d.checkouts, FinalizedBy(0, 2)).None?;
    assert FinalizeOn(d, 0, 0, None, stamp) == Success(now);
    assert Finalize(d, 0, 0, 1, 2, Some(0), 0) == Success(now);
  }

  lemma ReversibleStart(d: Db)
    requires FreeCheckout(d)
    ensures Reverse(d, 0, 0, 3, "", Some(0), 0).Success?
    ensures LastWhere(d.checkouts, CreatedBy(0, 2)).None?
  {
    assert LastWhere(d.checkouts, ReversedBy(0, 3)).None?;
  }
}
