/**
 What an accepted request changes, and what it leaves alone: the new row of a creation, the new contents of a
 draft, the cash a movement moves, the report a closing fixes.
 */
module CashTransitions {
  import opened Common
  import opened CashDraft
  import opened Receipt
  import opened Reservations
  import opened Tables
  import opened CashBook
  import opened CashEffects
  import opened CashLedger
  import opened CashChain
  import opened CashRegisters
  import opened CashSafety
  import opened CashOutcomes

  // ---- The ledger over whole runs ----

  lemma FinalizeStepKeepsOne(db: Db, salon: nat, id: nat, version: int, requestId: nat, register: Option<nat>, today: int)
    requires Inv(db) && OneEntryPerKind(db.entries)
    requires Finalize(db, salon, id, version, requestId, register, today).Success?
    ensures OneEntryPerKind(Finalize(db, salon, id, version, requestId, register, today).value.entries)
  {
    if !FinalizeReplays(db, id, requestId) {
      assert Priced(db.checkouts[id]);
      var stamp, entries, movements := FinalizeEffect(db, salon, id, version, requestId, register, today);
      var c := db.checkouts[id];
      if c.selection.Some? {
        FinalizeKeepsOne(db.membership, db.entries, salon, db.reservations[c.reservationId].context.customerId,
                         c.selection.value, id, c.totals.totalYen);
      }
    }
  }

  lemma ReverseStepKeepsOne(db: Db, salon: nat, id: nat, requestId: nat, reason: string, register: Option<nat>, today: int)
    requires OneEntryPerKind(db.entries) && Reverse(db, salon, id, requestId, reason, register, today).Success?
    ensures OneEntryPerKind(Reverse(db, salon, id, requestId, reason, register, today).value.entries)
  {
    if !ReverseReplays(db, id, requestId) {
      var stamp, entries, movements := ReverseEffect(db, salon, id, requestId, reason, register, today);
      var c := db.checkouts[id];
      if c.selection.Some? { ReverseKeepsOne(db.entries, c.selection.value.account, salon, id, |db.entries|); }
    }
  }

  lemma DraftStepKeepsEntries(db: Db, step: Step)
    requires step.DoCreate? || step.DoUpdate? || step.DoRefresh?
    ensures Apply(db, step).entries == db.entries
  {
    if Attempt(db, step).Success? {
      match step
      case DoCreate(salon, reservationId, requestId, fields) =>
        if !CreateReplays(db, salon, reservationId, requestId) {
          var c := CreateEffect(db, salon, reservationId, requestId, fields);
        }
      case DoUpdate(salon, id, draft) => var c2 := UpdateEffect(db, salon, id, draft);
      case DoRefresh(salon, id, version) => var c2 := RefreshEffect(db, salon, id, version);
    }
  }

  lemma RegisterStepKeepsEntries(db: Db, step: Step)
    requires step.DoOpen? || step.DoMove? || step.DoClose?
    ensures Apply(db, step).entries == db.entries
  {
  }

  lemma StepKeepsOne(db: Db, step: Step)
    requires Inv(db) && OneEntryPerKind(db.entries)
    ensures OneEntryPerKind(Apply(db, step).entries)
  {
    if step.DoFinalize? {
      if Attempt(db, step).Success? {
        FinalizeStepKeepsOne(db, step.salon, step.id, step.version, step.requestId, step.register, step.today);
      }
    } else if step.DoReverse? {
      if Attempt(db, step).Success? {
        ReverseStepKeepsOne(db, step.salon, step.id, step.requestId, step.reason, step.register, step.today);
      }
    } else if step.DoCreate? || step.DoUpdate? || step.DoRefresh? {
      DraftStepKeepsEntries(db, step);
    } else if step.DoOpen? || step.DoMove? || step.DoClose? {
      RegisterStepKeepsEntries(db, step);
    }
  }

  lemma {:induction false} RunKeepsOne(db: Db, steps: seq<Step>)
    requires Inv(db) && OneEntryPerKind(db.entries)
    ensures OneEntryPerKind(Run(db, steps).entries)
  {
    if |steps| != 0 {
      var before := Run(db, steps[..|steps| - 1]);
      RunKeepsOne(db, steps[..|steps| - 1]);
      RunKeeps(db, steps[..|steps| - 1]);
      StepKeepsOne(before, steps[|steps| - 1]);
    }
  }

  /** In every reachable state a checkout has at most one ledger entry of each kind. */
  lemma OneEntryOfEachKind(db: Db, p: nat, q: nat)
    requires Reachable(db) && p < q < |db.entries|
    ensures !(db.entries[p].checkout == db.entries[q].checkout && db.entries[p].kind == db.entries[q].kind)
  {
    var start: Db, steps: seq<Step> :| Initial(start) && db == Run(start, steps);
    InitialInv(start);
    RunKeepsOne(start, steps);
  }

  // ---- Creating a checkout ----

  predicate On(c: Checkout, salon: nat, reservationId: nat) {
    c.salon == salon && c.reservationId == reservationId
  }

  /**
   A creation adds one row and changes nothing else. The new checkout prices the reservation less the points, copies
   its context, is the only one of the reservation that is not reversed, and supersedes the one before it, if any.
   */
  lemma CreationExtendsTheChain(db: Db, salon: nat, reservationId: nat, requestId: nat, fields: MembershipFields)
    requires Reachable(db) && Create(db, salon, reservationId, requestId, fields).Success?
    requires !CreateReplays(db, salon, reservationId, requestId)
    ensures var now := Create(db, salon, reservationId, requestId, fields).value;
            var n := |db.checkouts|;
            && now == db.(checkouts := now.checkouts) && |now.checkouts| == n + 1 && now.checkouts[..n] == db.checkouts
            && reservationId in db.reservations
            && var c := now.checkouts[n];
            && On(c, salon, reservationId) && c.createRequestId == requestId && c.status == Draft && c.payments == []
            && c.context == db.reservations[reservationId].context
            && c.totals.totalYen == db.reservations[reservationId].price
                                    - (if c.selection.Some? then c.selection.value.points else 0)
            && (forall i :: 0 <= i < n && On(db.checkouts[i], salon, reservationId) ==>
                  db.checkouts[i].status == Reversed && c.supersedes.Some? && i <= c.supersedes.value)
            && (c.supersedes.Some? ==> c.supersedes.value < n && On(db.checkouts[c.supersedes.value], salon, reservationId))
  {
    ReachableInv(db);
    var c := CreateEffect(db, salon, reservationId, requestId, fields);
    NewRowIsPriced(db, salon, reservationId, requestId, fields, c);
    forall i | 0 <= i < |db.checkouts| && On(db.checkouts[i], salon, reservationId)
      ensures db.checkouts[i].status == Reversed && c.supersedes.Some? && i <= c.supersedes.value
    {
      assert !LiveOn(salon, reservationId)(db.checkouts[i]);
      assert ReversedOn(salon, reservationId)(db.checkouts[i]);
    }
    if c.supersedes.Some? { assert ReversedOn(salon, reservationId)(db.checkouts[c.supersedes.value]); }
  }

  lemma NewRowIsPriced(db: Db, salon: nat, reservationId: nat, requestId: nat, fields: MembershipFields, c: Checkout)
    requires Create(db, salon, reservationId, requestId, fields) == Success(db.(checkouts := db.checkouts + [c]))
    requires !CreateReplays(db, salon, reservationId, requestId)
    ensures reservationId in db.reservations && On(c, salon, reservationId)
    ensures c.context == db.reservations[reservationId].context && c.payments == []
    ensures c.totals.totalYen == db.reservations[reservationId].price
                                 - (if c.selection.Some? then c.selection.value.points else 0)
  {
    var now := Create(db, salon, reservationId, requestId, fields).value;
    assert now.checkouts[|db.checkouts|] == c;
    var s := ResolveSelection(fields, NOTHING_SAVED).value;
    var r := db.reservations[reservationId];
    PrepareGives(db.membership, db.entries, salon, r.context.customerId, s);
    var discount := PrepareMembership(db.membership, db.entries, salon, r.context.customerId, s).value;
    StandardTotal(r.price, discount);
  }

  lemma StandardTotal(price: int, points: int)
    requires CheckedTotals(StandardItems(price), [], points).Success?
    ensures CheckedTotals(StandardItems(price), [], points).value.totalYen == price - points
    ensures CheckedTotals(StandardItems(price), [], points).value.allocatedYen == 0
  {
    var items := StandardItems(price);
    assert Gross(items)[..0] == [] && Discounts(items)[..0] == [];
    assert Sum(Gross(items)) == price && Sum(Discounts(items)) == 0;
  }

  // ---- Changing a draft ----

  /**
   An update replaces the contents of one draft: it then holds the items and payments sent, owes their total less the
   discounts and points, is one version further, and the same update is no longer current.
   */
  lemma UpdateReplacesContents(db: Db, salon: nat, id: nat, draft: DraftInput)
    requires Update(db, salon, id, draft).Success?
    ensures var now := Update(db, salon, id, draft).value;
            && HasCheckout(db, salon, id) && |now.checkouts| == |db.checkouts|
            && now == db.(checkouts := db.checkouts[id := now.checkouts[id]])
            && var c, c2 := db.checkouts[id], now.checkouts[id];
            && c.status == c2.status == Draft && c2.version == c.version + 1
            && c2.supersedes == c.supersedes && c2.createRequestId == c.createRequestId && c2.context == c.context
            && ItemsOf(c2.totals.lines) == draft.items && c2.payments == draft.payments
            && ResolveSelection(draft.fields, SavedOf(c.selection)) == Success(c2.selection)
            && c2.totals.totalYen == Sum(Gross(draft.items)) - Sum(Discounts(draft.items))
                                     - RequestedPoints(c, c2.selection, draft.points)
            && Update(now, salon, id, draft).Failure?
  {
    UpdateIsOnce(db, salon, id, draft);
    UpdatedTotals(db, salon, id, draft);
  }

  lemma UpdateIsOnce(db: Db, salon: nat, id: nat, draft: DraftInput)
    requires Update(db, salon, id, draft).Success?
    ensures Update(Update(db, salon, id, draft).value, salon, id, draft).Failure?
  {
  }

  lemma UpdatedTotals(db: Db, salon: nat, id: nat, draft: DraftInput)
    requires Update(db, salon, id, draft).Success?
    ensures var c, c2 := db.checkouts[id], Update(db, salon, id, draft).value.checkouts[id];
            && ItemsOf(c2.totals.lines) == draft.items
            && c2.totals.totalYen == Sum(Gross(draft.items)) - Sum(Discounts(draft.items))
                                     - RequestedPoints(c, c2.selection, draft.points)
  {
    var c := db.checkouts[id];
    var s := ResolveSelection(draft.fields, SavedOf(c.selection)).value;
    var customer := db.reservations[c.reservationId].context.customerId;
    PrepareGives(db.membership, db.entries, salon, customer, s);
    CheckedTotalsRead(draft.items, draft.payments, RequestedPoints(c, s, draft.points));
  }

  /**
   A refreshed draft owes its reservation's price and passes the checks before settling exactly when it is current,
   there is nothing to pay, nothing was paid before, and a refund was corrected. With another context than its
   reservation's it never passed them before, at any version.
   */
  lemma RefreshMatchesTheReservation(db: Db, salon: nat, id: nat, version: int, later: int)
    requires Refresh(db, salon, id, version).Success?
    ensures var now := Refresh(db, salon, id, version).value;
            && HasCheckout(db, salon, id) && HasReservation(db, salon, db.checkouts[id].reservationId)
            && HasCheckout(now, salon, id) && now == db.(checkouts := db.checkouts[id := now.checkouts[id]])
            && var c, c2, r := db.checkouts[id], now.checkouts[id], db.reservations[db.checkouts[id].reservationId];
            && c2.context == r.context && c2.totals.totalYen == r.price && c2.payments == [] && c2.selection.None?
            && c2.status == Draft && c2.version == c.version + 1
            && (c.context != r.context ==> FinalizeCheck(db, salon, c, later).Failure?)
            && (FinalizeCheck(now, salon, c2, later).Success? <==>
                  && later == version + 1 && r.price == 0 && r.paymentStatus != Paid
                  && (r.paymentStatus == Refunded ==> Recheckout(now, salon, c2)))
            && Refresh(now, salon, id, version).Failure?
  {
    var now := Refresh(db, salon, id, version).value;
    var r := db.reservations[db.checkouts[id].reservationId];
    StandardTotal(r.price, 0);
    CheckedTotalsRead(StandardItems(r.price), [], 0);
    FinalizeCheckIff(now, salon, now.checkouts[id], later);
  }

  /** While a draft's context differs from its reservation it cannot be settled, and updating it does not change that. */
  lemma UpdatingKeepsAStaleContext(db: Db, salon: nat, id: nat, draft: DraftInput, version: int, requestId: nat,
                                   register: Option<nat>, today: int)
    requires Update(db, salon, id, draft).Success?
    requires db.checkouts[id].finalization.None?
    requires db.checkouts[id].context != db.reservations[db.checkouts[id].reservationId].context
    ensures Finalize(db, salon, id, version, requestId, register, today).Failure?
    ensures Finalize(Update(db, salon, id, draft).value, salon, id, version, requestId, register, today).Failure?
  {
    UpdateReplacesContents(db, salon, id, draft);
    StaleContextRefused(db, salon, id, version, requestId, register, today);
    StaleContextRefused(Update(db, salon, id, draft).value, salon, id, version, requestId, register, today);
  }

  lemma StaleContextRefused(db: Db, salon: nat, id: nat, version: int, requestId: nat, register: Option<nat>, today: int)
    requires HasCheckout(db, salon, id) && db.checkouts[id].finalization.None?
    requires db.checkouts[id].reservationId in db.reservations
    requires db.checkouts[id].context != db.reservations[db.checkouts[id].reservationId].context
    ensures Finalize(db, salon, id, version, requestId, register, today).Failure?
  {
    assert FinalizeCheck(db, salon, db.checkouts[id], version).Failure?;
  }

  // ---- Registers ----

  /** A salon has at most one register of a day and at most one that is open. */
  lemma OneRegisterADay(db: Db, r: nat, s: nat)
    requires Reachable(db) && r < s < |db.registers| && db.registers[r].salon == db.registers[s].salon
    ensures db.registers[r].businessDate != db.registers[s].businessDate
    ensures db.registers[r].closing.Some? || db.registers[s].closing.Some?
  {
    ReachableInv(db);
  }

  /** A newly opened register is today's, holds the opening amount, and every earlier one of the salon is closed. */
  lemma OpeningStartsTheDay(db: Db, salon: nat, date: int, openingCashYen: int, requestId: nat, today: int)
    requires Reachable(db) && OpenRegister(db, salon, date, openingCashYen, requestId, today).Success?
    requires LastWhere(db.registers, OpenedBy(salon, requestId)).None?
    ensures var now := OpenRegister(db, salon, date, openingCashYen, requestId, today).value;
            var n := |db.registers|;
            && now == db.(registers := now.registers) && |now.registers| == n + 1 && now.registers[..n] == db.registers
            && now.registers[n].salon == salon && now.registers[n].businessDate == today
            && ExpectedCash(now.registers, now.movements, n) == openingCashYen
            && OpenRegisterFor(now.registers, salon, Some(n), today) == Success(n)
            && forall s :: 0 <= s < n && db.registers[s].salon == salon ==> db.registers[s].closing.Some?
  {
    ReachableInv(db);
    OpenIff(db, salon, date, openingCashYen, requestId, today);
    NothingMovedYet(db, |db.registers|);
  }

  lemma NothingMovedYet(db: Db, s: nat)
    requires Inv(db) && |db.registers| <= s
    ensures Total(db.movements, SignedIn(s)) == 0
  {
    forall i | 0 <= i < |db.movements| ensures SignedIn(s)(db.movements[i]) == 0 {
    }
    TotalZero(db.movements, SignedIn(s));
  }

  /** A movement moves exactly its amount in its own register and touches no other register, checkout or balance. */
  lemma MovementMovesItsAmount(db: Db, salon: nat, id: nat, version: int, requestId: nat, kind: MovementKind, amountYen: int,
                               reason: string, s: nat)
    requires Move(db, salon, id, version, requestId, kind, amountYen, reason).Success? && s < |db.registers|
    requires LastWhere(db.movements, MovementRequest(salon, requestId)).None?
    ensures var now := Move(db, salon, id, version, requestId, kind, amountYen, reason).value;
            && id < |db.registers| == |now.registers| && (kind == In || kind == Out)
            && now == db.(movements := now.movements, registers := now.registers) && db.movements < now.movements
            && ExpectedCash(now.registers, now.movements, s)
               == ExpectedCash(db.registers, db.movements, s)
                  + (if s != id then 0 else if kind == In then amountYen else -amountYen)
            && 0 <= ExpectedCash(now.registers, now.movements, id) <= CASH_MAX_YEN
            && now.registers[id].version == db.registers[id].version + 1
            && (s != id ==> now.registers[s] == db.registers[s])
            && Move(now, salon, id, version, requestId, kind, amountYen, reason) == Success(now)
  {
    var m := Movement(salon, id, kind, amountYen, requestId, ManualBody(id, kind, amountYen, reason, version));
    AppendGives(db.registers, db.movements, m);
    TotalSnoc(db.movements, m, SignedIn(s));
    TotalSnoc(db.movements, m, SignedIn(id));
    var now := db.movements + [m];
    assert MovementRequest(salon, requestId)(now[|db.movements|]);
  }

  /** Whatever happens after a register is closed, nothing is booked on it: its cash, movements, sales and refunds stand. */
  lemma {:induction false} ClosedTakesNothing(db: Db, steps: seq<Step>, s: nat)
    requires Reachable(db) && s < |db.registers| && db.registers[s].closing.Some?
    ensures var now := Run(db, steps);
            && s < |now.registers|
            && ExpectedCash(now.registers, now.movements, s) == ExpectedCash(db.registers, db.movements, s)
            && Total(now.movements, CountIn(s)) == Total(db.movements, CountIn(s))
            && Total(now.checkouts, Sold(s, TOTAL_YEN)) == Total(db.checkouts, Sold(s, TOTAL_YEN))
            && Total(now.checkouts, TakenBack(s, TOTAL_YEN)) == Total(db.checkouts, TakenBack(s, TOTAL_YEN))
  {
    ReachableInv(db);
    ClosedStaysClosed(db, steps, s);
    assert ReportCurrent(db.checkouts, db.registers, db.movements, s);
  }
}
