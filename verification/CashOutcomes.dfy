/**
 When settling and reversing succeed. In a reachable state several refusals can no longer happen:
 the recomputed totals match, points that can be prepared can be booked, a sale never empties the
 register, and the checkout behind a correction is always reversed. What remains are conditions a
 caller can check beforehand.
 */
module CashOutcomes {
  import opened Common
  import opened CashDraft
  import opened Receipt
  import opened Reservations
  import opened Tables
  import opened CashBook
  import opened CashEffects
  import opened CashLedger
  import opened CashChain
  import opened CashRegisters
  import opened CashSafety

  /** What was prepared passes the ledger's own validation as well. */
  lemma PreparedUseIsValid(m: Membership, entries: seq<Entry>, salon: nat, customer: nat, s: Selection, id: nat, totalYen: int)
    requires NoEntryOf(entries, id) && 0 <= totalYen
    requires PrepareMembership(m, entries, salon, customer, Some(s)).Success?
    ensures ReadMembership(m, entries, salon, customer, s.account).Success?
    ensures ValidateUse(s.points, ReadMembership(m, entries, salon, customer, s.account).value
                                  + RestoredPoints(entries, id, s.account), totalYen + s.points, s.policy).None?
  {
    assert LastWhere(entries, EntryFor(id, Redeem)).None?;
  }

  lemma WriteNew(entries: seq<Entry>, e: Entry)
    requires forall p :: 0 <= p < |entries| ==> !(entries[p].checkout == e.checkout && entries[p].kind == e.kind)
    ensures WriteEntry(entries, e) == Success(if e.delta == 0 then entries else entries + [e])
  {
  }

  /** With no entry of the checkout, both entries can be written. */
  lemma BookingsAreWritten(entries: seq<Entry>, salon: nat, s: Selection, id: nat, earn: int)
    requires NoEntryOf(entries, id)
    ensures var redeemed := WriteEntry(entries, Entry(s.account, salon, id, Redeem, -s.points, None));
            redeemed.Success? && WriteEntry(redeemed.value, Entry(s.account, salon, id, Earn, earn, None)).Success?
  {
    var redeem := Entry(s.account, salon, id, Redeem, -s.points, None);
    WriteNew(entries, redeem);
    WriteNew(if redeem.delta == 0 then entries else entries + [redeem], Entry(s.account, salon, id, Earn, earn, None));
  }

  /** Points that can be prepared can also be booked: the second validation never refuses after the first. */
  lemma PreparedPointsAreBooked(m: Membership, entries: seq<Entry>, salon: nat, customer: nat, s: Selection, id: nat, totalYen: int)
    requires NoEntryOf(entries, id) && Bounded(totalYen)
    requires PrepareMembership(m, entries, salon, customer, Some(s)).Success?
    ensures FinalizePoints(m, entries, salon, customer, s, id, totalYen).Success?
  {
    PreparedUseIsValid(m, entries, salon, customer, s, id, totalYen);
    BookingsAreWritten(entries, salon, s, id, EarnFor(totalYen));
  }

  /** The checkout that a correction supersedes is reversed and belongs to the same reservation. */
  lemma CorrectionIsAllowed(db: Db, id: nat)
    requires Inv(db) && id < |db.checkouts|
    ensures Recheckout(db, db.checkouts[id].salon, db.checkouts[id]) <==> db.checkouts[id].supersedes.Some?
  {
    var c := db.checkouts[id];
    assert Predecessor(db.checkouts, c.supersedes, id);
  }

  /** What is left of a movement's checks when the register is within its limits. */
  predicate MovementFits(db: Db, m: Movement)
    requires m.session < |db.registers|
  {
    var expected := ExpectedCash(db.registers, db.movements, m.session);
    && (if m.kind == Sale || m.kind == In then expected + m.amountYen <= CASH_MAX_YEN else m.amountYen <= expected)
    && LastWhere(db.movements, MovementRequest(m.salon, m.requestId)).None?
  }

  lemma MovementFitsIff(db: Db, m: Movement)
    requires Inv(db) && m.session < |db.registers| && 0 < m.amountYen
    ensures AppendMovement(db.registers, db.movements, m).Success? <==> MovementFits(db, m)
  {
    TotalSnoc(db.movements, m, SignedIn(m.session));
    ExpectedCashIsConserved(db.checkouts, db.registers, db.movements, m.session);
  }

  /**
   Settling a reachable draft succeeds exactly when it is current, its reservation stands unchanged, its
   payments are in order, the register is open today and can take the cash, the member can use the points
   and the request number is new.
   */
  lemma FinalizeIff(db: Db, salon: nat, id: nat, version: int, requestId: nat, register: Option<nat>, today: int)
    requires Reachable(db) && HasCheckout(db, salon, id) && !FinalizeReplays(db, id, requestId)
    ensures db.checkouts[id].reservationId in db.reservations
    ensures var c := db.checkouts[id];
            var r := db.reservations[c.reservationId];
            var session := OpenRegisterFor(db.registers, salon, register, today);
            Finalize(db, salon, id, version, requestId, register, today).Success? <==>
              && c.status == Draft && c.version == version
              && !Gone(r.status) && c.context == r.context && !PrepaidUse(c.selection, r.paymentStatus)
              && SettlementRefusal(c.payments, c.acknowledged, c.totals, r.paymentStatus, c.supersedes.Some?).None?
              && session.Success?
              && PrepareMembership(db.membership, db.entries, salon, r.context.customerId, c.selection).Success?
              && LastWhere(db.checkouts, FinalizedBy(salon, requestId)).None?
              && (c.totals.cashYen > 0 ==>
                    MovementFits(db, CheckoutMovement(salon, session.value, Sale, c.totals.cashYen, requestId, id)))
  {
    ReachableInv(db);
    var c := db.checkouts[id];
    assert Priced(c) && Settlement(c);
    CorrectionIsAllowed(db, id);
    if c.status == Draft { FinalizeCheckIff(db, salon, c, version); }
    var session := OpenRegisterFor(db.registers, salon, register, today);
    if c.status == Draft && session.Success? {
      FinalizeOnIff(db, salon, id, Stamp(requestId, FinalizeBody(version, register), session.value));
    }
  }

  lemma FinalizeCheckIff(db: Db, salon: nat, c: Checkout, version: int)
    requires Priced(c) && HasReservation(db, salon, c.reservationId)
    ensures var r := db.reservations[c.reservationId];
            FinalizeCheck(db, salon, c, version).Success? <==>
              && c.status == Draft && c.version == version
              && !Gone(r.status) && c.context == r.context && !PrepaidUse(c.selection, r.paymentStatus)
              && SettlementRefusal(c.payments, c.acknowledged, c.totals, r.paymentStatus, Recheckout(db, salon, c)).None?
    ensures FinalizeCheck(db, salon, c, version).Success? ==> FinalizeCheck(db, salon, c, version).value == c.selection
  {
    StoredDraftIsCurrent(c);
  }

  /** For a reachable draft, points are refused only when they cannot be prepared. */
  lemma PointsAreBooked(db: Db, salon: nat, id: nat, customer: nat)
    requires Inv(db) && HasCheckout(db, salon, id) && db.checkouts[id].status == Draft
    requires db.checkouts[id].selection.Some?
    requires PrepareMembership(db.membership, db.entries, salon, customer, db.checkouts[id].selection).Success?
    ensures var c := db.checkouts[id];
            && PrepareMembership(db.membership, db.entries, salon, customer, c.selection).value == c.totals.pointsDiscountYen
            && FinalizePoints(db.membership, db.entries, salon, customer, c.selection.value, id, c.totals.totalYen).Success?
  {
    var c := db.checkouts[id];
    assert Priced(c) && CheckoutBooked(db.entries, id, c);
    PricedTotals(c);
    PrepareGives(db.membership, db.entries, salon, customer, c.selection);
    PreparedPointsAreBooked(db.membership, db.entries, salon, customer, c.selection.value, id, c.totals.totalYen);
  }

  lemma FinalizeOnIff(db: Db, salon: nat, id: nat, stamp: Stamp)
    requires Inv(db) && HasCheckout(db, salon, id) && db.checkouts[id].status == Draft
    requires HasReservation(db, salon, db.checkouts[id].reservationId) && stamp.session < |db.registers|
    ensures var c := db.checkouts[id];
            FinalizeOn(db, salon, id, c.selection, stamp).Success? <==>
              && PrepareMembership(db.membership, db.entries, salon, db.reservations[c.reservationId].context.customerId,
                                   c.selection).Success?
              && LastWhere(db.checkouts, FinalizedBy(salon, stamp.requestId)).None?
              && (c.totals.cashYen > 0 ==>
                    MovementFits(db, CheckoutMovement(salon, stamp.session, Sale, c.totals.cashYen, stamp.requestId, id)))
  {
    var c := db.checkouts[id];
    var customer := db.reservations[c.reservationId].context.customerId;
    var m := CheckoutMovement(salon, stamp.session, Sale, c.totals.cashYen, stamp.requestId, id);
    if c.selection.Some? && PrepareMembership(db.membership, db.entries, salon, customer, c.selection).Success? {
      PointsAreBooked(db, salon, id, customer);
    }
    if c.totals.cashYen > 0 { MovementFitsIff(db, m); }
    FinalizeOnUnfold(db, salon, id, stamp, m, MovementFits(db, m));
  }

  /** The last stage of a finalization, when its points can be booked whenever they can be prepared. */
  lemma FinalizeOnUnfold(db: Db, salon: nat, id: nat, stamp: Stamp, m: Movement, fits: bool)
    requires HasCheckout(db, salon, id) && HasReservation(db, salon, db.checkouts[id].reservationId)
    requires stamp.session < |db.registers|
    requires m == CheckoutMovement(salon, stamp.session, Sale, db.checkouts[id].totals.cashYen, stamp.requestId, id)
    requires m.amountYen > 0 ==> (AppendMovement(db.registers, db.movements, m).Success? <==> fits)
    requires var c := db.checkouts[id];
             var customer := db.reservations[c.reservationId].context.customerId;
             var prepared := PrepareMembership(db.membership, db.entries, salon, customer, c.selection);
             c.selection.Some? && prepared.Success? ==>
               && prepared.value == c.totals.pointsDiscountYen
               && FinalizePoints(db.membership, db.entries, salon, customer, c.selection.value, id, c.totals.totalYen).Success?
    ensures var c := db.checkouts[id];
            FinalizeOn(db, salon, id, c.selection, stamp).Success? <==>
              && PrepareMembership(db.membership, db.entries, salon, db.reservations[c.reservationId].context.customerId,
                                   c.selection).Success?
              && LastWhere(db.checkouts, FinalizedBy(salon, stamp.requestId)).None?
              && (m.amountYen > 0 ==> fits)
  {
  }

  /**
   Reversing succeeds exactly for a finalized checkout, on an open register of today that holds its cash,
   under a new request number. Its member's account must still exist; it may be inactive or unlinked.
   */
  lemma ReverseIff(db: Db, salon: nat, id: nat, requestId: nat, reason: string, register: Option<nat>, today: int)
    requires Reachable(db) && HasCheckout(db, salon, id) && !ReverseReplays(db, id, requestId)
    ensures var c := db.checkouts[id];
            var session := OpenRegisterFor(db.registers, salon, register, today);
            Reverse(db, salon, id, requestId, reason, register, today).Success? <==>
              && c.status == Finalized && session.Success?
              && (c.selection.Some? ==> c.selection.value.account in db.membership.accounts)
              && LastWhere(db.checkouts, ReversedBy(salon, requestId)).None?
              && (c.totals.cashYen > 0 ==>
                    MovementFits(db, CheckoutMovement(salon, session.value, CashRefund, c.totals.cashYen, requestId, id)))
  {
    ReachableInv(db);
    var session := OpenRegisterFor(db.registers, salon, register, today);
    if db.checkouts[id].status == Finalized && session.Success? {
      ReverseOnIff(db, salon, id, Stamp(requestId, ReverseBody(reason, register), session.value));
    }
  }

  lemma ReverseOnIff(db: Db, salon: nat, id: nat, stamp: Stamp)
    requires Inv(db) && HasCheckout(db, salon, id) && db.checkouts[id].status == Finalized
    requires HasReservation(db, salon, db.checkouts[id].reservationId) && stamp.session < |db.registers|
    ensures var c := db.checkouts[id];
            ReverseOn(db, salon, id, stamp).Success? <==>
              && (c.selection.Some? ==> c.selection.value.account in db.membership.accounts)
              && LastWhere(db.checkouts, ReversedBy(salon, stamp.requestId)).None?
              && (c.totals.cashYen > 0 ==>
                    MovementFits(db, CheckoutMovement(salon, stamp.session, CashRefund, c.totals.cashYen, stamp.requestId, id)))
  {
    var c := db.checkouts[id];
    var m := CheckoutMovement(salon, stamp.session, CashRefund, c.totals.cashYen, stamp.requestId, id);
    if c.selection.Some? { ReverseKeepsLedger(db.checkouts, db.entries, id, Withdrawn(c, stamp)); }
    if c.totals.cashYen > 0 { MovementFitsIff(db, m); }
    ReverseOnUnfold(db, salon, id, stamp, m, MovementFits(db, m));
  }

  /** A reversal when the ledger takes its points back. */
  lemma {:induction false} ReverseOnUnfold(db: Db, salon: nat, id: nat, stamp: Stamp, m: Movement, fits: bool)
    requires HasCheckout(db, salon, id) && HasReservation(db, salon, db.checkouts[id].reservationId)
    requires stamp.session < |db.registers|
    requires m == CheckoutMovement(salon, stamp.session, CashRefund, db.checkouts[id].totals.cashYen, stamp.requestId, id)
    requires m.amountYen > 0 ==> (AppendMovement(db.registers, db.movements, m).Success? <==> fits)
    requires db.checkouts[id].selection.Some? ==>
               ReversePoints(db.entries, db.checkouts[id].selection.value.account, salon, id, |db.entries|).Success?
    ensures var c := db.checkouts[id];
            ReverseOn(db, salon, id, stamp).Success? <==>
              && (c.selection.Some? ==> c.selection.value.account in db.membership.accounts)
              && LastWhere(db.checkouts, ReversedBy(salon, stamp.requestId)).None?
              && (m.amountYen > 0 ==> fits)
  {
  }

  // ---- Points ----

  /** Booking a settlement again, with the same input, is accepted and books nothing more. */
  lemma BookingAgainIsIdle(m: Membership, entries: seq<Entry>, salon: nat, customer: nat, s: Selection, id: nat, totalYen: int)
    requires NoEntryOf(entries, id) && FinalizePoints(m, entries, salon, customer, s, id, totalYen).Success?
    ensures var after := FinalizePoints(m, entries, salon, customer, s, id, totalYen).value;
            FinalizePoints(m, after, salon, customer, s, id, totalYen) == Success(after)
  {
    var earn := EarnFor(totalYen);
    FinalizeAppends(m, entries, salon, customer, s, id, totalYen);
    EarnNonnegative(totalYen);
    var after := entries + Bookings(s, salon, id, earn);
    BookingsSum(entries, s, salon, id, earn, DeltaOf(s.account));
    BookedEntries(entries, s, salon, id, earn);
    BookedPoints(entries, s, salon, id, earn);
    NothingElseBooked(entries, s, salon, id, earn);
    BookedUseIsValid(m, entries, salon, customer, s, id, totalYen);
  }

  /** Both entries are found again, so neither is written a second time. */
  lemma BookedEntries(entries: seq<Entry>, s: Selection, salon: nat, id: nat, earn: int)
    requires NoEntryOf(entries, id)
    ensures var after := entries + Bookings(s, salon, id, earn);
            && WriteEntry(after, Entry(s.account, salon, id, Redeem, -s.points, None)) == Success(after)
            && WriteEntry(after, Entry(s.account, salon, id, Earn, earn, None)) == Success(after)
  {
    var after := entries + Bookings(s, salon, id, earn);
    FoundAgain(after, |entries|, Entry(s.account, salon, id, Redeem, -s.points, None));
    FoundAgain(after, |after| - 1, Entry(s.account, salon, id, Earn, earn, None));
  }

  /** The debit found is the one the selection asked for. */
  lemma BookedPoints(entries: seq<Entry>, s: Selection, salon: nat, id: nat, earn: int)
    requires NoEntryOf(entries, id)
    ensures RestoredPoints(entries + Bookings(s, salon, id, earn), id, s.account) == s.points
  {
    FoundAgain(entries + Bookings(s, salon, id, earn), |entries|, Entry(s.account, salon, id, Redeem, -s.points, None));
  }

  /** Nothing but the two bookings belongs to the checkout. */
  lemma NothingElseBooked(entries: seq<Entry>, s: Selection, salon: nat, id: nat, earn: int)
    requires NoEntryOf(entries, id)
    ensures !AnyWhere(entries + Bookings(s, salon, id, earn), (e: Entry) => Original(e, id)
                        && !(e.account == s.account && e.delta == if e.kind == Redeem then -s.points else earn))
  {
  }

  /** An entry that alone has its checkout and kind is the one that is found; a zero entry is not looked for. */
  lemma {:induction false} FoundAgain(after: seq<Entry>, at: int, e: Entry)
    requires e.delta != 0 ==> 0 <= at < |after| && after[at] == e
    requires forall p :: 0 <= p < |after| && after[p].checkout == e.checkout && after[p].kind == e.kind ==> e.delta != 0 && p == at
    ensures WriteEntry(after, e) == Success(after)
    ensures LastWhere(after, EntryFor(e.checkout, e.kind)) == if e.delta != 0 then Some(at) else None
  {
    if e.delta != 0 { assert EntryFor(e.checkout, e.kind)(after[at]); }
  }

  /** The restored debit makes the member's points suffice again. */
  lemma BookedUseIsValid(m: Membership, entries: seq<Entry>, salon: nat, customer: nat, s: Selection, id: nat, totalYen: int)
    requires NoEntryOf(entries, id) && FinalizePoints(m, entries, salon, customer, s, id, totalYen).Success?
    requires 0 <= s.points && 0 <= totalYen
    ensures var after := entries + Bookings(s, salon, id, EarnFor(totalYen));
            && ReadMembership(m, after, salon, customer, s.account).Success?
            && ValidateUse(s.points, ReadMembership(m, after, salon, customer, s.account).value + s.points,
                           totalYen + s.points, s.policy).None?
  {
    assert LastWhere(entries, EntryFor(id, Redeem)).None?;
  }

  // ---- Drafts ----

  lemma StandardTotalsIff(price: int, points: int)
    ensures CheckedTotals(StandardItems(price), [], points).Success? <==> Bounded(price) && 0 <= points <= price
  {
    var items := StandardItems(price);
    assert Gross(items)[..0] == [] && Discounts(items)[..0] == [] && items[..0] == [];
    assert Sum(Gross(items)) == price && Sum(Discounts(items)) == 0;
    if Bounded(price) {
      assert ItemRefusal(items, 0).None? && ItemRefusal(items, 1).None?;
      assert Sum(Amounts([])) == 0 && Sum(AmountsBy([], Cash)) == 0;
    }
  }

  /** A checkout is added exactly for a standing reservation whose price covers the points of a usable selection. */
  lemma CreateIff(db: Db, salon: nat, reservationId: nat, requestId: nat, fields: MembershipFields)
    requires !CreateReplays(db, salon, reservationId, requestId)
    ensures var selection := ResolveSelection(fields, NOTHING_SAVED);
            Create(db, salon, reservationId, requestId, fields).Success? <==>
              && selection.Success? && HasReservation(db, salon, reservationId)
              && var r := db.reservations[reservationId];
              && !Gone(r.status)
              && (r.paymentStatus == Refunded ==> LastWhere(db.checkouts, ReversedOn(salon, reservationId)).Some?)
              && !PrepaidUse(selection.value, r.paymentStatus)
              && PrepareMembership(db.membership, db.entries, salon, r.context.customerId, selection.value).Success?
              && Bounded(r.price) && (selection.value.Some? ==> selection.value.value.points <= r.price)
  {
    var selection := ResolveSelection(fields, NOTHING_SAVED);
    if selection.Success? && HasReservation(db, salon, reservationId) {
      var r := db.reservations[reservationId];
      var discount := PrepareMembership(db.membership, db.entries, salon, r.context.customerId, selection.value);
      if discount.Success? {
        PrepareGives(db.membership, db.entries, salon, r.context.customerId, selection.value);
        StandardTotalsIff(r.price, discount.value);
      }
    }
  }

  /** The points a draft asks for: its member's, the ones entered, or the ones it already has. */
  function RequestedPoints(c: Checkout, s: Option<Selection>, entered: Option<int>): int {
    PointsFor(c, s, if s.Some? then s.value.points else 0, entered)
  }

  /**
   A draft is replaced exactly when it is current, its member can use the points it asks for, its items and
   payments are well formed, every line covers its discount, what is left after discounts covers the points, and
   prices and payments stay within the limit in total.
   */
  lemma UpdateIff(db: Db, salon: nat, id: nat, draft: DraftInput)
    requires Reachable(db) && HasCheckout(db, salon, id)
    ensures db.checkouts[id].reservationId in db.reservations
    ensures var c := db.checkouts[id];
            var r := db.reservations[c.reservationId];
            var selection := ResolveSelection(draft.fields, SavedOf(c.selection));
            Update(db, salon, id, draft).Success? <==>
              && c.status == Draft && c.version == draft.version && selection.Success?
              && !PrepaidUse(selection.value, r.paymentStatus)
              && PrepareMembership(db.membership, db.entries, salon, r.context.customerId, selection.value).Success?
              && (selection.value.Some? && draft.points.Some? ==> draft.points.value == selection.value.value.points)
              && 1 <= |draft.items| <= 100 && |draft.payments| <= 20
              && ValidItems(draft.items) && ValidPayments(draft.payments)
              && DiscountsCovered(draft.items) && Sum(Gross(draft.items)) <= CASH_MAX_YEN
              && 0 <= RequestedPoints(c, selection.value, draft.points)
                   <= Sum(Gross(draft.items)) - Sum(Discounts(draft.items))
              && Sum(Amounts(draft.payments)) <= CASH_MAX_YEN
  {
    ReachableInv(db);
    var selection := ResolveSelection(draft.fields, SavedOf(db.checkouts[id].selection));
    if selection.Success? {
      UpdateGuards(db, salon, id, draft, selection.value);
      CheckedTotalsIff(draft.items, draft.payments, RequestedPoints(db.checkouts[id], selection.value, draft.points));
    }
  }

  lemma UpdateGuards(db: Db, salon: nat, id: nat, draft: DraftInput, s: Option<Selection>)
    requires HasCheckout(db, salon, id) && HasReservation(db, salon, db.checkouts[id].reservationId)
    requires ResolveSelection(draft.fields, SavedOf(db.checkouts[id].selection)) == Success(s)
    ensures var c := db.checkouts[id];
            var r := db.reservations[c.reservationId];
            Update(db, salon, id, draft).Success? <==>
              && c.status == Draft && c.version == draft.version && !PrepaidUse(s, r.paymentStatus)
              && PrepareMembership(db.membership, db.entries, salon, r.context.customerId, s).Success?
              && (s.Some? && draft.points.Some? ==> draft.points.value == s.value.points)
              && CheckedTotals(draft.items, draft.payments, RequestedPoints(c, s, draft.points)).Success?
  {
    var customer := db.reservations[db.checkouts[id].reservationId].context.customerId;
    if PrepareMembership(db.membership, db.entries, salon, customer, s).Success? {
      PrepareGives(db.membership, db.entries, salon, customer, s);
    }
  }

  lemma CheckedTotalsIff(items: seq<Item>, payments: seq<Payment>, points: int)
    ensures CheckedTotals(items, payments, points).Success? <==>
              && 1 <= |items| <= 100 && |payments| <= 20 && ValidItems(items) && ValidPayments(payments)
              && DiscountsCovered(items) && Sum(Gross(items)) <= CASH_MAX_YEN
              && 0 <= points <= Sum(Gross(items)) - Sum(Discounts(items))
              && Sum(Amounts(payments)) <= CASH_MAX_YEN
  {
    if ValidItems(items) && ValidPayments(payments) {
      CalculateIff(items, payments, points);
      SumNonnegative(Discounts(items));
    }
  }

  // ---- Registers ----

  /** A register is opened exactly for today, when the salon has none of today and none still open. */
  lemma OpenIff(db: Db, salon: nat, date: int, openingCashYen: int, requestId: nat, today: int)
    requires LastWhere(db.registers, OpenedBy(salon, requestId)).None?
    ensures OpenRegister(db, salon, date, openingCashYen, requestId, today).Success? <==>
              && Bounded(openingCashYen) && date == today
              && forall s :: 0 <= s < |db.registers| && db.registers[s].salon == salon ==>
                   db.registers[s].businessDate != today && db.registers[s].closing.Some?
  {
    var found := LastWhere(db.registers, OccupiesDay(salon, date));
    if found.None? {
      forall s | 0 <= s < |db.registers| && db.registers[s].salon == salon
        ensures db.registers[s].businessDate != date && db.registers[s].closing.Some?
      {
        assert !OccupiesDay(salon, date)(db.registers[s]);
      }
    }
  }

  /** Cash is moved exactly on an open register at the stated version that can hold or give it. */
  lemma MoveIff(db: Db, salon: nat, id: nat, version: int, requestId: nat, kind: MovementKind, amountYen: int, reason: string)
    requires Reachable(db) && HasRegister(db, salon, id)
    requires LastWhere(db.movements, MovementRequest(salon, requestId)).None?
    ensures var expected := ExpectedCash(db.registers, db.movements, id);
            Move(db, salon, id, version, requestId, kind, amountYen, reason).Success? <==>
              && 0 < amountYen <= CASH_MAX_YEN
              && db.registers[id].closing.None? && db.registers[id].version == version
              && ((kind == In && expected + amountYen <= CASH_MAX_YEN) || (kind == Out && amountYen <= expected))
  {
    ReachableInv(db);
    var m := Movement(salon, id, kind, amountYen, requestId, ManualBody(id, kind, amountYen, reason, version));
    if 0 < amountYen { MovementFitsIff(db, m); }
  }

  /** A register is closed exactly when it is open at the stated version; its expected cash never stands in the way. */
  lemma CloseIff(db: Db, salon: nat, id: nat, version: int, requestId: nat, counted: int, note: string)
    requires Reachable(db) && HasRegister(db, salon, id)
    requires LastWhere(db.registers, ClosedBy(salon, requestId)).None?
    ensures Close(db, salon, id, version, requestId, counted, note).Success? <==>
              Bounded(counted) && db.registers[id].closing.None? && db.registers[id].version == version
  {
    ReachableInv(db);
    ExpectedCashIsConserved(db.checkouts, db.registers, db.movements, id);
    assert !ClosedBy(salon, requestId)(db.registers[id]);
  }

  // ---- Reservations ----

  lemma CreateKeepsReservations(db: Db, salon: nat, reservationId: nat, requestId: nat, fields: MembershipFields)
    requires Create(db, salon, reservationId, requestId, fields).Success?
    ensures Create(db, salon, reservationId, requestId, fields).value.reservations == db.reservations
  {
  }

  lemma UpdateKeepsReservations(db: Db, salon: nat, id: nat, draft: DraftInput)
    requires Update(db, salon, id, draft).Success?
    ensures Update(db, salon, id, draft).value.reservations == db.reservations
  {
  }

  lemma DraftsKeepReservations(db: Db, step: Step)
    requires step.DoCreate? || step.DoUpdate? || step.DoRefresh?
    ensures Apply(db, step).reservations == db.reservations
  {
    if Attempt(db, step).Success? {
      match step
      case DoCreate(salon, reservationId, requestId, fields) => CreateKeepsReservations(db, salon, reservationId, requestId, fields);
      case DoUpdate(salon, id, draft) => UpdateKeepsReservations(db, salon, id, draft);
      case DoRefresh(salon, id, version) =>
    }
  }

  lemma RegistersKeepReservations(db: Db, step: Step)
    requires step.DoOpen? || step.DoMove? || step.DoClose?
    ensures Apply(db, step).reservations == db.reservations
  {
  }

  lemma OthersKeepPayment(db: Db, step: Step, r: nat)
    requires r in db.reservations && !step.DoFinalize? && !step.DoReverse?
    ensures r in Apply(db, step).reservations
    ensures Apply(db, step).reservations[r].paymentStatus == db.reservations[r].paymentStatus
  {
    if step.DoCreate? || step.DoUpdate? || step.DoRefresh? {
      DraftsKeepReservations(db, step);
    } else if step.DoOpen? || step.DoMove? || step.DoClose? {
      RegistersKeepReservations(db, step);
    }
  }

  /** Only settling and reversing a checkout of the reservation change its payment status. */
  lemma PaymentStatusOnlyThroughCheckouts(db: Db, step: Step, r: nat)
    requires r in db.reservations
    ensures r in Apply(db, step).reservations
    ensures Apply(db, step).reservations[r].paymentStatus != db.reservations[r].paymentStatus ==>
              && (step.DoFinalize? || step.DoReverse?) && step.id < |db.checkouts| && db.checkouts[step.id].reservationId == r
              && Apply(db, step).reservations[r].paymentStatus == (if step.DoFinalize? then Paid else Refunded)
  {
    if !step.DoFinalize? && !step.DoReverse? { OthersKeepPayment(db, step, r); }
  }
}
