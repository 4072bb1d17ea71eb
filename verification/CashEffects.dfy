/** What each successful operation on a checkout changed, and what it had checked before. */
module CashEffects {
  import opened Common
  import opened CashDraft
  import opened Receipt
  import opened Reservations
  import opened Tables
  import opened CashBook

  /** The stored amounts are the calculation of the stored lines, payments and points. */
  predicate Priced(c: Checkout) {
    var items := ItemsOf(c.totals.lines);
    && WellFormedDraft(items, c.payments, c.totals.pointsDiscountYen)
    && Calculate(items, c.payments, c.totals.pointsDiscountYen) == Success(c.totals)
    && (c.selection.Some? ==>
          && |c.selection.value.policy| > 0 && c.selection.value.points >= 0
          && c.totals.pointsDiscountYen == c.selection.value.points)
  }

  lemma CheckedTotalsRead(items: seq<Item>, payments: seq<Payment>, points: int)
    requires CheckedTotals(items, payments, points).Success?
    ensures var t := CheckedTotals(items, payments, points).value;
            && WellFormedDraft(items, payments, points) && Calculate(items, payments, points) == Success(t)
            && ItemsOf(t.lines) == items && t.pointsDiscountYen == points
  {
    AcceptedAmounts(items, payments, points);
  }

  lemma StoredSelectionResolves(s: Option<Selection>)
    requires s.Some? ==> |s.value.policy| > 0 && s.value.points >= 0
    ensures ResolveSelection(FieldsOf(s), NOTHING_SAVED) == Success(s)
  {
  }

  predicate PreparedSelection(s: Option<Selection>, discount: int) {
    && (s.None? ==> discount == 0)
    && (s.Some? ==> discount == s.value.points && s.value.points >= 0 && s.value.points % REDEMPTION_UNIT == 0
                    && |s.value.policy| > 0)
  }

  lemma PrepareGives(m: Membership, entries: seq<Entry>, salon: nat, customer: nat, s: Option<Selection>)
    requires PrepareMembership(m, entries, salon, customer, s).Success?
    ensures PreparedSelection(s, PrepareMembership(m, entries, salon, customer, s).value)
    ensures s.Some? ==> s.value.points <= Max(0, Balance(entries, s.value.account))
  {
  }

  // ---- Creation ----

  /** A new checkout and why it may be added. */
  ghost predicate IsNew(db: Db, c: Checkout) {
    && c.status == Draft && c.finalization.None? && c.reversal.None? && c.pointsAwarded == 0
    && HasReservation(db, c.salon, c.reservationId)
    && LastWhere(db.checkouts, CreatedBy(c.salon, c.createRequestId)).None?
    && LastWhere(db.checkouts, LiveOn(c.salon, c.reservationId)).None?
    && c.supersedes == LastWhere(db.checkouts, ReversedOn(c.salon, c.reservationId))
    && Priced(c)
  }

  predicate CreateReplays(db: Db, salon: nat, reservationId: nat, requestId: nat) {
    || LastWhere(db.checkouts, CreatedBy(salon, requestId)).Some?
    || LastWhere(db.checkouts, LiveOn(salon, reservationId)).Some?
  }

  lemma CreateEffect(db: Db, salon: nat, reservationId: nat, requestId: nat, fields: MembershipFields)
    returns (c: Checkout)
    requires Create(db, salon, reservationId, requestId, fields).Success?
    requires !CreateReplays(db, salon, reservationId, requestId)
    ensures IsNew(db, c) && c.salon == salon && c.reservationId == reservationId && c.createRequestId == requestId
    ensures ResolveSelection(fields, NOTHING_SAVED) == Success(c.selection)
    ensures Create(db, salon, reservationId, requestId, fields) == Success(db.(checkouts := db.checkouts + [c]))
  {
    var s := ResolveSelection(fields, NOTHING_SAVED).value;
    var r := db.reservations[reservationId];
    PrepareGives(db.membership, db.entries, salon, r.context.customerId, s);
    var discount := PrepareMembership(db.membership, db.entries, salon, r.context.customerId, s).value;
    CheckedTotalsRead(StandardItems(r.price), [], discount);
    c := Checkout(salon, reservationId, requestId, LastWhere(db.checkouts, ReversedOn(salon, reservationId)), Draft, 1,
                  r.context, [], CheckedTotals(StandardItems(r.price), [], discount).value, false, s, 0, None, None);
  }

  // ---- Drafts ----

  /** A draft replaced by another version of itself. */
  ghost predicate IsRedraft(c: Checkout, c2: Checkout) {
    && c.status == Draft && Priced(c2) && c2.version == c.version + 1
    && c2 == c.(version := c2.version, context := c2.context, payments := c2.payments, totals := c2.totals,
                acknowledged := c2.acknowledged, selection := c2.selection, pointsAwarded := 0)
  }

  lemma UpdateEffect(db: Db, salon: nat, id: nat, draft: DraftInput) returns (c2: Checkout)
    requires Update(db, salon, id, draft).Success?
    ensures HasCheckout(db, salon, id) && IsRedraft(db.checkouts[id], c2)
    ensures Update(db, salon, id, draft) == Success(db.(checkouts := db.checkouts[id := c2]))
  {
    var c := db.checkouts[id];
    var s := ResolveSelection(draft.fields, SavedOf(c.selection)).value;
    var customer := db.reservations[c.reservationId].context.customerId;
    PrepareGives(db.membership, db.entries, salon, customer, s);
    var discount := PrepareMembership(db.membership, db.entries, salon, customer, s).value;
    CheckedTotalsRead(draft.items, draft.payments, PointsFor(c, s, discount, draft.points));
    c2 := Redrafted(c, c.context, draft.payments,
                    CheckedTotals(draft.items, draft.payments, PointsFor(c, s, discount, draft.points)).value,
                    draft.acknowledged, s);
  }

  lemma RefreshEffect(db: Db, salon: nat, id: nat, version: int) returns (c2: Checkout)
    requires Refresh(db, salon, id, version).Success?
    ensures HasCheckout(db, salon, id) && IsRedraft(db.checkouts[id], c2)
    ensures Refresh(db, salon, id, version) == Success(db.(checkouts := db.checkouts[id := c2]))
  {
    var c := db.checkouts[id];
    var r := db.reservations[c.reservationId];
    CheckedTotalsRead(StandardItems(r.price), [], 0);
    c2 := Redrafted(c, r.context, [], CheckedTotals(StandardItems(r.price), [], 0).value, false, None);
  }

  // ---- Finalization ----

  predicate FinalizeReplays(db: Db, id: nat, requestId: nat)
    requires id < |db.checkouts|
  {
    db.checkouts[id].finalization.Some? && db.checkouts[id].finalization.value.requestId == requestId
  }

  /** Points of a finalized checkout are booked when it has a member, and only then. */
  predicate PointsBooked(db: Db, salon: nat, id: nat, entries: seq<Entry>)
    requires HasCheckout(db, salon, id) && HasReservation(db, salon, db.checkouts[id].reservationId)
  {
    var c := db.checkouts[id];
    if c.selection.None? then entries == db.entries
    else FinalizePoints(db.membership, db.entries, salon, db.reservations[c.reservationId].context.customerId,
                        c.selection.value, id, c.totals.totalYen) == Success(entries)
  }

  predicate CashMoved(db: Db, m: Movement, movements: seq<Movement>)
    requires m.session < |db.registers|
  {
    if m.amountYen > 0 then AppendMovement(db.registers, db.movements, m) == Success(movements)
    else movements == db.movements
  }

  /** A draft that may be finalized, and the tables that finalizing it gives. */
  ghost predicate Finalizes(db: Db, salon: nat, id: nat, stamp: Stamp, entries: seq<Entry>, movements: seq<Movement>) {
    && HasCheckout(db, salon, id)
    && stamp.session < |db.registers| && db.registers[stamp.session].salon == salon
    && db.registers[stamp.session].closing.None?
    && HasReservation(db, salon, db.checkouts[id].reservationId)
    && var c := db.checkouts[id];
    && c.status == Draft
    && c.context == db.reservations[c.reservationId].context
    && SettlementRefusal(c.payments, c.acknowledged, c.totals, db.reservations[c.reservationId].paymentStatus,
                         Recheckout(db, salon, c)).None?
    && (c.selection.Some? ==> c.selection.value.points <= Max(0, Balance(db.entries, c.selection.value.account)))
    && LastWhere(db.checkouts, FinalizedBy(salon, stamp.requestId)).None?
    && PointsBooked(db, salon, id, entries)
    && CashMoved(db, CheckoutMovement(salon, stamp.session, Sale, c.totals.cashYen, stamp.requestId, id), movements)
  }

  /** The stored draft passes its own checks again: the totals recomputed at finalization are the stored ones. */
  lemma StoredDraftIsCurrent(c: Checkout)
    requires Priced(c)
    ensures CheckedTotals(ItemsOf(c.totals.lines), c.payments, c.totals.pointsDiscountYen) == Success(c.totals)
    ensures ResolveSelection(FieldsOf(c.selection), NOTHING_SAVED) == Success(c.selection)
  {
    StoredSelectionResolves(c.selection);
  }

  lemma FinalizeEffect(db: Db, salon: nat, id: nat, version: int, requestId: nat, register: Option<nat>, today: int)
    returns (stamp: Stamp, entries: seq<Entry>, movements: seq<Movement>)
    requires Finalize(db, salon, id, version, requestId, register, today).Success?
    requires Priced(db.checkouts[id]) && !FinalizeReplays(db, id, requestId)
    ensures Finalizes(db, salon, id, stamp, entries, movements)
    ensures stamp.requestId == requestId && stamp.body == FinalizeBody(version, register)
    ensures Finalize(db, salon, id, version, requestId, register, today)
         == Success(Settled(db, salon, id, Closed(db.checkouts[id], db.checkouts[id].selection, stamp), entries, movements,
                            stamp.session, Paid))
  {
    var c := db.checkouts[id];
    StoredDraftIsCurrent(c);
    assert FinalizeCheck(db, salon, c, version) == Success(c.selection);
    var session := OpenRegisterFor(db.registers, salon, register, today).value;
    stamp := Stamp(requestId, FinalizeBody(version, register), session);
    entries, movements := FinalizeOnEffect(db, salon, id, stamp);
  }

  /**
   What a finalization is never done without: a standing reservation that still matches, payments that
   add up, no points on a paid reservation, a correction behind a refunded one, and today's register.
   */
  lemma FinalizeChecked(db: Db, salon: nat, id: nat, version: int, requestId: nat, register: Option<nat>, today: int)
    requires Finalize(db, salon, id, version, requestId, register, today).Success?
    requires Priced(db.checkouts[id]) && !FinalizeReplays(db, id, requestId)
    ensures var c := db.checkouts[id];
            && c.status == Draft && c.version == version && HasReservation(db, salon, c.reservationId)
            && var r := db.reservations[c.reservationId];
            && !Gone(r.status) && c.context == r.context
            && !PrepaidUse(c.selection, r.paymentStatus)
            && Sum(Amounts(c.payments)) == c.totals.totalYen
            && (r.paymentStatus == Paid ==> c.acknowledged && forall p :: p in c.payments ==> p.how == ExternalPrepayment)
            && (r.paymentStatus == Refunded ==> Recheckout(db, salon, c))
            && register.Some? && register.value < |db.registers| && db.registers[register.value].salon == salon
            && db.registers[register.value].closing.None? && db.registers[register.value].businessDate == today
  {
    var c := db.checkouts[id];
    StoredDraftIsCurrent(c);
    assert FinalizeCheck(db, salon, c, version) == Success(c.selection);
    AcceptedAllocation(c);
  }

  lemma AcceptedAllocation(c: Checkout)
    requires Priced(c)
    ensures c.totals.allocatedYen == Sum(Amounts(c.payments))
  {
  }

  lemma FinalizeOnEffect(db: Db, salon: nat, id: nat, stamp: Stamp) returns (entries: seq<Entry>, movements: seq<Movement>)
    requires HasCheckout(db, salon, id) && HasReservation(db, salon, db.checkouts[id].reservationId)
    requires stamp.session < |db.registers|
    requires FinalizeOn(db, salon, id, db.checkouts[id].selection, stamp).Success?
    ensures var c := db.checkouts[id];
            && FinalizeOn(db, salon, id, c.selection, stamp)
               == Success(Settled(db, salon, id, Closed(c, c.selection, stamp), entries, movements, stamp.session, Paid))
            && (c.selection.Some? ==> c.selection.value.points <= Max(0, Balance(db.entries, c.selection.value.account)))
            && LastWhere(db.checkouts, FinalizedBy(salon, stamp.requestId)).None?
            && PointsBooked(db, salon, id, entries)
            && CashMoved(db, CheckoutMovement(salon, stamp.session, Sale, c.totals.cashYen, stamp.requestId, id), movements)
  {
    var c := db.checkouts[id];
    var customer := db.reservations[c.reservationId].context.customerId;
    PrepareGives(db.membership, db.entries, salon, customer, c.selection);
    entries := if c.selection.Some?
               then FinalizePoints(db.membership, db.entries, salon, customer, c.selection.value, id, c.totals.totalYen).value
               else db.entries;
    var m := CheckoutMovement(salon, stamp.session, Sale, c.totals.cashYen, stamp.requestId, id);
    movements := if c.totals.cashYen > 0 then AppendMovement(db.registers, db.movements, m).value else db.movements;
  }

  // ---- Reversal ----

  predicate ReverseReplays(db: Db, id: nat, requestId: nat)
    requires id < |db.checkouts|
  {
    db.checkouts[id].reversal.Some? && db.checkouts[id].reversal.value.requestId == requestId
  }

  predicate PointsReversed(db: Db, salon: nat, id: nat, entries: seq<Entry>)
    requires HasCheckout(db, salon, id)
  {
    var c := db.checkouts[id];
    if c.selection.None? then entries == db.entries
    else ReversePoints(db.entries, c.selection.value.account, salon, id, |db.entries|) == Success(entries)
  }

  ghost predicate Reverses(db: Db, salon: nat, id: nat, stamp: Stamp, entries: seq<Entry>, movements: seq<Movement>) {
    && HasCheckout(db, salon, id)
    && stamp.session < |db.registers| && db.registers[stamp.session].salon == salon
    && db.registers[stamp.session].closing.None?
    && HasReservation(db, salon, db.checkouts[id].reservationId)
    && db.checkouts[id].status == Finalized
    && LastWhere(db.checkouts, ReversedBy(salon, stamp.requestId)).None?
    && PointsReversed(db, salon, id, entries)
    && CashMoved(db, CheckoutMovement(salon, stamp.session, CashRefund, db.checkouts[id].totals.cashYen, stamp.requestId, id),
                 movements)
  }

  lemma ReverseEffect(db: Db, salon: nat, id: nat, requestId: nat, reason: string, register: Option<nat>, today: int)
    returns (stamp: Stamp, entries: seq<Entry>, movements: seq<Movement>)
    requires Reverse(db, salon, id, requestId, reason, register, today).Success?
    requires !ReverseReplays(db, id, requestId)
    ensures Reverses(db, salon, id, stamp, entries, movements)
    ensures stamp.requestId == requestId && stamp.body == ReverseBody(reason, register)
    ensures Reverse(db, salon, id, requestId, reason, register, today)
         == Success(Settled(db, salon, id, Withdrawn(db.checkouts[id], stamp), entries, movements, stamp.session, Refunded))
  {
    var c := db.checkouts[id];
    var session := OpenRegisterFor(db.registers, salon, register, today).value;
    stamp := Stamp(requestId, ReverseBody(reason, register), session);
    entries := if c.selection.None? then db.entries
               else ReversePoints(db.entries, c.selection.value.account, salon, id, |db.entries|).value;
    var m := CheckoutMovement(salon, session, CashRefund, c.totals.cashYen, requestId, id);
    movements := if c.totals.cashYen > 0 then AppendMovement(db.registers, db.movements, m).value else db.movements;
  }
}
