/** Everything the accounting keeps, over every run of operations by any number of salons. */
module CashSafety {
  import opened Common
  import opened CashDraft
  import opened Receipt
  import opened Reservations
  import opened Tables
  import opened CashBook
  import opened CashEffects
  import opened CashLedger
  import opened CashChain
  import opened CashRegisters

  // ---- Request numbers ----

  ghost predicate CreationsUnique(cs: seq<Checkout>) {
    forall i, j :: 0 <= i < j < |cs| && cs[i].salon == cs[j].salon ==> cs[i].createRequestId != cs[j].createRequestId
  }

  ghost predicate OpeningsUnique(registers: seq<Register>) {
    forall i, j :: 0 <= i < j < |registers| && registers[i].salon == registers[j].salon ==>
      registers[i].createRequestId != registers[j].createRequestId
  }

  ghost predicate MovementsUnique(movements: seq<Movement>) {
    forall i, j :: 0 <= i < j < |movements| && movements[i].salon == movements[j].salon ==>
      movements[i].requestId != movements[j].requestId
  }

  ghost predicate RequestsOk(db: Db) {
    CreationsUnique(db.checkouts) && OpeningsUnique(db.registers) && MovementsUnique(db.movements)
  }

  ghost predicate Inv(db: Db) {
    && RowsOk(db.checkouts)
    && LedgerOk(db.checkouts, db.entries)
    && ChainOk(db.checkouts, db.reservations)
    && TotalsOk(db.checkouts, db.reservations, db.customers)
    && ContextsAgree(db.checkouts, db.reservations)
    && RegistersOk(db.checkouts, db.registers, db.movements)
    && RequestsOk(db)
  }

  // ---- What later states keep of earlier ones ----

  /** A row keeps its identity and its stamps; once settled it also keeps its contents. */
  predicate Keeps(c: Checkout, c2: Checkout) {
    && c2.salon == c.salon && c2.reservationId == c.reservationId && c2.createRequestId == c.createRequestId
    && c2.supersedes == c.supersedes && c.version <= c2.version
    && (c.finalization.Some? ==> c2.finalization == c.finalization && c2.totals == c.totals && c2.payments == c.payments
                                 && c2.selection == c.selection && c2.context == c.context)
    && (c.reversal.Some? ==> c2 == c)
  }

  ghost predicate RowsKept(cs: seq<Checkout>, now: seq<Checkout>) {
    |cs| <= |now| && forall i :: 0 <= i < |cs| ==> Keeps(cs[i], now[i])
  }

  /** A register keeps its identity; once closed it does not change at all. */
  predicate RegisterKeeps(r: Register, r2: Register) {
    && r2.salon == r.salon && r2.businessDate == r.businessDate && r2.openingCashYen == r.openingCashYen
    && r2.createRequestId == r.createRequestId && r.version <= r2.version
    && (r.closing.Some? ==> r2 == r)
  }

  ghost predicate RegistersKept(registers: seq<Register>, now: seq<Register>) {
    |registers| <= |now| && forall s :: 0 <= s < |registers| ==> RegisterKeeps(registers[s], now[s])
  }

  /** The ledger and the movements only grow at the end; rows and registers keep what is settled. */
  ghost predicate Extends(db: Db, now: Db) {
    && RowsKept(db.checkouts, now.checkouts)
    && db.entries <= now.entries
    && db.movements <= now.movements
    && RegistersKept(db.registers, now.registers)
  }

  lemma ExtendsTransitive(a: Db, b: Db, c: Db)
    requires Extends(a, b) && Extends(b, c)
    ensures Extends(a, c)
  {
    forall i | 0 <= i < |a.checkouts| ensures Keeps(a.checkouts[i], c.checkouts[i]) {
      assert Keeps(a.checkouts[i], b.checkouts[i]) && Keeps(b.checkouts[i], c.checkouts[i]);
    }
    forall s | 0 <= s < |a.registers| ensures RegisterKeeps(a.registers[s], c.registers[s]) {
      assert RegisterKeeps(a.registers[s], b.registers[s]) && RegisterKeeps(b.registers[s], c.registers[s]);
    }
  }

  // ---- Rows and registers, one at a time ----

  lemma RowReplaced(cs: seq<Checkout>, id: nat, c: Checkout)
    requires RowsOk(cs) && CreationsUnique(cs) && id < |cs| && Priced(c) && Settlement(c) && Keeps(cs[id], c)
    ensures RowsOk(cs[id := c]) && CreationsUnique(cs[id := c]) && RowsKept(cs, cs[id := c])
  {
    RowPriced(cs, id, c);
    RowKept(cs, id, c);
    KeptCreationsUnique(cs, cs[id := c]);
  }

  lemma RowKept(cs: seq<Checkout>, id: nat, c: Checkout)
    requires id < |cs| && Keeps(cs[id], c)
    ensures RowsKept(cs, cs[id := c])
  {
  }

  lemma KeptCreationsUnique(cs: seq<Checkout>, now: seq<Checkout>)
    requires CreationsUnique(cs) && RowsKept(cs, now) && |now| == |cs|
    ensures CreationsUnique(now)
  {
    forall i, j | 0 <= i < j < |now| && now[i].salon == now[j].salon ensures now[i].createRequestId != now[j].createRequestId {
      assert Keeps(cs[i], now[i]) && Keeps(cs[j], now[j]);
    }
  }

  lemma RowPriced(cs: seq<Checkout>, id: nat, c: Checkout)
    requires RowsOk(cs) && id < |cs| && Priced(c) && Settlement(c)
    ensures RowsOk(cs[id := c])
  {
  }

  lemma {:induction false} RowAppended(cs: seq<Checkout>, c: Checkout)
    requires RowsOk(cs) && CreationsUnique(cs) && Priced(c) && Settlement(c)
    requires LastWhere(cs, CreatedBy(c.salon, c.createRequestId)).None?
    ensures RowsOk(cs + [c]) && CreationsUnique(cs + [c]) && RowsKept(cs, cs + [c])
  {
    RowPricedToo(cs, c);
    CreationAppended(cs, c);
    OldRowsKept(cs, c);
  }

  lemma OldRowsKept(cs: seq<Checkout>, c: Checkout)
    ensures RowsKept(cs, cs + [c])
  {
    var now := cs + [c];
    forall i | 0 <= i < |cs| ensures Keeps(cs[i], now[i]) {
    }
  }

  lemma RowPricedToo(cs: seq<Checkout>, c: Checkout)
    requires RowsOk(cs) && Priced(c) && Settlement(c)
    ensures RowsOk(cs + [c])
  {
  }

  lemma {:induction false} CreationAppended(cs: seq<Checkout>, c: Checkout)
    requires CreationsUnique(cs) && LastWhere(cs, CreatedBy(c.salon, c.createRequestId)).None?
    ensures CreationsUnique(cs + [c])
  {
    forall i | 0 <= i < |cs| && cs[i].salon == c.salon ensures cs[i].createRequestId != c.createRequestId {
      assert !CreatedBy(c.salon, c.createRequestId)(cs[i]);
    }
  }

  lemma RegisterReplaced(registers: seq<Register>, s: nat, r: Register)
    requires OpeningsUnique(registers) && s < |registers| && RegisterKeeps(registers[s], r)
    ensures OpeningsUnique(registers[s := r]) && RegistersKept(registers, registers[s := r])
  {
    var now := registers[s := r];
    assert forall i :: 0 <= i < |registers| ==>
             now[i].salon == registers[i].salon && now[i].createRequestId == registers[i].createRequestId;
  }

  lemma SameRegistersKept(registers: seq<Register>)
    ensures RegistersKept(registers, registers)
  {
  }

  lemma SameRowsKept(cs: seq<Checkout>)
    ensures RowsKept(cs, cs)
  {
  }

  // ---- Each operation keeps the invariant ----

  lemma CreateKeeps(db: Db, salon: nat, reservationId: nat, requestId: nat, fields: MembershipFields)
    requires Inv(db) && Create(db, salon, reservationId, requestId, fields).Success?
    ensures var now := Create(db, salon, reservationId, requestId, fields).value; Inv(now) && Extends(db, now)
  {
    if !CreateReplays(db, salon, reservationId, requestId) {
      var c := CreateEffect(db, salon, reservationId, requestId, fields);
      NewKeeps(db, c);
    } else {
      assert Create(db, salon, reservationId, requestId, fields).value == db;
      SameRowsKept(db.checkouts);
      SameRegistersKept(db.registers);
    }
  }

  lemma NewKeepsContexts(cs: seq<Checkout>, reservations: map<nat, Reservation>, c: Checkout)
    requires ContextsAgree(cs, reservations) && c.status == Draft
    ensures ContextsAgree(cs + [c], reservations)
  {
  }

  lemma RedraftKeepsContexts(cs: seq<Checkout>, reservations: map<nat, Reservation>, id: nat, c: Checkout)
    requires ContextsAgree(cs, reservations) && c.status == Draft && id < |cs|
    ensures ContextsAgree(cs[id := c], reservations)
  {
  }

  lemma NewKeeps(db: Db, c: Checkout)
    requires Inv(db) && IsNew(db, c)
    ensures var now := db.(checkouts := db.checkouts + [c]); Inv(now) && Extends(db, now)
  {
    NewKeepsLedger(db.checkouts, db.entries, c);
    NewKeepsChain(db, c);
    NewKeepsContexts(db.checkouts, db.reservations, c);
    NewKeepsTotals(db.checkouts, db.reservations, db.customers, c);
    NewKeepsRegisters(db.checkouts, db.registers, db.movements, c);
    RowAppended(db.checkouts, c);
    SameRegistersKept(db.registers);
  }

  lemma RedraftedRow(c: Checkout, c2: Checkout)
    requires IsRedraft(c, c2) && Settlement(c)
    ensures Priced(c2) && Settlement(c2) && Keeps(c, c2) && c2.version == c.version + 1
    ensures c2.status == c.status == Draft && c2.supersedes == c.supersedes
  {
  }

  lemma RedraftKeeps(db: Db, id: nat, c2: Checkout)
    requires Inv(db) && id < |db.checkouts| && IsRedraft(db.checkouts[id], c2)
    ensures var now := db.(checkouts := db.checkouts[id := c2]); Inv(now) && Extends(db, now)
  {
    var c := db.checkouts[id];
    assert Settlement(c);
    RedraftedRow(c, c2);
    RedraftKeepsLedger(db.checkouts, db.entries, id, c2);
    RedraftKeepsContexts(db.checkouts, db.reservations, id, c2);
    RedraftKeepsTotals(db.checkouts, db.reservations, db.customers, id, c2);
    RedraftKeepsRegisters(db.checkouts, db.registers, db.movements, id, c2);
    RedraftKeepsChain(db, id, c2);
    RowReplaced(db.checkouts, id, c2);
    SameRegistersKept(db.registers);
  }

  lemma RedraftKeepsChain(db: Db, id: nat, c2: Checkout)
    requires ChainOk(db.checkouts, db.reservations) && id < |db.checkouts| && db.checkouts[id].status == Draft
    requires Keeps(db.checkouts[id], c2) && c2.status == Draft
    ensures ChainOk(db.checkouts[id := c2], db.reservations)
  {
    var r := db.reservations[c2.reservationId];
    DraftPaymentFollows(db, id);
    RewriteKeepsChain(db.checkouts, db.reservations, id, c2, r.paymentStatus);
    assert db.reservations[c2.reservationId := r] == db.reservations;
  }

  /** A draft is the last checkout of its reservation, so the payment status is the one it calls for. */
  lemma DraftPaymentFollows(db: Db, id: nat)
    requires ChainOk(db.checkouts, db.reservations) && id < |db.checkouts| && db.checkouts[id].status != Reversed
    ensures PaymentFollows(db.checkouts[id], db.reservations[db.checkouts[id].reservationId].paymentStatus)
  {
    assert LastOn(db.checkouts, id);
  }

  lemma FinalizedRow(c: Checkout, stamp: Stamp)
    requires Priced(c) && Settlement(c) && c.status == Draft && c.totals.allocatedYen == c.totals.totalYen
    ensures var now := Closed(c, c.selection, stamp); Priced(now) && Settlement(now) && Keeps(c, now)
  {
  }

  lemma FinalizeKeepsLedger(db: Db, salon: nat, id: nat, stamp: Stamp, entries: seq<Entry>, movements: seq<Movement>)
    requires RowsOk(db.checkouts) && LedgerOk(db.checkouts, db.entries)
    requires Finalizes(db, salon, id, stamp, entries, movements)
    ensures LedgerOk(db.checkouts[id := Closed(db.checkouts[id], db.checkouts[id].selection, stamp)], entries)
    ensures db.entries <= entries
  {
    var c := db.checkouts[id];
    assert CheckoutBooked(db.entries, id, c);
    var now := Closed(c, c.selection, stamp);
    if c.selection.Some? {
      FinalizeAppends(db.membership, db.entries, salon, db.reservations[c.reservationId].context.customerId,
                      c.selection.value, id, c.totals.totalYen);
      EarnNonnegative(c.totals.totalYen);
      SettleKeepsLedger(db.checkouts, db.entries, c.selection.value, id, now);
    } else {
      SettleWithoutMember(db.checkouts, db.entries, id, now);
    }
  }

  lemma SettlementAllocates(payments: seq<Payment>, acknowledged: bool, t: Totals, status: PaymentStatus, recheckout: bool)
    requires SettlementRefusal(payments, acknowledged, t, status, recheckout).None?
    ensures t.allocatedYen == t.totalYen
  {
  }

  lemma SettledKeeps(db: Db, salon: nat, id: nat, c: Checkout, entries: seq<Entry>, movements: seq<Movement>, session: nat,
                     status: PaymentStatus)
    requires Inv(db) && HasCheckout(db, salon, id) && HasReservation(db, salon, c.reservationId)
    requires session < |db.registers| && db.registers[session].closing.None?
    requires Priced(c) && Settlement(c) && Keeps(db.checkouts[id], c)
    requires db.checkouts[id].status != Reversed && PaymentFollows(c, status)
    requires c.status == Finalized ==> c.context == db.reservations[c.reservationId].context
    requires LedgerOk(db.checkouts[id := c], entries) && db.entries <= entries
    requires RegistersOk(db.checkouts[id := c], db.registers[session := Bump(db.registers[session])], movements)
    requires MovementsUnique(movements) && db.movements <= movements
    ensures var now := Settled(db, salon, id, c, entries, movements, session, status); Inv(now) && Extends(db, now)
  {
    SettleKeepsTotals(db, salon, id, c, entries, movements, session, status);
    RewriteKeepsChain(db.checkouts, db.reservations, id, c, status);
    RewriteKeepsContexts(db.checkouts, db.reservations, id, c, status);
    RowReplaced(db.checkouts, id, c);
    RegisterReplaced(db.registers, session, Bump(db.registers[session]));
  }

  lemma MovedStaysUnique(db: Db, m: Movement, more: seq<Movement>)
    requires MovementsUnique(db.movements) && m.session < |db.registers| && CashMoved(db, m, more)
    ensures MovementsUnique(more) && db.movements <= more
  {
    if m.amountYen > 0 {
      AppendGives(db.registers, db.movements, m);
      AppendedStaysUnique(db.movements, m);
    }
  }

  lemma {:induction false} AppendedStaysUnique(movements: seq<Movement>, m: Movement)
    requires MovementsUnique(movements) && LastWhere(movements, MovementRequest(m.salon, m.requestId)).None?
    ensures MovementsUnique(movements + [m])
  {
    forall i | 0 <= i < |movements| && movements[i].salon == m.salon ensures movements[i].requestId != m.requestId {
      assert !MovementRequest(m.salon, m.requestId)(movements[i]);
    }
  }

  lemma FinalizeKeeps(db: Db, salon: nat, id: nat, stamp: Stamp, entries: seq<Entry>, movements: seq<Movement>)
    requires Inv(db) && Finalizes(db, salon, id, stamp, entries, movements)
    ensures var c := db.checkouts[id];
            var now := Settled(db, salon, id, Closed(c, c.selection, stamp), entries, movements, stamp.session, Paid);
            Inv(now) && Extends(db, now)
  {
    var c := db.checkouts[id];
    var row := Closed(c, c.selection, stamp);
    var r := db.reservations[c.reservationId];
    SettlementAllocates(c.payments, c.acknowledged, c.totals, r.paymentStatus, Recheckout(db, salon, c));
    assert Priced(c) && Settlement(c);
    FinalizedRow(c, stamp);
    PricedTotals(c);
    FinalizeKeepsLedger(db, salon, id, stamp, entries, movements);
    var m := CheckoutMovement(salon, stamp.session, Sale, c.totals.cashYen, stamp.requestId, id);
    FinalizeKeepsRegisters(db, id, row, m, movements);
    MovedStaysUnique(db, m, movements);
    SettledKeeps(db, salon, id, row, entries, movements, stamp.session, Paid);
  }

  lemma ReversedLedger(db: Db, salon: nat, id: nat, stamp: Stamp, entries: seq<Entry>, movements: seq<Movement>)
    requires LedgerOk(db.checkouts, db.entries) && Reverses(db, salon, id, stamp, entries, movements)
    ensures LedgerOk(db.checkouts[id := Withdrawn(db.checkouts[id], stamp)], entries)
    ensures db.entries <= entries
  {
    var c := db.checkouts[id];
    if c.selection.Some? {
      ReverseKeepsLedger(db.checkouts, db.entries, id, Withdrawn(c, stamp));
    } else {
      ReverseWithoutMember(db.checkouts, db.entries, id, Withdrawn(c, stamp));
    }
  }

  lemma ReverseKeeps(db: Db, salon: nat, id: nat, stamp: Stamp, entries: seq<Entry>, movements: seq<Movement>)
    requires Inv(db) && Reverses(db, salon, id, stamp, entries, movements)
    ensures var now := Settled(db, salon, id, Withdrawn(db.checkouts[id], stamp), entries, movements, stamp.session, Refunded);
            Inv(now) && Extends(db, now)
  {
    var c := db.checkouts[id];
    var row := Withdrawn(c, stamp);
    assert Priced(c) && Settlement(c);
    PricedTotals(c);
    assert Priced(row) && Settlement(row) && Keeps(c, row);
    ReversedLedger(db, salon, id, stamp, entries, movements);
    var m := CheckoutMovement(salon, stamp.session, CashRefund, c.totals.cashYen, stamp.requestId, id);
    ReverseKeepsRegisters(db, id, row, m, movements);
    MovedStaysUnique(db, m, movements);
    SettledKeeps(db, salon, id, row, entries, movements, stamp.session, Refunded);
  }

  lemma OpenKeeps(db: Db, salon: nat, date: int, openingCashYen: int, requestId: nat, today: int)
    requires Inv(db) && OpenRegister(db, salon, date, openingCashYen, requestId, today).Success?
    ensures var now := OpenRegister(db, salon, date, openingCashYen, requestId, today).value; Inv(now) && Extends(db, now)
  {
    OpenKeepsRegisters(db, salon, date, openingCashYen, requestId, today);
    SameRowsKept(db.checkouts);
    if LastWhere(db.registers, OpenedBy(salon, requestId)).None? {
      RegisterAppended(db.registers, Register(salon, date, 1, openingCashYen, requestId, None));
    } else {
      SameRegistersKept(db.registers);
    }
  }

  lemma {:induction false} RegisterAppended(registers: seq<Register>, r: Register)
    requires OpeningsUnique(registers) && LastWhere(registers, OpenedBy(r.salon, r.createRequestId)).None?
    ensures OpeningsUnique(registers + [r]) && RegistersKept(registers, registers + [r])
  {
    forall i | 0 <= i < |registers| && registers[i].salon == r.salon ensures registers[i].createRequestId != r.createRequestId {
      assert !OpenedBy(r.salon, r.createRequestId)(registers[i]);
    }
  }

  lemma MoveKeeps(db: Db, salon: nat, id: nat, version: int, requestId: nat, kind: MovementKind, amountYen: int, reason: string)
    requires Inv(db) && Move(db, salon, id, version, requestId, kind, amountYen, reason).Success?
    ensures var now := Move(db, salon, id, version, requestId, kind, amountYen, reason).value; Inv(now) && Extends(db, now)
  {
    MoveKeepsRegisters(db, salon, id, version, requestId, kind, amountYen, reason);
    SameRowsKept(db.checkouts);
    if LastWhere(db.movements, MovementRequest(salon, requestId)).None? {
      var m := Movement(salon, id, kind, amountYen, requestId, ManualBody(id, kind, amountYen, reason, version));
      AppendGives(db.registers, db.movements, m);
      AppendedStaysUnique(db.movements, m);
      RegisterReplaced(db.registers, id, Bump(db.registers[id]));
    } else {
      SameRegistersKept(db.registers);
    }
  }

  lemma CloseKeeps(db: Db, salon: nat, id: nat, version: int, requestId: nat, counted: int, note: string)
    requires Inv(db) && Close(db, salon, id, version, requestId, counted, note).Success?
    ensures var now := Close(db, salon, id, version, requestId, counted, note).value; Inv(now) && Extends(db, now)
  {
    CloseKeepsRegisters(db, salon, id, version, requestId, counted, note);
    var now := Close(db, salon, id, version, requestId, counted, note).value;
    if now != db { RegisterReplaced(db.registers, id, now.registers[id]); }
    SameRowsKept(db.checkouts);
  }

  lemma EditKeeps(db: Db, salon: nat, id: nat, context: Context, status: ReservationStatus, price: int,
                  paymentStatus: Option<PaymentStatus>, hasChart: bool)
    requires Inv(db) && Edit(db, salon, id, context, status, price, paymentStatus, hasChart).Success?
    ensures var now := Edit(db, salon, id, context, status, price, paymentStatus, hasChart).value; Inv(now) && Extends(db, now)
  {
    EditKeepsTotals(db, salon, id, context, status, price, paymentStatus, hasChart);
    EditKeepsContexts(db, salon, id, context, status, price, paymentStatus, hasChart);
    SameRowsKept(db.checkouts);
    SameRegistersKept(db.registers);
    var now := Edit(db, salon, id, context, status, price, paymentStatus, hasChart).value;
    ReservationChangeKeepsChain(db.checkouts, db.reservations, now.reservations);
  }

  lemma BookKeeps(db: Db, salon: nat, id: nat, context: Context, status: ReservationStatus, price: int)
    requires Inv(db) && Book(db, salon, id, context, status, price).Success?
    ensures var now := Book(db, salon, id, context, status, price).value; Inv(now) && Extends(db, now)
  {
    BookKeepsTotals(db, salon, id, context, status, price);
    SameRowsKept(db.checkouts);
    SameRegistersKept(db.registers);
    ReservationChangeKeepsChain(db.checkouts, db.reservations, Book(db, salon, id, context, status, price).value.reservations);
  }

  // ---- Steps and runs ----

  lemma FinalizeStep(db: Db, salon: nat, id: nat, version: int, requestId: nat, register: Option<nat>, today: int)
    requires Inv(db) && Finalize(db, salon, id, version, requestId, register, today).Success?
    ensures var now := Finalize(db, salon, id, version, requestId, register, today).value; Inv(now) && Extends(db, now)
  {
    if FinalizeReplays(db, id, requestId) {
      SameRowsKept(db.checkouts);
      SameRegistersKept(db.registers);
    } else {
      assert Priced(db.checkouts[id]);
      var stamp, entries, movements := FinalizeEffect(db, salon, id, version, requestId, register, today);
      FinalizeKeeps(db, salon, id, stamp, entries, movements);
    }
  }

  lemma ReverseStep(db: Db, salon: nat, id: nat, requestId: nat, reason: string, register: Option<nat>, today: int)
    requires Inv(db) && Reverse(db, salon, id, requestId, reason, register, today).Success?
    ensures var now := Reverse(db, salon, id, requestId, reason, register, today).value; Inv(now) && Extends(db, now)
  {
    if ReverseReplays(db, id, requestId) {
      SameRowsKept(db.checkouts);
      SameRegistersKept(db.registers);
    } else {
      var stamp, entries, movements := ReverseEffect(db, salon, id, requestId, reason, register, today);
      ReverseKeeps(db, salon, id, stamp, entries, movements);
    }
  }

  lemma CheckoutStepKeeps(db: Db, step: Step)
    requires Inv(db) && Attempt(db, step).Success?
    requires step.DoCreate? || step.DoUpdate? || step.DoRefresh? || step.DoFinalize? || step.DoReverse?
    ensures Inv(Attempt(db, step).value) && Extends(db, Attempt(db, step).value)
  {
    match step
    case DoCreate(salon, reservationId, requestId, fields) => CreateKeeps(db, salon, reservationId, requestId, fields);
    case DoUpdate(salon, id, draft) =>
      var c2 := UpdateEffect(db, salon, id, draft);
      RedraftKeeps(db, id, c2);
    case DoRefresh(salon, id, version) =>
      var c2 := RefreshEffect(db, salon, id, version);
      RedraftKeeps(db, id, c2);
    case DoFinalize(salon, id, version, requestId, register, today) =>
      FinalizeStep(db, salon, id, version, requestId, register, today);
    case DoReverse(salon, id, requestId, reason, register, today) =>
      ReverseStep(db, salon, id, requestId, reason, register, today);
  }

  lemma RegisterStepKeeps(db: Db, step: Step)
    requires Inv(db) && Attempt(db, step).Success?
    requires step.DoOpen? || step.DoMove? || step.DoClose?
    ensures Inv(Attempt(db, step).value) && Extends(db, Attempt(db, step).value)
  {
    match step
    case DoOpen(salon, date, opening, requestId, today) => OpenKeeps(db, salon, date, opening, requestId, today);
    case DoMove(salon, id, version, requestId, kind, amount, reason) =>
      MoveKeeps(db, salon, id, version, requestId, kind, amount, reason);
    case DoClose(salon, id, version, requestId, counted, note) => CloseKeeps(db, salon, id, version, requestId, counted, note);
  }

  lemma AddCustomerKeeps(db: Db, salon: nat, customer: nat)
    requires Inv(db) && AddCustomer(db, salon, customer).Success?
    ensures var now := AddCustomer(db, salon, customer).value; Inv(now) && Extends(db, now)
  {
    AddCustomerKeepsTotals(db, salon, customer);
    SameRowsKept(db.checkouts);
    SameRegistersKept(db.registers);
  }

  lemma UnrelatedKeeps(db: Db, step: Step)
    requires Inv(db) && (step.DoRecalculate? || step.DoMembership?)
    ensures Inv(Attempt(db, step).value) && Extends(db, Attempt(db, step).value)
  {
    if step.DoRecalculate? { RecalculationIsIdle(db, step.salon, step.customer); }
    SameRowsKept(db.checkouts);
    SameRegistersKept(db.registers);
  }

  lemma RecordStepKeeps(db: Db, step: Step)
    requires Inv(db) && Attempt(db, step).Success?
    requires step.DoBook? || step.DoEdit? || step.DoAddCustomer? || step.DoRecalculate? || step.DoMembership?
    ensures Inv(Attempt(db, step).value) && Extends(db, Attempt(db, step).value)
  {
    match step
    case DoBook(salon, id, context, status, price) => BookKeeps(db, salon, id, context, status, price);
    case DoEdit(salon, id, context, status, price, paymentStatus, hasChart) =>
      EditKeeps(db, salon, id, context, status, price, paymentStatus, hasChart);
    case DoAddCustomer(salon, customer) => AddCustomerKeeps(db, salon, customer);
    case _ => UnrelatedKeeps(db, step);
  }

  lemma StepKeeps(db: Db, step: Step)
    requires Inv(db)
    ensures Inv(Apply(db, step)) && Extends(db, Apply(db, step))
  {
    if Attempt(db, step).Failure? {
      SameRowsKept(db.checkouts);
      SameRegistersKept(db.registers);
    } else if step.DoCreate? || step.DoUpdate? || step.DoRefresh? || step.DoFinalize? || step.DoReverse? {
      CheckoutStepKeeps(db, step);
    } else if step.DoOpen? || step.DoMove? || step.DoClose? {
      RegisterStepKeeps(db, step);
    } else {
      RecordStepKeeps(db, step);
    }
  }

  lemma {:induction false} RunKeeps(db: Db, steps: seq<Step>)
    requires Inv(db)
    ensures Inv(Run(db, steps)) && Extends(db, Run(db, steps))
  {
    if |steps| != 0 {
      var before := Run(db, steps[..|steps| - 1]);
      RunKeeps(db, steps[..|steps| - 1]);
      StepKeeps(before, steps[|steps| - 1]);
      ExtendsTransitive(db, before, Run(db, steps));
    }
  }

  lemma InitialInv(db: Db)
    requires Initial(db)
    ensures Inv(db)
  {
  }

  /** States that some run can reach. */
  ghost predicate Reachable(db: Db) {
    exists start: Db, steps: seq<Step> :: Initial(start) && db == Run(start, steps)
  }

  lemma ReachableInv(db: Db)
    requires Reachable(db)
    ensures Inv(db)
  {
    var start: Db, steps: seq<Step> :| Initial(start) && db == Run(start, steps);
    InitialInv(start);
    RunKeeps(start, steps);
  }

  // ---- What holds in every reachable state ----

  /** Every balance is what the account's settled checkouts awarded less what they used. */
  lemma BalanceIsNetPoints(db: Db, account: nat)
    requires Reachable(db)
    ensures Balance(db.entries, account) == Total(db.checkouts, NetPoints(account))
  {
    ReachableInv(db);
  }

  /** A member's debt never exceeds the earnings that reversals have taken back. */
  lemma DebtIsClawedBack(db: Db, account: nat)
    requires Reachable(db)
    ensures Balance(db.entries, account) >= -Clawed(db.entries, account)
  {
    ReachableInv(db);
  }

  /** In every reachable state, finalizing a checkout that uses points leaves the member's balance at zero or more. */
  lemma RedemptionNeverOverdraws(db: Db, salon: nat, id: nat, version: int, requestId: nat, register: Option<nat>, today: int)
    requires Reachable(db) && Finalize(db, salon, id, version, requestId, register, today).Success?
    requires !FinalizeReplays(db, id, requestId)
    requires db.checkouts[id].selection.Some? && db.checkouts[id].selection.value.points > 0
    ensures Balance(Finalize(db, salon, id, version, requestId, register, today).value.entries,
                    db.checkouts[id].selection.value.account) >= 0
  {
    ReachableInv(db);
    var c := db.checkouts[id];
    assert Priced(c) && CheckoutBooked(db.entries, id, c);
    var stamp, entries, movements := FinalizeEffect(db, salon, id, version, requestId, register, today);
    RedemptionIsCovered(db.membership, db.entries, salon, db.reservations[c.reservationId].context.customerId,
                        c.selection.value, id, c.totals.totalYen);
  }

  lemma CachedTotalIsExact(db: Db, customer: nat)
    requires Reachable(db) && customer in db.customers
    ensures db.customers[customer].totalSpent
         == AccountingTotal(db.checkouts, db.reservations, db.customers[customer].salon, customer)
  {
    ReachableInv(db);
  }

  /** A finalized checkout's reservation is paid; that of a reversed last checkout is refunded. */
  lemma PaymentStatusFollows(db: Db, i: nat)
    requires Reachable(db) && i < |db.checkouts|
    ensures db.checkouts[i].reservationId in db.reservations
    ensures var status := db.reservations[db.checkouts[i].reservationId].paymentStatus;
            && (db.checkouts[i].status == Finalized ==> status == Paid)
            && (LastOn(db.checkouts, i) && db.checkouts[i].status == Reversed ==> status == Refunded)
  {
    ReachableInv(db);
    if db.checkouts[i].status != Reversed { DraftPaymentFollows(db, i); }
  }

  /** The checkouts of a reservation form one chain: each supersedes the one before it, and only the last is live. */
  lemma OneCorrectionChain(db: Db, i: nat, j: nat)
    requires Reachable(db) && i < j < |db.checkouts| && db.checkouts[i].reservationId == db.checkouts[j].reservationId
    ensures db.checkouts[i].status == Reversed
    ensures (forall k :: i < k < j ==> db.checkouts[k].reservationId != db.checkouts[j].reservationId)
       <==> db.checkouts[j].supersedes == Some(i)
  {
    ReachableInv(db);
    ChainReads(db.checkouts, i, j);
  }

  lemma ChainReads(cs: seq<Checkout>, i: nat, j: nat)
    requires OneLive(cs) && Linear(cs) && i < j < |cs| && cs[i].reservationId == cs[j].reservationId
    ensures cs[i].status == Reversed
    ensures (forall k :: i < k < j ==> cs[k].reservationId != cs[j].reservationId) <==> cs[j].supersedes == Some(i)
  {
    assert Predecessor(cs, cs[j].supersedes, j);
    assert cs[j].supersedes.Some? && i <= cs[j].supersedes.value;
  }

  /** A finalized checkout and its reservation agree on customer, service, staff and time in every reachable state. */
  lemma FinalizedContextStands(db: Db, i: nat)
    requires Reachable(db) && i < |db.checkouts| && db.checkouts[i].status == Finalized
    ensures db.checkouts[i].reservationId in db.reservations
    ensures db.checkouts[i].context == db.reservations[db.checkouts[i].reservationId].context
  {
    ReachableInv(db);
  }

  lemma RegisterHoldsWhatWasSettled(db: Db, s: nat)
    requires Reachable(db) && s < |db.registers|
    ensures var expected := ExpectedCash(db.registers, db.movements, s);
            && expected == db.registers[s].openingCashYen + Flow(db.movements, s, In) - Flow(db.movements, s, Out)
                           + Total(db.checkouts, Sold(s, CASH_YEN)) - Total(db.checkouts, TakenBack(s, CASH_YEN))
            && 0 <= expected <= CASH_MAX_YEN
  {
    ReachableInv(db);
    ExpectedCashIsConserved(db.checkouts, db.registers, db.movements, s);
  }

  /** A closed register's report is still true, its cash row explains its cash, its methods its net total. */
  lemma ClosedReportReconciles(db: Db, s: nat)
    requires Reachable(db) && s < |db.registers| && db.registers[s].closing.Some?
    ensures var closing := db.registers[s].closing.value;
            && closing.report == Report(db.checkouts, db.registers, db.movements, s, closing.body.countedCashYen)
            && |closing.report.rows| == 5 && closing.report.rows[0].how == Cash
            && Sum(Nets(closing.report.rows)) == closing.report.netTotalYen
            && closing.report.expectedCashYen
               == closing.report.openingCashYen + Flow(db.movements, s, In) - Flow(db.movements, s, Out)
                  + closing.report.rows[0].netYen
  {
    ReachableInv(db);
    assert ReportCurrent(db.checkouts, db.registers, db.movements, s);
    ReportReconciles(db.checkouts, db.registers, db.movements, s, db.registers[s].closing.value.body.countedCashYen);
  }

  /** Once closed, a register and its movements stay as they are in every later state. */
  lemma {:induction false} ClosedStaysClosed(db: Db, steps: seq<Step>, s: nat)
    requires Reachable(db) && s < |db.registers| && db.registers[s].closing.Some?
    ensures var now := Run(db, steps);
            && s < |now.registers| && now.registers[s] == db.registers[s]
            && now.registers[s].closing.value.report
               == Report(now.checkouts, now.registers, now.movements, s, db.registers[s].closing.value.body.countedCashYen)
  {
    ReachableInv(db);
    RunKeeps(db, steps);
    assert RegisterKeeps(db.registers[s], Run(db, steps).registers[s]);
    assert ReportCurrent(Run(db, steps).checkouts, Run(db, steps).registers, Run(db, steps).movements, s);
  }

  /** Whatever is finalized satisfied the receipt's and the notification's checks, and still does. */
  lemma FinalizedAmountsAreConsistent(db: Db, i: nat)
    requires Reachable(db) && i < |db.checkouts| && db.checkouts[i].status != Draft
    ensures var c := db.checkouts[i];
            && AmountsInRange(SnapshotOf(c.totals, c.payments))
            && Consistent(SnapshotOf(c.totals, c.payments))
            && NotificationConsistent(c.totals, c.payments)
  {
    ReachableInv(db);
    SettledRowIsConsistent(db.checkouts[i]);
  }

  lemma SettledRowIsConsistent(c: Checkout)
    requires Priced(c) && Settlement(c) && c.status != Draft
    ensures AmountsInRange(SnapshotOf(c.totals, c.payments))
    ensures Consistent(SnapshotOf(c.totals, c.payments))
    ensures NotificationConsistent(c.totals, c.payments)
  {
    var items := ItemsOf(c.totals.lines);
    AcceptedIsSound(items, c.payments, c.totals.pointsDiscountYen);
    PricedTotals(c);
    PricedAmounts(c);
    SoundInRange(c.totals, items, c.payments);
    SoundIsConsistent(c.totals, items, c.payments);
  }

  lemma PricedAmounts(c: Checkout)
    requires Priced(c)
    ensures var items := ItemsOf(c.totals.lines);
            && c.totals.subtotalYen == Sum(Gross(items)) && c.totals.discountYen == Sum(Discounts(items))
            && Bounded(c.totals.subtotalYen) && Bounded(c.totals.discountYen) && 0 <= c.totals.pointsDiscountYen
  {
  }
}
