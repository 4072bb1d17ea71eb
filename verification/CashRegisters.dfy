/**
 Register sessions. The cash a register should hold is determined by what was settled and reversed
 there; once closed, neither the register nor the figures of its closing report can change.
 */
module CashRegisters {
  import opened Common
  import opened CashDraft
  import opened Receipt
  import opened Reservations
  import opened Tables
  import opened CashBook
  import opened CashEffects
  import opened CashLedger

  /** The amounts of one kind of movement in a session. */
  function KindIn(session: nat, kind: MovementKind): Movement -> int {
    (m: Movement) => if m.session == session && m.kind == kind then m.amountYen else 0
  }

  function Flow(movements: seq<Movement>, session: nat, kind: MovementKind): int {
    Total(movements, KindIn(session, kind))
  }

  lemma {:induction false} SignedByKind(movements: seq<Movement>, session: nat)
    ensures Total(movements, SignedIn(session))
         == Flow(movements, session, In) - Flow(movements, session, Out)
            + Flow(movements, session, Sale) - Flow(movements, session, CashRefund)
  {
    if |movements| != 0 { SignedByKind(movements[..|movements| - 1], session); }
  }

  ghost predicate MovementsInRange(registers: seq<Register>, movements: seq<Movement>) {
    forall p :: 0 <= p < |movements| ==>
      movements[p].session < |registers| && registers[movements[p].session].salon == movements[p].salon
  }

  /** The cash of settled and reversed checkouts is exactly what their movements carried. */
  ghost predicate CashConserved(cs: seq<Checkout>, movements: seq<Movement>) {
    forall s: nat ::
      && Flow(movements, s, Sale) == Total(cs, Sold(s, CASH_YEN))
      && Flow(movements, s, CashRefund) == Total(cs, TakenBack(s, CASH_YEN))
  }

  ghost predicate CashInRange(registers: seq<Register>, movements: seq<Movement>) {
    forall s :: 0 <= s < |registers| ==> Bounded(ExpectedCash(registers, movements, s))
  }

  /** The closing report of a session is still what the tables say now. */
  ghost predicate ReportCurrent(cs: seq<Checkout>, registers: seq<Register>, movements: seq<Movement>, s: nat)
    requires s < |registers|
  {
    registers[s].closing.Some? ==>
      registers[s].closing.value.report
      == Report(cs, registers, movements, s, registers[s].closing.value.body.countedCashYen)
  }

  ghost predicate ReportsCurrent(cs: seq<Checkout>, registers: seq<Register>, movements: seq<Movement>) {
    forall s :: 0 <= s < |registers| ==> ReportCurrent(cs, registers, movements, s)
  }

  /** A salon has one register a day and one open register at a time. */
  ghost predicate OneOpen(registers: seq<Register>) {
    forall r, s :: 0 <= r < s < |registers| && registers[r].salon == registers[s].salon ==>
      registers[r].businessDate != registers[s].businessDate
      && (registers[r].closing.Some? || registers[s].closing.Some?)
  }

  ghost predicate RegistersOk(cs: seq<Checkout>, registers: seq<Register>, movements: seq<Movement>) {
    && MovementsInRange(registers, movements) && CashConserved(cs, movements) && CashInRange(registers, movements)
    && ReportsCurrent(cs, registers, movements) && OneOpen(registers)
  }

  // ---- Reports depend only on the session's own rows ----

  /** Two tables agree on every column of what was sold and reversed in a session. */
  ghost predicate SameSession(cs: seq<Checkout>, now: seq<Checkout>, s: nat) {
    && (forall f: Column :: Total(now, Sold(s, f)) == Total(cs, Sold(s, f)))
    && (forall f: Column :: Total(now, TakenBack(s, f)) == Total(cs, TakenBack(s, f)))
  }

  lemma {:induction false} SameReport(cs: seq<Checkout>, now: seq<Checkout>, registers: seq<Register>, after: seq<Register>,
                                      movements: seq<Movement>, more: seq<Movement>, s: nat, counted: int)
    requires SameSession(cs, now, s) && s < |registers| && s < |after|
    requires after[s].businessDate == registers[s].businessDate && after[s].openingCashYen == registers[s].openingCashYen
    requires Total(more, SignedIn(s)) == Total(movements, SignedIn(s))
    requires Total(more, CountIn(s)) == Total(movements, CountIn(s))
    ensures Report(now, after, more, s, counted) == Report(cs, registers, movements, s, counted)
  {
    var a, b := Report(now, after, more, s, counted).rows, Report(cs, registers, movements, s, counted).rows;
    forall i | 0 <= i < |METHODS| ensures a[i] == b[i] {
      assert Total(now, Sold(s, PaidBy(METHODS[i]))) == Total(cs, Sold(s, PaidBy(METHODS[i])));
      assert Total(now, TakenBack(s, PaidBy(METHODS[i]))) == Total(cs, TakenBack(s, PaidBy(METHODS[i])));
    }
    assert a == b;
  }

  /** A row whose amounts and place in the session do not change leaves the session's columns alone. */
  lemma RowOutside(cs: seq<Checkout>, id: nat, c: Checkout, s: nat)
    requires id < |cs|
    requires SoldIn(c, s) == SoldIn(cs[id], s) && ReversedIn(c, s) == ReversedIn(cs[id], s)
    requires SoldIn(c, s) || ReversedIn(c, s) ==> c.totals == cs[id].totals && c.payments == cs[id].payments
    ensures SameSession(cs, cs[id := c], s)
  {
    var now := cs[id := c];
    forall f: Column
      ensures Total(now, Sold(s, f)) == Total(cs, Sold(s, f))
      ensures Total(now, TakenBack(s, f)) == Total(cs, TakenBack(s, f))
    {
      TotalUpdate(cs, id, c, Sold(s, f));
      TotalUpdate(cs, id, c, TakenBack(s, f));
    }
  }

  lemma RowAdded(cs: seq<Checkout>, c: Checkout, s: nat)
    requires c.finalization.None? && c.reversal.None?
    ensures SameSession(cs, cs + [c], s)
  {
    var now := cs + [c];
    forall f: Column
      ensures Total(now, Sold(s, f)) == Total(cs, Sold(s, f))
      ensures Total(now, TakenBack(s, f)) == Total(cs, TakenBack(s, f))
    {
      TotalSnoc(cs, c, Sold(s, f));
      TotalSnoc(cs, c, TakenBack(s, f));
    }
  }

  // ---- Drafts ----

  lemma SameSessionsKeepRegisters(cs: seq<Checkout>, now: seq<Checkout>, registers: seq<Register>, movements: seq<Movement>)
    requires RegistersOk(cs, registers, movements)
    requires forall s: nat :: SameSession(cs, now, s)
    ensures RegistersOk(now, registers, movements)
  {
    forall s: nat
      ensures Flow(movements, s, Sale) == Total(now, Sold(s, CASH_YEN))
      ensures Flow(movements, s, CashRefund) == Total(now, TakenBack(s, CASH_YEN))
    {
      assert SameSession(cs, now, s);
    }
    forall s | 0 <= s < |registers| ensures ReportCurrent(now, registers, movements, s) {
      assert ReportCurrent(cs, registers, movements, s) && SameSession(cs, now, s);
      if registers[s].closing.Some? {
        SameReport(cs, now, registers, registers, movements, movements, s, registers[s].closing.value.body.countedCashYen);
      }
    }
  }

  lemma NewKeepsRegisters(cs: seq<Checkout>, registers: seq<Register>, movements: seq<Movement>, c: Checkout)
    requires RegistersOk(cs, registers, movements) && c.finalization.None? && c.reversal.None?
    ensures RegistersOk(cs + [c], registers, movements)
  {
    var now := cs + [c];
    forall s: nat ensures SameSession(cs, now, s) { RowAdded(cs, c, s); }
    SameSessionsKeepRegisters(cs, cs + [c], registers, movements);
  }

  lemma RedraftKeepsRegisters(cs: seq<Checkout>, registers: seq<Register>, movements: seq<Movement>, id: nat, c: Checkout)
    requires RegistersOk(cs, registers, movements) && id < |cs|
    requires cs[id].finalization.None? && cs[id].reversal.None? && c.finalization.None? && c.reversal.None?
    ensures RegistersOk(cs[id := c], registers, movements)
  {
    var now := cs[id := c];
    forall s: nat ensures SameSession(cs, now, s) { RowOutside(cs, id, c, s); }
    SameSessionsKeepRegisters(cs, cs[id := c], registers, movements);
  }

  // ---- One more movement on an open register ----

  /** A movement appended to an open register, whose version is bumped. */
  ghost predicate Booking(registers: seq<Register>, movements: seq<Movement>, after: seq<Register>, more: seq<Movement>,
                          session: nat) {
    && session < |registers| && registers[session].closing.None?
    && after == registers[session := Bump(registers[session])]
    && (more == movements
        || (&& |more| == |movements| + 1 && more[..|movements|] == movements && more[|movements|].session == session
            && more[|movements|].salon == registers[session].salon
            && Bounded(ExpectedCash(registers, more, session))))
  }

  lemma {:induction false} OtherSessionsQuiet(movements: seq<Movement>, more: seq<Movement>, session: nat, s: nat)
    requires more == movements
          || (|more| == |movements| + 1 && more[..|movements|] == movements && more[|movements|].session == session)
    requires s != session
    ensures Total(more, SignedIn(s)) == Total(movements, SignedIn(s)) && Total(more, CountIn(s)) == Total(movements, CountIn(s))
    ensures forall kind :: Flow(more, s, kind) == Flow(movements, s, kind)
  {
    if more != movements {
      var m := more[|movements|];
      assert more == movements + [m];
      TotalSnoc(movements, m, SignedIn(s));
      TotalSnoc(movements, m, CountIn(s));
      forall kind ensures Flow(more, s, kind) == Flow(movements, s, kind) {
        TotalSnoc(movements, m, KindIn(s, kind));
      }
    }
  }

  lemma BookingKeepsCash(registers: seq<Register>, movements: seq<Movement>, after: seq<Register>, more: seq<Movement>, session: nat)
    requires Booking(registers, movements, after, more, session)
    requires MovementsInRange(registers, movements) && CashInRange(registers, movements)
    ensures MovementsInRange(after, more) && CashInRange(after, more)
  {
    forall s | 0 <= s < |after| ensures Bounded(ExpectedCash(after, more, s)) {
      assert Bounded(ExpectedCash(registers, movements, s));
      if s != session { OtherSessionsQuiet(movements, more, session, s); }
    }
    assert forall p :: 0 <= p < |movements| ==> more[p] == movements[p];
  }

  lemma BookingKeepsReports(cs: seq<Checkout>, now: seq<Checkout>, registers: seq<Register>, movements: seq<Movement>,
                            after: seq<Register>, more: seq<Movement>, session: nat)
    requires Booking(registers, movements, after, more, session) && ReportsCurrent(cs, registers, movements)
    requires forall s: nat :: s != session ==> SameSession(cs, now, s)
    ensures ReportsCurrent(now, after, more)
  {
    forall s | 0 <= s < |after| ensures ReportCurrent(now, after, more, s) {
      if s != session && after[s].closing.Some? {
        assert ReportCurrent(cs, registers, movements, s) && SameSession(cs, now, s);
        OtherSessionsQuiet(movements, more, session, s);
        SameReport(cs, now, registers, after, movements, more, s, registers[s].closing.value.body.countedCashYen);
      }
    }
  }

  lemma BumpKeepsOneOpen(registers: seq<Register>, session: nat)
    requires OneOpen(registers) && session < |registers|
    ensures OneOpen(registers[session := Bump(registers[session])])
  {
  }

  lemma {:induction false} AppendGives(registers: seq<Register>, movements: seq<Movement>, m: Movement)
    requires m.session < |registers| && AppendMovement(registers, movements, m).Success?
    ensures AppendMovement(registers, movements, m).value == movements + [m]
    ensures Bounded(ExpectedCash(registers, movements + [m], m.session))
    ensures LastWhere(movements, MovementRequest(m.salon, m.requestId)).None?
  {
  }

  lemma CashMovedIsBooking(db: Db, m: Movement, more: seq<Movement>)
    requires m.session < |db.registers| && db.registers[m.session].closing.None? && db.registers[m.session].salon == m.salon
    requires CashMoved(db, m, more)
    ensures Booking(db.registers, db.movements, db.registers[m.session := Bump(db.registers[m.session])], more, m.session)
    ensures more == db.movements || more == db.movements + [m]
  {
    if m.amountYen > 0 { AppendGives(db.registers, db.movements, m); }
  }

  /** Manual movements leave the checkout cash of the session as it was. */
  lemma MoveKeepsRegisters(db: Db, salon: nat, id: nat, version: int, requestId: nat, kind: MovementKind, amountYen: int, reason: string)
    requires RegistersOk(db.checkouts, db.registers, db.movements)
    requires Move(db, salon, id, version, requestId, kind, amountYen, reason).Success?
    ensures var after := Move(db, salon, id, version, requestId, kind, amountYen, reason).value;
            RegistersOk(after.checkouts, after.registers, after.movements)
  {
    var after := Move(db, salon, id, version, requestId, kind, amountYen, reason).value;
    if LastWhere(db.movements, MovementRequest(salon, requestId)).None? {
      var m := Movement(salon, id, kind, amountYen, requestId, ManualBody(id, kind, amountYen, reason, version));
      AppendGives(db.registers, db.movements, m);
      BookingKeepsCash(db.registers, db.movements, after.registers, after.movements, id);
      BookingKeepsReports(db.checkouts, db.checkouts, db.registers, db.movements, after.registers, after.movements, id);
      BumpKeepsOneOpen(db.registers, id);
      ManualKeepsConservation(db.checkouts, db.movements, m);
    }
  }

  lemma ManualKeepsConservation(cs: seq<Checkout>, movements: seq<Movement>, m: Movement)
    requires CashConserved(cs, movements) && (m.kind == In || m.kind == Out)
    ensures CashConserved(cs, movements + [m])
  {
    forall s: nat
      ensures Flow(movements + [m], s, Sale) == Total(cs, Sold(s, CASH_YEN))
      ensures Flow(movements + [m], s, CashRefund) == Total(cs, TakenBack(s, CASH_YEN))
    {
      TotalSnoc(movements, m, KindIn(s, Sale));
      TotalSnoc(movements, m, KindIn(s, CashRefund));
    }
  }

  // ---- Settling and reversing ----

  /** A settlement adds its cash to the register it is stamped with. */
  lemma SaleConserves(cs: seq<Checkout>, movements: seq<Movement>, more: seq<Movement>, id: nat, c: Checkout, m: Movement)
    requires CashConserved(cs, movements) && id < |cs| && m.kind == Sale && m.amountYen == c.totals.cashYen >= 0
    requires cs[id].finalization.None? && cs[id].reversal.None? && c.reversal.None? && SoldIn(c, m.session)
    requires if m.amountYen > 0 then more == movements + [m] else more == movements
    ensures CashConserved(cs[id := c], more)
  {
    var now := cs[id := c];
    forall s: nat
      ensures Flow(more, s, Sale) == Total(now, Sold(s, CASH_YEN))
      ensures Flow(more, s, CashRefund) == Total(now, TakenBack(s, CASH_YEN))
    {
      TotalSnoc(movements, m, KindIn(s, Sale));
      TotalSnoc(movements, m, KindIn(s, CashRefund));
      TotalUpdate(cs, id, c, Sold(s, CASH_YEN));
      TotalUpdate(cs, id, c, TakenBack(s, CASH_YEN));
    }
  }

  lemma RefundConserves(cs: seq<Checkout>, movements: seq<Movement>, more: seq<Movement>, id: nat, c: Checkout, m: Movement)
    requires CashConserved(cs, movements) && id < |cs| && m.kind == CashRefund && m.amountYen == c.totals.cashYen >= 0
    requires cs[id].reversal.None? && c.finalization == cs[id].finalization && c.totals == cs[id].totals && ReversedIn(c, m.session)
    requires if m.amountYen > 0 then more == movements + [m] else more == movements
    ensures CashConserved(cs[id := c], more)
  {
    var now := cs[id := c];
    forall s: nat
      ensures Flow(more, s, Sale) == Total(now, Sold(s, CASH_YEN))
      ensures Flow(more, s, CashRefund) == Total(now, TakenBack(s, CASH_YEN))
    {
      TotalSnoc(movements, m, KindIn(s, Sale));
      TotalSnoc(movements, m, KindIn(s, CashRefund));
      TotalUpdate(cs, id, c, Sold(s, CASH_YEN));
      TotalUpdate(cs, id, c, TakenBack(s, CASH_YEN));
    }
  }

  /** What settling and reversing share: a row stamped with an open session and its cash booked there. */
  lemma StampedKeepsRegisters(db: Db, now: seq<Checkout>, m: Movement, more: seq<Movement>)
    requires RegistersOk(db.checkouts, db.registers, db.movements)
    requires m.session < |db.registers| && db.registers[m.session].closing.None? && db.registers[m.session].salon == m.salon
    requires CashMoved(db, m, more) && CashConserved(now, more)
    requires forall s: nat :: s != m.session ==> SameSession(db.checkouts, now, s)
    ensures RegistersOk(now, db.registers[m.session := Bump(db.registers[m.session])], more)
  {
    var after := db.registers[m.session := Bump(db.registers[m.session])];
    CashMovedIsBooking(db, m, more);
    BookingKeepsCash(db.registers, db.movements, after, more, m.session);
    BookingKeepsReports(db.checkouts, now, db.registers, db.movements, after, more, m.session);
    BumpKeepsOneOpen(db.registers, m.session);
  }

  lemma FinalizeKeepsRegisters(db: Db, id: nat, c: Checkout, m: Movement, more: seq<Movement>)
    requires RegistersOk(db.checkouts, db.registers, db.movements) && id < |db.checkouts|
    requires m.session < |db.registers| && db.registers[m.session].closing.None? && db.registers[m.session].salon == m.salon
    requires CashMoved(db, m, more) && m.kind == Sale && m.amountYen == c.totals.cashYen >= 0
    requires db.checkouts[id].finalization.None? && db.checkouts[id].reversal.None? && c.reversal.None? && SoldIn(c, m.session)
    ensures RegistersOk(db.checkouts[id := c], db.registers[m.session := Bump(db.registers[m.session])], more)
  {
    CashMovedExactly(db, m, more);
    SaleConserves(db.checkouts, db.movements, more, id, c, m);
    var now := db.checkouts[id := c];
    forall s: nat | s != m.session ensures SameSession(db.checkouts, now, s) {
      RowOutside(db.checkouts, id, c, s);
    }
    StampedKeepsRegisters(db, now, m, more);
  }

  lemma ReverseKeepsRegisters(db: Db, id: nat, c: Checkout, m: Movement, more: seq<Movement>)
    requires RegistersOk(db.checkouts, db.registers, db.movements) && id < |db.checkouts|
    requires m.session < |db.registers| && db.registers[m.session].closing.None? && db.registers[m.session].salon == m.salon
    requires CashMoved(db, m, more) && m.kind == CashRefund && m.amountYen == c.totals.cashYen >= 0
    requires var was := db.checkouts[id];
             && was.reversal.None? && c.finalization == was.finalization
             && c.totals == was.totals && c.payments == was.payments && ReversedIn(c, m.session)
    ensures RegistersOk(db.checkouts[id := c], db.registers[m.session := Bump(db.registers[m.session])], more)
  {
    CashMovedExactly(db, m, more);
    RefundConserves(db.checkouts, db.movements, more, id, c, m);
    var now := db.checkouts[id := c];
    forall s: nat | s != m.session ensures SameSession(db.checkouts, now, s) {
      RowOutside(db.checkouts, id, c, s);
    }
    StampedKeepsRegisters(db, now, m, more);
  }

  lemma CashMovedExactly(db: Db, m: Movement, more: seq<Movement>)
    requires m.session < |db.registers| && CashMoved(db, m, more)
    ensures if m.amountYen > 0 then more == db.movements + [m] else more == db.movements
  {
    if m.amountYen > 0 { AppendGives(db.registers, db.movements, m); }
  }

  // ---- Opening and closing ----

  lemma {:induction false} NoMovementYet(registers: seq<Register>, movements: seq<Movement>)
    requires MovementsInRange(registers, movements)
    ensures Total(movements, SignedIn(|registers|)) == 0
  {
    TotalZero(movements, SignedIn(|registers|));
  }

  lemma OpenKeepsRegisters(db: Db, salon: nat, date: int, openingCashYen: int, requestId: nat, today: int)
    requires RegistersOk(db.checkouts, db.registers, db.movements)
    requires OpenRegister(db, salon, date, openingCashYen, requestId, today).Success?
    ensures var after := OpenRegister(db, salon, date, openingCashYen, requestId, today).value;
            RegistersOk(after.checkouts, after.registers, after.movements)
  {
    if LastWhere(db.registers, OpenedBy(salon, requestId)).None? {
      var r := Register(salon, date, 1, openingCashYen, requestId, None);
      var after := db.registers + [r];
      NoMovementYet(db.registers, db.movements);
      forall s | 0 <= s < |after|
        ensures Bounded(ExpectedCash(after, db.movements, s)) && ReportCurrent(db.checkouts, after, db.movements, s)
      {
        if s < |db.registers| {
          assert Bounded(ExpectedCash(db.registers, db.movements, s)) && ReportCurrent(db.checkouts, db.registers, db.movements, s);
        }
      }
      forall s | 0 <= s < |db.registers| && db.registers[s].salon == salon
        ensures db.registers[s].businessDate != date && db.registers[s].closing.Some?
      {
        assert !OccupiesDay(salon, date)(db.registers[s]);
      }
    }
  }

  lemma CloseKeepsRegisters(db: Db, salon: nat, id: nat, version: int, requestId: nat, counted: int, note: string)
    requires RegistersOk(db.checkouts, db.registers, db.movements)
    requires Close(db, salon, id, version, requestId, counted, note).Success?
    ensures var after := Close(db, salon, id, version, requestId, counted, note).value;
            RegistersOk(after.checkouts, after.registers, after.movements)
  {
    var after := Close(db, salon, id, version, requestId, counted, note).value.registers;
    forall s | 0 <= s < |after|
      ensures Bounded(ExpectedCash(after, db.movements, s)) && ReportCurrent(db.checkouts, after, db.movements, s)
    {
      assert Bounded(ExpectedCash(db.registers, db.movements, s)) && ReportCurrent(db.checkouts, db.registers, db.movements, s);
      assert SameSession(db.checkouts, db.checkouts, s);
      SameReport(db.checkouts, db.checkouts, db.registers, after, db.movements, db.movements, s,
                 if after[s].closing.Some? then after[s].closing.value.body.countedCashYen else 0);
    }
  }

  // ---- What a register holds ----

  /** Opening cash, plus cash put in, less cash taken out, plus cash settled there, less cash given back there. */
  lemma {:induction false} ExpectedCashIsConserved(cs: seq<Checkout>, registers: seq<Register>, movements: seq<Movement>, s: nat)
    requires RegistersOk(cs, registers, movements) && s < |registers|
    ensures var expected := ExpectedCash(registers, movements, s);
            && expected == registers[s].openingCashYen + Flow(movements, s, In) - Flow(movements, s, Out)
                           + Total(cs, Sold(s, CASH_YEN)) - Total(cs, TakenBack(s, CASH_YEN))
            && 0 <= expected <= CASH_MAX_YEN
  {
    SignedByKind(movements, s);
    assert Flow(movements, s, Sale) == Total(cs, Sold(s, CASH_YEN));
    assert Bounded(ExpectedCash(registers, movements, s));
  }

  // ---- The closing report ----

  lemma {:induction false} AmountsByMethod(payments: seq<Payment>)
    ensures Sum(Amounts(payments)) == Sum(AmountsBy(payments, Cash)) + Sum(AmountsBy(payments, Card))
            + Sum(AmountsBy(payments, Bank)) + Sum(AmountsBy(payments, ExternalPrepayment)) + Sum(AmountsBy(payments, Other))
  {
    if |payments| != 0 {
      var last := |payments| - 1;
      AmountsByMethod(payments[..last]);
      assert Amounts(payments)[..last] == Amounts(payments[..last]);
      forall how: PaymentMethod ensures AmountsBy(payments, how)[..last] == AmountsBy(payments[..last], how) {
      }
    }
  }

  /** Of a settled checkout, the payments of the five methods add up to its total, and cash is cash. */
  lemma SettledPayments(c: Checkout)
    requires Priced(c) && Settlement(c) && c.status != Draft
    ensures c.totals.totalYen == Sum(AmountsBy(c.payments, Cash)) + Sum(AmountsBy(c.payments, Card))
            + Sum(AmountsBy(c.payments, Bank)) + Sum(AmountsBy(c.payments, ExternalPrepayment)) + Sum(AmountsBy(c.payments, Other))
    ensures c.totals.cashYen == Sum(AmountsBy(c.payments, Cash))
  {
    PricedTotals(c);
    AmountsByMethod(c.payments);
  }

  /** Columns that agree on every settled row, or that add up there, do so over a session. */
  lemma {:induction false} ColumnsAgree(cs: seq<Checkout>, s: nat, f: Column, g: Column)
    requires forall i :: 0 <= i < |cs| && cs[i].finalization.Some? ==>
               f(cs[i].totals, cs[i].payments) == g(cs[i].totals, cs[i].payments)
    requires forall i :: 0 <= i < |cs| && cs[i].reversal.Some? ==> cs[i].finalization.Some?
    ensures Total(cs, Sold(s, f)) == Total(cs, Sold(s, g)) && Total(cs, TakenBack(s, f)) == Total(cs, TakenBack(s, g))
  {
    if |cs| != 0 {
      ColumnsAgree(cs[..|cs| - 1], s, f, g);
      var c := cs[|cs| - 1];
      assert Sold(s, f)(c) == Sold(s, g)(c) && TakenBack(s, f)(c) == TakenBack(s, g)(c);
    }
  }

  function Plus(f: Column, g: Column): Column {
    (t: Totals, payments: seq<Payment>) => f(t, payments) + g(t, payments)
  }

  lemma {:induction false} ColumnsAdd(cs: seq<Checkout>, s: nat, f: Column, g: Column)
    ensures Total(cs, Sold(s, Plus(f, g))) == Total(cs, Sold(s, f)) + Total(cs, Sold(s, g))
    ensures Total(cs, TakenBack(s, Plus(f, g))) == Total(cs, TakenBack(s, f)) + Total(cs, TakenBack(s, g))
  {
    if |cs| != 0 { ColumnsAdd(cs[..|cs| - 1], s, f, g); }
  }

  function AllMethods(): Column {
    Plus(Plus(Plus(Plus(PaidBy(Cash), PaidBy(Card)), PaidBy(Bank)), PaidBy(ExternalPrepayment)), PaidBy(Other))
  }

  lemma {:induction false} MethodsAddUp(cs: seq<Checkout>, s: nat)
    requires RowsOk(cs)
    ensures Total(cs, Sold(s, TOTAL_YEN))
         == Total(cs, Sold(s, PaidBy(Cash))) + Total(cs, Sold(s, PaidBy(Card))) + Total(cs, Sold(s, PaidBy(Bank)))
            + Total(cs, Sold(s, PaidBy(ExternalPrepayment))) + Total(cs, Sold(s, PaidBy(Other)))
    ensures Total(cs, TakenBack(s, TOTAL_YEN))
         == Total(cs, TakenBack(s, PaidBy(Cash))) + Total(cs, TakenBack(s, PaidBy(Card))) + Total(cs, TakenBack(s, PaidBy(Bank)))
            + Total(cs, TakenBack(s, PaidBy(ExternalPrepayment))) + Total(cs, TakenBack(s, PaidBy(Other)))
    ensures Total(cs, Sold(s, CASH_YEN)) == Total(cs, Sold(s, PaidBy(Cash)))
    ensures Total(cs, TakenBack(s, CASH_YEN)) == Total(cs, TakenBack(s, PaidBy(Cash)))
  {
    SettledColumns(cs);
    ColumnsAgree(cs, s, TOTAL_YEN, AllMethods());
    ColumnsAgree(cs, s, CASH_YEN, PaidBy(Cash));
    var two := Plus(PaidBy(Cash), PaidBy(Card));
    var three := Plus(two, PaidBy(Bank));
    var four := Plus(three, PaidBy(ExternalPrepayment));
    ColumnsAdd(cs, s, PaidBy(Cash), PaidBy(Card));
    ColumnsAdd(cs, s, two, PaidBy(Bank));
    ColumnsAdd(cs, s, three, PaidBy(ExternalPrepayment));
    ColumnsAdd(cs, s, four, PaidBy(Other));
  }

  lemma SettledColumns(cs: seq<Checkout>)
    requires RowsOk(cs)
    ensures forall i :: 0 <= i < |cs| && cs[i].reversal.Some? ==> cs[i].finalization.Some?
    ensures forall i :: 0 <= i < |cs| && cs[i].finalization.Some? ==>
              && TOTAL_YEN(cs[i].totals, cs[i].payments) == AllMethods()(cs[i].totals, cs[i].payments)
              && CASH_YEN(cs[i].totals, cs[i].payments) == PaidBy(Cash)(cs[i].totals, cs[i].payments)
  {
    forall i | 0 <= i < |cs| && cs[i].finalization.Some?
      ensures TOTAL_YEN(cs[i].totals, cs[i].payments) == AllMethods()(cs[i].totals, cs[i].payments)
      ensures CASH_YEN(cs[i].totals, cs[i].payments) == PaidBy(Cash)(cs[i].totals, cs[i].payments)
    {
      SettledPayments(cs[i]);
    }
  }

  function Nets(rows: seq<MethodRow>): (s: seq<int>)
    ensures |s| == |rows|
  {
    seq(|rows|, i requires 0 <= i < |rows| => rows[i].netYen)
  }

  /** A report's net amounts by method sum to its net total, and its cash row explains its expected cash. */
  lemma ReportReconciles(cs: seq<Checkout>, registers: seq<Register>, movements: seq<Movement>, s: nat, counted: int)
    requires RowsOk(cs) && RegistersOk(cs, registers, movements) && s < |registers|
    ensures var report := Report(cs, registers, movements, s, counted);
            && |report.rows| == 5 && report.rows[0].how == Cash
            && Sum(Nets(report.rows)) == report.netTotalYen == report.salesTotalYen - report.refundsTotalYen
            && report.expectedCashYen == report.openingCashYen + Flow(movements, s, In) - Flow(movements, s, Out)
                                         + report.rows[0].netYen
            && report.rows[0].salesYen == Flow(movements, s, Sale)
            && report.rows[0].refundsYen == Flow(movements, s, CashRefund)
            && report.differenceYen == counted - report.expectedCashYen
  {
    MethodsAddUp(cs, s);
    ExpectedCashIsConserved(cs, registers, movements, s);
    var rows := Report(cs, registers, movements, s, counted).rows;
    assert rows == [RowFor(cs, s, Cash), RowFor(cs, s, Card), RowFor(cs, s, Bank), RowFor(cs, s, ExternalPrepayment),
                    RowFor(cs, s, Other)];
    SumOfFive(Nets(rows));
  }

  lemma {:induction false} SumOfFive(s: seq<int>)
    requires |s| == 5
    ensures Sum(s) == s[0] + s[1] + s[2] + s[3] + s[4]
  {
    assert s[..0] == [] && Sum(s[..0]) == 0;
    SumTake(s, 0);
    SumTake(s, 1);
    SumTake(s, 2);
    SumTake(s, 3);
    SumTake(s, 4);
    assert s[..5] == s;
  }
}
