/**
 Settling and reversing a checkout as the handlers perform them: tables read and rewritten step by step, with loops
 over ledger entries and checkouts, rolled back when a check fails. Each does exactly what the operation describes.
 */
module CashDesk {
  import opened Common
  import opened CashDraft
  import opened Receipt
  import opened Reservations
  import opened Tables
  import opened CashBook

  /** A transaction either commits the described state or leaves the tables as they were. */
  predicate Commits(r: Result<Db, string>, refusal: Option<string>, before: Db, after: Db) {
    match r
    case Success(db) => refusal.None? && after == db
    case Failure(code) => refusal == Some(code) && after == before
  }

  /** A write inside a transaction; after a refusal the caller rolls back. */
  predicate Writes<T(==)>(r: Result<T, string>, refusal: Option<string>, after: T) {
    match r
    case Success(rows) => refusal.None? && after == rows
    case Failure(code) => refusal == Some(code)
  }

  /** Once reversing an entry has failed, reversing more entries fails in the same way. */
  lemma {:induction false} ReverseFailureStays(entries: seq<Entry>, account: nat, salon: nat, id: nat, k: nat, n: nat)
    requires k <= n <= |entries| && ReversePoints(entries, account, salon, id, k).Failure?
    ensures ReversePoints(entries, account, salon, id, n) == ReversePoints(entries, account, salon, id, k)
  {
    if k < n { ReverseFailureStays(entries, account, salon, id, k, n - 1); }
  }

  class Desk {
    var checkouts: seq<Checkout>
    var entries: seq<Entry>
    var registers: seq<Register>
    var movements: seq<Movement>
    var reservations: map<nat, Reservation>
    var customers: map<nat, Customer>
    var membership: Membership

    function State(): Db
      reads this
    {
      Db(checkouts, entries, registers, movements, reservations, customers, membership)
    }

    constructor (db: Db)
      ensures State() == db
    {
      checkouts, entries, registers, movements := db.checkouts, db.entries, db.registers, db.movements;
      reservations, customers, membership := db.reservations, db.customers, db.membership;
    }

    method RollBack(db: Db)
      modifies this
      ensures State() == db
    {
      checkouts, entries, registers, movements := db.checkouts, db.entries, db.registers, db.movements;
      reservations, customers, membership := db.reservations, db.customers, db.membership;
    }

    // ---- The point ledger ----

    method BookEntry(e: Entry) returns (refusal: Option<string>)
      modifies this`entries
      ensures Writes(WriteEntry(old(entries), e), refusal, entries)
      ensures refusal.Some? ==> entries == old(entries)
    {
      if e.delta == 0 { return None; }
      var found := LastWhere(entries, EntryFor(e.checkout, e.kind));
      if found.Some? {
        return if entries[found.value] == e then None else Some("MEMBERSHIP_REQUEST_CONFLICT");
      }
      entries := entries + [e];
      return None;
    }

    method FinalizeMembershipPoints(salon: nat, customer: nat, s: Selection, id: nat, totalYen: int) returns (refusal: Option<string>)
      modifies this`entries
      ensures Writes(FinalizePoints(membership, old(entries), salon, customer, s, id, totalYen), refusal, entries)
    {
      var available := ReadMembership(membership, entries, salon, customer, s.account);
      if available.Failure? { return Some(available.error); }
      if !Bounded(totalYen) { return Some("MEMBERSHIP_AMOUNT_INVALID"); }
      var earn := EarnFor(totalYen);
      refusal := ValidateUse(s.points, available.value + RestoredPoints(entries, id, s.account), totalYen + s.points, s.policy);
      if refusal.Some? { return; }
      ghost var mismatch := (e: Entry) =>
        Original(e, id) && !(e.account == s.account && e.delta == if e.kind == Redeem then -s.points else earn);
      for k := 0 to |entries|
        invariant entries == old(entries)
        invariant forall j :: 0 <= j < k ==> !mismatch(entries[j])
      {
        var e := entries[k];
        if Original(e, id) {
          var expected := if e.kind == Redeem then -s.points else earn;
          if e.account != s.account || e.delta != expected {
            assert mismatch(entries[k]);
            return Some("MEMBERSHIP_REQUEST_CONFLICT");
          }
        }
      }
      assert !AnyWhere(entries, mismatch);
      refusal := BookEntry(Entry(s.account, salon, id, Redeem, -s.points, None));
      if refusal.Some? { return; }
      refusal := BookEntry(Entry(s.account, salon, id, Earn, earn, None));
    }

    method ReverseMembershipPoints(salon: nat, account: nat, id: nat) returns (refusal: Option<string>)
      modifies this`entries
      ensures Writes(if account !in membership.accounts then Failure("MEMBERSHIP_ACCOUNT_UNAVAILABLE")
                     else ReversePoints(old(entries), account, salon, id, |old(entries)|), refusal, entries)
    {
      if account !in membership.accounts { return Some("MEMBERSHIP_ACCOUNT_UNAVAILABLE"); }
      var booked := entries;
      for k := 0 to |booked|
        invariant booked == old(entries)
        invariant ReversePoints(booked, account, salon, id, k) == Success(entries)
      {
        refusal := ReverseEntry(booked, k, salon, account, id);
        if refusal.Some? {
          ReverseFailureStays(booked, account, salon, id, k + 1, |booked|);
          return;
        }
      }
      return None;
    }

    /** The next entry: passed over if it is not an original of the checkout, otherwise booked back. */
    method ReverseEntry(booked: seq<Entry>, k: nat, salon: nat, account: nat, id: nat) returns (refusal: Option<string>)
      requires k < |booked| && ReversePoints(booked, account, salon, id, k) == Success(entries)
      modifies this`entries
      ensures Writes(ReversePoints(booked, account, salon, id, k + 1), refusal, entries)
    {
      if !Original(booked[k], id) { return None; }
      if booked[k].account != account || booked[k].salon != salon { return Some("MEMBERSHIP_REQUEST_CONFLICT"); }
      refusal := BookEntry(ReversalOf(booked, k, account, salon));
    }

    // ---- Shared writes ----

    method AddMovement(m: Movement) returns (refusal: Option<string>)
      requires m.session < |registers|
      modifies this`movements
      ensures Writes(AppendMovement(registers, old(movements), m), refusal, movements)
    {
      var next := ExpectedCash(registers, movements + [m], m.session);
      if !CashRepresentable(next) { return Some("REGISTER_AMOUNT_LIMIT"); }
      if next < 0 { return Some("REGISTER_CASH_SHORTAGE"); }
      if LastWhere(movements, MovementRequest(m.salon, m.requestId)).Some? { return Some("CASH_REQUEST_CONFLICT"); }
      movements := movements + [m];
      return None;
    }

    /** The rows written after points and cash: the register's version, the reservation, the customer's total. */
    method SettleRows(salon: nat, id: nat, session: nat, status: PaymentStatus)
      requires id < |checkouts| && session < |registers| && checkouts[id].reservationId in reservations
      modifies this`registers, this`reservations, this`customers
      ensures registers == old(registers)[session := Bump(old(registers)[session])]
      ensures var rid := checkouts[id].reservationId;
              && reservations == old(reservations)[rid := old(reservations)[rid].(paymentStatus := status)]
              && customers == RefreshCustomer(checkouts, reservations, old(customers), salon, reservations[rid].context.customerId)
    {
      registers := registers[session := Bump(registers[session])];
      var rid := checkouts[id].reservationId;
      reservations := reservations[rid := reservations[rid].(paymentStatus := status)];
      RefreshAccounting(salon, reservations[rid].context.customerId);
    }

    method RefreshAccounting(salon: nat, customer: nat)
      modifies this`customers
      ensures customers == RefreshCustomer(checkouts, reservations, old(customers), salon, customer)
    {
      var total := 0;
      for i := 0 to |checkouts|
        invariant total == AccountingTotal(checkouts[..i], reservations, salon, customer)
      {
        assert checkouts[..i + 1][..i] == checkouts[..i];
        total := total + SpentBy(reservations, salon, customer)(checkouts[i]);
      }
      assert checkouts[..|checkouts|] == checkouts;
      if customer in customers && customers[customer].salon == salon {
        customers := customers[customer := Customer(salon, total)];
      }
    }

    // ---- Checkouts ----

    method FinalizeCheckout(salon: nat, id: nat, version: int, requestId: nat, register: Option<nat>, today: int)
      returns (refusal: Option<string>)
      modifies this
      ensures Commits(Finalize(old(State()), salon, id, version, requestId, register, today), refusal, old(State()), State())
    {
      var before := State();
      if !HasCheckout(before, salon, id) { return Some("CHECKOUT_NOT_FOUND"); }
      var c := checkouts[id];
      if c.finalization.Some? && c.finalization.value.requestId == requestId {
        return if c.finalization.value.body == FinalizeBody(version, register) then None else Some("CASH_REQUEST_CONFLICT");
      }
      var selection := FinalizeCheck(before, salon, c, version);
      if selection.Failure? { return Some(selection.error); }
      var session := OpenRegisterFor(registers, salon, register, today);
      if session.Failure? { return Some(session.error); }
      refusal := BookFinalization(salon, id, selection.value, Stamp(requestId, FinalizeBody(version, register), session.value));
      if refusal.Some? { RollBack(before); }
    }

    method BookFinalization(salon: nat, id: nat, s: Option<Selection>, stamp: Stamp) returns (refusal: Option<string>)
      requires HasCheckout(State(), salon, id) && HasReservation(State(), salon, checkouts[id].reservationId)
      requires stamp.session < |registers|
      modifies this
      ensures Writes(FinalizeOn(old(State()), salon, id, s, stamp), refusal, State())
    {
      var c := checkouts[id];
      var customer := reservations[c.reservationId].context.customerId;
      var discount := PrepareMembership(membership, entries, salon, customer, s);
      if discount.Failure? { return Some(discount.error); }
      if s.Some? && discount.value != c.totals.pointsDiscountYen { return Some("CASH_POINTS_DISCOUNT_MISMATCH"); }
      if s.Some? {
        refusal := FinalizeMembershipPoints(salon, customer, s.value, id, c.totals.totalYen);
        if refusal.Some? { return; }
      }
      if LastWhere(checkouts, FinalizedBy(salon, stamp.requestId)).Some? { return Some("CASH_REQUEST_CONFLICT"); }
      checkouts := checkouts[id := Closed(c, s, stamp)];
      if c.totals.cashYen > 0 {
        refusal := AddMovement(CheckoutMovement(salon, stamp.session, Sale, c.totals.cashYen, stamp.requestId, id));
        if refusal.Some? { return; }
      }
      SettleRows(salon, id, stamp.session, Paid);
      return None;
    }

    method ReverseCheckout(salon: nat, id: nat, requestId: nat, reason: string, register: Option<nat>, today: int)
      returns (refusal: Option<string>)
      modifies this
      ensures Commits(Reverse(old(State()), salon, id, requestId, reason, register, today), refusal, old(State()), State())
    {
      var before := State();
      if !HasCheckout(before, salon, id) { return Some("CHECKOUT_NOT_FOUND"); }
      var c := checkouts[id];
      if c.reversal.Some? && c.reversal.value.requestId == requestId {
        return if c.reversal.value.body == ReverseBody(reason, register) then None else Some("CASH_REQUEST_CONFLICT");
      }
      if c.status != Finalized { return Some("CASH_NOT_FINALIZED"); }
      var session := OpenRegisterFor(registers, salon, register, today);
      if session.Failure? { return Some(session.error); }
      if !HasReservation(before, salon, c.reservationId) { return Some("RESERVATION_NOT_FOUND"); }
      refusal := BookReversal(salon, id, Stamp(requestId, ReverseBody(reason, register), session.value));
      if refusal.Some? { RollBack(before); }
    }

    method BookReversal(salon: nat, id: nat, stamp: Stamp) returns (refusal: Option<string>)
      requires HasCheckout(State(), salon, id) && HasReservation(State(), salon, checkouts[id].reservationId)
      requires stamp.session < |registers|
      modifies this
      ensures Writes(ReverseOn(old(State()), salon, id, stamp), refusal, State())
    {
      var c := checkouts[id];
      if c.selection.Some? {
        refusal := ReverseMembershipPoints(salon, c.selection.value.account, id);
        if refusal.Some? { return; }
      }
      if LastWhere(checkouts, ReversedBy(salon, stamp.requestId)).Some? { return Some("CASH_REQUEST_CONFLICT"); }
      checkouts := checkouts[id := Withdrawn(c, stamp)];
      if c.totals.cashYen > 0 {
        refusal := AddMovement(CheckoutMovement(salon, stamp.session, CashRefund, c.totals.cashYen, stamp.requestId, id));
        if refusal.Some? { return; }
      }
      SettleRows(salon, id, stamp.session, Refunded);
      return None;
    }
  }
}
