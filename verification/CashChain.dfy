/**
 Checkouts of one reservation form a single chain of corrections, the reservation's payment status
 follows its last checkout, and every customer's cached total is the sum it stands for.
 */
module CashChain {
  import opened Common
  import opened CashDraft
  import opened Receipt
  import opened Reservations
  import opened Tables
  import opened CashBook
  import opened CashEffects

  // ---- The correction chain ----

  ghost predicate OnKnownReservations(cs: seq<Checkout>, reservations: map<nat, Reservation>) {
    forall i :: 0 <= i < |cs| ==> cs[i].reservationId in reservations && reservations[cs[i].reservationId].salon == cs[i].salon
  }

  /** Only the last checkout of a reservation can be open or settled; the earlier ones are reversed. */
  ghost predicate OneLive(cs: seq<Checkout>) {
    forall i, j :: 0 <= i < j < |cs| && cs[i].reservationId == cs[j].reservationId ==> cs[i].status == Reversed
  }

  /** p is the checkout of the same reservation just before j, or there is none. */
  ghost predicate Predecessor(cs: seq<Checkout>, p: Option<nat>, j: nat)
    requires j < |cs|
  {
    && (p.Some? ==> p.value < j && cs[p.value].reservationId == cs[j].reservationId)
    && forall i :: (if p.Some? then p.value + 1 else 0) <= i < j ==> cs[i].reservationId != cs[j].reservationId
  }

  ghost predicate Linear(cs: seq<Checkout>) {
    forall j :: 0 <= j < |cs| ==> Predecessor(cs, cs[j].supersedes, j)
  }

  ghost predicate LastOn(cs: seq<Checkout>, j: nat)
    requires j < |cs|
  {
    forall k :: j < k < |cs| ==> cs[k].reservationId != cs[j].reservationId
  }

  predicate PaymentFollows(c: Checkout, status: PaymentStatus) {
    && (c.status == Finalized ==> status == Paid)
    && (c.status == Reversed ==> status == Refunded)
    && (c.status == Draft && c.supersedes.Some? ==> status == Refunded)
  }

  ghost predicate PaymentsFollow(cs: seq<Checkout>, reservations: map<nat, Reservation>)
    requires OnKnownReservations(cs, reservations)
  {
    forall j :: 0 <= j < |cs| && LastOn(cs, j) ==> PaymentFollows(cs[j], reservations[cs[j].reservationId].paymentStatus)
  }

  ghost predicate ChainOk(cs: seq<Checkout>, reservations: map<nat, Reservation>) {
    OnKnownReservations(cs, reservations) && OneLive(cs) && Linear(cs) && PaymentsFollow(cs, reservations)
  }

  /** A new checkout comes after the last reversed one, which it supersedes. */
  lemma NewKeepsChain(db: Db, c: Checkout)
    requires ChainOk(db.checkouts, db.reservations) && IsNew(db, c)
    ensures ChainOk(db.checkouts + [c], db.reservations)
  {
    NewFollowsReversed(db, c);
    AppendKeepsLinks(db.checkouts, c);
    AppendKeepsPayments(db.checkouts, db.reservations, c);
  }

  lemma AppendKeepsLinks(cs: seq<Checkout>, c: Checkout)
    requires Linear(cs) && Predecessor(cs + [c], c.supersedes, |cs|)
    ensures Linear(cs + [c])
  {
    var now := cs + [c];
    forall j | 0 <= j < |now| ensures Predecessor(now, now[j].supersedes, j) {
      if j < |cs| { assert Predecessor(cs, cs[j].supersedes, j); }
    }
  }

  lemma AppendKeepsPayments(cs: seq<Checkout>, reservations: map<nat, Reservation>, c: Checkout)
    requires OnKnownReservations(cs, reservations) && PaymentsFollow(cs, reservations)
    requires OnKnownReservations(cs + [c], reservations) && c.reservationId in reservations
    requires PaymentFollows(c, reservations[c.reservationId].paymentStatus)
    ensures PaymentsFollow(cs + [c], reservations)
  {
    var now := cs + [c];
    forall j | 0 <= j < |now| && LastOn(now, j)
      ensures PaymentFollows(now[j], reservations[now[j].reservationId].paymentStatus)
    {
      if j < |cs| { LastBefore(cs, c, j); }
    }
  }

  lemma LastBefore(cs: seq<Checkout>, c: Checkout, j: nat)
    requires j < |cs| && LastOn(cs + [c], j)
    ensures LastOn(cs, j)
  {
    forall k | j < k < |cs| ensures cs[k].reservationId != cs[j].reservationId {
      assert (cs + [c])[k].reservationId != (cs + [c])[j].reservationId;
    }
  }

  lemma NewFollowsReversed(db: Db, c: Checkout)
    requires ChainOk(db.checkouts, db.reservations) && IsNew(db, c)
    ensures forall i :: 0 <= i < |db.checkouts| && db.checkouts[i].reservationId == c.reservationId ==>
              db.checkouts[i].status == Reversed
    ensures Predecessor(db.checkouts + [c], c.supersedes, |db.checkouts|)
    ensures c.supersedes.Some? ==> db.reservations[c.reservationId].paymentStatus == Refunded
  {
    var cs := db.checkouts;
    forall i | 0 <= i < |cs| && cs[i].reservationId == c.reservationId
      ensures cs[i].status == Reversed && ReversedOn(c.salon, c.reservationId)(cs[i])
    {
      assert !LiveOn(c.salon, c.reservationId)(cs[i]);
    }
    if c.supersedes.Some? {
      var p := c.supersedes.value;
      assert ReversedOn(c.salon, c.reservationId)(cs[p]);
      assert LastOn(cs, p);
    }
  }

  /** Rewriting a row that keeps its place in the chain, together with its reservation's payment status. */
  lemma RewriteKeepsChain(cs: seq<Checkout>, reservations: map<nat, Reservation>, id: nat, c: Checkout, status: PaymentStatus)
    requires ChainOk(cs, reservations) && id < |cs| && cs[id].status != Reversed
    requires c.reservationId == cs[id].reservationId && c.salon == cs[id].salon && c.supersedes == cs[id].supersedes
    requires PaymentFollows(c, status)
    ensures ChainOk(cs[id := c], reservations[c.reservationId := reservations[c.reservationId].(paymentStatus := status)])
  {
    RewriteKeepsLinks(cs, id, c);
    RewriteKeepsPayments(cs, reservations, id, c, status);
  }

  lemma RewriteKeepsLinks(cs: seq<Checkout>, id: nat, c: Checkout)
    requires OneLive(cs) && Linear(cs) && id < |cs| && cs[id].status != Reversed
    requires c.reservationId == cs[id].reservationId && c.supersedes == cs[id].supersedes
    ensures OneLive(cs[id := c]) && Linear(cs[id := c]) && LastOn(cs, id)
  {
    var now := cs[id := c];
    assert forall i :: 0 <= i < |cs| ==> now[i].reservationId == cs[i].reservationId && now[i].supersedes == cs[i].supersedes;
    forall j | 0 <= j < |now| ensures Predecessor(now, now[j].supersedes, j) {
      assert Predecessor(cs, cs[j].supersedes, j);
    }
  }

  lemma RewriteKeepsPayments(cs: seq<Checkout>, reservations: map<nat, Reservation>, id: nat, c: Checkout, status: PaymentStatus)
    requires OnKnownReservations(cs, reservations) && PaymentsFollow(cs, reservations) && id < |cs| && LastOn(cs, id)
    requires c.reservationId == cs[id].reservationId && c.salon == cs[id].salon && PaymentFollows(c, status)
    ensures var after := reservations[c.reservationId := reservations[c.reservationId].(paymentStatus := status)];
            OnKnownReservations(cs[id := c], after) && PaymentsFollow(cs[id := c], after)
  {
    var now := cs[id := c];
    var after := reservations[c.reservationId := reservations[c.reservationId].(paymentStatus := status)];
    assert forall i :: 0 <= i < |cs| ==> now[i].reservationId == cs[i].reservationId;
    forall j | 0 <= j < |now| && LastOn(now, j)
      ensures PaymentFollows(now[j], after[now[j].reservationId].paymentStatus)
    {
      assert forall k :: j < k < |cs| ==> now[k].reservationId != now[j].reservationId;
      assert LastOn(cs, j);
      assert j < id ==> now[id].reservationId != now[j].reservationId;
      assert j > id ==> now[j].reservationId != cs[id].reservationId;
    }
  }

  /** Reservation changes that leave payment statuses alone do not affect the chain. */
  lemma ReservationChangeKeepsChain(cs: seq<Checkout>, reservations: map<nat, Reservation>, after: map<nat, Reservation>)
    requires ChainOk(cs, reservations)
    requires forall r :: r in reservations ==>
               r in after && after[r].salon == reservations[r].salon && after[r].paymentStatus == reservations[r].paymentStatus
    ensures ChainOk(cs, after)
  {
  }

  // ---- The context of a finalized checkout ----

  /** What was settled is what the reservation still says: customer, service, staff and time. */
  ghost predicate ContextsAgree(cs: seq<Checkout>, reservations: map<nat, Reservation>) {
    forall i :: 0 <= i < |cs| && cs[i].status == Finalized ==>
      cs[i].reservationId in reservations && cs[i].context == reservations[cs[i].reservationId].context
  }

  lemma RewriteKeepsContexts(cs: seq<Checkout>, reservations: map<nat, Reservation>, id: nat, c: Checkout, status: PaymentStatus)
    requires ContextsAgree(cs, reservations) && id < |cs| && c.reservationId in reservations
    requires c.status == Finalized ==> c.context == reservations[c.reservationId].context
    ensures ContextsAgree(cs[id := c], reservations[c.reservationId := reservations[c.reservationId].(paymentStatus := status)])
  {
  }

  /** An edit changes the context only while nothing on the reservation is finalized. */
  lemma EditKeepsContexts(db: Db, salon: nat, id: nat, context: Context, status: ReservationStatus, price: int,
                          paymentStatus: Option<PaymentStatus>, hasChart: bool)
    requires ContextsAgree(db.checkouts, db.reservations) && OnKnownReservations(db.checkouts, db.reservations)
    requires Edit(db, salon, id, context, status, price, paymentStatus, hasChart).Success?
    ensures ContextsAgree(db.checkouts, Edit(db, salon, id, context, status, price, paymentStatus, hasChart).value.reservations)
  {
    forall i | 0 <= i < |db.checkouts| && db.checkouts[i].reservationId == id && context != db.reservations[id].context
      ensures db.checkouts[i].status != Finalized
    {
      assert !FinalizedOn(salon, id)(db.checkouts[i]);
    }
  }

  // ---- Cached customer totals ----

  ghost predicate CustomersExist(reservations: map<nat, Reservation>, customers: map<nat, Customer>) {
    forall r :: r in reservations ==>
      && reservations[r].context.customerId in customers
      && customers[reservations[r].context.customerId].salon == reservations[r].salon
  }

  ghost predicate CacheExact(cs: seq<Checkout>, reservations: map<nat, Reservation>, customers: map<nat, Customer>) {
    forall k :: k in customers ==> customers[k].totalSpent == AccountingTotal(cs, reservations, customers[k].salon, k)
  }

  ghost predicate TotalsOk(cs: seq<Checkout>, reservations: map<nat, Reservation>, customers: map<nat, Customer>) {
    CustomersExist(reservations, customers) && CacheExact(cs, reservations, customers)
  }

  lemma NewKeepsTotals(cs: seq<Checkout>, reservations: map<nat, Reservation>, customers: map<nat, Customer>, c: Checkout)
    requires TotalsOk(cs, reservations, customers) && c.status == Draft
    ensures TotalsOk(cs + [c], reservations, customers)
  {
    forall k | k in customers ensures customers[k].totalSpent == AccountingTotal(cs + [c], reservations, customers[k].salon, k) {
      TotalSnoc(cs, c, SpentBy(reservations, customers[k].salon, k));
    }
  }

  lemma RedraftKeepsTotals(cs: seq<Checkout>, reservations: map<nat, Reservation>, customers: map<nat, Customer>, id: nat, c2: Checkout)
    requires TotalsOk(cs, reservations, customers) && id < |cs| && cs[id].status == Draft && c2.status == Draft
    ensures TotalsOk(cs[id := c2], reservations, customers)
  {
    forall k | k in customers ensures customers[k].totalSpent == AccountingTotal(cs[id := c2], reservations, customers[k].salon, k) {
      TotalUpdate(cs, id, c2, SpentBy(reservations, customers[k].salon, k));
    }
  }

  /** Settling or reversing refreshes the one customer whose total it changes. */
  lemma SettleKeepsTotals(db: Db, salon: nat, id: nat, c: Checkout, entries: seq<Entry>, movements: seq<Movement>, session: nat,
                          status: PaymentStatus)
    requires TotalsOk(db.checkouts, db.reservations, db.customers)
    requires HasCheckout(db, salon, id) && HasReservation(db, salon, c.reservationId) && session < |db.registers|
    requires c.reservationId == db.checkouts[id].reservationId && c.salon == salon
    ensures var after := Settled(db, salon, id, c, entries, movements, session, status);
            TotalsOk(after.checkouts, after.reservations, after.customers)
  {
    var after := Settled(db, salon, id, c, entries, movements, session, status);
    var owner := db.reservations[c.reservationId].context.customerId;
    forall k | k in after.customers
      ensures after.customers[k].totalSpent == AccountingTotal(after.checkouts, after.reservations, after.customers[k].salon, k)
    {
      if k != owner {
        var place := db.customers[k].salon;
        TotalAgree(after.checkouts, SpentBy(after.reservations, place, k), SpentBy(db.reservations, place, k));
        TotalUpdate(db.checkouts, id, c, SpentBy(db.reservations, place, k));
      }
    }
  }

  /** A reservation may move to another customer only while nothing on it is finalized. */
  lemma EditKeepsTotals(db: Db, salon: nat, id: nat, context: Context, status: ReservationStatus, price: int,
                        paymentStatus: Option<PaymentStatus>, hasChart: bool)
    requires TotalsOk(db.checkouts, db.reservations, db.customers) && OnKnownReservations(db.checkouts, db.reservations)
    requires Edit(db, salon, id, context, status, price, paymentStatus, hasChart).Success?
    ensures var after := Edit(db, salon, id, context, status, price, paymentStatus, hasChart).value;
            TotalsOk(after.checkouts, after.reservations, after.customers)
  {
    var after := Edit(db, salon, id, context, status, price, paymentStatus, hasChart).value;
    var was := db.reservations[id].context;
    forall k | k in db.customers
      ensures db.customers[k].totalSpent == AccountingTotal(db.checkouts, after.reservations, db.customers[k].salon, k)
    {
      var place := db.customers[k].salon;
      forall i | 0 <= i < |db.checkouts|
        ensures SpentBy(after.reservations, place, k)(db.checkouts[i]) == SpentBy(db.reservations, place, k)(db.checkouts[i])
      {
        if context != was { assert !FinalizedOn(salon, id)(db.checkouts[i]); }
      }
      TotalAgree(db.checkouts, SpentBy(after.reservations, place, k), SpentBy(db.reservations, place, k));
    }
  }

  lemma BookKeepsTotals(db: Db, salon: nat, id: nat, context: Context, status: ReservationStatus, price: int)
    requires TotalsOk(db.checkouts, db.reservations, db.customers) && OnKnownReservations(db.checkouts, db.reservations)
    requires Book(db, salon, id, context, status, price).Success?
    ensures var after := Book(db, salon, id, context, status, price).value;
            TotalsOk(after.checkouts, after.reservations, after.customers)
  {
    var after := Book(db, salon, id, context, status, price).value;
    forall k | k in db.customers
      ensures db.customers[k].totalSpent == AccountingTotal(db.checkouts, after.reservations, db.customers[k].salon, k)
    {
      var place := db.customers[k].salon;
      TotalAgree(db.checkouts, SpentBy(after.reservations, place, k), SpentBy(db.reservations, place, k));
    }
  }

  lemma AddCustomerKeepsTotals(db: Db, salon: nat, customer: nat)
    requires TotalsOk(db.checkouts, db.reservations, db.customers)
    requires AddCustomer(db, salon, customer).Success?
    ensures TotalsOk(db.checkouts, db.reservations, AddCustomer(db, salon, customer).value.customers)
  {
    TotalZero(db.checkouts, SpentBy(db.reservations, salon, customer));
  }

  /** The recalculation that follows an edit never finds anything to correct. */
  lemma RecalculationIsIdle(db: Db, salon: nat, customer: nat)
    requires TotalsOk(db.checkouts, db.reservations, db.customers)
    ensures Recalculate(db, salon, customer) == db
  {
    if customer in db.customers && db.customers[customer].salon == salon {
      assert db.customers[customer] == Customer(salon, AccountingTotal(db.checkouts, db.reservations, salon, customer));
      assert db.customers[customer := db.customers[customer]] == db.customers;
    }
  }
}
