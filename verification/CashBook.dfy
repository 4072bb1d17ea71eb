/**
 The accounting state of all salons that share one membership program, and every operation that
 changes it, as functions from one committed state to the next. A failed operation leaves no trace.
 */
module CashBook {
  import opened Common
  import opened CashDraft
  import opened Receipt
  import opened Reservations
  import opened Tables

  const POLICY_VERSION := "beautygum-20261029-v1"
  const REDEMPTION_UNIT := 100
  const EARN_YEN_UNIT := 100
  const EARN_POINTS := 5

  // ---- Membership selection on a checkout ----

  datatype Decision = Use | Skip

  datatype Selection = Selection(account: nat, decision: Decision, points: int, policy: string)

  /** A request field that may be absent, or present and null. */
  datatype Field<T> = Omitted | Given(value: T)

  datatype MembershipFields = MembershipFields(account: Field<Option<nat>>, decision: Field<Option<Decision>>,
                                               points: Option<int>, policy: Field<Option<string>>)

  datatype Saved = Saved(account: Option<nat>, decision: Option<Decision>, points: Option<int>, policy: Option<string>)

  const NOTHING_SAVED := Saved(None, None, None, None)

  predicate NoUse(decision: Option<Decision>, points: Option<int>, policy: Option<string>) {
    decision.None? && (points.None? || points.value == 0) && policy.None?
  }

  function OrNull<T>(f: Field<Option<T>>): Option<T> {
    if f.Given? then f.value else None
  }

  function ResolveSelection(f: MembershipFields, previous: Saved): Result<Option<Selection>, string> {
    if f.account == Given(None) then
      if NoUse(OrNull(f.decision), f.points, OrNull(f.policy)) then Success(None)
      else Failure("CASH_MEMBER_SELECTION_INVALID")
    else
      var account := if f.account.Given? then f.account.value else previous.account;
      var changed := f.account.Given? && f.account.value != previous.account;
      var decision := if f.decision.Given? then f.decision.value else if changed then None else previous.decision;
      var points := if f.points.Some? then f.points else if changed then None else previous.points;
      var policy := if f.policy.Given? then f.policy.value else if changed then None else previous.policy;
      if account.None? then
        if NoUse(decision, points, policy) then Success(None) else Failure("CASH_MEMBER_SELECTION_INVALID")
      else if decision.Some? && points.Some? && points.value >= 0 && policy.Some? && |policy.value| > 0
      then Success(Some(Selection(account.value, decision.value, points.value, policy.value)))
      else Failure("CASH_MEMBER_DECISION_REQUIRED")
  }

  /** The membership columns of a checkout, as a later request sees them. */
  function SavedOf(s: Option<Selection>): Saved {
    match s
    case None => Saved(None, None, Some(0), None)
    case Some(x) => Saved(Some(x.account), Some(x.decision), Some(x.points), Some(x.policy))
  }

  /** The same columns read back as a complete draft. */
  function FieldsOf(s: Option<Selection>): MembershipFields {
    match s
    case None => MembershipFields(Given(None), Given(None), Some(0), Given(None))
    case Some(x) => MembershipFields(Given(Some(x.account)), Given(Some(x.decision)), Some(x.points), Given(Some(x.policy)))
  }

  function MembershipDiscount(s: Selection): Result<int, string> {
    if s.policy != POLICY_VERSION then Failure("CASH_POINT_POLICY_CHANGED")
    else if !(if s.decision == Skip then s.points == 0 else s.points > 0 && s.points % REDEMPTION_UNIT == 0)
    then Failure("CASH_POINT_UNIT_INVALID")
    else if !Bounded(s.points) then Failure("CASH_POINTS_DISCOUNT_LIMIT")
    else Success(s.points)
  }

  predicate PrepaidUse(s: Option<Selection>, status: PaymentStatus) {
    s.Some? && s.value.decision == Use && status == Paid
  }

  // ---- Tables ----

  datatype Context = Context(customerId: nat, serviceId: nat, staffId: Option<nat>, startsAt: int, endsAt: int)

  datatype Reservation = Reservation(salon: nat, context: Context, status: ReservationStatus,
                                     paymentStatus: PaymentStatus, price: int)

  datatype Customer = Customer(salon: nat, totalSpent: int)

  datatype CheckoutStatus = Draft | Finalized | Reversed

  /** The request that settled or reversed a checkout, what it contained, and its register. */
  datatype Stamp = Stamp(requestId: nat, body: StampBody, session: nat)
  datatype StampBody = FinalizeBody(version: int, register: Option<nat>) | ReverseBody(reason: string, register: Option<nat>)

  datatype Checkout = Checkout(salon: nat, reservationId: nat, createRequestId: nat, supersedes: Option<nat>,
                               status: CheckoutStatus, version: int, context: Context, payments: seq<Payment>,
                               totals: Totals, acknowledged: bool, selection: Option<Selection>, pointsAwarded: int,
                               finalization: Option<Stamp>, reversal: Option<Stamp>)

  datatype PointKind = Redeem | Earn | Refund | EarnReversal

  datatype Entry = Entry(account: nat, salon: nat, checkout: nat, kind: PointKind, delta: int, reversalOf: Option<nat>)

  datatype MovementKind = In | Out | Sale | CashRefund

  datatype MovementBody = CheckoutBody(checkout: nat, session: nat, kind: MovementKind, amountYen: int)
                        | ManualBody(session: nat, kind: MovementKind, amountYen: int, reason: string, version: int)

  datatype Movement = Movement(salon: nat, session: nat, kind: MovementKind, amountYen: int, requestId: nat, body: MovementBody)

  datatype MethodRow = MethodRow(how: PaymentMethod, salesYen: int, refundsYen: int, netYen: int)

  datatype CloseReport = CloseReport(businessDate: int, openingCashYen: int, expectedCashYen: int, countedCashYen: int,
                                     differenceYen: int, salesCount: int, refundsCount: int, salesTotalYen: int,
                                     refundsTotalYen: int, netTotalYen: int, discountYen: int, pointsDiscountYen: int,
                                     refundsPointsDiscountYen: int, taxYen: int, refundsTaxYen: int,
                                     rows: seq<MethodRow>, movementCount: int)

  datatype CloseBody = CloseBody(version: int, countedCashYen: int, note: string)

  datatype Closing = Closing(requestId: nat, body: CloseBody, report: CloseReport)

  /** A register session; it is open until it has a closing. */
  datatype Register = Register(salon: nat, businessDate: int, version: int, openingCashYen: int, createRequestId: nat,
                               closing: Option<Closing>)

  datatype Link = Link(account: nat, salon: nat, customer: nat)

  /** Whether the program is active, which accounts exist and are active, and who they are linked to. */
  datatype Membership = Membership(programActive: bool, accounts: map<nat, bool>, links: set<Link>)

  datatype Db = Db(checkouts: seq<Checkout>, entries: seq<Entry>, registers: seq<Register>, movements: seq<Movement>,
                   reservations: map<nat, Reservation>, customers: map<nat, Customer>, membership: Membership)

  // ---- The point ledger ----

  function DeltaOf(account: nat): Entry -> int {
    (e: Entry) => if e.account == account then e.delta else 0
  }

  function Balance(entries: seq<Entry>, account: nat): int {
    Total(entries, DeltaOf(account))
  }

  function Max(x: int, y: int): int {
    if x >= y then x else y
  }

  function EarnFor(totalYen: int): int {
    totalYen / EARN_YEN_UNIT * EARN_POINTS
  }

  /** The member's available points, if the account is usable for this customer here. */
  function ReadMembership(m: Membership, entries: seq<Entry>, salon: nat, customer: nat, account: nat): Result<int, string> {
    if !m.programActive then Failure("MEMBERSHIP_UNAVAILABLE")
    else if account !in m.accounts || !m.accounts[account] then Failure("MEMBERSHIP_ACCOUNT_UNAVAILABLE")
    else if Link(account, salon, customer) !in m.links then Failure("MEMBERSHIP_CUSTOMER_MISMATCH")
    else Success(Max(0, Balance(entries, account)))
  }

  /** The discount of a selection that the member can afford. */
  function PrepareMembership(m: Membership, entries: seq<Entry>, salon: nat, customer: nat,
                             s: Option<Selection>): Result<int, string>
  {
    if s.None? then Success(0)
    else
      var available := ReadMembership(m, entries, salon, customer, s.value.account);
      if available.Failure? then Failure(available.error)
      else
        var discount := MembershipDiscount(s.value);
        if discount.Failure? then discount
        else if s.value.points > available.value then Failure("CASH_POINTS_INSUFFICIENT")
        else discount
  }

  function EntryFor(checkout: nat, kind: PointKind): Entry -> bool {
    (e: Entry) => e.checkout == checkout && e.kind == kind
  }

  /** One entry per checkout and kind; a repeat must be identical. */
  function WriteEntry(entries: seq<Entry>, e: Entry): Result<seq<Entry>, string> {
    if e.delta == 0 then Success(entries)
    else
      var found := LastWhere(entries, EntryFor(e.checkout, e.kind));
      if found.None? then Success(entries + [e])
      else if entries[found.value] == e then Success(entries)
      else Failure("MEMBERSHIP_REQUEST_CONFLICT")
  }

  function ValidateUse(points: int, available: int, maxDiscountYen: int, policy: string): Option<string> {
    if policy != POLICY_VERSION then Some("MEMBERSHIP_POLICY_CHANGED")
    else if points < 0 || points % REDEMPTION_UNIT != 0 then Some("MEMBERSHIP_POINTS_UNIT")
    else if points > available then Some("MEMBERSHIP_POINTS_SHORTAGE")
    else if points > maxDiscountYen then Some("MEMBERSHIP_DISCOUNT_LIMIT")
    else None
  }

  predicate Original(e: Entry, checkout: nat) {
    e.checkout == checkout && (e.kind == Redeem || e.kind == Earn)
  }

  /** Points restored to the balance before re-checking a redemption that is already booked. */
  function RestoredPoints(entries: seq<Entry>, id: nat, account: nat): int {
    var found := LastWhere(entries, EntryFor(id, Redeem));
    if found.Some? && entries[found.value].account == account then -entries[found.value].delta else 0
  }

  function FinalizePoints(m: Membership, entries: seq<Entry>, salon: nat, customer: nat, s: Selection, id: nat,
                          totalYen: int): Result<seq<Entry>, string>
  {
    var available := ReadMembership(m, entries, salon, customer, s.account);
    var earn := EarnFor(totalYen);
    if available.Failure? then Failure(available.error)
    else if !Bounded(totalYen) then Failure("MEMBERSHIP_AMOUNT_INVALID")
    else
      var refusal := ValidateUse(s.points, available.value + RestoredPoints(entries, id, s.account),
                                 totalYen + s.points, s.policy);
      if refusal.Some? then Failure(refusal.value)
      else if AnyWhere(entries, (e: Entry) => Original(e, id)
                && !(e.account == s.account && e.delta == if e.kind == Redeem then -s.points else earn))
      then Failure("MEMBERSHIP_REQUEST_CONFLICT")
      else
        var redeemed := WriteEntry(entries, Entry(s.account, salon, id, Redeem, -s.points, None));
        if redeemed.Failure? then redeemed
        else WriteEntry(redeemed.value, Entry(s.account, salon, id, Earn, earn, None))
  }

  /** The reversal of the entry at index i, written for the account that had it. */
  function ReversalOf(entries: seq<Entry>, i: nat, account: nat, salon: nat): Entry
    requires i < |entries|
  {
    Entry(account, salon, entries[i].checkout, if entries[i].kind == Redeem then Refund else EarnReversal,
          -entries[i].delta, Some(i))
  }

  /** Reverses the originals among the first k entries, in the order in which they were booked. */
  function ReversePoints(entries: seq<Entry>, account: nat, salon: nat, id: nat, k: nat): (r: Result<seq<Entry>, string>)
    requires k <= |entries|
    ensures r.Success? ==> entries <= r.value
  {
    if k == 0 then Success(entries)
    else
      var before := ReversePoints(entries, account, salon, id, k - 1);
      if before.Failure? || !Original(entries[k - 1], id) then before
      else if entries[k - 1].account != account || entries[k - 1].salon != salon
      then Failure("MEMBERSHIP_REQUEST_CONFLICT")
      else
        var r := WriteEntry(before.value, ReversalOf(entries, k - 1, account, salon));
        r
  }

  // ---- Register cash ----

  function SignedIn(session: nat): Movement -> int {
    (m: Movement) => if m.session != session then 0
                     else if m.kind == In || m.kind == Sale then m.amountYen else -m.amountYen
  }

  function CountIn(session: nat): Movement -> int {
    (m: Movement) => if m.session == session then 1 else 0
  }

  function ExpectedCash(registers: seq<Register>, movements: seq<Movement>, session: nat): int
    requires session < |registers|
  {
    registers[session].openingCashYen + Total(movements, SignedIn(session))
  }

  predicate CashRepresentable(x: int) {
    -CASH_MAX_YEN <= x <= CASH_MAX_YEN
  }

  /** The register a settlement is booked on: given, open and of today. */
  function OpenRegisterFor(registers: seq<Register>, salon: nat, register: Option<nat>, today: int): (r: Result<nat, string>)
    ensures r.Success? ==> r.value < |registers| && registers[r.value].salon == salon && registers[r.value].closing.None?
  {
    if register.None? then Failure("REGISTER_REQUIRED")
    else if register.value >= |registers| || registers[register.value].salon != salon then Failure("REGISTER_NOT_FOUND")
    else if registers[register.value].closing.Some? then Failure("REGISTER_CLOSED")
    else if registers[register.value].businessDate != today then Failure("REGISTER_DAY_MISMATCH")
    else Success(register.value)
  }

  function MovementRequest(salon: nat, requestId: nat): Movement -> bool {
    (m: Movement) => m.salon == salon && m.requestId == requestId
  }

  /** Appends a movement if the register stays within its limits and the request number is new. */
  function AppendMovement(registers: seq<Register>, movements: seq<Movement>, m: Movement): Result<seq<Movement>, string>
    requires m.session < |registers|
  {
    var next := ExpectedCash(registers, movements + [m], m.session);
    if !CashRepresentable(next) then Failure("REGISTER_AMOUNT_LIMIT")
    else if next < 0 then Failure("REGISTER_CASH_SHORTAGE")
    else if LastWhere(movements, MovementRequest(m.salon, m.requestId)).Some? then Failure("CASH_REQUEST_CONFLICT")
    else Success(movements + [m])
  }

  function CheckoutMovement(salon: nat, session: nat, kind: MovementKind, amountYen: int, requestId: nat, id: nat): Movement {
    Movement(salon, session, kind, amountYen, requestId, CheckoutBody(id, session, kind, amountYen))
  }

  function Bump(r: Register): Register {
    r.(version := r.version + 1)
  }

  // ---- Lookups ----

  function CreatedBy(salon: nat, requestId: nat): Checkout -> bool {
    (c: Checkout) => c.salon == salon && c.createRequestId == requestId
  }

  function LiveOn(salon: nat, reservationId: nat): Checkout -> bool {
    (c: Checkout) => c.salon == salon && c.reservationId == reservationId && c.status != Reversed
  }

  function ReversedOn(salon: nat, reservationId: nat): Checkout -> bool {
    (c: Checkout) => c.salon == salon && c.reservationId == reservationId && c.status == Reversed
  }

  function FinalizedBy(salon: nat, requestId: nat): Checkout -> bool {
    (c: Checkout) => c.salon == salon && c.finalization.Some? && c.finalization.value.requestId == requestId
  }

  function ReversedBy(salon: nat, requestId: nat): Checkout -> bool {
    (c: Checkout) => c.salon == salon && c.reversal.Some? && c.reversal.value.requestId == requestId
  }

  predicate HasCheckout(db: Db, salon: nat, id: nat) {
    id < |db.checkouts| && db.checkouts[id].salon == salon
  }

  predicate HasReservation(db: Db, salon: nat, id: nat) {
    id in db.reservations && db.reservations[id].salon == salon
  }

  // ---- The cached customer total ----

  function SpentBy(reservations: map<nat, Reservation>, salon: nat, customer: nat): Checkout -> int {
    (c: Checkout) => if && c.status == Finalized && c.salon == salon
                        && c.reservationId in reservations && reservations[c.reservationId].salon == salon
                        && reservations[c.reservationId].context.customerId == customer
                     then c.totals.totalYen else 0
  }

  function AccountingTotal(checkouts: seq<Checkout>, reservations: map<nat, Reservation>, salon: nat, customer: nat): int {
    Total(checkouts, SpentBy(reservations, salon, customer))
  }

  function RefreshCustomer(checkouts: seq<Checkout>, reservations: map<nat, Reservation>, customers: map<nat, Customer>,
                           salon: nat, customer: nat): map<nat, Customer>
  {
    if customer in customers && customers[customer].salon == salon
    then customers[customer := Customer(salon, AccountingTotal(checkouts, reservations, salon, customer))]
    else customers
  }

  // ---- Checkout operations ----

  /** What the request schema demands of a stored or submitted draft. */
  predicate WellFormedDraft(items: seq<Item>, payments: seq<Payment>, points: int) {
    1 <= |items| <= 100 && |payments| <= 20 && ValidItems(items) && ValidPayments(payments) && Bounded(points)
  }

  function StandardItems(price: int): seq<Item> {
    [Item(1, price, 0, 10)]
  }

  function CheckedTotals(items: seq<Item>, payments: seq<Payment>, points: int): Result<Totals, string> {
    if WellFormedDraft(items, payments, points) then Calculate(items, payments, points) else Failure("INVALID_INPUT")
  }

  /** A repeated creation may state its selection again, but not another one. */
  function CreationConflict(s: Option<Selection>, c: Checkout): bool {
    s.Some? && s != c.selection
  }

  function Create(db: Db, salon: nat, reservationId: nat, requestId: nat, fields: MembershipFields): Result<Db, string> {
    var selection := ResolveSelection(fields, NOTHING_SAVED);
    if selection.Failure? then Failure(selection.error)
    else
      var retried := LastWhere(db.checkouts, CreatedBy(salon, requestId));
      if retried.Some? then
        if db.checkouts[retried.value].reservationId != reservationId then Failure("CASH_REQUEST_CONFLICT")
        else if CreationConflict(selection.value, db.checkouts[retried.value]) then Failure("CASH_MEMBER_SELECTION_CONFLICT")
        else Success(db)
      else
        var existing := LastWhere(db.checkouts, LiveOn(salon, reservationId));
        if existing.Some? then
          if CreationConflict(selection.value, db.checkouts[existing.value]) then Failure("CASH_MEMBER_SELECTION_CONFLICT")
          else Success(db)
        else
          CreateNew(db, salon, reservationId, requestId, selection.value)
  }

  function CreateNew(db: Db, salon: nat, reservationId: nat, requestId: nat, s: Option<Selection>): Result<Db, string> {
    var previous := LastWhere(db.checkouts, ReversedOn(salon, reservationId));
    if !HasReservation(db, salon, reservationId) then Failure("RESERVATION_NOT_FOUND")
    else
      var reservation := db.reservations[reservationId];
      if Gone(reservation.status) then Failure("CASH_RESERVATION_CANCELLED")
      else if reservation.paymentStatus == Refunded && previous.None? then Failure("CASH_RESERVATION_REFUNDED")
      else if PrepaidUse(s, reservation.paymentStatus) then Failure("CASH_PREPAID_POINT_USE_UNAVAILABLE")
      else
        var discount := PrepareMembership(db.membership, db.entries, salon, reservation.context.customerId, s);
        if discount.Failure? then Failure(discount.error)
        else
          var totals := CheckedTotals(StandardItems(reservation.price), [], discount.value);
          if totals.Failure? then Failure(totals.error)
          else
            Success(db.(checkouts := db.checkouts + [Checkout(salon, reservationId, requestId, previous, Draft, 1,
                                                              reservation.context, [], totals.value, false, s, 0, None, None)]))
  }

  datatype DraftInput = DraftInput(version: int, items: seq<Item>, payments: seq<Payment>, points: Option<int>,
                                   fields: MembershipFields, acknowledged: bool)

  function VersionRefusal(c: Checkout, version: int): Option<string> {
    if c.status != Draft then Some("CASH_RECORD_SETTLED")
    else if c.version != version then Some("CASH_VERSION_CONFLICT")
    else None
  }

  /** The points discount of a saved draft: the member's, the one entered, or the one kept. */
  function PointsFor(c: Checkout, s: Option<Selection>, discount: int, entered: Option<int>): int {
    if s.Some? then discount
    else if entered.Some? then entered.value
    else if c.selection.Some? then 0
    else c.totals.pointsDiscountYen
  }

  function Update(db: Db, salon: nat, id: nat, draft: DraftInput): Result<Db, string> {
    if !HasCheckout(db, salon, id) then Failure("CHECKOUT_NOT_FOUND")
    else
      var c := db.checkouts[id];
      var stale := VersionRefusal(c, draft.version);
      var selection := ResolveSelection(draft.fields, SavedOf(c.selection));
      if stale.Some? then Failure(stale.value)
      else if selection.Failure? then Failure(selection.error)
      else if !HasReservation(db, salon, c.reservationId) then Failure("RESERVATION_NOT_FOUND")
      else
        var s := selection.value;
        var reservation := db.reservations[c.reservationId];
        if PrepaidUse(s, reservation.paymentStatus) then Failure("CASH_PREPAID_POINT_USE_UNAVAILABLE")
        else
          var discount := PrepareMembership(db.membership, db.entries, salon, reservation.context.customerId, s);
          if discount.Failure? then Failure(discount.error)
          else if s.Some? && draft.points.Some? && draft.points.value != discount.value
          then Failure("CASH_POINTS_DISCOUNT_MISMATCH")
          else
            var totals := CheckedTotals(draft.items, draft.payments, PointsFor(c, s, discount.value, draft.points));
            if totals.Failure? then Failure(totals.error)
            else
              Success(db.(checkouts := db.checkouts[id := Redrafted(c, c.context, draft.payments, totals.value,
                                                                    draft.acknowledged, s)]))
  }

  /** A draft with new contents. */
  function Redrafted(c: Checkout, context: Context, payments: seq<Payment>, totals: Totals, acknowledged: bool,
                     s: Option<Selection>): Checkout
  {
    c.(version := c.version + 1, context := context, payments := payments, totals := totals,
       acknowledged := acknowledged, selection := s, pointsAwarded := 0)
  }

  function Refresh(db: Db, salon: nat, id: nat, version: int): Result<Db, string> {
    if !HasCheckout(db, salon, id) then Failure("CHECKOUT_NOT_FOUND")
    else
      var c := db.checkouts[id];
      var stale := VersionRefusal(c, version);
      if stale.Some? then Failure(stale.value)
      else if !HasReservation(db, salon, c.reservationId) then Failure("RESERVATION_NOT_FOUND")
      else
        var reservation := db.reservations[c.reservationId];
        if Gone(reservation.status) then Failure("CASH_RESERVATION_CANCELLED")
        else
          var totals := CheckedTotals(StandardItems(reservation.price), [], 0);
          if totals.Failure? then Failure(totals.error)
          else
            Success(db.(checkouts := db.checkouts[id := Redrafted(c, reservation.context, [], totals.value, false, None)]))
  }

  /** The correction chain allows settling a refunded reservation again. */
  predicate Recheckout(db: Db, salon: nat, c: Checkout) {
    && c.supersedes.Some? && HasCheckout(db, salon, c.supersedes.value)
    && db.checkouts[c.supersedes.value].reservationId == c.reservationId
    && db.checkouts[c.supersedes.value].status == Reversed
  }

  /** Everything finalization checks before it touches points and cash; gives the selection and discount. */
  function FinalizeCheck(db: Db, salon: nat, c: Checkout, version: int): Result<Option<Selection>, string> {
    var stale := VersionRefusal(c, version);
    if stale.Some? then Failure(stale.value)
    else if !HasReservation(db, salon, c.reservationId) then Failure("RESERVATION_NOT_FOUND")
    else
      var reservation := db.reservations[c.reservationId];
      if Gone(reservation.status) then Failure("CASH_RESERVATION_CANCELLED")
      else if c.context != reservation.context then Failure("CASH_RESERVATION_CHANGED")
      else
        var selection := ResolveSelection(FieldsOf(c.selection), NOTHING_SAVED);
        if selection.Failure? then selection
        else if PrepaidUse(selection.value, reservation.paymentStatus) then Failure("CASH_PREPAID_POINT_USE_UNAVAILABLE")
        else
          var totals := CheckedTotals(ItemsOf(c.totals.lines), c.payments, c.totals.pointsDiscountYen);
          if totals.Failure? then Failure(totals.error)
          else if !(&& totals.value.totalYen == c.totals.totalYen && totals.value.cashYen == c.totals.cashYen
                    && totals.value.taxYen == c.totals.taxYen)
          then Failure("CASH_SNAPSHOT_MISMATCH")
          else
            var unsettled := SettlementRefusal(c.payments, c.acknowledged, totals.value, reservation.paymentStatus,
                                               Recheckout(db, salon, c));
            if unsettled.Some? then Failure(unsettled.value) else selection
  }

  function Finalize(db: Db, salon: nat, id: nat, version: int, requestId: nat, register: Option<nat>, today: int): Result<Db, string> {
    if !HasCheckout(db, salon, id) then Failure("CHECKOUT_NOT_FOUND")
    else
      var c := db.checkouts[id];
      var body := FinalizeBody(version, register);
      if c.finalization.Some? && c.finalization.value.requestId == requestId then
        if c.finalization.value.body == body then Success(db) else Failure("CASH_REQUEST_CONFLICT")
      else
        var selection := FinalizeCheck(db, salon, c, version);
        if selection.Failure? then Failure(selection.error)
        else
          var session := OpenRegisterFor(db.registers, salon, register, today);
          if session.Failure? then Failure(session.error)
          else FinalizeOn(db, salon, id, selection.value, Stamp(requestId, body, session.value))
  }

  /** Points, the checkout row, the register and the reservation, once everything else is settled. */
  function FinalizeOn(db: Db, salon: nat, id: nat, s: Option<Selection>, stamp: Stamp): Result<Db, string>
    requires HasCheckout(db, salon, id) && HasReservation(db, salon, db.checkouts[id].reservationId)
    requires stamp.session < |db.registers|
  {
    var c := db.checkouts[id];
    var customer := db.reservations[c.reservationId].context.customerId;
    var discount := PrepareMembership(db.membership, db.entries, salon, customer, s);
    if discount.Failure? then Failure(discount.error)
    else if s.Some? && discount.value != c.totals.pointsDiscountYen then Failure("CASH_POINTS_DISCOUNT_MISMATCH")
    else
      var entries := if s.Some?
                     then FinalizePoints(db.membership, db.entries, salon, customer, s.value, id, c.totals.totalYen)
                     else Success(db.entries);
      if entries.Failure? then Failure(entries.error)
      else if LastWhere(db.checkouts, FinalizedBy(salon, stamp.requestId)).Some? then Failure("CASH_REQUEST_CONFLICT")
      else
        var movements := if c.totals.cashYen > 0
                         then AppendMovement(db.registers, db.movements,
                                CheckoutMovement(salon, stamp.session, Sale, c.totals.cashYen, stamp.requestId, id))
                         else Success(db.movements);
        if movements.Failure? then Failure(movements.error)
        else Success(Settled(db, salon, id, Closed(c, s, stamp), entries.value, movements.value, stamp.session, Paid))
  }

  /** The checkout row once it is finalized. */
  function Closed(c: Checkout, s: Option<Selection>, stamp: Stamp): Checkout {
    c.(status := Finalized, version := c.version + 1, finalization := Some(stamp),
       pointsAwarded := if s.Some? then EarnFor(c.totals.totalYen) else c.pointsAwarded)
  }

  /** The state after a checkout row, its points and its cash are booked on a register. */
  function Settled(db: Db, salon: nat, id: nat, c: Checkout, entries: seq<Entry>, movements: seq<Movement>, session: nat,
                   status: PaymentStatus): Db
    requires HasCheckout(db, salon, id) && HasReservation(db, salon, c.reservationId) && session < |db.registers|
  {
    var checkouts := db.checkouts[id := c];
    var r := db.reservations[c.reservationId].(paymentStatus := status);
    var reservations := db.reservations[c.reservationId := r];
    Db(checkouts, entries, db.registers[session := Bump(db.registers[session])], movements, reservations,
       RefreshCustomer(checkouts, reservations, db.customers, salon, r.context.customerId), db.membership)
  }

  function Reverse(db: Db, salon: nat, id: nat, requestId: nat, reason: string, register: Option<nat>, today: int): Result<Db, string> {
    if !HasCheckout(db, salon, id) then Failure("CHECKOUT_NOT_FOUND")
    else
      var c := db.checkouts[id];
      var body := ReverseBody(reason, register);
      if c.reversal.Some? && c.reversal.value.requestId == requestId then
        if c.reversal.value.body == body then Success(db) else Failure("CASH_REQUEST_CONFLICT")
      else if c.status != Finalized then Failure("CASH_NOT_FINALIZED")
      else
        var session := OpenRegisterFor(db.registers, salon, register, today);
        if session.Failure? then Failure(session.error)
        else if !HasReservation(db, salon, c.reservationId) then Failure("RESERVATION_NOT_FOUND")
        else ReverseOn(db, salon, id, Stamp(requestId, body, session.value))
  }

  function ReverseOn(db: Db, salon: nat, id: nat, stamp: Stamp): Result<Db, string>
    requires HasCheckout(db, salon, id) && HasReservation(db, salon, db.checkouts[id].reservationId)
    requires stamp.session < |db.registers|
  {
    var c := db.checkouts[id];
    var entries := if c.selection.None? then Success(db.entries)
                   else if c.selection.value.account !in db.membership.accounts then Failure("MEMBERSHIP_ACCOUNT_UNAVAILABLE")
                   else ReversePoints(db.entries, c.selection.value.account, salon, id, |db.entries|);
    if entries.Failure? then Failure(entries.error)
    else if LastWhere(db.checkouts, ReversedBy(salon, stamp.requestId)).Some? then Failure("CASH_REQUEST_CONFLICT")
    else
      var movements := if c.totals.cashYen > 0
                       then AppendMovement(db.registers, db.movements,
                              CheckoutMovement(salon, stamp.session, CashRefund, c.totals.cashYen, stamp.requestId, id))
                       else Success(db.movements);
      if movements.Failure? then Failure(movements.error)
      else Success(Settled(db, salon, id, Withdrawn(c, stamp), entries.value, movements.value, stamp.session, Refunded))
  }

  /** The checkout row once it is reversed. */
  function Withdrawn(c: Checkout, stamp: Stamp): Checkout {
    c.(status := Reversed, version := c.version + 1, reversal := Some(stamp))
  }

  // ---- Register operations ----

  function OpenedBy(salon: nat, requestId: nat): Register -> bool {
    (r: Register) => r.salon == salon && r.createRequestId == requestId
  }

  function ClosedBy(salon: nat, requestId: nat): Register -> bool {
    (r: Register) => r.salon == salon && r.closing.Some? && r.closing.value.requestId == requestId
  }

  function OccupiesDay(salon: nat, date: int): Register -> bool {
    (r: Register) => r.salon == salon && (r.businessDate == date || r.closing.None?)
  }

  function OpenRegister(db: Db, salon: nat, date: int, openingCashYen: int, requestId: nat, today: int): Result<Db, string> {
    var retried := LastWhere(db.registers, OpenedBy(salon, requestId));
    if !Bounded(openingCashYen) then Failure("INVALID_INPUT")
    else if retried.Some? then
      if db.registers[retried.value].businessDate == date && db.registers[retried.value].openingCashYen == openingCashYen
      then Success(db) else Failure("CASH_REQUEST_CONFLICT")
    else if date != today then Failure("REGISTER_DAY_MISMATCH")
    else if LastWhere(db.registers, OccupiesDay(salon, date)).Some? then Failure("REGISTER_ALREADY_EXISTS")
    else Success(db.(registers := db.registers + [Register(salon, date, 1, openingCashYen, requestId, None)]))
  }

  predicate HasRegister(db: Db, salon: nat, id: nat) {
    id < |db.registers| && db.registers[id].salon == salon
  }

  function RegisterRefusal(r: Register, version: int): Option<string> {
    if r.closing.Some? then Some("CASH_RECORD_SETTLED")
    else if r.version != version then Some("CASH_VERSION_CONFLICT")
    else None
  }

  function Move(db: Db, salon: nat, id: nat, version: int, requestId: nat, kind: MovementKind, amountYen: int,
                reason: string): Result<Db, string>
  {
    var body := ManualBody(id, kind, amountYen, reason, version);
    var retried := LastWhere(db.movements, MovementRequest(salon, requestId));
    if !(kind == In || kind == Out) || !(0 < amountYen <= CASH_MAX_YEN) then Failure("INVALID_INPUT")
    else if !HasRegister(db, salon, id) then Failure("REGISTER_NOT_FOUND")
    else if retried.Some? then
      if db.movements[retried.value].body == body && db.movements[retried.value].session == id
      then Success(db) else Failure("CASH_REQUEST_CONFLICT")
    else
      var stale := RegisterRefusal(db.registers[id], version);
      if stale.Some? then Failure(stale.value)
      else
        var movements := AppendMovement(db.registers, db.movements, Movement(salon, id, kind, amountYen, requestId, body));
        if movements.Failure? then Failure(movements.error)
        else Success(db.(movements := movements.value, registers := db.registers[id := Bump(db.registers[id])]))
  }

  // ---- Closing a register ----

  predicate SoldIn(c: Checkout, session: nat) {
    c.finalization.Some? && c.finalization.value.session == session
  }

  predicate ReversedIn(c: Checkout, session: nat) {
    c.reversal.Some? && c.reversal.value.session == session
  }

  /** An amount read from the calculation and the payments of a checkout. */
  type Column = (Totals, seq<Payment>) -> int

  /** A column of the checkouts sold in a session, or reversed there; zero elsewhere. */
  function Sold(session: nat, f: Column): Checkout -> int {
    (c: Checkout) => if c.finalization.Some? && c.finalization.value.session == session then f(c.totals, c.payments) else 0
  }

  function TakenBack(session: nat, f: Column): Checkout -> int {
    (c: Checkout) => if c.reversal.Some? && c.reversal.value.session == session then f(c.totals, c.payments) else 0
  }

  const ONE: Column := (t: Totals, payments: seq<Payment>) => 1
  const TOTAL_YEN: Column := (t: Totals, payments: seq<Payment>) => t.totalYen
  const CASH_YEN: Column := (t: Totals, payments: seq<Payment>) => t.cashYen
  const DISCOUNT_YEN: Column := (t: Totals, payments: seq<Payment>) => t.discountYen
  const POINTS_YEN: Column := (t: Totals, payments: seq<Payment>) => t.pointsDiscountYen
  const TAX_YEN: Column := (t: Totals, payments: seq<Payment>) => t.taxYen

  function PaidBy(how: PaymentMethod): Column {
    (t: Totals, payments: seq<Payment>) => Sum(AmountsBy(payments, how))
  }

  const METHODS: seq<PaymentMethod> := [Cash, Card, Bank, ExternalPrepayment, Other]

  function RowFor(checkouts: seq<Checkout>, session: nat, how: PaymentMethod): MethodRow {
    var sales := Total(checkouts, Sold(session, PaidBy(how)));
    var refunds := Total(checkouts, TakenBack(session, PaidBy(how)));
    MethodRow(how, sales, refunds, sales - refunds)
  }

  function Report(checkouts: seq<Checkout>, registers: seq<Register>, movements: seq<Movement>, id: nat, counted: int): CloseReport
    requires id < |registers|
  {
    var expected := ExpectedCash(registers, movements, id);
    var sales := Total(checkouts, Sold(id, TOTAL_YEN));
    var refunds := Total(checkouts, TakenBack(id, TOTAL_YEN));
    CloseReport(registers[id].businessDate, registers[id].openingCashYen, expected, counted, counted - expected,
                Total(checkouts, Sold(id, ONE)), Total(checkouts, TakenBack(id, ONE)), sales, refunds, sales - refunds,
                Total(checkouts, Sold(id, DISCOUNT_YEN)), Total(checkouts, Sold(id, POINTS_YEN)),
                Total(checkouts, TakenBack(id, POINTS_YEN)), Total(checkouts, Sold(id, TAX_YEN)),
                Total(checkouts, TakenBack(id, TAX_YEN)),
                seq(|METHODS|, i requires 0 <= i < |METHODS| => RowFor(checkouts, id, METHODS[i])),
                Total(movements, CountIn(id)))
  }

  function Close(db: Db, salon: nat, id: nat, version: int, requestId: nat, counted: int, note: string): Result<Db, string> {
    if !Bounded(counted) then Failure("INVALID_INPUT")
    else if !HasRegister(db, salon, id) then Failure("REGISTER_NOT_FOUND")
    else
      var r := db.registers[id];
      var body := CloseBody(version, counted, note);
      if r.closing.Some? && r.closing.value.requestId == requestId then
        if r.closing.value.body == body then Success(db) else Failure("CASH_REQUEST_CONFLICT")
      else
        var stale := RegisterRefusal(r, version);
        if stale.Some? then Failure(stale.value)
        else if !CashRepresentable(ExpectedCash(db.registers, db.movements, id)) then Failure("REGISTER_AMOUNT_LIMIT")
        else if LastWhere(db.registers, ClosedBy(salon, requestId)).Some? then Failure("CASH_REQUEST_CONFLICT")
        else
          Success(db.(registers := db.registers[id := ClosedRegister(r, requestId, body,
                                     Report(db.checkouts, db.registers, db.movements, id, counted))]))
  }

  function ClosedRegister(r: Register, requestId: nat, body: CloseBody, report: CloseReport): Register {
    r.(version := r.version + 1, closing := Some(Closing(requestId, body, report)))
  }

  // ---- Reservations, customers and the membership program ----

  /** A customer record, with nothing spent. */
  function AddCustomer(db: Db, salon: nat, customer: nat): Result<Db, string> {
    if customer in db.customers then Failure("CUSTOMER_EXISTS")
    else Success(db.(customers := db.customers[customer := Customer(salon, 0)]))
  }

  function Book(db: Db, salon: nat, id: nat, context: Context, status: ReservationStatus, price: int): Result<Db, string> {
    if id in db.reservations then Failure("RESERVATION_EXISTS")
    else if context.customerId !in db.customers || db.customers[context.customerId].salon != salon
    then Failure("CUSTOMER_NOT_FOUND")
    else Success(db.(reservations := db.reservations[id := Reservation(salon, context, status, Unpaid, price)]))
  }

  function FinalizedOn(salon: nat, id: nat): Checkout -> bool {
    (c: Checkout) => c.salon == salon && c.reservationId == id && c.status == Finalized
  }

  /** Staff may change anything but the payment status; the context only without a checkout or chart. */
  function Edit(db: Db, salon: nat, id: nat, context: Context, status: ReservationStatus, price: int,
                paymentStatus: Option<PaymentStatus>, hasChart: bool): Result<Db, string>
  {
    if !HasReservation(db, salon, id) then Failure("RESERVATION_NOT_FOUND")
    else
      var r := db.reservations[id];
      if paymentStatus.Some? && paymentStatus.value != r.paymentStatus then Failure("CHECKOUT_REQUIRED")
      else if context.customerId !in db.customers || db.customers[context.customerId].salon != salon
      then Failure("CUSTOMER_NOT_FOUND")
      else if context != r.context && (hasChart || LastWhere(db.checkouts, FinalizedOn(salon, id)).Some?)
      then Failure("RESERVATION_RECORDED")
      else Success(db.(reservations := db.reservations[id := r.(context := context, status := status, price := price)]))
  }

  /** The separate recalculation that follows every edit. */
  function Recalculate(db: Db, salon: nat, customer: nat): Db {
    db.(customers := RefreshCustomer(db.checkouts, db.reservations, db.customers, salon, customer))
  }

  // ---- Runs ----

  datatype Step =
    | DoCreate(salon: nat, reservationId: nat, requestId: nat, fields: MembershipFields)
    | DoUpdate(salon: nat, id: nat, draft: DraftInput)
    | DoRefresh(salon: nat, id: nat, version: int)
    | DoFinalize(salon: nat, id: nat, version: int, requestId: nat, register: Option<nat>, today: int)
    | DoReverse(salon: nat, id: nat, requestId: nat, reason: string, register: Option<nat>, today: int)
    | DoOpen(salon: nat, date: int, openingCashYen: int, requestId: nat, today: int)
    | DoMove(salon: nat, id: nat, version: int, requestId: nat, kind: MovementKind, amountYen: int, reason: string)
    | DoClose(salon: nat, id: nat, version: int, requestId: nat, counted: int, note: string)
    | DoAddCustomer(salon: nat, customer: nat)
    | DoBook(salon: nat, id: nat, context: Context, status: ReservationStatus, price: int)
    | DoEdit(salon: nat, id: nat, context: Context, status: ReservationStatus, price: int,
             paymentStatus: Option<PaymentStatus>, hasChart: bool)
    | DoRecalculate(salon: nat, customer: nat)
    | DoMembership(membership: Membership)

  function Attempt(db: Db, step: Step): Result<Db, string> {
    match step
    case DoCreate(salon, reservationId, requestId, fields) => Create(db, salon, reservationId, requestId, fields)
    case DoUpdate(salon, id, draft) => Update(db, salon, id, draft)
    case DoRefresh(salon, id, version) => Refresh(db, salon, id, version)
    case DoFinalize(salon, id, version, requestId, register, today) =>
      Finalize(db, salon, id, version, requestId, register, today)
    case DoReverse(salon, id, requestId, reason, register, today) =>
      Reverse(db, salon, id, requestId, reason, register, today)
    case DoOpen(salon, date, opening, requestId, today) => OpenRegister(db, salon, date, opening, requestId, today)
    case DoMove(salon, id, version, requestId, kind, amount, reason) =>
      Move(db, salon, id, version, requestId, kind, amount, reason)
    case DoClose(salon, id, version, requestId, counted, note) => Close(db, salon, id, version, requestId, counted, note)
    case DoAddCustomer(salon, customer) => AddCustomer(db, salon, customer)
    case DoBook(salon, id, context, status, price) => Book(db, salon, id, context, status, price)
    case DoEdit(salon, id, context, status, price, paymentStatus, hasChart) =>
      Edit(db, salon, id, context, status, price, paymentStatus, hasChart)
    case DoRecalculate(salon, customer) => Success(Recalculate(db, salon, customer))
    case DoMembership(membership) => Success(db.(membership := membership))
  }

  /** A refused operation is rolled back. */
  function Apply(db: Db, step: Step): Db {
    var r := Attempt(db, step);
    if r.Success? then r.value else db
  }

  function Run(db: Db, steps: seq<Step>): Db {
    if |steps| == 0 then db else Apply(Run(db, steps[..|steps| - 1]), steps[|steps| - 1])
  }

  /** Before the first checkout: reservations in any payment state, each with a customer of its salon. */
  predicate Initial(db: Db) {
    && db.checkouts == [] && db.entries == [] && db.registers == [] && db.movements == []
    && (forall r :: r in db.reservations ==>
          var customer := db.reservations[r].context.customerId;
          customer in db.customers && db.customers[customer].salon == db.reservations[r].salon)
    && (forall k :: k in db.customers ==> db.customers[k].totalSpent == 0)
  }
}
