/**
 The append-only point ledger. Each settlement books at most one redemption and one earning, each
 reversal books their opposites; the balance of every account is what its settled checkouts left.
 */
module CashLedger {
  import opened Common
  import opened CashDraft
  import opened Receipt
  import opened Reservations
  import opened Tables
  import opened CashBook
  import opened CashEffects

  // ---- The rows ----

  predicate Settlement(c: Checkout) {
    && (c.status == Draft <==> c.finalization.None?)
    && (c.status == Reversed <==> c.reversal.Some?)
    && (c.status != Draft ==> c.totals.allocatedYen == c.totals.totalYen)
    && c.pointsAwarded == if c.status != Draft && c.selection.Some? then EarnFor(c.totals.totalYen) else 0
  }

  /** Every row is priced and its stamps and points agree with its status. */
  ghost predicate RowsOk(cs: seq<Checkout>) {
    forall i :: 0 <= i < |cs| ==> Priced(cs[i]) && Settlement(cs[i])
  }

  lemma PricedTotals(c: Checkout)
    requires Priced(c)
    ensures c.totals.totalYen == c.totals.subtotalYen - c.totals.discountYen - c.totals.pointsDiscountYen >= 0
    ensures c.totals.allocatedYen == Sum(Amounts(c.payments)) && c.totals.cashYen == Sum(AmountsBy(c.payments, Cash))
    ensures Bounded(c.totals.cashYen) && Bounded(c.totals.totalYen)
  {
    AcceptedAmounts(ItemsOf(c.totals.lines), c.payments, c.totals.pointsDiscountYen);
  }

  // ---- What a checkout owes the ledger ----

  /** Points a checkout currently leaves on an account: awarded less used, while it is finalized. */
  function NetPoints(account: nat): Checkout -> int {
    (c: Checkout) => if c.status == Finalized && c.selection.Some? && c.selection.value.account == account
                     then c.pointsAwarded - c.selection.value.points else 0
  }

  function OriginalDelta(id: nat, account: nat): Entry -> int {
    (e: Entry) => if Original(e, id) && e.account == account then e.delta else 0
  }

  /** Points taken back by reversed earnings, as a nonnegative amount. */
  function ClawedBack(account: nat): Entry -> int {
    (e: Entry) => if e.account == account && e.kind == EarnReversal then -e.delta else 0
  }

  function Clawed(entries: seq<Entry>, account: nat): int {
    Total(entries, ClawedBack(account))
  }

  predicate NoEntryOf(entries: seq<Entry>, id: nat) {
    forall p :: 0 <= p < |entries| ==> entries[p].checkout != id
  }

  /** The originals of a finalized checkout: on its account, of distinct kinds, not yet reversed. */
  predicate Booked(entries: seq<Entry>, id: nat, c: Checkout) {
    && (forall p :: 0 <= p < |entries| && entries[p].checkout == id ==>
          Original(entries[p], id) && c.selection.Some? && entries[p].account == c.selection.value.account
          && entries[p].salon == c.salon)
    && (forall p, q :: 0 <= p < q < |entries| && entries[p].checkout == entries[q].checkout == id ==>
          entries[p].kind != entries[q].kind)
  }

  ghost predicate OriginalsAddUp(entries: seq<Entry>, id: nat, c: Checkout) {
    forall a: nat :: Total(entries, OriginalDelta(id, a)) == NetPoints(a)(c)
  }

  ghost predicate CheckoutBooked(entries: seq<Entry>, id: nat, c: Checkout) {
    && (c.status == Draft ==> NoEntryOf(entries, id))
    && (c.status == Finalized ==> Booked(entries, id, c) && OriginalsAddUp(entries, id, c))
  }

  /** Redemptions and their refunds carry the expected sign. */
  predicate EntrySigns(entries: seq<Entry>) {
    forall p :: 0 <= p < |entries| ==>
      && (entries[p].kind == Redeem ==> entries[p].delta <= 0)
      && (entries[p].kind == Earn ==> entries[p].delta >= 0)
      && (entries[p].kind == EarnReversal ==> entries[p].delta <= 0)
  }

  predicate EntriesInRange(cs: seq<Checkout>, entries: seq<Entry>) {
    forall p :: 0 <= p < |entries| ==> entries[p].checkout < |cs|
  }

  ghost predicate BalancesMatch(cs: seq<Checkout>, entries: seq<Entry>) {
    forall a: nat :: Balance(entries, a) == Total(cs, NetPoints(a))
  }

  ghost predicate DebtsCovered(entries: seq<Entry>) {
    forall a: nat :: Balance(entries, a) + Clawed(entries, a) >= 0
  }

  ghost predicate AllBooked(cs: seq<Checkout>, entries: seq<Entry>) {
    forall i :: 0 <= i < |cs| ==> CheckoutBooked(entries, i, cs[i])
  }

  ghost predicate LedgerOk(cs: seq<Checkout>, entries: seq<Entry>) {
    && EntriesInRange(cs, entries) && EntrySigns(entries)
    && BalancesMatch(cs, entries) && DebtsCovered(entries) && AllBooked(cs, entries)
  }

  // ---- Drafts do not touch the ledger ----

  lemma NewKeepsLedger(cs: seq<Checkout>, entries: seq<Entry>, c: Checkout)
    requires LedgerOk(cs, entries) && c.status == Draft
    ensures LedgerOk(cs + [c], entries)
  {
    forall a: nat ensures Balance(entries, a) == Total(cs + [c], NetPoints(a)) {
      TotalSnoc(cs, c, NetPoints(a));
    }
  }

  lemma RedraftKeepsLedger(cs: seq<Checkout>, entries: seq<Entry>, id: nat, c2: Checkout)
    requires LedgerOk(cs, entries) && id < |cs| && cs[id].status == Draft && c2.status == Draft
    ensures LedgerOk(cs[id := c2], entries)
  {
    forall a: nat ensures Balance(entries, a) == Total(cs[id := c2], NetPoints(a)) {
      TotalUpdate(cs, id, c2, NetPoints(a));
    }
  }

  // ---- One entry per checkout and kind ----

  predicate OneEntryPerKind(entries: seq<Entry>) {
    forall p, q :: 0 <= p < q < |entries| ==>
      !(entries[p].checkout == entries[q].checkout && entries[p].kind == entries[q].kind)
  }

  /**
   An entry that was booked is there for good: booking it again changes nothing, any other entry for the same
   checkout and kind is refused, and no kind is ever booked twice for a checkout.
   */
  lemma EntryIsBookedOnce(entries: seq<Entry>, e: Entry, other: Entry)
    requires OneEntryPerKind(entries) && WriteEntry(entries, e).Success?
    ensures var after := WriteEntry(entries, e).value;
            && entries <= after && OneEntryPerKind(after) && (e.delta != 0 ==> e in after)
            && WriteEntry(after, e) == Success(after)
            && (e.delta != 0 && other.delta != 0 && other.checkout == e.checkout && other.kind == e.kind ==>
                  (WriteEntry(after, other).Success? <==> other == e))
  {
    var after := WriteEntry(entries, e).value;
    if e.delta != 0 && LastWhere(entries, EntryFor(e.checkout, e.kind)).None? {
      forall p | 0 <= p < |entries| ensures !(entries[p].checkout == e.checkout && entries[p].kind == e.kind) {
        assert !EntryFor(e.checkout, e.kind)(entries[p]);
      }
    }
    if e.delta != 0 {
      var at :| 0 <= at < |after| && after[at] == e;
      assert EntryFor(e.checkout, e.kind)(after[at]);
    }
  }

  lemma FinalizeKeepsOne(m: Membership, entries: seq<Entry>, salon: nat, customer: nat, s: Selection, id: nat, totalYen: int)
    requires OneEntryPerKind(entries) && FinalizePoints(m, entries, salon, customer, s, id, totalYen).Success?
    ensures OneEntryPerKind(FinalizePoints(m, entries, salon, customer, s, id, totalYen).value)
  {
    var redeem := Entry(s.account, salon, id, Redeem, -s.points, None);
    var earn := Entry(s.account, salon, id, Earn, EarnFor(totalYen), None);
    EntryIsBookedOnce(entries, redeem, redeem);
    EntryIsBookedOnce(WriteEntry(entries, redeem).value, earn, earn);
  }

  lemma {:induction false} ReverseKeepsOne(entries: seq<Entry>, account: nat, salon: nat, id: nat, k: nat)
    requires k <= |entries| && OneEntryPerKind(entries) && ReversePoints(entries, account, salon, id, k).Success?
    ensures OneEntryPerKind(ReversePoints(entries, account, salon, id, k).value)
  {
    if k != 0 {
      ReverseKeepsOne(entries, account, salon, id, k - 1);
      if Original(entries[k - 1], id) {
        var e := ReversalOf(entries, k - 1, account, salon);
        EntryIsBookedOnce(ReversePoints(entries, account, salon, id, k - 1).value, e, e);
      }
    }
  }

  // ---- Settlement books at most two entries ----

  /** The entries a settlement appends: a redemption and an earning, each only when it is not zero. */
  function Bookings(s: Selection, salon: nat, id: nat, earn: int): seq<Entry> {
    (if s.points != 0 then [Entry(s.account, salon, id, Redeem, -s.points, None)] else [])
    + (if earn != 0 then [Entry(s.account, salon, id, Earn, earn, None)] else [])
  }

  /** With nothing booked yet for the checkout, booking appends exactly those entries. */
  lemma FinalizeAppends(m: Membership, entries: seq<Entry>, salon: nat, customer: nat, s: Selection, id: nat, totalYen: int)
    requires NoEntryOf(entries, id)
    requires FinalizePoints(m, entries, salon, customer, s, id, totalYen).Success?
    ensures FinalizePoints(m, entries, salon, customer, s, id, totalYen).value == entries + Bookings(s, salon, id, EarnFor(totalYen))
    ensures 0 <= s.points <= Max(0, Balance(entries, s.account)) && 0 <= totalYen
  {
    var redeem := Entry(s.account, salon, id, Redeem, -s.points, None);
    assert LastWhere(entries, EntryFor(id, Redeem)).None?;
    assert RestoredPoints(entries, id, s.account) == 0;
    var next := WriteEntry(entries, redeem).value;
    assert next == if s.points != 0 then entries + [redeem] else entries;
    assert LastWhere(next, EntryFor(id, Earn)).None?;
  }

  lemma EarnNonnegative(totalYen: int)
    requires totalYen >= 0
    ensures EarnFor(totalYen) >= 0
  {
  }

  /** How the sums over the ledger move when a settlement is booked. */
  lemma {:induction false} BookingsSum(entries: seq<Entry>, s: Selection, salon: nat, id: nat, earn: int, f: Entry -> int)
    ensures var b := Bookings(s, salon, id, earn);
            Total(entries + b, f) == Total(entries, f)
              + (if s.points != 0 then f(Entry(s.account, salon, id, Redeem, -s.points, None)) else 0)
              + (if earn != 0 then f(Entry(s.account, salon, id, Earn, earn, None)) else 0)
  {
    var redeem, reward := Entry(s.account, salon, id, Redeem, -s.points, None), Entry(s.account, salon, id, Earn, earn, None);
    var next := if s.points != 0 then entries + [redeem] else entries;
    TotalSnoc(entries, redeem, f);
    TotalSnoc(next, reward, f);
    assert entries + Bookings(s, salon, id, earn) == if earn != 0 then next + [reward] else next;
  }

  /**
   Redeeming never takes a balance below zero: not when the redemption is booked, and not when
   the whole settlement is.
   */
  lemma RedemptionIsCovered(m: Membership, entries: seq<Entry>, salon: nat, customer: nat, s: Selection, id: nat, totalYen: int)
    requires NoEntryOf(entries, id) && s.points > 0
    requires FinalizePoints(m, entries, salon, customer, s, id, totalYen).Success?
    ensures var after := FinalizePoints(m, entries, salon, customer, s, id, totalYen).value;
            && |after| > |entries| && after[|entries|] == Entry(s.account, salon, id, Redeem, -s.points, None)
            && Balance(after[..|entries| + 1], s.account) >= 0 && Balance(after, s.account) >= 0
  {
    FinalizeAppends(m, entries, salon, customer, s, id, totalYen);
    EarnNonnegative(totalYen);
    var redeem := Entry(s.account, salon, id, Redeem, -s.points, None);
    var after := entries + Bookings(s, salon, id, EarnFor(totalYen));
    assert after[..|entries| + 1] == entries + [redeem];
    TotalSnoc(entries, redeem, DeltaOf(s.account));
    BookingsSum(entries, s, salon, id, EarnFor(totalYen), DeltaOf(s.account));
  }

  /** Entries of one checkout do not disturb what is booked for another. */
  lemma OthersUndisturbed(entries: seq<Entry>, more: seq<Entry>, id: nat, j: nat, c: Checkout)
    requires j != id && (forall p :: 0 <= p < |more| ==> more[p].checkout == id)
    requires CheckoutBooked(entries, j, c)
    ensures CheckoutBooked(entries + more, j, c)
  {
    if c.status == Finalized {
      var all := entries + more;
      assert forall p :: 0 <= p < |all| && all[p].checkout == j ==> p < |entries|;
      forall a: nat ensures Total(all, OriginalDelta(j, a)) == NetPoints(a)(c) {
        TotalIgnores(entries, more, OriginalDelta(j, a));
      }
    }
  }

  lemma {:induction false} TotalIgnores(entries: seq<Entry>, more: seq<Entry>, f: Entry -> int)
    requires forall p :: 0 <= p < |more| ==> f(more[p]) == 0
    ensures Total(entries + more, f) == Total(entries, f)
  {
    if |more| == 0 {
      assert entries + more == entries;
    } else {
      var last := |more| - 1;
      assert (entries + more)[..|entries| + last] == entries + more[..last];
      TotalIgnores(entries, more[..last], f);
    }
  }

  lemma {:induction false} NoEntryNoTotal(entries: seq<Entry>, id: nat, a: nat)
    requires NoEntryOf(entries, id)
    ensures Total(entries, OriginalDelta(id, a)) == 0
  {
    TotalZero(entries, OriginalDelta(id, a));
  }

  /** The settled checkout's own bookings satisfy the ledger. */
  lemma OwnBookings(entries: seq<Entry>, s: Selection, id: nat, c: Checkout)
    requires NoEntryOf(entries, id) && c.status == Finalized && c.selection == Some(s)
    ensures CheckoutBooked(entries + Bookings(s, c.salon, id, c.pointsAwarded), id, c)
  {
    var all := entries + Bookings(s, c.salon, id, c.pointsAwarded);
    assert forall p :: 0 <= p < |all| && all[p].checkout == id ==> p >= |entries|;
    forall a: nat ensures Total(all, OriginalDelta(id, a)) == NetPoints(a)(c) {
      BookingsSum(entries, s, c.salon, id, c.pointsAwarded, OriginalDelta(id, a));
      NoEntryNoTotal(entries, id, a);
    }
  }

  lemma BookingsBalance(cs: seq<Checkout>, entries: seq<Entry>, s: Selection, id: nat, c: Checkout)
    requires BalancesMatch(cs, entries) && DebtsCovered(entries) && EntrySigns(entries)
    requires id < |cs| && cs[id].status == Draft && c.status == Finalized && c.selection == Some(s)
    requires 0 <= s.points <= Max(0, Balance(entries, s.account)) && c.pointsAwarded >= 0
    ensures BalancesMatch(cs[id := c], entries + Bookings(s, c.salon, id, c.pointsAwarded))
    ensures DebtsCovered(entries + Bookings(s, c.salon, id, c.pointsAwarded))
  {
    var all := entries + Bookings(s, c.salon, id, c.pointsAwarded);
    forall a: nat ensures Balance(all, a) == Total(cs[id := c], NetPoints(a)) && Balance(all, a) + Clawed(all, a) >= 0 {
      BookingsSum(entries, s, c.salon, id, c.pointsAwarded, DeltaOf(a));
      BookingsSum(entries, s, c.salon, id, c.pointsAwarded, ClawedBack(a));
      TotalUpdate(cs, id, c, NetPoints(a));
      ClawedNonnegative(entries, a);
    }
  }

  lemma ClawedNonnegative(entries: seq<Entry>, a: nat)
    ensures EntrySigns(entries) ==> Clawed(entries, a) >= 0
  {
    if EntrySigns(entries) { TotalNonnegative(entries, ClawedBack(a)); }
  }

  lemma SettleKeepsLedger(cs: seq<Checkout>, entries: seq<Entry>, s: Selection, id: nat, c: Checkout)
    requires LedgerOk(cs, entries) && id < |cs| && cs[id].status == Draft
    requires c.status == Finalized && c.selection == Some(s) && c.pointsAwarded >= 0
    requires 0 <= s.points <= Max(0, Balance(entries, s.account))
    ensures LedgerOk(cs[id := c], entries + Bookings(s, c.salon, id, c.pointsAwarded))
  {
    var more := Bookings(s, c.salon, id, c.pointsAwarded);
    BookingsBalance(cs, entries, s, id, c);
    OwnBookings(entries, s, id, c);
    var now := cs[id := c];
    forall j | 0 <= j < |now| ensures CheckoutBooked(entries + more, j, now[j]) {
      if j != id { OthersUndisturbed(entries, more, id, j, cs[j]); }
    }
  }

  /** Settling without a member books nothing and owes nothing. */
  lemma SettleWithoutMember(cs: seq<Checkout>, entries: seq<Entry>, id: nat, c: Checkout)
    requires LedgerOk(cs, entries) && id < |cs| && cs[id].status == Draft
    requires c.status == Finalized && c.selection.None?
    ensures LedgerOk(cs[id := c], entries)
  {
    forall a: nat ensures Balance(entries, a) == Total(cs[id := c], NetPoints(a)) {
      TotalUpdate(cs, id, c, NetPoints(a));
    }
    forall a: nat ensures Total(entries, OriginalDelta(id, a)) == NetPoints(a)(c) {
      NoEntryNoTotal(entries, id, a);
    }
  }

  // ---- Reversal books the opposites ----

  /** What reversing the originals among the first k entries has appended. */
  ghost predicate ReversedSoFar(entries: seq<Entry>, after: seq<Entry>, account: nat, salon: nat, id: nat, k: nat)
    requires k <= |entries|
  {
    && entries <= after
    && forall j :: |entries| <= j < |after| ==>
         exists p :: 0 <= p < k && Original(entries[p], id) && after[j] == ReversalOf(entries, p, account, salon)
  }

  lemma ReversedFrom(entries: seq<Entry>, after: seq<Entry>, account: nat, salon: nat, id: nat, k: nat, j: nat) returns (p: nat)
    requires k <= |entries| && ReversedSoFar(entries, after, account, salon, id, k) && |entries| <= j < |after|
    ensures p < k && Original(entries[p], id) && after[j] == ReversalOf(entries, p, account, salon)
  {
    var e := after[j];
    p :| 0 <= p < k && Original(entries[p], id) && e == ReversalOf(entries, p, account, salon);
  }

  ghost predicate SumsReversed(entries: seq<Entry>, after: seq<Entry>, id: nat, k: nat)
    requires k <= |entries|
  {
    forall a: nat ::
      && Balance(after, a) == Balance(entries, a) - Total(entries[..k], OriginalDelta(id, a))
      && Balance(after, a) + Clawed(after, a) >= Balance(entries, a) + Clawed(entries, a)
  }

  lemma {:induction false} ReverseAppends(entries: seq<Entry>, id: nat, c: Checkout, k: nat)
    requires k <= |entries| && c.selection.Some? && Booked(entries, id, c) && EntrySigns(entries)
    ensures var r := ReversePoints(entries, c.selection.value.account, c.salon, id, k);
            && r.Success?
            && ReversedSoFar(entries, r.value, c.selection.value.account, c.salon, id, k)
            && SumsReversed(entries, r.value, id, k)
  {
    var account := c.selection.value.account;
    if k == 0 {
      assert entries[..0] == [];
    } else {
      ReverseAppends(entries, id, c, k - 1);
      var before := ReversePoints(entries, account, c.salon, id, k - 1).value;
      ReverseOne(entries, before, id, c, k - 1);
    }
  }

  /** What the next original adds to the ledger. */
  function AfterOne(entries: seq<Entry>, before: seq<Entry>, id: nat, account: nat, salon: nat, k: nat): seq<Entry>
    requires k < |entries|
  {
    var e := ReversalOf(entries, k, account, salon);
    if Original(entries[k], id) && e.delta != 0 then before + [e] else before
  }

  lemma {:induction false} ReverseOne(entries: seq<Entry>, before: seq<Entry>, id: nat, c: Checkout, k: nat)
    requires k < |entries| && c.selection.Some? && Booked(entries, id, c) && EntrySigns(entries)
    requires ReversedSoFar(entries, before, c.selection.value.account, c.salon, id, k)
    requires SumsReversed(entries, before, id, k)
    ensures var account := c.selection.value.account;
            var after := AfterOne(entries, before, id, account, c.salon, k);
            && ReversedSoFar(entries, after, account, c.salon, id, k + 1)
            && SumsReversed(entries, after, id, k + 1)
            && (Original(entries[k], id) ==> WriteEntry(before, ReversalOf(entries, k, account, c.salon)) == Success(after))
  {
    var account := c.selection.value.account;
    if Original(entries[k], id) { ReversalIsNew(entries, before, id, c, k); }
    AfterOneShape(entries, before, id, account, c.salon, k);
    assert Original(entries[k], id) ==> entries[k].account == account;
    AfterOneSums(entries, before, id, account, c.salon, k);
  }

  lemma {:induction false} AfterOneShape(entries: seq<Entry>, before: seq<Entry>, id: nat, account: nat, salon: nat, k: nat)
    requires k < |entries| && ReversedSoFar(entries, before, account, salon, id, k)
    ensures ReversedSoFar(entries, AfterOne(entries, before, id, account, salon, k), account, salon, id, k + 1)
  {
    var after := AfterOne(entries, before, id, account, salon, k);
    forall j | |entries| <= j < |after|
      ensures exists p :: 0 <= p < k + 1 && Original(entries[p], id) && after[j] == ReversalOf(entries, p, account, salon)
    {
      if j < |before| {
        var p := ReversedFrom(entries, before, account, salon, id, k, j);
        assert Original(entries[p], id) && after[j] == ReversalOf(entries, p, account, salon);
      } else {
        assert Original(entries[k], id) && after[j] == ReversalOf(entries, k, account, salon);
      }
    }
  }

  lemma {:induction false} AfterOneSums(entries: seq<Entry>, before: seq<Entry>, id: nat, account: nat, salon: nat, k: nat)
    requires k < |entries| && SumsReversed(entries, before, id, k) && EntrySigns(entries)
    requires Original(entries[k], id) ==> entries[k].account == account
    ensures SumsReversed(entries, AfterOne(entries, before, id, account, salon, k), id, k + 1)
  {
    var e := ReversalOf(entries, k, account, salon);
    var after := AfterOne(entries, before, id, account, salon, k);
    assert entries[..k + 1] == entries[..k] + [entries[k]];
    forall a: nat
      ensures Balance(after, a) == Balance(entries, a) - Total(entries[..k + 1], OriginalDelta(id, a))
      ensures Balance(after, a) + Clawed(after, a) >= Balance(entries, a) + Clawed(entries, a)
    {
      TotalSnoc(entries[..k], entries[k], OriginalDelta(id, a));
      TotalSnoc(before, e, DeltaOf(a));
      TotalSnoc(before, e, ClawedBack(a));
    }
  }

  /** No reversal of the same kind has been written for this checkout yet. */
  lemma {:induction false} ReversalIsNew(entries: seq<Entry>, before: seq<Entry>, id: nat, c: Checkout, k: nat)
    requires k < |entries| && c.selection.Some? && Booked(entries, id, c) && Original(entries[k], id)
    requires ReversedSoFar(entries, before, c.selection.value.account, c.salon, id, k)
    ensures LastWhere(before, EntryFor(id, ReversalOf(entries, k, c.selection.value.account, c.salon).kind)).None?
  {
    var account := c.selection.value.account;
    var kind := ReversalOf(entries, k, account, c.salon).kind;
    forall j | 0 <= j < |before| ensures !EntryFor(id, kind)(before[j]) {
      if j < |entries| {
        assert before[j] == entries[j];
      } else {
        var p := ReversedFrom(entries, before, account, c.salon, id, k, j);
        assert entries[p].kind != entries[k].kind;
      }
    }
  }

  lemma {:induction false} ReverseKeepsLedger(cs: seq<Checkout>, entries: seq<Entry>, id: nat, c: Checkout)
    requires LedgerOk(cs, entries) && id < |cs| && cs[id].status == Finalized && cs[id].selection.Some?
    requires c.status == Reversed
    ensures var r := ReversePoints(entries, cs[id].selection.value.account, cs[id].salon, id, |entries|);
            r.Success? && LedgerOk(cs[id := c], r.value)
  {
    var was := cs[id];
    ReverseAppends(entries, id, was, |entries|);
    var after := ReversePoints(entries, was.selection.value.account, was.salon, id, |entries|).value;
    assert entries[..|entries|] == entries;
    ReversedEntriesOf(entries, after, was, id);
    forall a: nat ensures Balance(after, a) == Total(cs[id := c], NetPoints(a)) {
      TotalUpdate(cs, id, c, NetPoints(a));
    }
    var more := after[|entries|..];
    assert after == entries + more;
    var now := cs[id := c];
    forall j | 0 <= j < |now| ensures CheckoutBooked(after, j, now[j]) {
      if j != id { OthersUndisturbed(entries, more, id, j, cs[j]); }
    }
  }

  lemma ReversedEntriesOf(entries: seq<Entry>, after: seq<Entry>, c: Checkout, id: nat)
    requires c.selection.Some? && EntrySigns(entries)
    requires ReversedSoFar(entries, after, c.selection.value.account, c.salon, id, |entries|)
    ensures EntrySigns(after)
    ensures forall j :: |entries| <= j < |after| ==> after[j].checkout == id
  {
    var account := c.selection.value.account;
    forall j | |entries| <= j < |after|
      ensures after[j].checkout == id && after[j].kind != Redeem && after[j].kind != Earn
      ensures after[j].kind == EarnReversal ==> after[j].delta <= 0
    {
      var p := ReversedFrom(entries, after, account, c.salon, id, |entries|, j);
    }
    assert forall j :: 0 <= j < |entries| ==> after[j] == entries[j];
  }

  lemma ReverseWithoutMember(cs: seq<Checkout>, entries: seq<Entry>, id: nat, c: Checkout)
    requires LedgerOk(cs, entries) && id < |cs| && cs[id].status == Finalized && cs[id].selection.None?
    requires c.status == Reversed
    ensures LedgerOk(cs[id := c], entries)
  {
    forall a: nat ensures Balance(entries, a) == Total(cs[id := c], NetPoints(a)) {
      TotalUpdate(cs, id, c, NetPoints(a));
    }
  }
}
