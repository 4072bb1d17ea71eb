/**
 Settlement of a checkout, and the two consumers that re-check its amounts before they accept it:
 the receipt snapshot and the checkout notification.
 */
module Receipt {
  import opened Common
  import opened CashSplit
  import opened CashDraft
  import opened Reservations

  function External(payments: seq<Payment>): (s: seq<Payment>)
    ensures forall p :: p in s ==> p in payments && p.how == ExternalPrepayment
    ensures forall p :: p in payments && p.how == ExternalPrepayment ==> p in s
  {
    if |payments| == 0 then []
    else
      var last := |payments| - 1;
      External(payments[..last]) + (if payments[last].how == ExternalPrepayment then [payments[last]] else [])
  }

  /** The first settlement rule that is broken, in the order in which they are checked. */
  function SettlementRefusal(payments: seq<Payment>, acknowledged: bool, t: Totals, status: PaymentStatus,
                             allowRecheckout: bool): (refusal: Option<string>)
    ensures refusal.None? <==>
              && t.allocatedYen == t.totalYen
              && (forall p :: p in payments && p.how == ExternalPrepayment ==> acknowledged && |p.reference| > 0)
              && (status == Paid ==> acknowledged && forall p :: p in payments ==> p.how == ExternalPrepayment)
              && (status == Refunded ==> allowRecheckout)
  {
    var external := External(payments);
    assert |external| > 0 ==> external[0] in external;
    if t.allocatedYen != t.totalYen then Some("CASH_PAYMENT_MISMATCH")
    else if (|external| > 0 || status == Paid) && !acknowledged then Some("CASH_PREPAYMENT_ACK_REQUIRED")
    else if exists p :: p in external && |p.reference| == 0 then Some("CASH_PREPAYMENT_REFERENCE_REQUIRED")
    else if status == Paid && exists p :: p in payments && p.how != ExternalPrepayment then Some("CASH_ALREADY_PAID")
    else if status == Refunded && !allowRecheckout then Some("CASH_RESERVATION_REFUNDED")
    else None
  }

  // ---- Sums by tax rate ----

  lemma {:induction false} SumByGroups(values: seq<int>, rates: seq<int>, k: nat)
    requires k <= |values| == |rates|
    requires forall i :: 0 <= i < |rates| ==> rates[i] in TAX_RATES
    ensures Sum(values[..k]) == GroupSum(values, rates, 0, k) + GroupSum(values, rates, 8, k) + GroupSum(values, rates, 10, k)
  {
    if k != 0 {
      SumByGroups(values, rates, k - 1);
      SumTake(values, k - 1);
      assert rates[k - 1] in TAX_RATES;
    }
  }

  lemma {:induction false} NoLinesNoSum(values: seq<int>, rates: seq<int>, r: int, k: nat)
    requires k <= |values| == |rates| && GroupCount(rates, r, k) == 0
    ensures GroupSum(values, rates, r, k) == 0
  {
    if k != 0 { NoLinesNoSum(values, rates, r, k - 1); }
  }

  /** The groups of a receipt: one for each rate in use, in the order 0, 8, 10. */
  function GroupIf(totals: seq<int>, rates: seq<int>, r: int): (g: seq<TaxGroup>)
    requires |totals| == |rates| && r >= 0
    ensures |g| == if GroupCount(rates, r, |rates|) > 0 then 1 else 0
    ensures |g| == 1 ==> g[0] == TaxGroup(r, GroupSum(totals, rates, r, |rates|), GroupTax(totals, rates, r))
  {
    if GroupCount(rates, r, |rates|) > 0
    then [TaxGroup(r, GroupSum(totals, rates, r, |rates|), GroupTax(totals, rates, r))] else []
  }

  lemma {:induction false} GroupsUnfold(totals: seq<int>, rates: seq<int>)
    requires |totals| == |rates|
    ensures GroupsOf(totals, rates, TAX_RATES)
         == GroupIf(totals, rates, 0) + GroupIf(totals, rates, 8) + GroupIf(totals, rates, 10)
  {
    assert TAX_RATES[..2] == [0, 8] && TAX_RATES[..2][..1] == [0] && TAX_RATES[..2][..1][..0] == [];
    assert GroupsOf(totals, rates, [0]) == GroupIf(totals, rates, 0);
    assert GroupsOf(totals, rates, [0, 8]) == GroupIf(totals, rates, 0) + GroupIf(totals, rates, 8);
  }

  lemma GroupTaxesConcat(a: seq<TaxGroup>, b: seq<TaxGroup>)
    requires |b| <= 1
    ensures Sum(GroupTaxes(a + b)) == Sum(GroupTaxes(a)) + (if |b| == 1 then b[0].taxYen else 0)
  {
    if |b| == 0 {
      assert a + b == a;
    } else {
      assert GroupTaxes(a + b) == GroupTaxes(a) + [b[0].taxYen];
      SumSnoc(GroupTaxes(a), b[0].taxYen);
    }
  }

  lemma {:induction false} AbsentGroupTax(totals: seq<int>, rates: seq<int>, r: int)
    requires |totals| == |rates| && r >= 0 && GroupCount(rates, r, |rates|) == 0
    ensures GroupTax(totals, rates, r) == 0
  {
    NoLinesNoSum(totals, rates, r, |rates|);
    assert 0 * r == 0;
  }

  /** Summed over the groups, tax is the sum over the three rates. */
  lemma {:induction false} GroupTaxesTotal(totals: seq<int>, rates: seq<int>)
    requires |totals| == |rates|
    ensures Sum(GroupTaxes(GroupsOf(totals, rates, TAX_RATES)))
         == GroupTax(totals, rates, 0) + GroupTax(totals, rates, 8) + GroupTax(totals, rates, 10)
  {
    GroupsUnfold(totals, rates);
    var a, b, c := GroupIf(totals, rates, 0), GroupIf(totals, rates, 8), GroupIf(totals, rates, 10);
    GroupTaxesConcat(a + b, c);
    GroupTaxesConcat(a, b);
    GroupTaxesConcat([], a);
    assert [] + a == a;
    if |a| == 0 { AbsentGroupTax(totals, rates, 0); }
    if |b| == 0 { AbsentGroupTax(totals, rates, 8); }
    if |c| == 0 { AbsentGroupTax(totals, rates, 10); }
  }

  /** The tax of the receipt is also the sum of its line taxes, and never exceeds its total. */
  lemma {:induction false} TaxTotals(totals: seq<int>, rates: seq<int>)
    requires |totals| == |rates|
    requires forall i :: 0 <= i < |rates| ==> rates[i] >= 0 && totals[i] >= 0
    requires forall i :: 0 <= i < |rates| ==> rates[i] in TAX_RATES
    ensures var tax := Sum(GroupTaxes(GroupsOf(totals, rates, TAX_RATES)));
            Sum(LineTaxes(totals, rates)) == tax && 0 <= tax <= Sum(totals)
  {
    GroupTaxesTotal(totals, rates);
    var n := |rates|;
    var taxes := LineTaxes(totals, rates);
    SumByGroups(taxes, rates, n);
    SumByGroups(totals, rates, n);
    assert taxes[..n] == taxes && totals[..n] == totals;
    GroupTaxFits(totals, rates, 0);
    GroupTaxFits(totals, rates, 8);
    GroupTaxFits(totals, rates, 10);
  }

  lemma {:induction false} GroupTaxFits(totals: seq<int>, rates: seq<int>, r: int)
    requires |totals| == |rates| && r >= 0
    requires forall i :: 0 <= i < |rates| ==> rates[i] >= 0 && totals[i] >= 0
    ensures GroupSum(LineTaxes(totals, rates), rates, r, |rates|) == GroupTax(totals, rates, r)
    ensures 0 <= GroupTax(totals, rates, r) <= GroupSum(totals, rates, r, |rates|)
  {
    GroupTaxIsShared(totals, rates, r);
    FloorsBelow(totals, rates, r, |rates|);
    FloorTaxBounds(GroupSum(totals, rates, r, |rates|), r);
  }

  // ---- The receipt's own consistency check ----

  datatype Snapshot = Snapshot(subtotalYen: int, discountYen: int, pointsDiscountYen: int, taxYen: int, totalYen: int,
                               items: seq<Line>, groups: seq<TaxGroup>, payments: seq<Payment>)

  predicate LineConsistent(l: Line) {
    l.item.quantity * l.item.unitPriceYen - l.item.discountYen - l.pointsDiscountYen == l.totalYen
  }

  predicate GroupConsistent(r: Snapshot, g: TaxGroup)
    requires g.taxRate >= 0
  {
    var rates := Rates(ItemsOf(r.items));
    && GroupCount(rates, g.taxRate, |rates|) > 0
    && GroupSum(TotalsOf(r.items), rates, g.taxRate, |rates|) == g.taxableTotalYen
    && GroupSum(TaxesOf(r.items), rates, g.taxRate, |rates|) == g.taxYen
    && FloorTax(g.taxableTotalYen, g.taxRate) == g.taxYen
  }

  predicate RateIn(groups: seq<TaxGroup>, r: int) {
    exists i :: 0 <= i < |groups| && groups[i].taxRate == r
  }

  /** Every amount is a yen amount of the receipt schema. */
  predicate AmountsInRange(r: Snapshot) {
    && Bounded(r.subtotalYen) && Bounded(r.discountYen) && Bounded(r.pointsDiscountYen)
    && Bounded(r.taxYen) && Bounded(r.totalYen)
    && (forall i :: 0 <= i < |r.items| ==>
          && ValidItem(r.items[i].item) && Bounded(r.items[i].pointsDiscountYen)
          && Bounded(r.items[i].taxYen) && Bounded(r.items[i].totalYen))
    && 1 <= |r.groups| <= 3
    && (forall i :: 0 <= i < |r.groups| ==>
          && r.groups[i].taxRate in TAX_RATES
          && Bounded(r.groups[i].taxableTotalYen) && Bounded(r.groups[i].taxYen))
    && (forall i :: 0 <= i < |r.payments| ==> ValidPayment(r.payments[i]))
  }

  predicate Consistent(r: Snapshot)
    requires forall i :: 0 <= i < |r.groups| ==> r.groups[i].taxRate in TAX_RATES
  {
    && (forall i :: 0 <= i < |r.items| ==> LineConsistent(r.items[i]))
    && Sum(Gross(ItemsOf(r.items))) == r.subtotalYen
    && Sum(Discounts(ItemsOf(r.items))) == r.discountYen
    && Sum(PointsOf(r.items)) == r.pointsDiscountYen
    && Sum(TotalsOf(r.items)) == r.totalYen
    && r.subtotalYen - r.discountYen - r.pointsDiscountYen == r.totalYen
    && Sum(TaxesOf(r.items)) == r.taxYen
    && Sum(Amounts(r.payments)) == r.totalYen
    && (forall i, j :: 0 <= i < j < |r.groups| ==> r.groups[i].taxRate != r.groups[j].taxRate)
    && (forall i :: 0 <= i < |r.items| ==> RateIn(r.groups, r.items[i].item.taxRate))
    && (forall i :: 0 <= i < |r.groups| ==> GroupConsistent(r, r.groups[i]))
  }

  /** The second consumer's check, on the amounts that go into the notification. */
  predicate NotificationConsistent(t: Totals, payments: seq<Payment>) {
    && t.subtotalYen - t.discountYen - t.pointsDiscountYen == t.totalYen
    && Sum(Amounts(payments)) == t.totalYen
    && t.taxYen <= t.totalYen
  }

  function SnapshotOf(t: Totals, payments: seq<Payment>): Snapshot {
    Snapshot(t.subtotalYen, t.discountYen, t.pointsDiscountYen, t.taxYen, t.totalYen, t.lines, t.groups, payments)
  }

  // ---- Every settled draft passes both ----

  lemma {:induction false} GroupOfRate(totals: seq<int>, rates: seq<int>, i: nat)
    requires |totals| == |rates| && i < |rates| && rates[i] in TAX_RATES
    ensures RateIn(GroupsOf(totals, rates, TAX_RATES), rates[i])
  {
    GroupsUnfold(totals, rates);
    NoLineOfRate(rates, rates[i], |rates|);
    var a, b, c := GroupIf(totals, rates, 0), GroupIf(totals, rates, 8), GroupIf(totals, rates, 10);
    var all := a + b + c;
    if rates[i] == 0 { assert all[0].taxRate == 0; }
    else if rates[i] == 8 { assert all[|a|].taxRate == 8; }
    else { assert all[|a| + |b|].taxRate == 10; }
  }

  lemma {:induction false} GroupsWellFormed(totals: seq<int>, rates: seq<int>)
    requires |totals| == |rates|
    ensures var groups := GroupsOf(totals, rates, TAX_RATES);
            && |groups| <= 3
            && (forall i, j :: 0 <= i < j < |groups| ==> groups[i].taxRate != groups[j].taxRate)
            && (forall i :: 0 <= i < |groups| ==>
                  && groups[i].taxRate in TAX_RATES
                  && GroupCount(rates, groups[i].taxRate, |rates|) > 0
                  && groups[i].taxableTotalYen == GroupSum(totals, rates, groups[i].taxRate, |rates|)
                  && groups[i].taxYen == GroupTax(totals, rates, groups[i].taxRate))
  {
    GroupsUnfold(totals, rates);
  }

  /** Line taxes of an accepted draft stay within the yen range. */
  lemma LineTaxBounded(totals: seq<int>, rates: seq<int>, i: nat)
    requires |totals| == |rates| && i < |rates|
    requires forall j :: 0 <= j < |rates| ==> rates[j] >= 0 && totals[j] >= 0
    requires totals[i] <= CASH_MAX_YEN
    ensures Bounded(LineTaxes(totals, rates)[i])
  {
    FloorTaxBounds(totals[i], rates[i]);
  }

  /** A group total is at most the receipt total. */
  lemma {:induction false} GroupSumBelow(totals: seq<int>, rates: seq<int>, r: int, k: nat)
    requires k <= |totals| == |rates|
    requires forall i :: 0 <= i < |totals| ==> totals[i] >= 0
    ensures 0 <= GroupSum(totals, rates, r, k) <= Sum(totals[..k])
  {
    if k != 0 {
      GroupSumBelow(totals, rates, r, k - 1);
      SumTake(totals, k - 1);
    }
  }

  /** What is known of the lines and groups of an accepted draft, without the calculation itself. */
  ghost predicate Sound(t: Totals, items: seq<Item>)
    requires ValidItems(items)
  {
    && ItemsOf(t.lines) == items
    && TaxesOf(t.lines) == LineTaxes(TotalsOf(t.lines), Rates(items))
    && t.groups == GroupsOf(TotalsOf(t.lines), Rates(items), TAX_RATES)
    && Sum(TaxesOf(t.lines)) == t.taxYen && 0 <= t.taxYen <= t.totalYen
    && Sum(PointsOf(t.lines)) == t.pointsDiscountYen
    && Sum(TotalsOf(t.lines)) == t.totalYen
    && t.totalYen == t.subtotalYen - t.discountYen - t.pointsDiscountYen
    && (forall i :: 0 <= i < |t.lines| ==>
          t.lines[i].totalYen >= 0 && t.lines[i].pointsDiscountYen >= 0 && LineConsistent(t.lines[i]))
  }

  lemma AcceptedIsSound(items: seq<Item>, payments: seq<Payment>, points: int)
    requires ValidItems(items) && ValidPayments(payments)
    requires Calculate(items, payments, points).Success?
    ensures Sound(Calculate(items, payments, points).value, items)
  {
    NetSum(items);
    AcceptedShape(items, payments, points);
    AcceptedAmounts(items, payments, points);
    LinesRead(items, points);
    ShapeIsSound(Calculate(items, payments, points).value, items);
  }

  lemma AcceptedShape(items: seq<Item>, payments: seq<Payment>, points: int)
    requires ValidItems(items) && ValidPayments(payments)
    requires Calculate(items, payments, points).Success?
    ensures points > 0 ==> Sum(Net(items)) > 0
    ensures var t := Calculate(items, payments, points).value;
            && t.lines == LinesOf(items, points)
            && t.groups == GroupsOf(LineTotals(items, points), Rates(items), TAX_RATES)
            && t.taxYen == Sum(GroupTaxes(t.groups))
  {
    NetSum(items);
  }

  lemma ShapeIsSound(t: Totals, items: seq<Item>)
    requires ValidItems(items) && ItemsOf(t.lines) == items
    requires TaxesOf(t.lines) == LineTaxes(TotalsOf(t.lines), Rates(items))
    requires t.groups == GroupsOf(TotalsOf(t.lines), Rates(items), TAX_RATES) && t.taxYen == Sum(GroupTaxes(t.groups))
    requires Sum(PointsOf(t.lines)) == t.pointsDiscountYen && Sum(TotalsOf(t.lines)) == t.totalYen
    requires t.totalYen == t.subtotalYen - t.discountYen - t.pointsDiscountYen
    requires forall i :: 0 <= i < |items| ==>
               && t.lines[i].totalYen == GrossOf(items[i]) - items[i].discountYen - t.lines[i].pointsDiscountYen
               && t.lines[i].totalYen >= 0 && t.lines[i].pointsDiscountYen >= 0
    ensures Sound(t, items)
  {
    ReadLines(t.lines, items);
    TaxTotals(TotalsOf(t.lines), Rates(items));
  }

  lemma ReadLines(lines: seq<Line>, items: seq<Item>)
    requires ItemsOf(lines) == items
    requires forall i :: 0 <= i < |items| ==>
               && lines[i].totalYen == GrossOf(items[i]) - items[i].discountYen - lines[i].pointsDiscountYen
               && lines[i].totalYen >= 0
    ensures forall i :: 0 <= i < |lines| ==> LineConsistent(lines[i])
    ensures forall i :: 0 <= i < |lines| ==> TotalsOf(lines)[i] >= 0
  {
    forall i | 0 <= i < |lines| ensures LineConsistent(lines[i]) {
      assert lines[i].item == ItemsOf(lines)[i];
    }
  }

  lemma LineInRange(t: Totals, items: seq<Item>, i: nat)
    requires ValidItems(items) && Sound(t, items) && i < |t.lines|
    requires Bounded(t.totalYen) && Bounded(t.pointsDiscountYen)
    ensures var l := t.lines[i];
            ValidItem(l.item) && Bounded(l.pointsDiscountYen) && Bounded(l.taxYen) && Bounded(l.totalYen)
  {
    assert t.lines[i].item == ItemsOf(t.lines)[i];
    SumAtLeast(TotalsOf(t.lines), i);
    SumAtLeast(PointsOf(t.lines), i);
    LineTaxBounded(TotalsOf(t.lines), Rates(items), i);
    assert t.lines[i].taxYen == TaxesOf(t.lines)[i];
  }

  lemma GroupInRange(t: Totals, items: seq<Item>, i: nat)
    requires ValidItems(items) && Sound(t, items) && i < |t.groups| && Bounded(t.totalYen)
    ensures var g := t.groups[i];
            g.taxRate in TAX_RATES && Bounded(g.taxableTotalYen) && Bounded(g.taxYen)
  {
    var totals := TotalsOf(t.lines);
    GroupsWellFormed(totals, Rates(items));
    GroupSumBelow(totals, Rates(items), t.groups[i].taxRate, |totals|);
    assert totals[..|totals|] == totals;
    GroupTaxFits(totals, Rates(items), t.groups[i].taxRate);
  }

  lemma SoundInRange(t: Totals, items: seq<Item>, payments: seq<Payment>)
    requires ValidItems(items) && Sound(t, items) && ValidPayments(payments) && |items| > 0
    requires Bounded(t.subtotalYen) && Bounded(t.discountYen) && 0 <= t.pointsDiscountYen && 0 <= t.totalYen
    ensures AmountsInRange(SnapshotOf(t, payments))
  {
    GroupsWellFormed(TotalsOf(t.lines), Rates(items));
    GroupOfRate(TotalsOf(t.lines), Rates(items), 0);
    forall i | 0 <= i < |t.lines|
      ensures ValidItem(t.lines[i].item) && Bounded(t.lines[i].pointsDiscountYen)
      ensures Bounded(t.lines[i].taxYen) && Bounded(t.lines[i].totalYen)
    {
      LineInRange(t, items, i);
    }
    forall i | 0 <= i < |t.groups|
      ensures t.groups[i].taxRate in TAX_RATES
      ensures Bounded(t.groups[i].taxableTotalYen) && Bounded(t.groups[i].taxYen)
    {
      GroupInRange(t, items, i);
    }
  }

  lemma GroupIsConsistent(t: Totals, items: seq<Item>, payments: seq<Payment>, i: nat)
    requires ValidItems(items) && Sound(t, items) && i < |t.groups|
    ensures t.groups[i].taxRate in TAX_RATES && GroupConsistent(SnapshotOf(t, payments), t.groups[i])
  {
    GroupsWellFormed(TotalsOf(t.lines), Rates(items));
    assert t.groups[i].taxRate in TAX_RATES;
    GroupTaxIsShared(TotalsOf(t.lines), Rates(items), t.groups[i].taxRate);
  }

  lemma SoundIsConsistent(t: Totals, items: seq<Item>, payments: seq<Payment>)
    requires ValidItems(items) && Sound(t, items)
    requires t.subtotalYen == Sum(Gross(items)) && t.discountYen == Sum(Discounts(items))
    requires Sum(Amounts(payments)) == t.totalYen
    ensures forall i :: 0 <= i < |t.groups| ==> t.groups[i].taxRate in TAX_RATES
    ensures Consistent(SnapshotOf(t, payments))
  {
    var r := SnapshotOf(t, payments);
    GroupsWellFormed(TotalsOf(t.lines), Rates(items));
    forall i | 0 <= i < |r.items| ensures RateIn(r.groups, r.items[i].item.taxRate) {
      assert r.items[i].item == ItemsOf(r.items)[i];
      GroupOfRate(TotalsOf(t.lines), Rates(items), i);
    }
    forall i | 0 <= i < |r.groups|
      ensures r.groups[i].taxRate in TAX_RATES && GroupConsistent(r, r.groups[i])
    {
      GroupIsConsistent(t, items, payments, i);
    }
  }

  /**
   Whatever passes the calculation and the settlement check also passes the receipt's schema,
   its consistency check and the notification's: no finalized checkout is refused downstream.
   */
  lemma SettledDraftIsConsistent(items: seq<Item>, payments: seq<Payment>, points: int, acknowledged: bool,
                                 status: PaymentStatus, allowRecheckout: bool)
    requires ValidItems(items) && ValidPayments(payments) && |items| > 0
    requires Calculate(items, payments, points).Success?
    requires SettlementRefusal(payments, acknowledged, Calculate(items, payments, points).value, status,
                               allowRecheckout).None?
    ensures var t := Calculate(items, payments, points).value;
            && AmountsInRange(SnapshotOf(t, payments))
            && Consistent(SnapshotOf(t, payments))
            && NotificationConsistent(t, payments)
  {
    var t := Calculate(items, payments, points).value;
    AcceptedIsSound(items, payments, points);
    SoundInRange(t, items, payments);
    SoundIsConsistent(t, items, payments);
  }

  // ---- The check is tight ----

  /** A consistent receipt's group is the one the calculation makes for that rate. */
  lemma ConsistentGroup(r: Snapshot, items: seq<Item>, i: nat)
    requires ValidItems(items) && ItemsOf(r.items) == items && i < |r.groups|
    requires forall j :: 0 <= j < |r.groups| ==> r.groups[j].taxRate in TAX_RATES
    requires Consistent(r)
    ensures r.groups[i] in GroupsOf(TotalsOf(r.items), Rates(items), TAX_RATES)
  {
    var totals, rates, g := TotalsOf(r.items), Rates(items), r.groups[i];
    assert GroupConsistent(r, g);
    assert GroupIf(totals, rates, g.taxRate) == [g];
    GroupsUnfold(totals, rates);
    var a, b, c := GroupIf(totals, rates, 0), GroupIf(totals, rates, 8), GroupIf(totals, rates, 10);
    assert g in (if g.taxRate == 0 then a else if g.taxRate == 8 then b else c);
  }

  /** The line taxes of a rate add up to that rate's tax, whether a group lists the rate or no line has it. */
  lemma {:induction false} ConsistentRateTax(r: Snapshot, items: seq<Item>, rate: int)
    requires ValidItems(items) && ItemsOf(r.items) == items && rate in TAX_RATES
    requires forall j :: 0 <= j < |r.groups| ==> r.groups[j].taxRate in TAX_RATES
    requires Consistent(r)
    ensures GroupSum(TaxesOf(r.items), Rates(items), rate, |items|) == GroupTax(TotalsOf(r.items), Rates(items), rate)
    ensures GroupCount(Rates(items), rate, |items|) > 0 ==> RateIn(r.groups, rate)
  {
    var totals, rates := TotalsOf(r.items), Rates(items);
    NoLineOfRate(rates, rate, |rates|);
    if GroupCount(rates, rate, |rates|) == 0 {
      NoLinesNoSum(TaxesOf(r.items), rates, rate, |rates|);
      AbsentGroupTax(totals, rates, rate);
    } else {
      var i :| 0 <= i < |rates| && rates[i] == rate;
      assert ItemsOf(r.items)[i] == r.items[i].item;
      assert RateIn(r.groups, r.items[i].item.taxRate);
      var j :| 0 <= j < |r.groups| && r.groups[j].taxRate == rate;
      assert GroupConsistent(r, r.groups[j]);
    }
  }

  lemma ConsistentTax(r: Snapshot, items: seq<Item>)
    requires ValidItems(items) && ItemsOf(r.items) == items
    requires forall j :: 0 <= j < |r.groups| ==> r.groups[j].taxRate in TAX_RATES
    requires Consistent(r)
    ensures r.taxYen == Sum(GroupTaxes(GroupsOf(TotalsOf(r.items), Rates(items), TAX_RATES)))
  {
    var rates, taxes := Rates(items), TaxesOf(r.items);
    assert taxes[..|items|] == taxes;
    SumByGroups(taxes, rates, |items|);
    GroupTaxesTotal(TotalsOf(r.items), rates);
    ConsistentRateTax(r, items, 0);
    ConsistentRateTax(r, items, 8);
    ConsistentRateTax(r, items, 10);
  }

  /** A listed group of the calculation appears in every consistent receipt of the same lines. */
  lemma CalculatedGroupListed(r: Snapshot, items: seq<Item>, g: TaxGroup)
    requires ValidItems(items) && ItemsOf(r.items) == items
    requires forall j :: 0 <= j < |r.groups| ==> r.groups[j].taxRate in TAX_RATES
    requires Consistent(r) && g in GroupsOf(TotalsOf(r.items), Rates(items), TAX_RATES)
    ensures g in r.groups
  {
    GroupsWellFormed(TotalsOf(r.items), Rates(items));
    ConsistentRateTax(r, items, g.taxRate);
    var j :| 0 <= j < |r.groups| && r.groups[j].taxRate == g.taxRate;
    assert GroupConsistent(r, r.groups[j]);
    assert r.groups[j] == g;
  }

  lemma SameGroups(r: Snapshot, items: seq<Item>)
    requires ValidItems(items) && ItemsOf(r.items) == items
    requires forall j :: 0 <= j < |r.groups| ==> r.groups[j].taxRate in TAX_RATES
    requires Consistent(r)
    ensures forall g :: g in r.groups <==> g in GroupsOf(TotalsOf(r.items), Rates(items), TAX_RATES)
    ensures forall i, j :: 0 <= i < j < |r.groups| ==> r.groups[i] != r.groups[j]
  {
    forall g ensures g in r.groups <==> g in GroupsOf(TotalsOf(r.items), Rates(items), TAX_RATES) {
      if g in r.groups {
        var i :| 0 <= i < |r.groups| && r.groups[i] == g;
        ConsistentGroup(r, items, i);
      }
      if g in GroupsOf(TotalsOf(r.items), Rates(items), TAX_RATES) { CalculatedGroupListed(r, items, g); }
    }
  }

  lemma SameLineTotals(a: seq<Line>, b: seq<Line>)
    requires ItemsOf(a) == ItemsOf(b) && PointsOf(a) == PointsOf(b)
    requires forall i :: 0 <= i < |a| ==> LineConsistent(a[i])
    requires forall i :: 0 <= i < |b| ==> LineConsistent(b[i])
    ensures TotalsOf(a) == TotalsOf(b)
  {
    assert |a| == |ItemsOf(a)| == |b|;
    forall i | 0 <= i < |a| ensures TotalsOf(a)[i] == TotalsOf(b)[i] {
      assert a[i].item == ItemsOf(a)[i] == b[i].item;
      assert a[i].pointsDiscountYen == PointsOf(a)[i] == b[i].pointsDiscountYen;
      assert LineConsistent(a[i]) && LineConsistent(b[i]);
    }
  }

  lemma ConsistentReceiptIsSound(t: Totals, items: seq<Item>, r: Snapshot)
    requires ValidItems(items) && Sound(t, items) && ItemsOf(r.items) == items && PointsOf(r.items) == PointsOf(t.lines)
    requires t.subtotalYen == Sum(Gross(items)) && t.discountYen == Sum(Discounts(items))
    requires t.taxYen == Sum(GroupTaxes(t.groups))
    requires forall j :: 0 <= j < |r.groups| ==> r.groups[j].taxRate in TAX_RATES
    requires Consistent(r)
    ensures ShowsAmounts(r, t)
  {
    SameLineTotals(r.items, t.lines);
    ConsistentTax(r, items);
    SameGroups(r, items);
  }

  /** A receipt shows a draft's amounts and line totals, and each of its tax groups once. */
  ghost predicate ShowsAmounts(r: Snapshot, t: Totals) {
    && r.subtotalYen == t.subtotalYen && r.discountYen == t.discountYen
    && r.pointsDiscountYen == t.pointsDiscountYen && r.totalYen == t.totalYen && r.taxYen == t.taxYen
    && TotalsOf(r.items) == TotalsOf(t.lines)
    && Sum(Amounts(r.payments)) == t.totalYen
    && (forall g :: g in r.groups <==> g in t.groups)
    && (forall i, j :: 0 <= i < j < |r.groups| ==> r.groups[i] != r.groups[j])
  }

  /**
   Any receipt that lists an accepted draft's items with their points, and that passes the check,
   shows the draft's amounts: the check leaves open only the order of the tax groups and how a
   rate's tax is spread over its lines.
   */
  lemma ConsistentReceiptIsTheDraft(items: seq<Item>, payments: seq<Payment>, points: int, r: Snapshot)
    requires ValidItems(items) && ValidPayments(payments) && Calculate(items, payments, points).Success?
    requires ItemsOf(r.items) == items && PointsOf(r.items) == PointsOf(Calculate(items, payments, points).value.lines)
    requires forall j :: 0 <= j < |r.groups| ==> r.groups[j].taxRate in TAX_RATES
    requires Consistent(r)
    ensures ShowsAmounts(r, Calculate(items, payments, points).value)
  {
    AcceptedIsSound(items, payments, points);
    ConsistentReceiptIsSound(Calculate(items, payments, points).value, items, r);
  }
}
