/**
 The amounts of a checkout. Prices include tax; the points discount is split over the lines, tax
 is rounded down once per tax rate, and the yen lost by rounding each line down are given back to
 the first lines of that rate.
 */
module CashDraft {
  import opened Common
  import opened CashSplit

  const CASH_MAX_YEN := 100_000_000

  datatype PaymentMethod = Cash | Card | Bank | ExternalPrepayment | Other

  datatype Item = Item(quantity: int, unitPriceYen: int, discountYen: int, taxRate: int)

  datatype Payment = Payment(how: PaymentMethod, amountYen: int, reference: string)

  datatype Line = Line(item: Item, pointsDiscountYen: int, totalYen: int, taxYen: int)

  datatype TaxGroup = TaxGroup(taxRate: int, taxableTotalYen: int, taxYen: int)

  datatype Totals = Totals(lines: seq<Line>, subtotalYen: int, discountYen: int, pointsDiscountYen: int,
                           taxYen: int, totalYen: int, cashYen: int, allocatedYen: int, groups: seq<TaxGroup>)

  predicate ValidItem(i: Item) {
    && 1 <= i.quantity <= 999
    && 0 <= i.unitPriceYen <= CASH_MAX_YEN
    && 0 <= i.discountYen <= CASH_MAX_YEN
    && (i.taxRate == 0 || i.taxRate == 8 || i.taxRate == 10)
  }

  predicate ValidPayment(p: Payment) {
    1 <= p.amountYen <= CASH_MAX_YEN
  }

  predicate ValidItems(items: seq<Item>) {
    forall i :: 0 <= i < |items| ==> ValidItem(items[i])
  }

  predicate ValidPayments(payments: seq<Payment>) {
    forall i :: 0 <= i < |payments| ==> ValidPayment(payments[i])
  }

  function GrossOf(i: Item): int {
    i.quantity * i.unitPriceYen
  }

  function Gross(items: seq<Item>): (s: seq<int>)
    ensures |s| == |items|
  {
    seq(|items|, i requires 0 <= i < |items| => GrossOf(items[i]))
  }

  function Discounts(items: seq<Item>): (s: seq<int>)
    ensures |s| == |items|
  {
    seq(|items|, i requires 0 <= i < |items| => items[i].discountYen)
  }

  /** Line totals before points. */
  function Net(items: seq<Item>): (s: seq<int>)
    ensures |s| == |items|
  {
    seq(|items|, i requires 0 <= i < |items| => GrossOf(items[i]) - items[i].discountYen)
  }

  function Rates(items: seq<Item>): (s: seq<int>)
    ensures |s| == |items|
  {
    seq(|items|, i requires 0 <= i < |items| => items[i].taxRate)
  }

  function Amounts(payments: seq<Payment>): (s: seq<int>)
    ensures |s| == |payments|
  {
    seq(|payments|, i requires 0 <= i < |payments| => payments[i].amountYen)
  }

  /** The amounts paid by one method, zero for every other payment. */
  function AmountsBy(payments: seq<Payment>, m: PaymentMethod): (s: seq<int>)
    ensures |s| == |payments|
  {
    seq(|payments|, i requires 0 <= i < |payments| => if payments[i].how == m then payments[i].amountYen else 0)
  }

  predicate Bounded(x: int) {
    0 <= x <= CASH_MAX_YEN
  }

  /** The first refusal met when the first k items are priced in order. */
  function ItemRefusal(items: seq<Item>, k: nat): Option<string>
    requires k <= |items|
  {
    if k == 0 then None
    else
      var earlier := ItemRefusal(items, k - 1);
      if earlier.Some? then earlier
      else if GrossOf(items[k - 1]) > CASH_MAX_YEN then Some("CASH_AMOUNT_LIMIT")
      else if items[k - 1].discountYen > GrossOf(items[k - 1]) then Some("CASH_DISCOUNT_LIMIT")
      else None
  }

  lemma {:induction false} ItemsAccepted(items: seq<Item>, k: nat)
    requires k <= |items| && ItemRefusal(items, k).None?
    ensures forall i :: 0 <= i < k ==> items[i].discountYen <= GrossOf(items[i]) <= CASH_MAX_YEN
  {
    if k != 0 { ItemsAccepted(items, k - 1); }
  }

  // ---- Tax ----

  /** The tax inside an inclusive price, rounded down. */
  function FloorTax(total: int, rate: int): int
    requires rate >= 0
  {
    total * rate / (100 + rate)
  }

  /** The sum of values[i] over the first k lines whose rate is r. */
  function GroupSum(values: seq<int>, rates: seq<int>, r: int, k: nat): int
    requires k <= |values| == |rates|
  {
    if k == 0 then 0
    else GroupSum(values, rates, r, k - 1) + (if rates[k - 1] == r then values[k - 1] else 0)
  }

  function GroupCount(rates: seq<int>, r: int, k: nat): nat
    requires k <= |rates|
  {
    if k == 0 then 0 else GroupCount(rates, r, k - 1) + (if rates[k - 1] == r then 1 else 0)
  }

  function FloorTaxes(totals: seq<int>, rates: seq<int>): (s: seq<int>)
    requires |totals| == |rates| && forall i :: 0 <= i < |rates| ==> rates[i] >= 0
    ensures |s| == |totals|
  {
    seq(|totals|, i requires 0 <= i < |totals| => FloorTax(totals[i], rates[i]))
  }

  function GroupTax(totals: seq<int>, rates: seq<int>, r: int): int
    requires |totals| == |rates| && r >= 0
  {
    FloorTax(GroupSum(totals, rates, r, |totals|), r)
  }

  /** Yen of the group's tax not covered by its lines rounded down one by one. */
  function TaxLeftover(totals: seq<int>, rates: seq<int>, r: int): int
    requires |totals| == |rates| && forall i :: 0 <= i < |rates| ==> rates[i] >= 0
    requires r >= 0
  {
    GroupTax(totals, rates, r) - GroupSum(FloorTaxes(totals, rates), rates, r, |totals|)
  }

  /** Lines of a group are topped up by one yen in line order while leftover yen remain. */
  function LineTaxes(totals: seq<int>, rates: seq<int>): (s: seq<int>)
    requires |totals| == |rates| && forall i :: 0 <= i < |rates| ==> rates[i] >= 0
    ensures |s| == |totals|
    ensures forall i :: 0 <= i < |s| ==>
              s[i] == FloorTaxes(totals, rates)[i]
                      + (if GroupCount(rates, rates[i], i) < TaxLeftover(totals, rates, rates[i]) then 1 else 0)
  {
    seq(|totals|, i requires 0 <= i < |totals| =>
        FloorTaxes(totals, rates)[i]
        + (if GroupCount(rates, rates[i], i) < TaxLeftover(totals, rates, rates[i]) then 1 else 0))
  }

  lemma FloorTaxBounds(total: int, rate: int)
    requires total >= 0 && rate >= 0
    ensures FloorTax(total, rate) * (100 + rate) <= total * rate < (FloorTax(total, rate) + 1) * (100 + rate)
    ensures 0 <= FloorTax(total, rate) <= total
    ensures total > 0 ==> FloorTax(total, rate) < total
  {
    var f := FloorTax(total, rate);
    var d := 100 + rate;
    DivMod(total * rate, d);
    MulMonotone(0, total, rate);
    assert total * d == total * rate + total * 100;
    if f < 0 { MulMonotone(f, -1, d); }
    if f >= total { MulMonotone(total, f, d); }
  }

  /** Flooring each line loses less than one yen per line against flooring their sum. */
  lemma {:induction false} FloorsBelow(totals: seq<int>, rates: seq<int>, r: int, k: nat)
    requires k <= |totals| == |rates| && r >= 0
    requires forall i :: 0 <= i < |rates| ==> rates[i] >= 0 && totals[i] >= 0
    ensures var floors := GroupSum(FloorTaxes(totals, rates), rates, r, k);
            var whole := GroupSum(totals, rates, r, k);
            && whole >= 0
            && floors * (100 + r) <= whole * r
            && whole * r <= (floors + GroupCount(rates, r, k)) * (100 + r)
            && (GroupCount(rates, r, k) > 0 ==> whole * r < (floors + GroupCount(rates, r, k)) * (100 + r))
            && (GroupCount(rates, r, k) == 0 ==> floors == 0 && whole == 0)
  {
    if k != 0 {
      FloorsBelow(totals, rates, r, k - 1);
      if rates[k - 1] == r {
        FloorTaxBounds(totals[k - 1], r);
        var floors := GroupSum(FloorTaxes(totals, rates), rates, r, k - 1);
        var whole := GroupSum(totals, rates, r, k - 1);
        var n := GroupCount(rates, r, k - 1);
        var f := FloorTax(totals[k - 1], r);
        assert (floors + f) * (100 + r) == floors * (100 + r) + f * (100 + r);
        assert (whole + totals[k - 1]) * r == whole * r + totals[k - 1] * r;
        assert (floors + f + n + 1) * (100 + r) == (floors + n) * (100 + r) + (f + 1) * (100 + r);
      }
    }
  }

  lemma QuotientBetween(x: int, d: int, lo: int, hi: int)
    requires d > 0 && lo * d <= x < hi * d
    ensures lo <= x / d < hi
  {
    DivMod(x, d);
    if x / d < lo { MulMonotone(x / d + 1, lo, d); }
    if x / d >= hi { MulMonotone(hi, x / d, d); }
  }

  /** There is never a leftover yen without a line of the group to take it. */
  lemma {:induction false} LeftoverFewerThanLines(totals: seq<int>, rates: seq<int>, r: int)
    requires |totals| == |rates| && r >= 0
    requires forall i :: 0 <= i < |rates| ==> rates[i] >= 0 && totals[i] >= 0
    ensures 0 <= TaxLeftover(totals, rates, r)
    ensures GroupCount(rates, r, |rates|) > 0 ==> TaxLeftover(totals, rates, r) < GroupCount(rates, r, |rates|)
    ensures GroupCount(rates, r, |rates|) == 0 ==> TaxLeftover(totals, rates, r) == 0
  {
    FloorsBelow(totals, rates, r, |rates|);
    var floors := GroupSum(FloorTaxes(totals, rates), rates, r, |rates|);
    var whole := GroupSum(totals, rates, r, |rates|);
    var n := GroupCount(rates, r, |rates|);
    if n > 0 {
      QuotientBetween(whole * r, 100 + r, floors, floors + n);
    } else {
      assert whole * r == 0;
    }
  }

  function Min(x: int, y: int): int {
    if x <= y then x else y
  }

  /** Topping up the first lines of a group adds exactly the leftover. */
  lemma {:induction false} TopUps(floors: seq<int>, taxes: seq<int>, rates: seq<int>, r: int, left: int, k: nat)
    requires k <= |floors| == |taxes| == |rates| && left >= 0
    requires forall i :: 0 <= i < |rates| && rates[i] == r ==>
               taxes[i] == floors[i] + (if GroupCount(rates, r, i) < left then 1 else 0)
    ensures GroupSum(taxes, rates, r, k) == GroupSum(floors, rates, r, k) + Min(GroupCount(rates, r, k), left)
  {
    if k != 0 {
      TopUps(floors, taxes, rates, r, left, k - 1);
    }
  }

  /** The line taxes of every rate add up to the tax of that rate, rounded down once. */
  lemma {:induction false} GroupTaxIsShared(totals: seq<int>, rates: seq<int>, r: int)
    requires |totals| == |rates| && r >= 0
    requires forall i :: 0 <= i < |rates| ==> rates[i] >= 0 && totals[i] >= 0
    ensures GroupSum(LineTaxes(totals, rates), rates, r, |rates|) == GroupTax(totals, rates, r)
  {
    LeftoverFewerThanLines(totals, rates, r);
    var left := TaxLeftover(totals, rates, r);
    TopUps(FloorTaxes(totals, rates), LineTaxes(totals, rates), rates, r, left, |rates|);
  }

  /**
   A line's tax exceeds the line's own total exactly when that total is zero and the line is
   early enough in its group to take a leftover yen.
   */
  lemma {:induction false} TaxAboveTotalIff(totals: seq<int>, rates: seq<int>, i: nat)
    requires |totals| == |rates| && i < |rates|
    requires forall j :: 0 <= j < |rates| ==> rates[j] >= 0 && totals[j] >= 0
    ensures LineTaxes(totals, rates)[i] > totals[i]
       <==> totals[i] == 0 && GroupCount(rates, rates[i], i) < TaxLeftover(totals, rates, rates[i])
  {
    FloorTaxBounds(totals[i], rates[i]);
  }

  /** And it does happen: totals 0, 5, 6 at 10% carry one yen of tax, put on the free line. */
  lemma TaxAboveTotalExample()
    ensures LineTaxes([0, 5, 6], [10, 10, 10])[0] == 1
  {
    var totals, rates := [0, 5, 6], [10, 10, 10];
    var floors := FloorTaxes(totals, rates);
    assert floors == [0, 0, 0];
    assert GroupSum(floors, rates, 10, 0) == GroupSum(floors, rates, 10, 1)
        == GroupSum(floors, rates, 10, 2) == GroupSum(floors, rates, 10, 3) == 0;
    assert GroupSum(totals, rates, 10, 1) == 0 && GroupSum(totals, rates, 10, 2) == 5;
    assert GroupSum(totals, rates, 10, 3) == 11;
    assert GroupCount(rates, 10, 0) == 0;
  }

  // ---- The whole calculation ----

  lemma NetSum(items: seq<Item>)
    ensures Sum(Net(items)) == Sum(Gross(items)) - Sum(Discounts(items))
  {
    SumLinear(1, Gross(items), -1, Discounts(items), Net(items));
  }

  /** Line totals after points. */
  function LineTotals(items: seq<Item>, points: int): (s: seq<int>)
    requires points > 0 ==> Sum(Net(items)) > 0
    ensures |s| == |items|
  {
    seq(|items|, i requires 0 <= i < |items| => Net(items)[i] - Split(points, Net(items))[i])
  }

  function GroupsOf(totals: seq<int>, rates: seq<int>, candidates: seq<int>): seq<TaxGroup>
    requires |totals| == |rates|
    requires forall i :: 0 <= i < |candidates| ==> candidates[i] >= 0
  {
    if |candidates| == 0 then []
    else
      var last := |candidates| - 1;
      var r := candidates[last];
      GroupsOf(totals, rates, candidates[..last])
      + (if GroupCount(rates, r, |rates|) > 0
         then [TaxGroup(r, GroupSum(totals, rates, r, |rates|), GroupTax(totals, rates, r))] else [])
  }

  function GroupTaxes(groups: seq<TaxGroup>): (s: seq<int>)
    ensures |s| == |groups|
  {
    seq(|groups|, i requires 0 <= i < |groups| => groups[i].taxYen)
  }

  function AssembleLines(items: seq<Item>, part: seq<int>, total: seq<int>, tax: seq<int>): (s: seq<Line>)
    requires |items| == |part| == |total| == |tax|
    ensures |s| == |items|
  {
    seq(|items|, i requires 0 <= i < |items| => Line(items[i], part[i], total[i], tax[i]))
  }

  function LinesOf(items: seq<Item>, points: int): (s: seq<Line>)
    requires ValidItems(items) && (points > 0 ==> Sum(Net(items)) > 0)
    ensures |s| == |items|
  {
    var totals := LineTotals(items, points);
    AssembleLines(items, Split(points, Net(items)), totals, LineTaxes(totals, Rates(items)))
  }

  const TAX_RATES := [0, 8, 10]

  function Calculate(items: seq<Item>, payments: seq<Payment>, points: int): Result<Totals, string>
    requires ValidItems(items) && ValidPayments(payments)
  {
    var refusal := ItemRefusal(items, |items|);
    var subtotal := Sum(Gross(items));
    var discount := Sum(Discounts(items));
    NetSum(items);
    if refusal.Some? then Failure(refusal.value)
    else if !Bounded(subtotal) || !Bounded(discount) then Failure("CASH_AMOUNT_LIMIT")
    else if !(0 <= points <= subtotal - discount) then Failure("CASH_POINTS_DISCOUNT_LIMIT")
    else
      SumUp(LinesOf(items, points), GroupsOf(LineTotals(items, points), Rates(items), TAX_RATES), subtotal, discount,
            points, payments)
  }

  /** The totals of the calculated lines, if the payments are in range. */
  function SumUp(lines: seq<Line>, groups: seq<TaxGroup>, subtotal: int, discount: int, points: int,
                 payments: seq<Payment>): Result<Totals, string>
  {
    var paid := Sum(Amounts(payments));
    var cash := Sum(AmountsBy(payments, Cash));
    if !Bounded(paid) || !Bounded(cash) then Failure("CASH_AMOUNT_LIMIT")
    else Success(Totals(lines, subtotal, discount, points, Sum(GroupTaxes(groups)), subtotal - discount - points,
                        cash, paid, groups))
  }

  // ---- The calculation as the code performs it, on arrays updated in place ----

  /** order lists 0..n-1, each once, in the order in which leftover yen are given out. */
  ghost predicate IsOrder(rem: seq<int>, order: seq<nat>, n: nat)
    requires n <= |rem|
  {
    && |order| == n
    && (forall k :: 0 <= k < n ==> order[k] < n)
    && (forall j, k :: 0 <= j < k < n ==> Before(rem, order[j], order[k]))
    && (forall i: nat :: i < n ==> i in order)
  }

  method SortAllocation(rem: seq<int>) returns (order: seq<nat>)
    ensures IsOrder(rem, order, |rem|)
  {
    order := [];
    for i := 0 to |rem|
      invariant IsOrder(rem, order, i)
    {
      var p := 0;
      while p < |order| && Before(rem, order[p], i)
        invariant p <= |order|
        invariant forall k :: 0 <= k < p ==> Before(rem, order[k], i)
      {
        p := p + 1;
      }
      ghost var was := order;
      assert forall k :: p <= k < i ==> Before(rem, i, was[k]);
      order := order[..p] + [i] + order[p..];
      forall j: nat | j < i + 1 ensures j in order {
        if j < i {
          assert j in was;
          var k :| 0 <= k < |was| && was[k] == j;
          assert order[if k < p then k else k + 1] == j;
        } else {
          assert order[p] == j;
        }
      }
    }
  }

  /** When exactly the first k lines of the order are served, the next one is order[k]. */
  lemma {:induction false} NextInOrder(rem: seq<int>, order: seq<nat>, served: set<nat>, k: nat)
    requires IsOrder(rem, order, |rem|) && k < |rem|
    requires forall p :: 0 <= p < |rem| ==> (order[p] in served <==> p < k)
    ensures Next(rem, served, |rem|) == Some(order[k])
  {
    var m := Next(rem, served, |rem|);
    assert order[k] !in served;
    assert m.Some?;
    assert m.value in order;
    var p :| 0 <= p < |order| && order[p] == m.value;
    assert p > k ==> Before(rem, order[k], order[p]);
    assert p != k ==> Before(rem, m.value, order[k]);
  }

  /** Giving out yen in sorted order serves the same lines as choosing the best one each time. */
  lemma {:induction false} OrderServes(rem: seq<int>, order: seq<nat>, k: nat)
    requires IsOrder(rem, order, |rem|) && k <= |rem|
    ensures forall p :: 0 <= p < |rem| ==> (order[p] in Chosen(rem, k) <==> p < k)
  {
    if k != 0 {
      OrderServes(rem, order, k - 1);
      NextInOrder(rem, order, Chosen(rem, k - 1), k - 1);
      forall p | 0 <= p < |rem| && p != k - 1 ensures order[p] != order[k - 1] {
        assert Before(rem, order[p], order[k - 1]) || Before(rem, order[k - 1], order[p]);
      }
    }
  }

  /** Writes the floor of every exact share, then one more yen to the lines served first. */
  method AllocatePoints(points: int, whole: int, total: array<int>, part: array<int>)
    requires part != total && part.Length == total.Length
    requires points > 0 && whole == Sum(total[..]) && Splittable(points, total[..])
    modifies part
    ensures part[..] == Split(points, total[..])
  {
    var n := total.Length;
    ghost var h := SharesOf(points, total[..]);
    var rem: seq<int> := [];
    for i := 0 to n
      invariant |rem| == i && rem == h.remainders[..i]
      invariant forall j :: 0 <= j < i ==> part[j] == h.floors[j]
    {
      part[i] := points * total[i] / whole;
      rem := rem + [points * total[i] % whole];
    }
    assert part[..] == h.floors && rem == h.remainders;
    SharesBalanced(points, total[..]);
    LeftoverCountsRemainders(h, points);
    var remainder := points - Sum(part[..]);
    ghost var left := remainder;
    var order := SortAllocation(rem);
    for k := 0 to n
      invariant remainder == if k <= left then left - k else 0
      invariant forall p :: 0 <= p < n ==> order[p] < n
      invariant forall p :: 0 <= p < n ==>
                  part[order[p]] == h.floors[order[p]] + (if p < k && p < left then 1 else 0)
    {
      if remainder > 0 {
        part[order[k]] := part[order[k]] + 1;
        remainder := remainder - 1;
      }
      forall p | 0 <= p < n && p != k ensures order[p] != order[k] {
        assert Before(rem, order[p], order[k]) || Before(rem, order[k], order[p]);
      }
    }
    OrderServes(rem, order, left);
    forall i: nat | i < n ensures part[i] == Split(points, total[..])[i] {
      assert i in order;
      var p :| 0 <= p < |order| && order[p] == i;
    }
  }

  /** The sum of the values of one group. */
  method SumGroup(r: int, rates: seq<int>, values: seq<int>) returns (sum: int)
    requires |values| == |rates|
    ensures sum == GroupSum(values, rates, r, |rates|)
  {
    sum := 0;
    for i := 0 to |rates|
      invariant sum == GroupSum(values, rates, r, i)
    {
      if rates[i] == r {
        sum := sum + values[i];
      }
    }
  }

  /** Adds one yen to each of the first `leftover` lines of a group. */
  method TopUp(r: int, rates: seq<int>, leftover: int, tax: array<int>)
    requires tax.Length == |rates|
    modifies tax
    ensures forall i :: 0 <= i < |rates| ==>
              tax[i] == old(tax[i]) + (if rates[i] == r && GroupCount(rates, r, i) < leftover then 1 else 0)
  {
    var remainder := leftover;
    for i := 0 to |rates|
      invariant remainder == if GroupCount(rates, r, i) <= leftover then leftover - GroupCount(rates, r, i)
                             else if leftover < 0 then leftover else 0
      invariant forall j :: 0 <= j < i ==>
                  tax[j] == old(tax[j]) + (if rates[j] == r && GroupCount(rates, r, j) < leftover then 1 else 0)
      invariant forall j :: i <= j < |rates| ==> tax[j] == old(tax[j])
    {
      if rates[i] == r && remainder > 0 {
        tax[i] := tax[i] + 1;
        remainder := remainder - 1;
      }
    }
  }

  lemma {:induction false} RefusalPersists(items: seq<Item>, k: nat, m: nat)
    requires k <= m <= |items| && ItemRefusal(items, k).Some?
    ensures ItemRefusal(items, m) == ItemRefusal(items, k)
  {
    if k < m { RefusalPersists(items, k, m - 1); }
  }

  lemma {:induction false} NetNonnegative(items: seq<Item>)
    requires ItemRefusal(items, |items|).None?
    ensures forall i :: 0 <= i < |items| ==> Net(items)[i] >= 0
    ensures Sum(Net(items)) >= 0
  {
    ItemsAccepted(items, |items|);
    SumNonnegative(Net(items));
  }

  /** Prices the items in order, stopping at the first one that is refused. */
  method PriceItems(items: seq<Item>, total: array<int>) returns (refusal: Option<string>)
    requires total.Length == |items|
    modifies total
    ensures refusal == ItemRefusal(items, |items|)
    ensures refusal.None? ==> total[..] == Net(items)
  {
    for i := 0 to |items|
      invariant ItemRefusal(items, i).None?
      invariant forall j :: 0 <= j < i ==> total[j] == Net(items)[j]
    {
      var gross := items[i].quantity * items[i].unitPriceYen;
      if gross > CASH_MAX_YEN {
        RefusalPersists(items, i + 1, |items|);
        return Some("CASH_AMOUNT_LIMIT");
      }
      if items[i].discountYen > gross {
        RefusalPersists(items, i + 1, |items|);
        return Some("CASH_DISCOUNT_LIMIT");
      }
      total[i] := gross - items[i].discountYen;
    }
    return None;
  }

  /** Takes the points off every line and rounds its tax down. */
  method SubtractPoints(rates: seq<int>, part: array<int>, total: array<int>, tax: array<int>)
    requires part.Length == total.Length == tax.Length == |rates|
    requires part != total && part != tax && total != tax
    requires forall i :: 0 <= i < |rates| ==> rates[i] >= 0
    modifies total, tax
    ensures forall i :: 0 <= i < |rates| ==> total[i] == old(total[i]) - part[i]
    ensures forall i :: 0 <= i < |rates| ==> tax[i] == FloorTax(total[i], rates[i])
  {
    for i := 0 to |rates|
      invariant forall j :: 0 <= j < i ==>
                  total[j] == old(total[j]) - part[j] && tax[j] == FloorTax(total[j], rates[j])
      invariant forall j :: i <= j < |rates| ==> total[j] == old(total[j])
    {
      total[i] := total[i] - part[i];
      tax[i] := FloorTax(total[i], rates[i]);
    }
  }

  /** The whole calculation: refusals in the order in which the code raises them. */
  method CalculateDraft(items: seq<Item>, payments: seq<Payment>, points: int) returns (r: Result<Totals, string>)
    requires ValidItems(items) && ValidPayments(payments)
    ensures r == Calculate(items, payments, points)
  {
    var n := |items|;
    var total := new int[n];
    var refusal := PriceItems(items, total);
    if refusal.Some? { return Failure(refusal.value); }
    var subtotal := Sum(Gross(items));
    var discount := Sum(Discounts(items));
    if !Bounded(subtotal) || !Bounded(discount) { return Failure("CASH_AMOUNT_LIMIT"); }
    var after := subtotal - discount;
    NetSum(items);
    if !(0 <= points <= after) { return Failure("CASH_POINTS_DISCOUNT_LIMIT"); }
    var lines, groups := CalculateLines(items, points, after, total);
    r := SumUp(lines, groups, subtotal, discount, points, payments);
  }

  /** Lines and tax groups of an accepted draft, from the line totals before points. */
  method CalculateLines(items: seq<Item>, points: int, after: int, total: array<int>)
    returns (lines: seq<Line>, groups: seq<TaxGroup>)
    requires ValidItems(items) && ItemRefusal(items, |items|).None?
    requires total[..] == Net(items) && after == Sum(Net(items)) && 0 <= points <= after
    modifies total
    ensures lines == LinesOf(items, points)
    ensures groups == GroupsOf(LineTotals(items, points), Rates(items), TAX_RATES)
  {
    NetNonnegative(items);
    var part := PointsByLine(points, after, total);
    ghost var split := part[..];
    var tax := new int[|items|];
    SubtractPoints(Rates(items), part, total, tax);
    LineTotalsNonnegative(items, points);
    assert total[..] == LineTotals(items, points);
    assert tax[..] == FloorTaxes(total[..], Rates(items));
    groups := AllocateTaxes(Rates(items), total[..], tax);
    assert part[..] == split;
    lines := AssembleLines(items, part[..], total[..], tax[..]);
  }

  method PointsByLine(points: int, whole: int, total: array<int>) returns (part: array<int>)
    requires whole == Sum(total[..]) && 0 <= points <= whole
    requires points > 0 ==> Splittable(points, total[..])
    ensures fresh(part) && part.Length == total.Length
    ensures part[..] == Split(points, total[..])
  {
    part := new int[total.Length](_ => 0);
    if points > 0 {
      AllocatePoints(points, whole, total, part);
    }
  }

  lemma {:induction false} LineTotalsNonnegative(items: seq<Item>, points: int)
    requires ItemRefusal(items, |items|).None? && 0 <= points <= Sum(Net(items))
    ensures forall i :: 0 <= i < |items| ==> LineTotals(items, points)[i] >= 0
  {
    NetNonnegative(items);
    forall i | 0 <= i < |items| ensures LineTotals(items, points)[i] >= 0 {
      SplitShare(points, Net(items), i);
    }
  }

  /** One more rate: its lines were not among those handled, and its group follows theirs. */
  lemma {:induction false} NextRate(totals: seq<int>, rates: seq<int>, c: nat)
    requires |totals| == |rates| && c < |TAX_RATES|
    ensures forall x :: x in TAX_RATES[..c + 1] <==> x in TAX_RATES[..c] || x == TAX_RATES[c]
    ensures TAX_RATES[c] !in TAX_RATES[..c]
    ensures GroupCount(rates, TAX_RATES[c], |rates|) == 0 ==> forall i :: 0 <= i < |rates| ==> rates[i] != TAX_RATES[c]
    ensures GroupsOf(totals, rates, TAX_RATES[..c + 1])
         == GroupsOf(totals, rates, TAX_RATES[..c])
            + (if GroupCount(rates, TAX_RATES[c], |rates|) > 0
               then [TaxGroup(TAX_RATES[c], GroupSum(totals, rates, TAX_RATES[c], |rates|), GroupTax(totals, rates, TAX_RATES[c]))]
               else [])
  {
    assert TAX_RATES[..c + 1] == TAX_RATES[..c] + [TAX_RATES[c]];
    NoLineOfRate(rates, TAX_RATES[c], |rates|);
  }

  /** Handles the three tax rates in turn, each on the lines that carry it. */
  method AllocateTaxes(rates: seq<int>, totals: seq<int>, tax: array<int>) returns (groups: seq<TaxGroup>)
    requires tax.Length == |totals| == |rates|
    requires forall i :: 0 <= i < |rates| ==> rates[i] >= 0
    requires forall i :: 0 <= i < |rates| ==> rates[i] in TAX_RATES
    requires tax[..] == FloorTaxes(totals, rates)
    modifies tax
    ensures tax[..] == LineTaxes(totals, rates)
    ensures groups == GroupsOf(totals, rates, TAX_RATES)
  {
    groups := [];
    ghost var floors := tax[..];
    ghost var final := LineTaxes(totals, rates);
    for c := 0 to |TAX_RATES|
      invariant groups == GroupsOf(totals, rates, TAX_RATES[..c])
      invariant forall i :: 0 <= i < |rates| ==>
                  tax[i] == if rates[i] in TAX_RATES[..c] then final[i] else floors[i]
    {
      var r := TAX_RATES[c];
      NextRate(totals, rates, c);
      if GroupCount(rates, r, |rates|) > 0 {
        var group := ShareGroupTax(r, rates, totals, tax, floors);
        groups := groups + [group];
      }
    }
    assert TAX_RATES[..|TAX_RATES|] == TAX_RATES;
  }

  /** Rounds the tax of one rate down once and tops its first lines up to it. */
  method ShareGroupTax(r: int, rates: seq<int>, totals: seq<int>, tax: array<int>, ghost floors: seq<int>)
    returns (group: TaxGroup)
    requires tax.Length == |totals| == |rates| && r >= 0
    requires forall i :: 0 <= i < |rates| ==> rates[i] >= 0
    requires floors == FloorTaxes(totals, rates)
    requires forall i :: 0 <= i < |rates| && rates[i] == r ==> tax[i] == floors[i]
    modifies tax
    ensures group == TaxGroup(r, GroupSum(totals, rates, r, |rates|), GroupTax(totals, rates, r))
    ensures forall i :: 0 <= i < |rates| ==>
              tax[i] == if rates[i] == r then LineTaxes(totals, rates)[i] else old(tax[i])
  {
    var taxable := SumGroup(r, rates, totals);
    var taxYen := FloorTax(taxable, r);
    GroupSumAgrees(tax[..], floors, rates, r, |rates|);
    var rounded := SumGroup(r, rates, tax[..]);
    TopUp(r, rates, taxYen - rounded, tax);
    group := TaxGroup(r, taxable, taxYen);
  }

  /** A group sum reads only the values of its own lines. */
  lemma {:induction false} GroupSumAgrees(a: seq<int>, b: seq<int>, rates: seq<int>, r: int, k: nat)
    requires k <= |a| == |b| == |rates|
    requires forall i :: 0 <= i < |rates| && rates[i] == r ==> a[i] == b[i]
    ensures GroupSum(a, rates, r, k) == GroupSum(b, rates, r, k)
  {
    if k != 0 { GroupSumAgrees(a, b, rates, r, k - 1); }
  }

  lemma {:induction false} NoLineOfRate(rates: seq<int>, r: int, k: nat)
    requires k <= |rates|
    ensures GroupCount(rates, r, k) == 0 <==> forall i :: 0 <= i < k ==> rates[i] != r
  {
    if k != 0 { NoLineOfRate(rates, r, k - 1); }
  }

  // ---- What an accepted draft guarantees ----

  /** The line values of an accepted draft, read back from its lines. */
  function PointsOf(lines: seq<Line>): (s: seq<int>)
    ensures |s| == |lines|
  {
    seq(|lines|, i requires 0 <= i < |lines| => lines[i].pointsDiscountYen)
  }

  function TotalsOf(lines: seq<Line>): (s: seq<int>)
    ensures |s| == |lines|
  {
    seq(|lines|, i requires 0 <= i < |lines| => lines[i].totalYen)
  }

  function TaxesOf(lines: seq<Line>): (s: seq<int>)
    ensures |s| == |lines|
  {
    seq(|lines|, i requires 0 <= i < |lines| => lines[i].taxYen)
  }

  function ItemsOf(lines: seq<Line>): (s: seq<Item>)
    ensures |s| == |lines|
  {
    seq(|lines|, i requires 0 <= i < |lines| => lines[i].item)
  }

  lemma LinesRead(items: seq<Item>, points: int)
    requires ValidItems(items) && (points > 0 ==> Sum(Net(items)) > 0)
    ensures var lines := LinesOf(items, points);
            && ItemsOf(lines) == items
            && PointsOf(lines) == Split(points, Net(items))
            && TotalsOf(lines) == LineTotals(items, points)
            && TaxesOf(lines) == LineTaxes(LineTotals(items, points), Rates(items))
  {
    var lines := LinesOf(items, points);
    assert ItemsOf(lines) == items;
    assert PointsOf(lines) == Split(points, Net(items));
    assert TotalsOf(lines) == LineTotals(items, points);
    assert TaxesOf(lines) == LineTaxes(LineTotals(items, points), Rates(items));
  }

  lemma {:induction false} AcceptedLine(items: seq<Item>, points: int, i: nat)
    requires ValidItems(items) && ItemRefusal(items, |items|).None? && 0 <= points <= Sum(Net(items)) && i < |items|
    ensures var l := LinesOf(items, points)[i];
            && l.totalYen == GrossOf(items[i]) - items[i].discountYen - l.pointsDiscountYen
            && l.totalYen >= 0 && l.pointsDiscountYen >= 0
  {
    NetNonnegative(items);
    SplitShare(points, Net(items), i);
    LineTotalsNonnegative(items, points);
  }

  lemma {:induction false} AcceptedSums(items: seq<Item>, points: int)
    requires ValidItems(items) && ItemRefusal(items, |items|).None? && 0 <= points <= Sum(Net(items))
    ensures Sum(Split(points, Net(items))) == points && Sum(LineTotals(items, points)) == Sum(Net(items)) - points
  {
    NetNonnegative(items);
    SplitSum(points, Net(items));
    SumLinear(1, Net(items), -1, Split(points, Net(items)), LineTotals(items, points));
  }

  lemma {:induction false} AcceptedLines(items: seq<Item>, points: int)
    requires ValidItems(items) && ItemRefusal(items, |items|).None? && 0 <= points <= Sum(Net(items))
    ensures var lines := LinesOf(items, points);
            && ItemsOf(lines) == items
            && Sum(PointsOf(lines)) == points && Sum(TotalsOf(lines)) == Sum(Net(items)) - points
            && (forall i :: 0 <= i < |items| ==>
                  && lines[i].totalYen == GrossOf(items[i]) - items[i].discountYen - lines[i].pointsDiscountYen
                  && lines[i].totalYen >= 0 && lines[i].pointsDiscountYen >= 0)
  {
    LinesRead(items, points);
    AcceptedSums(items, points);
    var lines := LinesOf(items, points);
    forall i | 0 <= i < |items|
      ensures lines[i].totalYen == GrossOf(items[i]) - items[i].discountYen - lines[i].pointsDiscountYen
      ensures lines[i].totalYen >= 0 && lines[i].pointsDiscountYen >= 0
    {
      AcceptedLine(items, points, i);
    }
  }

  /** Line totals of an accepted draft are never negative and add up, with the points, to the receipt. */
  lemma AcceptedAmounts(items: seq<Item>, payments: seq<Payment>, points: int)
    requires ValidItems(items) && ValidPayments(payments)
    requires Calculate(items, payments, points).Success?
    ensures var t := Calculate(items, payments, points).value;
            && ItemsOf(t.lines) == items
            && Sum(PointsOf(t.lines)) == points == t.pointsDiscountYen
            && Sum(TotalsOf(t.lines)) == t.totalYen == t.subtotalYen - t.discountYen - t.pointsDiscountYen
            && (forall i :: 0 <= i < |items| ==>
                  && t.lines[i].totalYen == GrossOf(items[i]) - items[i].discountYen - t.lines[i].pointsDiscountYen
                  && t.lines[i].totalYen >= 0 && t.lines[i].pointsDiscountYen >= 0)
            && t.totalYen >= 0
  {
    NetSum(items);
    AcceptedLines(items, points);
  }

  /** Every line's discount is covered by its price. */
  predicate DiscountsCovered(items: seq<Item>) {
    forall i :: 0 <= i < |items| ==> items[i].discountYen <= GrossOf(items[i])
  }

  lemma {:induction false} NothingRefused(items: seq<Item>, k: nat)
    requires k <= |items|
    ensures ItemRefusal(items, k).None? <==>
              forall i :: 0 <= i < k ==> items[i].discountYen <= GrossOf(items[i]) <= CASH_MAX_YEN
  {
    if k != 0 { NothingRefused(items, k - 1); }
  }

  /** Line prices are not negative, so a bounded sum bounds them all, and covered discounts with them. */
  lemma {:induction false} BoundedSumBoundsLines(items: seq<Item>)
    requires ValidItems(items) && DiscountsCovered(items) && Sum(Gross(items)) <= CASH_MAX_YEN
    ensures ItemRefusal(items, |items|).None? && Bounded(Sum(Gross(items))) && Bounded(Sum(Discounts(items)))
  {
    forall i | 0 <= i < |items| ensures 0 <= Gross(items)[i] == GrossOf(items[i]) {
      assert ValidItem(items[i]);
    }
    forall i | 0 <= i < |items| ensures GrossOf(items[i]) <= CASH_MAX_YEN {
      SumAtLeast(Gross(items), i);
    }
    NothingRefused(items, |items|);
    SumNonnegative(Gross(items));
    SumNonnegative(Discounts(items));
    SumMonotone(Discounts(items), Gross(items));
  }

  /** Cash is part of what is paid. */
  lemma CashWithinPaid(payments: seq<Payment>)
    requires ValidPayments(payments)
    ensures 0 <= Sum(AmountsBy(payments, Cash)) <= Sum(Amounts(payments))
  {
    SumNonnegative(AmountsBy(payments, Cash));
    SumMonotone(AmountsBy(payments, Cash), Amounts(payments));
  }

  /**
   Which drafts are priced: discounts covered line by line, prices and payments within the limit in total,
   and no more points than what is left to pay. The limits on single lines, on the discounts and on the cash
   then hold by themselves.
   */
  lemma CalculateIff(items: seq<Item>, payments: seq<Payment>, points: int)
    requires ValidItems(items) && ValidPayments(payments)
    ensures Calculate(items, payments, points).Success? <==>
              && DiscountsCovered(items) && Sum(Gross(items)) <= CASH_MAX_YEN
              && 0 <= points <= Sum(Gross(items)) - Sum(Discounts(items))
              && Sum(Amounts(payments)) <= CASH_MAX_YEN
  {
    NothingRefused(items, |items|);
    CashWithinPaid(payments);
    if DiscountsCovered(items) && Sum(Gross(items)) <= CASH_MAX_YEN { BoundedSumBoundsLines(items); }
  }
}
