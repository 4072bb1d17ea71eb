/**
 The points discount of a receipt, split over its lines by largest remainder: every line gets the
 floor of its exact proportional share, and the yen left over go one each to the lines with the
 largest remainders, earlier lines first among equals.
 */
module CashSplit {
  import opened Common

  // ---- The allocation ----

  /** The order in which lines are served: larger remainder first, then smaller line number. */
  predicate Before(rem: seq<int>, i: nat, j: nat)
    requires i < |rem| && j < |rem|
  {
    rem[i] > rem[j] || (rem[i] == rem[j] && i < j)
  }

  /** The first line to serve among lines below n that are not in `served`. */
  function Next(rem: seq<int>, served: set<nat>, n: nat): (m: Option<nat>)
    requires n <= |rem|
    ensures m.None? ==> forall j :: 0 <= j < n ==> j in served
    ensures m.Some? ==> m.value < n && m.value !in served
    ensures m.Some? ==> forall j: nat :: j < n && j !in served && j != m.value ==> Before(rem, m.value, j)
  {
    if n == 0 then None
    else
      var m := Next(rem, served, n - 1);
      if n - 1 in served then m
      else if m.None? || Before(rem, n - 1, m.value) then Some(n - 1)
      else m
  }

  /** The lines that get one of the k leftover yen. */
  function Chosen(rem: seq<int>, k: nat): (c: set<nat>)
    ensures forall i :: i in c ==> i < |rem|
  {
    if k == 0 then {}
    else
      var c := Chosen(rem, k - 1);
      var m := Next(rem, c, |rem|);
      if m.None? then c else c + {m.value}
  }

  lemma {:induction false} CoverSize(c: set<nat>, n: nat)
    requires forall j :: 0 <= j < n ==> j in c
    ensures |c| >= n
  {
    if n != 0 {
      CoverSize(c - {n - 1}, n - 1);
    }
  }

  /** While fewer lines than there are have been served, there is a next one. */
  lemma {:induction false} NextExists(rem: seq<int>, served: set<nat>)
    requires |served| < |rem|
    ensures Next(rem, served, |rem|).Some?
  {
    if Next(rem, served, |rem|).None? { CoverSize(served, |rem|); }
  }

  lemma {:induction false} ChosenSize(rem: seq<int>, k: nat)
    requires k <= |rem|
    ensures |Chosen(rem, k)| == k
  {
    if k != 0 {
      ChosenSize(rem, k - 1);
      NextExists(rem, Chosen(rem, k - 1));
    }
  }

  lemma {:induction false} ChosenFirst(rem: seq<int>, k: nat, i: nat, j: nat)
    requires i in Chosen(rem, k) && j < |rem| && j !in Chosen(rem, k)
    ensures Before(rem, i, j)
  {
    var c := Chosen(rem, k - 1);
    var m := Next(rem, c, |rem|);
    if i in c {
      ChosenFirst(rem, k - 1, i, j);
    } else {
      assert m == Some(i);
    }
  }

  lemma {:induction false} ChosenGrows(rem: seq<int>, k: nat)
    requires 1 <= k <= |rem|
    ensures var m := Next(rem, Chosen(rem, k - 1), |rem|);
            m.Some? && Chosen(rem, k) == Chosen(rem, k - 1) + {m.value}
  {
    var c := Chosen(rem, k - 1);
    ChosenSize(rem, k - 1);
    NextExists(rem, c);
    assert Chosen(rem, k) == c + {Next(rem, c, |rem|).value};
  }

  /** The last line served bounds the remainders on both sides. */
  lemma {:induction false} LastChosen(rem: seq<int>, k: nat, i: nat)
    requires 1 <= k <= |rem| && i < |rem|
    ensures var m := Next(rem, Chosen(rem, k - 1), |rem|);
            && m.Some?
            && (if i in Chosen(rem, k) then rem[i] >= rem[m.value] else rem[i] <= rem[m.value])
  {
    ChosenGrows(rem, k);
    var m := Next(rem, Chosen(rem, k - 1), |rem|).value;
    if i in Chosen(rem, k - 1) {
      ChosenFirst(rem, k - 1, i, m);
    } else if i != m {
      ChosenFirst(rem, k, m, i);
    }
  }

  // ---- Exact shares, floors and remainders ----

  /** Exact shares numerators[i] / whole, each cut into its floor and its remainder. */
  datatype Shares = Shares(numerators: seq<int>, whole: int, floors: seq<int>, remainders: seq<int>)

  ghost predicate Exact(h: Shares) {
    && h.whole > 0
    && |h.numerators| == |h.floors| == |h.remainders|
    && (forall i :: 0 <= i < |h.floors| ==> h.numerators[i] == h.whole * h.floors[i] + h.remainders[i])
    && (forall i :: 0 <= i < |h.floors| ==> 0 <= h.remainders[i] < h.whole)
  }

  /** The exact shares add up to the points, and there is a line to take them. */
  ghost predicate Balanced(h: Shares, points: int) {
    Exact(h) && |h.floors| > 0 && Sum(h.numerators) == points * h.whole
  }

  function Leftover(h: Shares, points: int): int {
    points - Sum(h.floors)
  }

  function Served(h: Shares, points: int): set<nat> {
    var left := Leftover(h, points);
    Chosen(h.remainders, if left < 0 then 0 else left)
  }

  function Indicator(c: set<nat>, n: nat): (s: seq<int>)
    ensures |s| == n
  {
    seq(n, i requires 0 <= i < n => if i in c then 1 else 0)
  }

  /** Floors, plus one yen for each line served. */
  function Parts(h: Shares, points: int): (a: seq<int>)
    ensures |a| == |h.floors|
    ensures forall i :: 0 <= i < |a| ==> a[i] == h.floors[i] + (if i in Served(h, points) then 1 else 0)
  {
    seq(|h.floors|, i requires 0 <= i < |h.floors| => h.floors[i] + (if i in Served(h, points) then 1 else 0))
  }

  function SharesOf(points: int, totals: seq<int>): (h: Shares)
    requires Sum(totals) > 0
    ensures |h.numerators| == |h.floors| == |h.remainders| == |totals| && h.whole == Sum(totals)
    ensures forall i :: 0 <= i < |totals| ==> h.numerators[i] == points * totals[i]
  {
    var d := Sum(totals);
    var n := |totals|;
    Shares(seq(n, i requires 0 <= i < n => points * totals[i]), d,
           seq(n, i requires 0 <= i < n => points * totals[i] / d),
           seq(n, i requires 0 <= i < n => points * totals[i] % d))
  }

  /** The points discount of each line; no points, no discount. */
  function Split(points: int, totals: seq<int>): (a: seq<int>)
    requires points > 0 ==> Sum(totals) > 0
    ensures |a| == |totals|
  {
    if points <= 0 then seq(|totals|, i => 0) else Parts(SharesOf(points, totals), points)
  }

  // ---- Arithmetic ----

  lemma DivMod(x: int, d: int)
    requires d > 0
    ensures x == d * (x / d) + x % d
  {
  }

  lemma MulMonotone(x: int, y: int, d: int)
    requires x <= y && d >= 0
    ensures x * d <= y * d
  {
  }

  lemma {:induction false} SharesBalanced(points: int, totals: seq<int>)
    requires Sum(totals) > 0
    ensures Balanced(SharesOf(points, totals), points)
  {
    var h := SharesOf(points, totals);
    forall i | 0 <= i < |totals| ensures h.numerators[i] == h.whole * h.floors[i] + h.remainders[i] {
      DivMod(points * totals[i], Sum(totals));
    }
    SumLinear(points, totals, 0, totals, h.numerators);
  }

  lemma LeftoverBounds(points: int, d: int, floors: int, remainders: int, n: nat)
    requires d > 0 && n > 0
    requires points * d == d * floors + remainders
    requires 0 <= remainders <= (d - 1) * n
    ensures remainders == d * (points - floors)
    ensures 0 <= points - floors < n
  {
    var left := points - floors;
    assert remainders == left * d;
    assert (d - 1) * n == n * d - n;
    if left < 0 {
      MulMonotone(left, -1, d);
    } else if left >= n {
      MulMonotone(n, left, d);
    }
  }

  /** The remainders add up to as many whole yen as the floors leave over: fewer than lines. */
  lemma LeftoverCountsRemainders(h: Shares, points: int)
    requires Balanced(h, points)
    ensures Sum(h.remainders) == h.whole * Leftover(h, points)
    ensures 0 <= Leftover(h, points) < |h.floors|
  {
    SumLinear(h.whole, h.floors, 1, h.remainders, h.numerators);
    SumBetween(h.remainders, 0, h.whole - 1);
    LeftoverBounds(points, h.whole, Sum(h.floors), Sum(h.remainders), |h.floors|);
  }

  lemma {:induction false} IndicatorSum(c: set<nat>, n: nat)
    requires forall i :: i in c ==> i < n
    ensures Sum(Indicator(c, n)) == |c|
  {
    if c == {} {
      SumBetween(Indicator(c, n), 0, 0);
    } else {
      var x :| x in c;
      IndicatorSum(c - {x}, n);
      assert Indicator(c, n) == Indicator(c - {x}, n)[x := 1];
      SumUpdate(Indicator(c - {x}, n), x, 1);
    }
  }

  lemma PartsSum(h: Shares, points: int)
    requires Balanced(h, points)
    ensures Sum(Parts(h, points)) == points
  {
    LeftoverCountsRemainders(h, points);
    var c := Served(h, points);
    IndicatorSum(c, |h.floors|);
    ChosenSize(h.remainders, Leftover(h, points));
    SumLinear(1, h.floors, 1, Indicator(c, |h.floors|), Parts(h, points));
  }

  lemma RoomLeft(d: int, left: int)
    requires d > 0 && left >= 1
    ensures d * left > (d - 1) * (left - 1)
  {
    assert (d - 1) * (left - 1) == d * left - d - left + 1;
  }

  /** Only a line whose exact share is not a whole number of yen is rounded up. */
  lemma ServedHasRemainder(h: Shares, points: int, i: nat)
    requires Balanced(h, points) && i in Served(h, points)
    ensures h.remainders[i] > 0
  {
    var n := |h.floors|;
    var rem := h.remainders;
    var c := Served(h, points);
    var left := Leftover(h, points);
    LeftoverCountsRemainders(h, points);
    if rem[i] == 0 {
      var others := Indicator(c - {i}, n);
      var bound := seq(n, j requires 0 <= j < n => if j in c - {i} then h.whole - 1 else 0);
      forall j | 0 <= j < n ensures rem[j] <= bound[j] {
        if j !in c { ChosenFirst(rem, left, i, j); }
      }
      SumMonotone(rem, bound);
      SumLinear(h.whole - 1, others, 0, others, bound);
      IndicatorSum(c - {i}, n);
      ChosenSize(rem, left);
      RoomLeft(h.whole, left);
    }
  }

  /** A floor share f with remainder r, rounded up or not, stays next to x/d and within t. */
  lemma ShareBounds(x: int, d: int, f: int, r: int, t: int, up: bool)
    requires x == d * f + r && 0 <= r < d && 0 <= x <= d * t
    requires up ==> r > 0
    ensures var a := f + (if up then 1 else 0); (a - 1) * d < x < (a + 1) * d && 0 <= a <= t
  {
    assert (f - 1) * d == d * f - d && (f + 1) * d == d * f + d && (f + 2) * d == d * f + 2 * d;
    if f < 0 {
      MulMonotone(f, -1, d);
    }
    if f >= t {
      MulMonotone(t, f, d);
      if f > t { MulMonotone(t + 1, f, d); }
    }
  }

  lemma ExactRange(points: int, d: int, t: int)
    requires 0 <= points <= d && t >= 0
    ensures 0 <= points * t <= d * t
  {
    MulMonotone(points, d, t);
    MulMonotone(0, points, t);
  }

  // ---- The split is optimal ----

  function Abs(x: int): nat {
    if x < 0 then -x else x
  }

  /** How far each part is from its exact share, in units of 1/whole yen. */
  function Deviations(h: Shares, a: seq<int>): (s: seq<int>)
    requires |a| == |h.numerators|
    ensures |s| == |a|
  {
    seq(|a|, i requires 0 <= i < |a| => Abs(a[i] * h.whole - h.numerators[i]))
  }

  lemma Spread(e: int, d: int, l: int)
    ensures e * (d - l) == e * d - l * e
    ensures (-e) * (d + l) == -(e * d) - l * e
  {
  }

  /** The price of moving a part by e from the floor share, whose remainder is r, at slope l. */
  lemma SlopeAtFloor(d: int, r: int, e: int, l: int)
    requires 0 <= r < d && -d <= l <= d - 2 * r
    ensures Abs(e * d - r) >= r + l * e
  {
    Spread(e, d, l);
    if e >= 1 {
      MulMonotone(1, e, d - l);
    } else {
      MulMonotone(0, -e, d + l);
    }
  }

  /** The same from the rounded-up share. */
  lemma SlopeAtCeiling(d: int, r: int, e: int, l: int)
    requires 0 <= r < d && d - 2 * r <= l <= d
    ensures Abs(e * d + (d - r)) >= (d - r) + l * e
  {
    Spread(e, d, l);
    if e >= 0 {
      MulMonotone(0, e, d - l);
      MulMonotone(0, e, d);
    } else {
      MulMonotone(1, -e, d + l);
      MulMonotone(1, -e, d);
    }
  }

  lemma MoveFrom(d: int, f: int, r: int, up: bool, b: int, l: int)
    requires 0 <= r < d
    requires if up then d - 2 * r <= l <= d else -d <= l <= d - 2 * r
    ensures var a := f + (if up then 1 else 0);
            Abs(b * d - (d * f + r)) >= Abs(a * d - (d * f + r)) + l * (b - a)
  {
    var a := f + (if up then 1 else 0);
    assert b * d == a * d + (b - a) * d;
    assert a * d == d * f + (if up then d else 0);
    if up {
      SlopeAtCeiling(d, r, b - a, l);
    } else {
      SlopeAtFloor(d, r, b - a, l);
    }
  }

  /** The slope that separates lines that were served from those that were not. */
  function Slope(rem: seq<int>, d: int, k: int): int
    requires k <= |rem|
  {
    if k <= 0 then -d
    else
      var m := Next(rem, Chosen(rem, k - 1), |rem|);
      if m.None? then -d else d - 2 * rem[m.value]
  }

  lemma {:induction false} SlopeSeparates(rem: seq<int>, d: int, k: nat, i: nat)
    requires k <= |rem| && i < |rem|
    requires forall j :: 0 <= j < |rem| ==> 0 <= rem[j] < d
    ensures var l := Slope(rem, d, k);
            if i in Chosen(rem, k) then d - 2 * rem[i] <= l <= d else -d <= l <= d - 2 * rem[i]
  {
    if k != 0 { LastChosen(rem, k, i); }
  }

  /** Moving any one part costs at least the slope. */
  lemma PartOptimal(h: Shares, points: int, b: seq<int>, l: int, i: nat)
    requires Balanced(h, points) && i < |h.floors| == |b|
    requires 0 <= Leftover(h, points) < |h.floors|
    requires l == Slope(h.remainders, h.whole, Leftover(h, points))
    ensures var a := Parts(h, points);
            Deviations(h, b)[i] >= Deviations(h, a)[i] + l * (b[i] - a[i])
  {
    SlopeSeparates(h.remainders, h.whole, Leftover(h, points), i);
    MoveFrom(h.whole, h.floors[i], h.remainders[i], i in Served(h, points), b[i], l);
  }

  /** If each move costs at least its slope, moves that cancel out cost nothing less in total. */
  lemma {:induction false} SlopesAdd(mine: seq<int>, other: seq<int>, a: seq<int>, b: seq<int>, l: int)
    requires |mine| == |other| == |a| == |b|
    requires forall i :: 0 <= i < |a| ==> other[i] >= mine[i] + l * (b[i] - a[i])
    ensures Sum(other) >= Sum(mine) + l * (Sum(b) - Sum(a))
  {
    if |a| != 0 {
      var n := |a| - 1;
      SlopesAdd(mine[..n], other[..n], a[..n], b[..n], l);
      var rest := Sum(b[..n]) - Sum(a[..n]);
      assert l * (rest + (b[n] - a[n])) == l * rest + l * (b[n] - a[n]);
    }
  }

  lemma {:induction false} SlopesCancel(mine: seq<int>, other: seq<int>, a: seq<int>, b: seq<int>, l: int)
    requires |mine| == |other| == |a| == |b| && Sum(a) == Sum(b)
    requires forall i :: 0 <= i < |a| ==> other[i] >= mine[i] + l * (b[i] - a[i])
    ensures Sum(other) >= Sum(mine)
  {
    SlopesAdd(mine, other, a, b, l);
  }

  lemma {:induction false} PartsOptimal(h: Shares, points: int, b: seq<int>)
    requires Balanced(h, points)
    requires |b| == |h.floors| && Sum(b) == points
    ensures Sum(Deviations(h, Parts(h, points))) <= Sum(Deviations(h, b))
  {
    LeftoverCountsRemainders(h, points);
    PartsSum(h, points);
    var a := Parts(h, points);
    var mine := Deviations(h, a);
    var other := Deviations(h, b);
    var l := Slope(h.remainders, h.whole, Leftover(h, points));
    forall i | 0 <= i < |b| ensures other[i] >= mine[i] + l * (b[i] - a[i]) {
      PartOptimal(h, points, b, l, i);
    }
    SlopesCancel(mine, other, a, b, l);
  }

  // ---- What the split guarantees, in the receipt's own terms ----

  ghost predicate Splittable(points: int, totals: seq<int>) {
    && (forall i :: 0 <= i < |totals| ==> totals[i] >= 0)
    && 0 <= points <= Sum(totals)
  }

  /** The parts add up to the requested discount exactly. */
  lemma SplitSum(points: int, totals: seq<int>)
    requires Splittable(points, totals)
    ensures Sum(Split(points, totals)) == points
  {
    if points == 0 {
      SumBetween(Split(points, totals), 0, 0);
    } else {
      SharesBalanced(points, totals);
      PartsSum(SharesOf(points, totals), points);
    }
  }

  /**
   Each part is the floor or the ceiling of the exact share points * total / whole, hence the
   share itself where that is whole, and it never exceeds the line's own total.
   */
  lemma {:induction false} SplitShare(points: int, totals: seq<int>, i: nat)
    requires Splittable(points, totals) && i < |totals|
    ensures var a := Split(points, totals)[i];
            var d := Sum(totals);
            && (points > 0 ==> (a - 1) * d < points * totals[i] < (a + 1) * d)
            && 0 <= a <= totals[i]
  {
    if points > 0 {
      SharesBalanced(points, totals);
      ExactRange(points, Sum(totals), totals[i]);
      PartShare(SharesOf(points, totals), points, i, totals[i]);
    }
  }

  lemma PartShare(h: Shares, points: int, i: nat, t: int)
    requires Balanced(h, points) && i < |h.floors| && 0 <= h.numerators[i] <= h.whole * t
    ensures var a := Parts(h, points)[i];
            (a - 1) * h.whole < h.numerators[i] < (a + 1) * h.whole && 0 <= a <= t
  {
    var up := i in Served(h, points);
    if up { ServedHasRemainder(h, points, i); }
    ShareBounds(h.numerators[i], h.whole, h.floors[i], h.remainders[i], t, up);
  }

  /** The total distance of a split from the exact proportional shares, in units of 1/whole yen. */
  function Deviation(points: int, totals: seq<int>, a: seq<int>): int
    requires |a| == |totals|
  {
    Sum(seq(|a|, i requires 0 <= i < |a| => Abs(a[i] * Sum(totals) - points * totals[i])))
  }

  /** No integer split of the same points is closer to the exact proportional shares. */
  lemma {:induction false} SplitIsOptimal(points: int, totals: seq<int>, b: seq<int>)
    requires Splittable(points, totals) && points > 0
    requires |b| == |totals| && Sum(b) == points
    ensures Deviation(points, totals, Split(points, totals)) <= Deviation(points, totals, b)
  {
    var h := SharesOf(points, totals);
    SharesBalanced(points, totals);
    PartsOptimal(h, points, b);
    DeviationOf(points, totals, b);
    DeviationOf(points, totals, Split(points, totals));
  }

  lemma {:induction false} DeviationOf(points: int, totals: seq<int>, a: seq<int>)
    requires Sum(totals) > 0 && |a| == |totals|
    ensures Deviation(points, totals, a) == Sum(Deviations(SharesOf(points, totals), a))
  {
    var h := SharesOf(points, totals);
    assert seq(|a|, i requires 0 <= i < |a| => Abs(a[i] * Sum(totals) - points * totals[i])) == Deviations(h, a);
  }
}
