/** Small vocabulary shared by every model: optional values, results with an error code, sums. */
module Common {

  datatype Option<+T> = None | Some(value: T)

  datatype Result<+T, +E> = Success(value: T) | Failure(error: E)

  /** The sum of a sequence, unfolded from the end so that loops and appends follow it. */
  function Sum(s: seq<int>): int {
    if |s| == 0 then 0 else Sum(s[..|s| - 1]) + s[|s| - 1]
  }

  lemma {:induction false} SumSnoc(s: seq<int>, x: int)
    ensures Sum(s + [x]) == Sum(s) + x
  {
    assert (s + [x])[..|s|] == s;
  }

  lemma SumTake(s: seq<int>, i: nat)
    requires i < |s|
    ensures Sum(s[..i + 1]) == Sum(s[..i]) + s[i]
  {
    assert s[..i + 1] == s[..i] + [s[i]];
    SumSnoc(s[..i], s[i]);
  }

  lemma {:induction false} SumUpdate(s: seq<int>, i: nat, x: int)
    requires i < |s|
    ensures Sum(s[i := x]) == Sum(s) - s[i] + x
  {
    var last := |s| - 1;
    if i == last {
      assert s[i := x][..last] == s[..last];
    } else {
      assert s[i := x][..last] == s[..last][i := x];
      SumUpdate(s[..last], i, x);
    }
  }

  lemma Distribute(k: int, x: int, y: int)
    ensures k * (x + y) == k * x + k * y
  {
  }

  /** Sums are linear: c = k*a + l*b pointwise gives the same relation between the sums. */
  lemma {:induction false} SumLinear(k: int, a: seq<int>, l: int, b: seq<int>, c: seq<int>)
    requires |a| == |b| == |c|
    requires forall i :: 0 <= i < |a| ==> c[i] == k * a[i] + l * b[i]
    ensures Sum(c) == k * Sum(a) + l * Sum(b)
  {
    if |a| != 0 {
      var n := |a| - 1;
      SumLinear(k, a[..n], l, b[..n], c[..n]);
      Distribute(k, Sum(a[..n]), a[n]);
      Distribute(l, Sum(b[..n]), b[n]);
    }
  }

  lemma {:induction false} SumMonotone(a: seq<int>, b: seq<int>)
    requires |a| == |b|
    requires forall i :: 0 <= i < |a| ==> a[i] <= b[i]
    ensures Sum(a) <= Sum(b)
  {
    if |a| != 0 {
      SumMonotone(a[..|a| - 1], b[..|b| - 1]);
    }
  }

  lemma {:induction false} SumBetween(s: seq<int>, lo: int, hi: int)
    requires forall i :: 0 <= i < |s| ==> lo <= s[i] <= hi
    ensures lo * |s| <= Sum(s) <= hi * |s|
  {
    if |s| != 0 {
      SumBetween(s[..|s| - 1], lo, hi);
      Distribute(lo, |s| - 1, 1);
      Distribute(hi, |s| - 1, 1);
    }
  }

  /** A sum of nonnegative terms is at least each of them. */
  lemma {:induction false} SumAtLeast(s: seq<int>, i: nat)
    requires i < |s| && forall j :: 0 <= j < |s| ==> s[j] >= 0
    ensures Sum(s) >= s[i]
  {
    SumUpdate(s, i, 0);
    SumNonnegative(s[i := 0]);
  }

  lemma {:induction false} SumNonnegative(s: seq<int>)
    requires forall j :: 0 <= j < |s| ==> s[j] >= 0
    ensures Sum(s) >= 0
  {
    if |s| != 0 {
      SumNonnegative(s[..|s| - 1]);
    }
  }
}
