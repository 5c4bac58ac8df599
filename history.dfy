/**
 * The two rolling histories of main.py: `collections.deque(xs, maxlen)` keeps
 * the last `maxlen` items, and `append` on a full deque drops the oldest.
 */
module History {
  const MINUTE_SLOTS: nat := 60
  const HOUR_SLOTS: nat := 24

  /** `deque(xs, n)`: the last `n` items of `xs`, in their order. */
  function Keep(xs: seq<real>, n: nat): (r: seq<real>)
    ensures |r| == if |xs| <= n then |xs| else n
  {
    if |xs| <= n then xs else xs[|xs| - n..]
  }

  /** What `deque(xs, n)` keeps is the newest part of `xs`: item `i` of the
      deque is item `i + |xs| - |deque|` of `xs`. */
  lemma KeepIsSuffix(xs: seq<real>, n: nat, i: nat)
    requires i < |Keep(xs, n)|
    ensures Keep(xs, n)[i] == xs[|xs| - |Keep(xs, n)| + i]
  {
  }

  /** `q.append(x)` on a deque bounded by `n`. */
  function Push(q: seq<real>, x: real, n: nat): (r: seq<real>)
    requires 0 < n
    ensures 0 < |r| <= n && r[|r| - 1] == x
  {
    Keep(q + [x], n)
  }

  /** A push grows a deque that is below its bound by one and leaves a full one full. */
  lemma PushBounded(q: seq<real>, x: real, n: nat)
    requires 0 < n && |q| <= n
    ensures |Push(q, x, n)| == if |q| < n then |q| + 1 else n
  {
  }

  /** Below the bound a push only appends; on a full deque it evicts the oldest. */
  lemma PushEvictsOldest(q: seq<real>, x: real, n: nat)
    requires 0 < n && |q| <= n
    ensures |q| < n ==> Push(q, x, n) == q + [x]
    ensures |q| == n ==> Push(q, x, n) == q[1..] + [x]
  {
    if |q| == n {
      assert (q + [x])[1..] == q[1..] + [x];
    }
  }

  /** Python's `sum()` over a list of floats, taken here over reals; a sum
      of non-negative values is non-negative. */
  function Sum(xs: seq<real>): (r: real)
    ensures (forall i :: 0 <= i < |xs| ==> 0.0 <= xs[i]) ==> 0.0 <= r
  {
    if xs == [] then 0.0 else xs[0] + Sum(xs[1..])
  }

  /** `sum(xs) / len(xs)`, which the source only takes of a non-empty deque. */
  function Mean(xs: seq<real>): (r: real)
    requires xs != []
    ensures |xs| as real * r == Sum(xs)
  {
    Sum(xs) / |xs| as real
  }

  /** A sum of values that lie in `[lo, hi]` lies in `[|xs| * lo, |xs| * hi]`. */
  lemma {:induction false} SumBounds(xs: seq<real>, lo: real, hi: real)
    requires forall i :: 0 <= i < |xs| ==> lo <= xs[i] <= hi
    ensures |xs| as real * lo <= Sum(xs) <= |xs| as real * hi
  {
    if xs != [] {
      SumBounds(xs[1..], lo, hi);
      assert |xs| as real * lo == lo + |xs[1..]| as real * lo;
      assert |xs| as real * hi == hi + |xs[1..]| as real * hi;
    }
  }

  /** The mean of values in `[lo, hi]` lies in `[lo, hi]`. */
  lemma MeanBounds(xs: seq<real>, lo: real, hi: real)
    requires xs != []
    requires forall i :: 0 <= i < |xs| ==> lo <= xs[i] <= hi
    ensures lo <= Mean(xs) <= hi
  {
    SumBounds(xs, lo, hi);
    var n, m := |xs| as real, Mean(xs);
    var total := Sum(xs);
    assert n * lo <= total <= n * hi;
    assert n * m == total;
    QuotientBounds(total, n, m, lo, hi);
  }

  /** A quotient `m = total / n` by a positive `n` inherits the bounds of `total` scaled by `1/n`. */
  lemma QuotientBounds(total: real, n: real, m: real, lo: real, hi: real)
    requires 0.0 < n && n * m == total && n * lo <= total <= n * hi
    ensures lo <= m <= hi
  {
    assert n * (m - lo) >= 0.0;
    assert n * (hi - m) >= 0.0;
  }

  /** `wh_last_h`: the mean of the minute history, or 0.0 when it is empty. */
  function LastHourAverage(wm: seq<real>): (r: real)
    ensures wm == [] ==> r == 0.0
    ensures wm != [] ==> |wm| as real * r == Sum(wm)
  {
    if |wm| > 0 then Mean(wm) else 0.0
  }

  /** `wh_last_d`: the sum of the hour history, or 0.0 when it is empty. */
  function LastDayEnergy(wh: seq<real>): (r: real)
    ensures r == Sum(wh)
  {
    if |wh| > 0 then Sum(wh) else 0.0
  }
}
