/**
 * The hashrate shown on the screens: a moving average over the last 10
 * samples with a running sum, three start-up samples that do not move the
 * display scale, and a display scale that follows the peak average and so
 * only ever ratchets upward. Samples are `real`: floating-point rounding is
 * not modelled, so the running sum is exact.
 */
module Hashrate {
  import opened Unsigned

  /** The display precision: two decimals, one decimal, or an integer. */
  datatype Scale = Scale99KH | Scale999KH | Scale9MH

  function Rank(s: Scale): nat {
    match s
    case Scale99KH => 0
    case Scale999KH => 1
    case Scale9MH => 2
  }

  const WINDOW_SIZE: nat := 10
  const SKIP_FIRST: nat := 3

  /** The scale a peak average calls for. */
  function ScaleFor(peak: real): (s: Scale)
    ensures peak > 999.9 <==> s == Scale9MH
    ensures peak > 99.9 <==> Rank(s) >= 1
  {
    if peak > 999.9 then Scale9MH else if peak > 99.9 then Scale999KH else Scale99KH
  }

  /** A higher peak never calls for a lower scale. */
  lemma ScaleForMonotone(a: real, b: real)
    requires a <= b
    ensures Rank(ScaleFor(a)) <= Rank(ScaleFor(b))
  {
  }

  function Sum(s: seq<real>): real {
    if s == [] then 0.0 else s[0] + Sum(s[1..])
  }

  lemma {:induction false} SumAppend(s: seq<real>, x: real)
    ensures Sum(s + [x]) == Sum(s) + x
  {
    if s != [] {
      assert (s + [x])[1..] == s[1..] + [x];
      SumAppend(s[1..], x);
    }
  }

  /** The instantaneous rate `elapsedKHs * 1000 / mElapsed`. */
  function Sample(elapsedKHs: ULong, mElapsed: ULong): (h: real)
    requires mElapsed > 0
    ensures h >= 0.0
  {
    (elapsedKHs as real) * 1000.0 / (mElapsed as real)
  }

  /**
   * The window after a sample arrives: the most recent `WINDOW_SIZE`
   * samples of the old window followed by the new one, the oldest evicted
   * first.
   */
  function Slide(w: seq<real>, x: real): (r: seq<real>)
    requires |w| <= WINDOW_SIZE
    ensures |r| == if |w| < WINDOW_SIZE then |w| + 1 else WINDOW_SIZE
    ensures r == (w + [x])[|w| + 1 - |r|..]
  {
    if |w| + 1 > WINDOW_SIZE then (w + [x])[1..] else w + [x]
  }

  /** The average the meter returns: sum over count, floored at 0. */
  function Average(w: seq<real>): (a: real)
    ensures a >= 0.0
  {
    if w == [] then 0.0
    else
      var a := Sum(w) / (|w| as real);
      if a < 0.0 then 0.0 else a
  }

  /** Samples bounded by `lo` and `hi` sum to between `n * lo` and `n * hi`. */
  lemma {:induction false} SumBounds(w: seq<real>, lo: real, hi: real)
    requires forall k :: 0 <= k < |w| ==> lo <= w[k] <= hi
    ensures (|w| as real) * lo <= Sum(w) <= (|w| as real) * hi
  {
    if w != [] {
      SumBounds(w[1..], lo, hi);
    }
  }

  /** Dividing by a positive count keeps bounds scaled by that count. */
  lemma DivideBounds(x: real, n: real, lo: real, hi: real)
    requires n > 0.0 && n * lo <= x <= n * hi
    ensures lo <= x / n <= hi
  {
    var q := x / n;
    assert q * n == x;
    assert (q - lo) * n == x - n * lo;
    assert (hi - q) * n == n * hi - x;
  }

  /** With non-negative samples the average lies between the smallest and the largest. */
  lemma AverageBetween(w: seq<real>, lo: real, hi: real)
    requires w != [] && 0.0 <= lo
    requires forall k :: 0 <= k < |w| ==> lo <= w[k] <= hi
    ensures lo <= Average(w) <= hi
  {
    SumBounds(w, lo, hi);
    DivideBounds(Sum(w), |w| as real, lo, hi);
  }

  /** `n` samples of the constant `c` arriving one after another. */
  function SlideConstant(w: seq<real>, c: real, n: nat): (r: seq<real>)
    requires |w| <= WINDOW_SIZE
    ensures |r| <= WINDOW_SIZE
  {
    if n == 0 then w else Slide(SlideConstant(w, c, n - 1), c)
  }

  /** After `n` constant samples the window ends in `min(n, size)` copies of it. */
  lemma {:induction false} SlideConstantSuffix(w: seq<real>, c: real, n: nat)
    requires |w| <= WINDOW_SIZE
    ensures var r := SlideConstant(w, c, n);
      |r| == if |w| + n < WINDOW_SIZE then |w| + n else WINDOW_SIZE
    ensures var r := SlideConstant(w, c, n);
      forall k :: 0 <= k < |r| && |r| - n <= k ==> r[k] == c
  {
    if n > 0 {
      SlideConstantSuffix(w, c, n - 1);
      SlideKeepsConstantTail(SlideConstant(w, c, n - 1), c, n - 1);
    }
  }

  /** A window ending in `m` copies of `c` ends in `m + 1` copies once `c` arrives. */
  lemma SlideKeepsConstantTail(w: seq<real>, c: real, m: nat)
    requires |w| <= WINDOW_SIZE
    requires forall k :: 0 <= k < |w| && |w| - m <= k ==> w[k] == c
    ensures var r := Slide(w, c);
      forall k :: 0 <= k < |r| && |r| - (m + 1) <= k ==> r[k] == c
  {
    var r := Slide(w, c);
    var d := |w| + 1 - |r|;
    forall k | 0 <= k < |r| && |r| - (m + 1) <= k
      ensures r[k] == c
    {
      assert r[k] == (w + [c])[d + k];
      if k < |r| - 1 {
        assert (w + [c])[d + k] == w[d + k];
      }
    }
  }

  /**
   * A constant stream fills the whole window within `WINDOW_SIZE` samples,
   * whatever the window held before, and the average is then that constant.
   */
  lemma ConstantStreamConverges(w: seq<real>, c: real, n: nat)
    requires |w| <= WINDOW_SIZE && n >= WINDOW_SIZE && c >= 0.0
    ensures |SlideConstant(w, c, n)| == WINDOW_SIZE
    ensures forall k :: 0 <= k < WINDOW_SIZE ==> SlideConstant(w, c, n)[k] == c
    ensures Average(SlideConstant(w, c, n)) == c
  {
    SlideConstantSuffix(w, c, n);
    AverageBetween(SlideConstant(w, c, n), c, c);
  }

  /** The loop that re-sums the window when the recalculation counter wraps. */
  method Resum(w: seq<real>) returns (total: real)
    ensures total == Sum(w)
  {
    total := 0.0;
    var i := 0;
    while i < |w|
      invariant 0 <= i <= |w|
      invariant total == Sum(w[..i])
    {
      assert w[..i + 1] == w[..i] + [w[i]];
      SumAppend(w[..i], w[i]);
      total := total + w[i];
      i := i + 1;
    }
    assert w[..i] == w;
  }

  /** The function-local statics of `getCurrentHashRate`. */
  class HashrateMeter {
    var window: seq<real>
    var summ: real
    var recalc: Byte
    var skipFirst: nat
    var top: real
    var scale: Scale

    /** The running sum is the window's sum, and the scale is the one the peak calls for. */
    ghost predicate Valid()
      reads this
    {
      && |window| <= WINDOW_SIZE
      && summ == Sum(window)
      && skipFirst <= SKIP_FIRST
      && top >= 0.0
      && scale == ScaleFor(top)
    }

    constructor ()
      ensures Valid()
      ensures window == [] && summ == 0.0 && recalc == 0
      ensures skipFirst == SKIP_FIRST && top == 0.0 && scale == Scale99KH
    {
      window, summ, recalc := [], 0.0, 0;
      skipFirst, top, scale := SKIP_FIRST, 0.0, Scale99KH;
    }

    /**
     * `getCurrentHashRate`, returning the average and the scale to print it
     * in. The window slides; every 256th call re-sums it, which changes
     * nothing since the running sum is exact. While start-up samples remain
     * the peak and the scale stay put; afterwards the peak follows the
     * average upward and the scale never decreases.
     */
    method CurrentHashRate(elapsedKHs: ULong, mElapsed: ULong) returns (avg: real, shown: Scale)
      requires Valid() && mElapsed > 0
      modifies this
      ensures Valid()
      ensures window == Slide(old(window), Sample(elapsedKHs, mElapsed)) && 1 <= |window|
      ensures avg == Average(window)
      ensures recalc == (old(recalc) + 1) % 256
      ensures old(skipFirst) > 0 ==> skipFirst == old(skipFirst) - 1 && top == old(top) && scale == old(scale)
      ensures old(skipFirst) == 0 ==> skipFirst == 0 && top == (if avg > old(top) then avg else old(top))
      ensures Rank(old(scale)) <= Rank(scale)
      ensures shown == scale
    {
      var h := Sample(elapsedKHs, mElapsed);
      SumAppend(window, h);
      summ := summ + h;
      window := window + [h];
      if |window| > WINDOW_SIZE {
        summ := summ - window[0];
        window := window[1..];
      }

      recalc := (recalc + 1) % 256;
      if recalc == 0 {
        summ := Resum(window);
      }

      avg := summ / (|window| as real);
      if avg < 0.0 {
        avg := 0.0;
      }

      if skipFirst > 0 {
        skipFirst := skipFirst - 1;
      } else if avg > top {
        ScaleForMonotone(top, avg);
        top := avg;
        if avg > 999.9 {
          scale := Scale9MH;
        } else if avg > 99.9 {
          scale := Scale999KH;
        }
      }
      shown := scale;
    }
  }
}
