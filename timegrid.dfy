/** The arithmetic time grids both drivers schedule on: start, start +
    interval, start + 2 * interval, ... up to and including an end time. */
module TimeGrid {

  /** The number of grid points from start to end inclusive. */
  function GridCount(start: int, interval: nat, end: int): (n: nat)
    requires interval > 0
    ensures start > end ==> n == 0
    ensures start <= end ==> n > 0 && start + (n - 1) * interval <= end < start + n * interval
  {
    if start > end then 0
    else
      var n := (end - start) / interval + 1;
      assert (end - start) / interval * interval <= end - start < ((end - start) / interval + 1) * interval;
      n
  }

  /** The grid itself, in closed form: point k is start + k * interval. */
  function Grid(start: int, interval: nat, end: int): (g: seq<int>)
    requires interval > 0
    ensures |g| == GridCount(start, interval, end)
    ensures forall k :: 0 <= k < |g| ==> g[k] == start + k * interval
  {
    seq(GridCount(start, interval, end), k => start + k * interval)
  }

  /** Every grid point is within [start, end], the points strictly increase,
      and the next point after the last one is past end. */
  lemma GridShape(start: int, interval: nat, end: int)
    requires interval > 0
    ensures var g := Grid(start, interval, end);
            && (forall k :: 0 <= k < |g| ==> start <= g[k] <= end)
            && (forall i, j :: 0 <= i < j < |g| ==> g[i] < g[j])
            && start + |g| * interval > end
  {
    var g := Grid(start, interval, end);
    var n := |g|;
    forall k | 0 <= k < n
      ensures start <= g[k] <= end
    {
      assert k * interval <= (n - 1) * interval by {
        MulLe(k, n - 1, interval);
      }
    }
    forall i, j | 0 <= i < j < n
      ensures g[i] < g[j]
    {
      MulLe(i + 1, j, interval);
      assert (i + 1) * interval == i * interval + interval;
    }
  }

  lemma MulLe(a: nat, b: nat, c: nat)
    requires a <= b
    ensures a * c <= b * c
  {
    assert b * c - a * c == (b - a) * c;
  }

  /** The grid unrolled: the first point, then the grid one interval on. */
  lemma GridUnroll(start: int, interval: nat, end: int)
    requires interval > 0 && start <= end
    ensures Grid(start, interval, end) == [start] + Grid(start + interval, interval, end)
  {
    var g, h := Grid(start, interval, end), Grid(start + interval, interval, end);
    assert |g| == |h| + 1 by {
      if start + interval <= end {
        assert (end - start) / interval == (end - (start + interval)) / interval + 1 by {
          DivShift(end - start - interval, interval);
        }
      } else {
        assert (end - start) / interval == 0;
      }
    }
    forall k | 0 <= k < |g|
      ensures g[k] == ([start] + h)[k]
    {
      if k > 0 {
        assert start + k * interval == (start + interval) + (k - 1) * interval;
      }
    }
  }

  lemma DivShift(x: nat, d: nat)
    requires d > 0
    ensures (x + d) / d == x / d + 1
  {
    var q, r := x / d, x % d;
    assert x + d == (q + 1) * d + r;
    DivUnique(x + d, d, q + 1, r);
  }

  /** Division is determined by any quotient and in-range remainder. */
  lemma DivUnique(a: int, d: nat, q: int, r: int)
    requires d > 0 && a == q * d + r && 0 <= r < d
    ensures a / d == q
  {
    var q', r' := a / d, a % d;
    assert (q' - q) * d == r - r';
    if q' > q {
      MulLe(1, q' - q, d);
    } else if q' < q {
      MulLe(1, q - q', d);
    }
  }

  /** A grid from interval up to duration has floor(duration / interval)
      points: one per whole interval that fits. */
  lemma GridFromInterval(interval: nat, duration: nat)
    requires interval > 0
    ensures |Grid(interval, interval, duration)| == duration / interval
  {
    if interval <= duration {
      DivShift(duration - interval, interval);
    }
  }
}
