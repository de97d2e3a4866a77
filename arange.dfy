/**
  The semantics of NumPy's `arange(start, stop, step)` for a positive step,
  over exact reals: the arithmetic progression start, start + step, ...
  cut off strictly before `stop`. NumPy sizes the result as
  ceil((stop - start) / step), clamped at zero; element k is start + k * step.
 */
module Arange {

  /** The least integer not below `x`, defined through `.Floor`. */
  function Ceil(x: real): (r: int)
    ensures r as real - 1.0 < x <= r as real
  {
    if x.Floor as real == x then x.Floor else x.Floor + 1
  }

  lemma CeilOfInt(n: int)
    ensures Ceil(n as real) == n
  {}

  /** `arange`'s element count: the number of grid points start + k * step below `stop`. */
  function Length(start: real, stop: real, step: real): (n: nat)
    requires step > 0.0
    ensures n > 0 ==> start + (n - 1) as real * step < stop
    ensures start + n as real * step >= stop
  {
    if stop > start then
      var q := (stop - start) / step;
      var c := Ceil(q);
      assert (c - 1) as real * step < q * step <= c as real * step by {
        ScaleStrict((c - 1) as real, q, step);
        Scale(q, c as real, step);
      }
      assert q * step == stop - start;
      assert c > 0 && start + c as real * step >= stop;
      c
    else
      0
  }

  lemma ScaleStrict(a: real, b: real, step: real)
    requires step > 0.0 && a < b
    ensures a * step < b * step
  {}

  lemma Scale(a: real, b: real, step: real)
    requires step > 0.0 && a <= b
    ensures a * step <= b * step
  {}

  /** Every point before the last one kept lies in [start, stop). */
  lemma PointInRange(start: real, stop: real, step: real, n: nat, k: nat)
    requires step > 0.0 && k < n && start + (n - 1) as real * step < stop
    ensures start <= start + k as real * step < stop
  {
    Scale(0.0, k as real, step);
    Scale(k as real, (n - 1) as real, step);
  }

  /** `arange(start, stop, step)`: the grid points below `stop`, in order. */
  function Arange(start: real, stop: real, step: real): (r: seq<real>)
    requires step > 0.0
    ensures |r| == Length(start, stop, step)
    ensures forall t :: t in r ==> start <= t < stop
  {
    var n := Length(start, stop, step);
    var r := seq(n, k requires 0 <= k < n => start + k as real * step);
    assert forall k :: 0 <= k < n ==> start <= r[k] < stop by {
      forall k | 0 <= k < n ensures start <= r[k] < stop {
        PointInRange(start, stop, step, n, k);
      }
    }
    r
  }

  /**
    An independent reference definition: `n` terms of the progression that
    begins at `start` and advances by `step`, built one term at a time.
   */
  function Progression(start: real, step: real, n: nat): seq<real>
    decreases n
  {
    if n == 0 then [] else [start] + Progression(start + step, step, n - 1)
  }

  lemma {:induction false} ProgressionAt(start: real, step: real, n: nat, k: nat)
    requires k < n
    ensures |Progression(start, step, n)| == n
    ensures Progression(start, step, n)[k] == start + k as real * step
    decreases n
  {
    ProgressionLength(start, step, n);
    if k > 0 {
      ProgressionAt(start + step, step, n - 1, k - 1);
    }
  }

  lemma {:induction false} ProgressionLength(start: real, step: real, n: nat)
    ensures |Progression(start, step, n)| == n
    decreases n
  {
    if n > 0 {
      ProgressionLength(start + step, step, n - 1);
    }
  }

  /** `arange` builds exactly the progression of its length. */
  lemma ArangeIsProgression(start: real, stop: real, step: real)
    requires step > 0.0
    ensures Arange(start, stop, step) == Progression(start, step, Length(start, stop, step))
  {
    var n := Length(start, stop, step);
    var r := Arange(start, stop, step);
    ProgressionLength(start, step, n);
    forall k | 0 <= k < n ensures r[k] == Progression(start, step, n)[k] {
      ProgressionAt(start, step, n, k);
    }
  }

  /** Element k of the grid sits at start + k * step. */
  lemma ArangeAt(start: real, stop: real, step: real, k: nat)
    requires step > 0.0 && k < Length(start, stop, step)
    ensures Arange(start, stop, step)[k] == start + k as real * step
  {}

  /**
    No grid point below `stop` is missing: if start + k * step < stop then
    index k exists.
   */
  lemma ArangeCovers(start: real, stop: real, step: real, k: nat)
    requires step > 0.0 && start + k as real * step < stop
    ensures k < |Arange(start, stop, step)|
  {
    var n := Length(start, stop, step);
    if k >= n {
      Scale(n as real, k as real, step);
      assert false;
    }
  }
}
