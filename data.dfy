/**
  The index grids of neurodsp's data utilities: `create_times`, a time axis
  stepping by 1/fs, and `create_samples`, a run of integer sample indices.
  Both are a single call to NumPy's `arange`; times are exact reals here.
 */
module Data {
  import Arange

  /**
    `create_times(n_seconds, fs, start_val=0.)`: the times
    start_val, start_val + 1/fs, ... strictly below n_seconds.
   */
  function CreateTimes(nSeconds: real, fs: real, startVal: real := 0.0): (r: seq<real>)
    requires fs > 0.0
    ensures forall t :: t in r ==> startVal <= t < nSeconds
  {
    Arange.Arange(startVal, nSeconds, 1.0 / fs)
  }

  /** `create_samples(n_samples, start_val=0)`: the integers start_val, ..., n_samples - 1. */
  function CreateSamples(nSamples: int, startVal: int := 0): (r: seq<int>)
    ensures forall x :: x in r ==> startVal <= x < nSamples
  {
    var n := if nSamples > startVal then nSamples - startVal else 0;
    seq(n, i requires 0 <= i < n => startVal + i)
  }

  // ---------------------------------------------------------------------------
  // The time grid

  /** The time grid holds ceil((n_seconds - start_val) * fs) points, or none. */
  lemma CreateTimesLength(nSeconds: real, fs: real, startVal: real)
    requires fs > 0.0
    ensures |CreateTimes(nSeconds, fs, startVal)|
         == if nSeconds > startVal then Arange.Ceil((nSeconds - startVal) * fs) else 0
  {
    assert (nSeconds - startVal) / (1.0 / fs) == (nSeconds - startVal) * fs;
    assert |CreateTimes(nSeconds, fs, startVal)| == Arange.Length(startVal, nSeconds, 1.0 / fs);
  }

  /** Time i is start_val + i / fs. */
  lemma CreateTimesAt(nSeconds: real, fs: real, startVal: real, i: nat)
    requires fs > 0.0 && i < |CreateTimes(nSeconds, fs, startVal)|
    ensures CreateTimes(nSeconds, fs, startVal)[i] == startVal + i as real / fs
  {
    Arange.ArangeAt(startVal, nSeconds, 1.0 / fs, i);
  }

  /** Consecutive times are exactly 1/fs apart. */
  lemma CreateTimesSpacing(nSeconds: real, fs: real, startVal: real, i: nat)
    requires fs > 0.0 && i + 1 < |CreateTimes(nSeconds, fs, startVal)|
    ensures CreateTimes(nSeconds, fs, startVal)[i + 1] - CreateTimes(nSeconds, fs, startVal)[i]
         == 1.0 / fs
  {
    CreateTimesAt(nSeconds, fs, startVal, i);
    CreateTimesAt(nSeconds, fs, startVal, i + 1);
  }

  lemma DivStrict(a: real, b: real, fs: real)
    requires fs > 0.0 && a < b
    ensures a / fs < b / fs
  {}

  /** The time grid is strictly increasing. */
  lemma CreateTimesIncreasing(nSeconds: real, fs: real, startVal: real, i: nat, j: nat)
    requires fs > 0.0 && i < j < |CreateTimes(nSeconds, fs, startVal)|
    ensures CreateTimes(nSeconds, fs, startVal)[i] < CreateTimes(nSeconds, fs, startVal)[j]
  {
    CreateTimesAt(nSeconds, fs, startVal, i);
    CreateTimesAt(nSeconds, fs, startVal, j);
    DivStrict(i as real, j as real, fs);
  }

  /** Every grid time start_val + k / fs below n_seconds is present, at index k. */
  lemma CreateTimesCovers(nSeconds: real, fs: real, startVal: real, k: nat)
    requires fs > 0.0 && startVal + k as real / fs < nSeconds
    ensures k < |CreateTimes(nSeconds, fs, startVal)|
    ensures CreateTimes(nSeconds, fs, startVal)[k] == startVal + k as real / fs
  {
    assert k as real * (1.0 / fs) == k as real / fs;
    Arange.ArangeCovers(startVal, nSeconds, 1.0 / fs, k);
    CreateTimesAt(nSeconds, fs, startVal, k);
  }

  /**
    When n_seconds * fs is a whole number N and the grid starts at 0, it has
    exactly N points and the first one is 0.
   */
  lemma CreateTimesWholeCount(nSeconds: real, fs: real, n: nat)
    requires fs > 0.0 && nSeconds * fs == n as real
    ensures |CreateTimes(nSeconds, fs)| == n
    ensures n > 0 ==> CreateTimes(nSeconds, fs)[0] == 0.0
  {
    CreateTimesLength(nSeconds, fs, 0.0);
    Arange.CeilOfInt(n);
    if n > 0 {
      assert nSeconds > 0.0 by {
        if nSeconds <= 0.0 {
          Arange.Scale(nSeconds, 0.0, fs);
        }
      }
      CreateTimesAt(nSeconds, fs, 0.0, 0);
    }
  }

  /** The time grid is the progression from start_val by 1/fs, built term by term. */
  lemma CreateTimesIsProgression(nSeconds: real, fs: real, startVal: real)
    requires fs > 0.0
    ensures CreateTimes(nSeconds, fs, startVal)
         == Arange.Progression(startVal, 1.0 / fs, |CreateTimes(nSeconds, fs, startVal)|)
  {
    Arange.ArangeIsProgression(startVal, nSeconds, 1.0 / fs);
  }

  // ---------------------------------------------------------------------------
  // The sample grid

  /** `create_samples(n, s)` holds max(0, n - s) indices. */
  lemma CreateSamplesLength(nSamples: int, startVal: int)
    ensures |CreateSamples(nSamples, startVal)| == if nSamples > startVal then nSamples - startVal else 0
  {}

  /** Index i of the sample grid is start_val + i. */
  lemma CreateSamplesAt(nSamples: int, startVal: int, i: nat)
    requires i < |CreateSamples(nSamples, startVal)|
    ensures CreateSamples(nSamples, startVal)[i] == startVal + i
  {}

  /** Consecutive sample indices differ by exactly 1, so the grid is strictly increasing. */
  lemma CreateSamplesIncreasing(nSamples: int, startVal: int, i: nat, j: nat)
    requires i < j < |CreateSamples(nSamples, startVal)|
    ensures CreateSamples(nSamples, startVal)[j] - CreateSamples(nSamples, startVal)[i] == j - i
    ensures CreateSamples(nSamples, startVal)[i] < CreateSamples(nSamples, startVal)[j]
  {}

  /** An integer is a sample index exactly when it lies in [start_val, n_samples). */
  lemma CreateSamplesMembers(nSamples: int, startVal: int, x: int)
    ensures x in CreateSamples(nSamples, startVal) <==> startVal <= x < nSamples
  {
    var r := CreateSamples(nSamples, startVal);
    if startVal <= x < nSamples {
      assert r[x - startVal] == x;
    }
  }

  /** The sample grid is empty exactly when n_samples <= start_val. */
  lemma CreateSamplesEmpty(nSamples: int, startVal: int)
    ensures CreateSamples(nSamples, startVal) == [] <==> nSamples <= startVal
  {
    if nSamples > startVal {
      assert CreateSamples(nSamples, startVal)[0] == startVal;
    }
  }

  /** With the default start, a non-empty sample grid begins at 0. */
  lemma CreateSamplesDefaultStart(nSamples: int)
    requires nSamples > 0
    ensures |CreateSamples(nSamples)| == nSamples
    ensures CreateSamples(nSamples)[0] == 0
  {}

  /** An independent reference: the integers from `lo` below `hi`, one at a time. */
  function Count(lo: int, hi: int): seq<int>
    decreases hi - lo
  {
    if lo >= hi then [] else [lo] + Count(lo + 1, hi)
  }

  /** The sample grid is the integers counted up from start_val to n_samples. */
  lemma {:induction false} CreateSamplesIsCount(nSamples: int, startVal: int)
    ensures CreateSamples(nSamples, startVal) == Count(startVal, nSamples)
    decreases nSamples - startVal
  {
    if startVal < nSamples {
      CreateSamplesIsCount(nSamples, startVal + 1);
      assert CreateSamples(nSamples, startVal)
          == [startVal] + CreateSamples(nSamples, startVal + 1);
    }
  }

  /**
    The time grid sampled at 1 Hz over integer bounds is the sample grid,
    read as reals.
   */
  lemma CreateTimesAtOneHertz(nSamples: int, startVal: int)
    ensures |CreateTimes(nSamples as real, 1.0, startVal as real)| == |CreateSamples(nSamples, startVal)|
    ensures forall i :: 0 <= i < |CreateSamples(nSamples, startVal)| ==>
              CreateTimes(nSamples as real, 1.0, startVal as real)[i]
              == CreateSamples(nSamples, startVal)[i] as real
  {
    CreateTimesLength(nSamples as real, 1.0, startVal as real);
    Arange.CeilOfInt(nSamples - startVal);
    forall i | 0 <= i < |CreateSamples(nSamples, startVal)|
      ensures CreateTimes(nSamples as real, 1.0, startVal as real)[i]
           == CreateSamples(nSamples, startVal)[i] as real
    {
      CreateTimesAt(nSamples as real, 1.0, startVal as real, i);
    }
  }

  /** `create_times(1.0, 500)`: 500 points 0.002 apart, from 0 up to 0.998. */
  lemma CreateTimesOneSecondAt500Hz()
    ensures |CreateTimes(1.0, 500.0)| == 500
    ensures CreateTimes(1.0, 500.0)[0] == 0.0
    ensures CreateTimes(1.0, 500.0)[499] == 0.998
  {
    CreateTimesWholeCount(1.0, 500.0, 500);
    CreateTimesAt(1.0, 500.0, 0.0, 499);
  }

  /**
    The grid length is a ceiling, not a rounding: 0.21 s at 10 Hz gives the
    three times 0, 0.1 and 0.2, although 0.21 * 10 = 2.1 rounds to 2.
   */
  lemma CreateTimesLengthIsCeiling()
    ensures |CreateTimes(0.21, 10.0)| == 3
  {
    CreateTimesLength(0.21, 10.0, 0.0);
  }
}
