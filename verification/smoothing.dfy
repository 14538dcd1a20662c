/**
 * The temporal smoother: a first-in first-out window of the most recent raw
 * neck angles, at most CAPACITY long, whose arithmetic mean is the smoothed
 * angle. The window is the `deque(maxlen=5)` of the camera; appending to a
 * full window drops its oldest reading.
 */
module Smoothing {

  /** The fixed capacity of the window. */
  const CAPACITY: nat := 5

  /** Every reading of `window` lies within [lo, hi]. */
  predicate AllWithin(window: seq<real>, lo: real, hi: real)
  {
    forall i :: 0 <= i < |window| ==> lo <= window[i] <= hi
  }

  /**
   * Appends `reading` to `window`, keeping only the newest CAPACITY readings:
   * the result is the longest suffix of `window + [reading]` that fits.
   */
  function Push(window: seq<real>, reading: real): (r: seq<real>)
    ensures |r| == if |window| < CAPACITY then |window| + 1 else CAPACITY
    ensures r == (window + [reading])[|window| + 1 - |r|..]
  {
    if |window| < CAPACITY then window + [reading]
    else window[|window| - CAPACITY + 1..] + [reading]
  }

  /** A window never grows beyond its capacity, and the new reading is the last one. */
  lemma PushBounded(window: seq<real>, reading: real)
    requires |window| <= CAPACITY
    ensures |Push(window, reading)| <= CAPACITY
    ensures Push(window, reading)[|Push(window, reading)| - 1] == reading
  {
  }

  /**
   * Appending to a full window drops exactly the oldest reading and keeps
   * the rest in order, the new reading last; appending to a window that is
   * not full drops nothing.
   */
  lemma PushEvictsOnlyWhenFull(window: seq<real>, reading: real)
    requires |window| <= CAPACITY
    ensures |window| == CAPACITY ==> Push(window, reading) == window[1..] + [reading]
    ensures |window| < CAPACITY ==> Push(window, reading) == window + [reading]
  {
  }

  /** Pushing a reading within [lo, hi] keeps every reading of the window within [lo, hi]. */
  lemma PushKeepsBounds(window: seq<real>, reading: real, lo: real, hi: real)
    requires AllWithin(window, lo, hi) && lo <= reading <= hi
    ensures AllWithin(Push(window, reading), lo, hi)
  {
  }

  /** The sum of the readings, added left to right. */
  function Sum(window: seq<real>): (r: real)
  {
    if window == [] then 0.0 else Sum(window[..|window| - 1]) + window[|window| - 1]
  }

  /**
   * The smoothed angle: the arithmetic mean of the window, the one value
   * that, taken as many times as there are readings, adds up to their sum.
   */
  function Mean(window: seq<real>): (r: real)
    requires window != []
    ensures r * (|window| as real) == Sum(window)
  {
    Sum(window) / (|window| as real)
  }

  lemma {:induction false} SumBounds(window: seq<real>, lo: real, hi: real)
    requires AllWithin(window, lo, hi)
    ensures lo * (|window| as real) <= Sum(window) <= hi * (|window| as real)
  {
    if window != [] {
      var init := window[..|window| - 1];
      assert AllWithin(init, lo, hi) by {
        forall i | 0 <= i < |init| ensures lo <= init[i] <= hi {
          assert init[i] == window[i];
        }
      }
      SumBounds(init, lo, hi);
      assert lo * (|window| as real) == lo * (|init| as real) + lo;
      assert hi * (|window| as real) == hi * (|init| as real) + hi;
    }
  }

  /** The mean of readings within [lo, hi] lies within [lo, hi]. */
  lemma MeanWithin(window: seq<real>, lo: real, hi: real)
    requires window != [] && AllWithin(window, lo, hi)
    ensures lo <= Mean(window) <= hi
  {
    var n := |window| as real;
    SumBounds(window, lo, hi);
    assert Mean(window) * n == Sum(window);
  }

  /** A window whose readings are all equal averages to that reading; a single reading averages to itself. */
  lemma MeanOfConstant(window: seq<real>, v: real)
    requires window != [] && AllWithin(window, v, v)
    ensures Mean(window) == v
  {
    MeanWithin(window, v, v);
  }

  lemma MeanOfSingleton(v: real)
    ensures Mean([v]) == v
  {
    MeanOfConstant([v], v);
  }

  /**
   * Five readings of 160 followed by one of 100: the first 160 is evicted
   * and the mean of the window is (4 * 160 + 100) / 5 = 148.
   */
  lemma EvictionExample()
    ensures var w := Push(Push(Push(Push(Push(Push([], 160.0), 160.0), 160.0), 160.0), 160.0), 100.0);
      w == [160.0, 160.0, 160.0, 160.0, 100.0] && Mean(w) == 148.0
  {
    EvictionWindow();
    EvictionMean();
  }

  /** The window left after the eviction averages to 148. */
  lemma EvictionMean()
    ensures Mean([160.0, 160.0, 160.0, 160.0, 100.0]) == 148.0
  {
    var upright: seq<real> := [160.0, 160.0, 160.0, 160.0];
    SumOfConstant(upright, 160.0);
    SumAppend(upright, 100.0);
    assert upright + [100.0] == [160.0, 160.0, 160.0, 160.0, 100.0];
  }

  lemma EvictionWindow()
    ensures Push(Push(Push(Push(Push(Push([], 160.0), 160.0), 160.0), 160.0), 160.0), 100.0)
         == [160.0, 160.0, 160.0, 160.0, 100.0]
  {
    var w1 := Push([], 160.0);
    assert w1 == [160.0];
    var w2 := Push(w1, 160.0);
    assert w2 == [160.0, 160.0];
    var w3 := Push(w2, 160.0);
    assert w3 == [160.0, 160.0, 160.0];
    var w4 := Push(w3, 160.0);
    assert w4 == [160.0, 160.0, 160.0, 160.0];
    var w5 := Push(w4, 160.0);
    assert w5 == [160.0, 160.0, 160.0, 160.0, 160.0];
    PushEvictsOnlyWhenFull(w5, 100.0);
  }

  /** Appending a reading adds it to the sum. */
  lemma SumAppend(window: seq<real>, reading: real)
    ensures Sum(window + [reading]) == Sum(window) + reading
  {
    assert (window + [reading])[..|window|] == window;
  }

  /** A window of n equal readings sums to n times that reading. */
  lemma SumOfConstant(window: seq<real>, v: real)
    requires AllWithin(window, v, v)
    ensures Sum(window) == (|window| as real) * v
  {
    SumBounds(window, v, v);
  }
}
