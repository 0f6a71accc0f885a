// Properties of the peak detector's value model: the slope sums telescope,
// so the peak test only looks at the first, middle and last samples of the
// window; and the test vectors of the detector's unit tests.

module PeakDetectorProperties {
  import opened CArith
  import opened PeakDetection

  /** Each half's accumulated slope is the difference of its end samples. */
  lemma {:induction false} SlopesTelescope(d: seq<int>, lo: nat, hi: nat)
    requires 1 <= lo <= hi <= |d|
    ensures SlopeSum(d, lo, hi) == d[hi - 1] - d[lo - 1]
    decreases hi - lo
  {
    if hi > lo {
      SlopesTelescope(d, lo, hi - 1);
    }
  }

  /** The peak test, telescoped: a window is a valley exactly when its first
      and last samples differ by at most `tol` and its middle sample lies
      strictly below both. */
  lemma ValleyByEndpoints(w: seq<int>, tol: int)
    requires |w| >= 1
    ensures IsValley(w, tol) <==>
      Abs(w[|w| - 1] - w[0]) <= tol && w[|w| / 2] < w[0] && w[|w| - 1] > w[|w| / 2]
  {
    SlopesTelescope(w, 1, |w| / 2 + 1);
    SlopesTelescope(w, |w| / 2 + 1, |w|);
  }

  /** Windows of width 1 or 2 can never hold a peak. */
  lemma ValleyNeedsThreeSamples(w: seq<int>, tol: int)
    requires 1 <= |w| <= 2
    ensures !IsValley(w, tol)
  {
    ValleyByEndpoints(w, tol);
  }

  /** A monotone window, rising or falling, is never a valley. */
  lemma MonotoneWindowIsNoValley(w: seq<int>, tol: int)
    requires |w| >= 1
    requires (forall i, j :: 0 <= i <= j < |w| ==> w[i] <= w[j])
          || (forall i, j :: 0 <= i <= j < |w| ==> w[i] >= w[j])
    ensures !IsValley(w, tol)
  {
    ValleyByEndpoints(w, tol);
  }

  /** A sample above the floor never enters the buffer; its only possible
      effect is to empty the buffer when a peak was pending. */
  lemma AddDistanceRejects(s: DetectorState, distance: int)
    requires s.Valid() && distance > s.floorThreshold
    ensures AfterAddDistance(s, distance) == s.(bufferCount := if PeakPresent(s) then 0 else s.bufferCount)
  {
  }

  /** An accepted sample is appended, or shifts a full buffer left by one and
      goes last; a pending peak empties the buffer first. */
  lemma AddDistanceStores(s: DetectorState, distance: int)
    requires s.Valid() && distance <= s.floorThreshold
    ensures var r := AfterAddDistance(s, distance);
      var count := if PeakPresent(s) then 0 else s.bufferCount;
      if count == s.window as int
      then r.bufferCount == count && Buffer(r) == Buffer(s)[1..] + [distance]
      else r.bufferCount == count + 1 && Buffer(r) == Buffer(s)[..count] + [distance]
  {
  }

  /** When a peak fires, the previous last peak moves to second place, the
      new last peak is the minimum over all `window` slots, and the largest
      peak (the closest approach) is a running minimum; otherwise the peak
      records stay as they were. */
  lemma AddDistanceRecordsPeaks(s: DetectorState, distance: int)
    requires s.Valid()
    ensures var r := AfterAddDistance(s, distance);
      && (PeakPresent(r) ==>
            && r.secondLastPeak == s.lastPeak
            && r.lastPeak == SeqMin(r.distances[..r.window])
            && r.largestPeak == Min(r.lastPeak, s.largestPeak))
      && (!PeakPresent(r) ==>
            r.lastPeak == s.lastPeak && r.secondLastPeak == s.secondLastPeak
            && r.largestPeak == s.largestPeak)
      && r.largestPeak <= s.largestPeak
  {
  }

  /** `reset` refills the first `window` slots with the floor and leaves the
      slots beyond the window alone. */
  lemma ResetFillsWindow(s: DetectorState)
    requires s.Valid()
    ensures var r := AfterReset(s);
      && (forall i :: 0 <= i < s.window as int ==> r.distances[i] == s.floorThreshold)
      && r.distances[s.window..] == s.distances[s.window..]
  {
  }

  /** `reset` is idempotent: a second reset finds nothing left to clear. */
  lemma ResetIdempotent(s: DetectorState)
    requires s.Valid()
    ensures AfterReset(AfterReset(s)) == AfterReset(s)
  {
    var r := AfterReset(s);
    assert AfterReset(r).distances == r.distances by {
      assert seq(r.window, _ => r.floorThreshold) == r.distances[..r.window];
      assert r.distances == r.distances[..r.window] + r.distances[r.window..];
    }
  }

  /** Feeding a list of samples one by one. */
  function Feed(s: DetectorState, samples: seq<int>): (r: DetectorState)
    requires s.Valid()
    ensures r.Valid()
    ensures r.window == s.window && r.tolerance == s.tolerance && r.floorThreshold == s.floorThreshold
    decreases |samples|
  {
    if samples == [] then s else Feed(AfterAddDistance(s, samples[0]), samples[1..])
  }

  lemma {:induction false} FeedConcat(s: DetectorState, a: seq<int>, b: seq<int>)
    requires s.Valid()
    ensures Feed(s, a + b) == Feed(Feed(s, a), b)
    decreases |a|
  {
    if a == [] {
      assert a + b == b;
    } else {
      assert (a + b)[0] == a[0] && (a + b)[1..] == a[1..] + b;
      FeedConcat(AfterAddDistance(s, a[0]), a[1..], b);
    }
  }

  /** Samples at or below the floor that do not fill the buffer are simply
      appended to it; no peak can be reported meanwhile. */
  lemma {:induction false} FeedAppends(s: DetectorState, xs: seq<int>)
    requires s.Valid() && !PeakPresent(s)
    requires s.bufferCount + |xs| < s.window as int
    requires forall i :: 0 <= i < |xs| ==> xs[i] <= s.floorThreshold
    ensures var r := Feed(s, xs);
      && Buffer(r) == Buffer(s) + xs && !PeakPresent(r)
      && r.numberOfPeaks == s.numberOfPeaks && r.lastPeak == s.lastPeak
      && r.secondLastPeak == s.secondLastPeak && r.largestPeak == s.largestPeak
    decreases |xs|
  {
    if xs != [] {
      var s1 := AfterAddDistance(s, xs[0]);
      FeedAppends(s1, xs[1..]);
      assert Buffer(s) + xs == Buffer(s1) + xs[1..];
    }
  }

  /** A buffer that is empty, or about to be emptied by a pending peak, is
      refilled by `window` accepted samples; the peak test then runs on
      exactly those samples. */
  lemma FeedFills(s: DetectorState, xs: seq<int>)
    requires s.Valid() && s.window >= 2
    requires s.bufferCount == 0 || PeakPresent(s)
    requires |xs| == s.window as int
    requires forall i :: 0 <= i < |xs| ==> xs[i] <= s.floorThreshold
    ensures var r := Feed(s, xs);
      && r.bufferCount == r.window as int && Buffer(r) == xs
      && (PeakPresent(r) <==> IsValley(xs, s.tolerance as int))
      && (PeakPresent(r) ==>
            r.numberOfPeaks == s.numberOfPeaks + 1 && r.lastPeak == SeqMin(xs)
            && r.secondLastPeak == s.lastPeak && r.largestPeak == Min(SeqMin(xs), s.largestPeak))
      && (!PeakPresent(r) ==>
            r.numberOfPeaks == s.numberOfPeaks && r.lastPeak == s.lastPeak
            && r.secondLastPeak == s.secondLastPeak && r.largestPeak == s.largestPeak)
  {
    var n := |xs|;
    var sm := Feed(s, xs[..n - 1]);
    FeedFillsAllButLast(s, xs[..n - 1]);
    var r := AfterAddDistance(sm, xs[n - 1]);
    assert Buffer(r) == xs && r.bufferCount == r.window as int by {
      AddDistanceStores(sm, xs[n - 1]);
    }
    assert r.distances[..r.window] == xs;
    AddDistanceRecordsPeaks(sm, xs[n - 1]);
    assert Feed(s, xs) == r by {
      FeedConcat(s, xs[..n - 1], [xs[n - 1]]);
      assert xs[..n - 1] + [xs[n - 1]] == xs;
    }
  }

  lemma FeedFillsAllButLast(s: DetectorState, xs: seq<int>)
    requires s.Valid() && s.window >= 2
    requires s.bufferCount == 0 || PeakPresent(s)
    requires 1 <= |xs| < s.window as int
    requires forall i :: 0 <= i < |xs| ==> xs[i] <= s.floorThreshold
    ensures var r := Feed(s, xs);
      && Buffer(r) == xs && !PeakPresent(r)
      && r.numberOfPeaks == s.numberOfPeaks && r.lastPeak == s.lastPeak
      && r.secondLastPeak == s.secondLastPeak && r.largestPeak == s.largestPeak
  {
    var s1 := AfterAddDistance(s, xs[0]);
    assert Buffer(s1) == [xs[0]] by {
      AddDistanceStores(s, xs[0]);
    }
    AddDistanceRecordsPeaks(s, xs[0]);
    FeedAppends(s1, xs[1..]);
    assert [xs[0]] + xs[1..] == xs;
    FeedConcat(s, [xs[0]], xs[1..]);
  }

  /** An accepted sample slides through a full buffer that held no peak: the
      oldest sample leaves, and the peak records stay unless the new window
      is a valley. */
  lemma SlideStep(s: DetectorState, x: int)
    requires s.Valid() && s.bufferCount == s.window as int && !PeakPresent(s)
    requires x <= s.floorThreshold
    ensures var r := AfterAddDistance(s, x);
      && r.bufferCount == r.window as int && Buffer(r) == Buffer(s)[1..] + [x]
      && (PeakPresent(r) <==> IsValley(Buffer(s)[1..] + [x], s.tolerance as int))
      && (PeakPresent(r) ==>
            r.numberOfPeaks == s.numberOfPeaks + 1 && r.lastPeak == SeqMin(Buffer(s)[1..] + [x])
            && r.secondLastPeak == s.lastPeak
            && r.largestPeak == Min(SeqMin(Buffer(s)[1..] + [x]), s.largestPeak))
      && (!PeakPresent(r) ==>
            r.numberOfPeaks == s.numberOfPeaks && r.lastPeak == s.lastPeak
            && r.secondLastPeak == s.secondLastPeak && r.largestPeak == s.largestPeak)
  {
    var r := AfterAddDistance(s, x);
    AddDistanceStores(s, x);
    AddDistanceRecordsPeaks(s, x);
    assert r.distances[..r.window] == Buffer(r);
  }

  /** `addDistance` as written, reduced to its buffer count, for a sample at
      or below the floor: a count equal to the width stays, any other grows by
      one, and the sample is written to slot `count - 1`. Nothing here keeps
      the count inside the 16 slots; a peak, the only thing that resets it,
      needs the count to equal the width. */
  function CountAfterStoreAsWritten(count: int, window: int): (c: int)
    ensures c >= count
    ensures count != window ==> c == count + 1
  {
    if count == window then count else count + 1
  }

  /** On every state the model admits (width at least 1, count at most the
      width), the as-written count rule is the model's own: an accepted
      sample without a pending peak leaves the count where
      `CountAfterStoreAsWritten` puts it, which is never past the width. */
  lemma StoreCountAsWritten(s: DetectorState, x: int)
    requires s.Valid() && !PeakPresent(s) && x <= s.floorThreshold
    ensures AfterAddDistance(s, x).bufferCount == CountAfterStoreAsWritten(s.bufferCount, s.window as int)
    ensures CountAfterStoreAsWritten(s.bufferCount, s.window as int) <= s.window as int
  {
    AddDistanceStores(s, x);
  }

  /** The count after `n` such samples, none of them completing a peak. */
  function CountAfterStoresAsWritten(count: int, window: int, n: nat): (c: int)
    ensures count > window ==> c == count + n
    decreases n
  {
    if n == 0 then count else CountAfterStoresAsWritten(CountAfterStoreAsWritten(count, window), window, n - 1)
  }

  /** A width of 0, which `setWindowSize` accepts, makes the first sample go
      to slot -1, before the buffer. */
  lemma ZeroWidthWritesBeforeBuffer()
    ensures CountAfterStoreAsWritten(0, 0) - 1 == -1
  {
  }

  /** A width set below the number of buffered samples is never reached
      again: a buffer of 5 samples cut to width 2 takes every later sample
      one slot further on, and the 12th goes to slot 16, past the 16-slot
      array. */
  lemma ShrunkWidthOverrunsBuffer()
    ensures CountAfterStoresAsWritten(5, 2, 12) - 1 == MaxWindowSize as int
  {
  }
}
