// The scenarios of the detector's unit tests, each proved for a detector
// with floor 1800 and tolerance 10 that has just been `reset` (whatever it
// held before), as the test program does between cases.

module PeakDetectorTests {
  import opened CArith
  import opened PeakDetection
  import opened PeakDetectorProperties

  /** A detector configured as in the unit tests (floor 1800, tolerance 10,
      width `width`) as `reset` leaves it; the contents of the slots do not
      matter, since every one is overwritten before the peak test reads it. */
  ghost predicate ResetForTest(s: DetectorState, width: UInt8)
  {
    s.Valid() && s.floorThreshold == 1800 && s.tolerance == 10 && s.window == width
    && s.bufferCount == 0 && s.numberOfPeaks == 0
    && s.largestPeak == s.lastPeak == s.secondLastPeak == 1800
  }

  /** `reset` on any detector so configured establishes it. */
  lemma ResetEstablishesTestState(p: DetectorState)
    requires p.Valid() && p.floorThreshold == 1800 && p.tolerance == 10
    ensures ResetForTest(AfterReset(p), p.window)
  {
  }

  /** Two valleys in a row: {1700,1680,1670,1680,1700} then {10,9,8,9,10}. */
  lemma TwoMinimaWindowFive(s: DetectorState)
    requires ResetForTest(s, 5)
    ensures var r := Feed(Feed(s, [1700, 1680, 1670, 1680, 1700]), [10, 9, 8, 9, 10]);
      r.largestPeak == 8 && r.numberOfPeaks == 2 && r.lastPeak == 8 && r.secondLastPeak == 1670
  {
    FirstOfTwoMinima(s);
    SecondOfTwoMinima(Feed(s, [1700, 1680, 1670, 1680, 1700]));
  }

  lemma FirstOfTwoMinima(s: DetectorState)
    requires ResetForTest(s, 5)
    ensures var r := Feed(s, [1700, 1680, 1670, 1680, 1700]);
      && r.Valid() && r.window == 5 && r.tolerance == 10 && r.floorThreshold == 1800
      && PeakPresent(r) && r.lastPeak == 1670 && r.largestPeak == 1670 && r.numberOfPeaks == 1
  {
    ValleyByEndpoints([1700, 1680, 1670, 1680, 1700], 10);
    FeedFills(s, [1700, 1680, 1670, 1680, 1700]);
  }

  lemma SecondOfTwoMinima(s: DetectorState)
    requires s.Valid() && s.window == 5 && s.tolerance == 10 && s.floorThreshold == 1800
    requires PeakPresent(s) && s.lastPeak == 1670 && s.largestPeak == 1670 && s.numberOfPeaks == 1
    ensures var r := Feed(s, [10, 9, 8, 9, 10]);
      r.lastPeak == 8 && r.largestPeak == 8 && r.numberOfPeaks == 2 && r.secondLastPeak == 1670
  {
    ValleyByEndpoints([10, 9, 8, 9, 10], 10);
    FeedFills(s, [10, 9, 8, 9, 10]);
  }

  /** The tolerance boundary: the end samples 1700 and 1690 differ by 10. */
  lemma MinimumAtTolerance(s: DetectorState)
    requires ResetForTest(s, 5)
    ensures var r := Feed(s, [1700, 1680, 1670, 1680, 1690]);
      r.largestPeak == 1670 && r.numberOfPeaks == 1 && r.lastPeak == 1670 && r.secondLastPeak == 1800
  {
    ValleyByEndpoints([1700, 1680, 1670, 1680, 1690], 10);
    FeedFills(s, [1700, 1680, 1670, 1680, 1690]);
  }

  /** One past the boundary: 1700 and 1689 differ by 11, so no peak. */
  lemma MinimumPastTolerance(s: DetectorState)
    requires ResetForTest(s, 5)
    ensures var r := Feed(s, [1700, 1680, 1670, 1680, 1689]);
      r.largestPeak == 1800 && r.numberOfPeaks == 0 && r.lastPeak == 1800 && r.secondLastPeak == 1800
  {
    ValleyByEndpoints([1700, 1680, 1670, 1680, 1689], 10);
    FeedFills(s, [1700, 1680, 1670, 1680, 1689]);
  }

  /** A straight rising line holds no peak. */
  lemma RisingLine(s: DetectorState)
    requires ResetForTest(s, 5)
    ensures var r := Feed(s, [400, 500, 600, 700, 800]);
      r.largestPeak == 1800 && r.numberOfPeaks == 0 && r.lastPeak == 1800 && r.secondLastPeak == 1800
  {
    ValleyByEndpoints([400, 500, 600, 700, 800], 10);
    FeedFills(s, [400, 500, 600, 700, 800]);
  }

  /** A concave-down curve (a hill, not a valley) holds no peak. */
  lemma ConcaveDown(s: DetectorState)
    requires ResetForTest(s, 5)
    ensures var r := Feed(s, [400, 500, 600, 500, 400]);
      r.largestPeak == 1800 && r.numberOfPeaks == 0 && r.lastPeak == 1800 && r.secondLastPeak == 1800
  {
    ValleyByEndpoints([400, 500, 600, 500, 400], 10);
    FeedFills(s, [400, 500, 600, 500, 400]);
  }

  /** What a sample-by-sample run tracks of a detector: its buffered samples
      and its four peak records. */
  datatype Pk = Pk(buf: seq<int>, peaks: int, last: int, second: int, largest: int)

  /** The settings a run keeps fixed: the width, the floor and the tolerance. */
  datatype Settings = Settings(window: UInt8, floor: int, tolerance: UInt8)

  /** The unit tests' settings, at width 5 and at width 10. */
  const TestFive := Settings(5, 1800, 10)
  const TestTen := Settings(10, 1800, 10)

  /** The records `reset` leaves, with the test floor of 1800. */
  const Reset := Pk([], 0, 1800, 1800, 1800)

  ghost predicate DetectorHolds(d: DetectorState, c: Settings, e: Pk)
  {
    && d.Valid() && d.floorThreshold == c.floor && d.tolerance == c.tolerance && d.window == c.window
    && Buffer(d) == e.buf && d.numberOfPeaks == e.peaks && d.lastPeak == e.last
    && d.secondLastPeak == e.second && d.largestPeak == e.largest
  }

  /** Feeding a list that starts with `x` is feeding `x` first. */
  lemma FeedStep(s: DetectorState, x: int, xs: seq<int>)
    requires s.Valid()
    ensures Feed(s, [x] + xs) == Feed(AfterAddDistance(s, x), xs)
  {
    assert ([x] + xs)[1..] == xs;
  }

  /** A sample that leaves the window still short of full. */
  lemma StepGrow(d: DetectorState, c: Settings, e: Pk, x: int)
    requires DetectorHolds(d, c, e) && |e.buf| + 1 < c.window as int && x <= c.floor
    ensures DetectorHolds(AfterAddDistance(d, x), c, e.(buf := e.buf + [x]))
  {
    AddDistanceStores(d, x);
    AddDistanceRecordsPeaks(d, x);
  }

  /** The sample that fills the window; the peak test runs on it. */
  lemma StepFill(d: DetectorState, c: Settings, e: Pk, x: int)
    requires DetectorHolds(d, c, e) && |e.buf| + 1 == c.window as int && x <= c.floor
    ensures var w := e.buf + [x];
      DetectorHolds(AfterAddDistance(d, x), c,
                    if IsValley(w, c.tolerance as int)
                    then Pk(w, e.peaks + 1, SeqMin(w), e.last, Min(SeqMin(w), e.largest))
                    else e.(buf := w))
  {
    var r := AfterAddDistance(d, x);
    AddDistanceStores(d, x);
    AddDistanceRecordsPeaks(d, x);
    assert r.distances[..r.window] == Buffer(r);
  }

  /** A sample that slides through a full window holding no peak. */
  lemma StepSlide(d: DetectorState, c: Settings, e: Pk, x: int)
    requires DetectorHolds(d, c, e) && |e.buf| == c.window as int && !IsValley(e.buf, c.tolerance as int)
    requires x <= c.floor
    ensures var w := e.buf[1..] + [x];
      DetectorHolds(AfterAddDistance(d, x), c,
                    if IsValley(w, c.tolerance as int)
                    then Pk(w, e.peaks + 1, SeqMin(w), e.last, Min(SeqMin(w), e.largest))
                    else e.(buf := w))
  {
    assert d.distances[..d.window] == Buffer(d);
    SlideStep(d, x);
  }

  /** A sample after a peak: the window starts over from it. */
  lemma StepRestart(d: DetectorState, c: Settings, e: Pk, x: int)
    requires DetectorHolds(d, c, e) && |e.buf| == c.window as int && IsValley(e.buf, c.tolerance as int)
    requires x <= c.floor
    ensures DetectorHolds(AfterAddDistance(d, x), c, e.(buf := [x]))
  {
    assert d.distances[..d.window] == Buffer(d);
    AddDistanceStores(d, x);
    AddDistanceRecordsPeaks(d, x);
    assert Buffer(AfterAddDistance(d, x)) == [x];
  }

  /** The detector stated on the contents of its window instead of its
      sixteen slots: what one sample does to the window and the peak
      records. A pending peak empties the window first; a sample above the
      floor is dropped; a full window slides; a window that fills with a
      valley records its minimum. */
  function PkNext(e: Pk, x: int, c: Settings): Pk
    requires c.window >= 1
  {
    var kept := if |e.buf| == c.window as int && IsValley(e.buf, c.tolerance as int) then [] else e.buf;
    if x > c.floor then e.(buf := kept)
    else
      var w := if |kept| == c.window as int then kept[1..] + [x] else kept + [x];
      if |w| == c.window as int && IsValley(w, c.tolerance as int)
      then Pk(w, e.peaks + 1, SeqMin(w), e.last, Min(SeqMin(w), e.largest))
      else e.(buf := w)
  }

  /** `PkNext` over a list of samples, in order. */
  function PkRun(e: Pk, xs: seq<int>, c: Settings): Pk
    requires c.window >= 1
    decreases |xs|
  {
    if xs == [] then e else PkRun(PkNext(e, xs[0], c), xs[1..], c)
  }

  /** A sample above the floor: only a pending peak's window is emptied. */
  lemma StepReject(d: DetectorState, c: Settings, e: Pk, x: int)
    requires DetectorHolds(d, c, e) && x > c.floor
    ensures DetectorHolds(AfterAddDistance(d, x), c,
                          e.(buf := if |e.buf| == c.window as int && IsValley(e.buf, c.tolerance as int)
                                    then [] else e.buf))
  {
    AddDistanceRejects(d, x);
    if |e.buf| == c.window as int {
      assert d.distances[..d.window] == Buffer(d);
    }
  }

  /** A sample's minimum is any of its elements that none undercuts. */
  lemma SeqMinIs(w: seq<int>, m: int)
    requires |w| >= 1 && m in w && forall i :: 0 <= i < |w| ==> m <= w[i]
    ensures SeqMin(w) == m
  {
  }

  /** `PkNext` when the sample fills the window with a valley whose minimum
      is `m`. */
  lemma PkNextFillPeak(e: Pk, x: int, c: Settings, w: seq<int>, m: int)
    requires c.window >= 1 && x <= c.floor && |e.buf| + 1 == c.window as int && w == e.buf + [x]
    requires IsValley(w, c.tolerance as int) && m in w && forall i :: 0 <= i < |w| ==> m <= w[i]
    ensures PkNext(e, x, c) == Pk(w, e.peaks + 1, m, e.last, Min(m, e.largest))
  {
    SeqMinIs(w, m);
  }

  /** `PkNext` when the sample slides a full window holding no valley into
      one holding a valley whose minimum is `m`. */
  lemma PkNextSlidePeak(e: Pk, x: int, c: Settings, w: seq<int>, m: int)
    requires c.window >= 1 && x <= c.floor && |e.buf| == c.window as int && !IsValley(e.buf, c.tolerance as int)
    requires w == e.buf[1..] + [x]
    requires IsValley(w, c.tolerance as int) && m in w && forall i :: 0 <= i < |w| ==> m <= w[i]
    ensures PkNext(e, x, c) == Pk(w, e.peaks + 1, m, e.last, Min(m, e.largest))
  {
    SeqMinIs(w, m);
  }

  /** Feeding `PkNext` a list that starts with `x` is feeding it `x` first. */
  lemma PkRunStep(e: Pk, x: int, xs: seq<int>, c: Settings)
    requires c.window >= 1
    ensures PkRun(e, [x] + xs, c) == PkRun(PkNext(e, x, c), xs, c)
  {
    assert ([x] + xs)[1..] == xs;
  }

  /** `PkNext` over two lists in a row is `PkNext` over their concatenation. */
  lemma {:induction false} PkRunConcat(e: Pk, a: seq<int>, b: seq<int>, c: Settings)
    requires c.window >= 1
    ensures PkRun(e, a + b, c) == PkRun(PkRun(e, a, c), b, c)
    decreases |a|
  {
    if a == [] {
      assert a + b == b;
    } else {
      assert (a + b)[0] == a[0] && (a + b)[1..] == a[1..] + b;
      PkRunConcat(PkNext(e, a[0], c), a[1..], b, c);
    }
  }

  /** `PkNext` on a sample that closes a pending peak's window: a new window holding the sample. */
  lemma PkNextRestartCase(e: Pk, x: int, c: Settings)
    requires c.window >= 1 && x <= c.floor
    requires |e.buf| == c.window as int && IsValley(e.buf, c.tolerance as int)
    ensures PkNext(e, x, c) == e.(buf := [x])
  {
    if |e.buf| <= 2 {
      ValleyNeedsThreeSamples(e.buf, c.tolerance as int);
    }
  }

  /** `PkNext` on a full window with no pending peak: the window slides by one. */
  lemma PkNextSlideCase(e: Pk, x: int, c: Settings)
    requires c.window >= 1 && x <= c.floor
    requires |e.buf| == c.window as int && !IsValley(e.buf, c.tolerance as int)
    ensures var w := e.buf[1..] + [x];
      PkNext(e, x, c) == if IsValley(w, c.tolerance as int)
        then Pk(w, e.peaks + 1, SeqMin(w), e.last, Min(SeqMin(w), e.largest)) else e.(buf := w)
  {
  }

  /** `PkNext` on a window one short of full: the sample fills it. */
  lemma PkNextFillCase(e: Pk, x: int, c: Settings)
    requires c.window >= 1 && x <= c.floor && |e.buf| + 1 == c.window as int
    ensures var w := e.buf + [x];
      PkNext(e, x, c) == if IsValley(w, c.tolerance as int)
        then Pk(w, e.peaks + 1, SeqMin(w), e.last, Min(SeqMin(w), e.largest)) else e.(buf := w)
  {
  }

  /** `PkNext` on a window at least two short of full: the sample is appended. */
  lemma PkNextGrowCase(e: Pk, x: int, c: Settings)
    requires c.window >= 1 && x <= c.floor && |e.buf| + 1 < c.window as int
    ensures PkNext(e, x, c) == e.(buf := e.buf + [x])
  {
  }

  /** One sample, under any settings: the detector's slots and records agree
      with `PkNext`. */
  lemma NextTracks(d: DetectorState, c: Settings, e: Pk, x: int)
    requires DetectorHolds(d, c, e)
    ensures DetectorHolds(AfterAddDistance(d, x), c, PkNext(e, x, c))
  {
    var tol := c.tolerance as int;
    if x > c.floor {
      StepReject(d, c, e, x);
    } else if |e.buf| == c.window as int && IsValley(e.buf, tol) {
      PkNextRestartCase(e, x, c);
      StepRestart(d, c, e, x);
    } else if |e.buf| == c.window as int {
      PkNextSlideCase(e, x, c);
      StepSlide(d, c, e, x);
    } else if |e.buf| + 1 == c.window as int {
      PkNextFillCase(e, x, c);
      StepFill(d, c, e, x);
    } else {
      PkNextGrowCase(e, x, c);
      StepGrow(d, c, e, x);
    }
  }

  /** Any list of samples, under any settings: feeding the detector agrees
      with `PkRun`. */
  lemma {:induction false} FeedTracks(s: DetectorState, c: Settings, e: Pk, xs: seq<int>)
    requires DetectorHolds(s, c, e)
    ensures DetectorHolds(Feed(s, xs), c, PkRun(e, xs, c))
    decreases |xs|
  {
    if xs != [] {
      NextTracks(s, c, e, xs[0]);
      FeedTracks(AfterAddDistance(s, xs[0]), c, PkNext(e, xs[0], c), xs[1..]);
    }
  }
}
