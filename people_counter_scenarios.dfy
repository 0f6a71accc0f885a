// The people counter's walk-through scenarios: a person crossing the
// doorway in one direction or the other, fed as the test program feeds
// them, the left reading of each instant before the right one. Each
// scenario is proved for any counter with the test thresholds that finds
// both zones vacant, whatever episodes came before it.

module PeopleCounterScenarios {
  import opened CArith
  import opened PeakDetection
  import opened PeakDetectorProperties
  import opened PeopleCounting
  import opened PeopleCounterProperties
  import opened PeopleCounterTests

  /** A counter with the test thresholds and tolerances, both zones vacant:
      the state the test program leaves between scenarios. */
  ghost predicate ScenarioStart(s: CounterState)
  {
    && TestThresholds(s) && s.peakVariationTolerance == 10 && BothVacant(s)
    && s.left.window == 5 && s.left.tolerance == 10 && s.left.floorThreshold == 1880
    && s.right.window == 5 && s.right.tolerance == 10 && s.right.floorThreshold == 1880
  }

  /** What a scenario tracks of a detector: its buffered samples, its peak
      count and its last peak. */
  datatype Det = Det(buf: seq<int>, peaks: int, last: int)

  ghost predicate DetectorIs(d: DetectorState, e: Det)
  {
    && d.Valid() && d.window == 5 && d.tolerance == 10 && d.floorThreshold == 1880
    && Buffer(d) == e.buf && d.numberOfPeaks == e.peaks && d.lastPeak == e.last
  }

  /** The fifth sample fills the window, and the peak test runs on the full
      window. */
  lemma Fill(d: DetectorState, e: Det, x: int)
    requires DetectorIs(d, e) && |e.buf| == 4 && x <= 1880
    ensures var w := e.buf + [x];
      DetectorIs(AfterAddDistance(d, x), if IsValley(w, 10) then Det(w, e.peaks + 1, SeqMin(w)) else Det(w, e.peaks, e.last))
  {
    var w := e.buf + [x];
    var r := AfterAddDistance(d, x);
    assert !PeakPresent(d);
    assert Buffer(r) == w;
    assert r.distances[..r.window] == w;
  }

  /** A sample slides through a full window that holds no peak. */
  lemma Slide(d: DetectorState, e: Det, x: int)
    requires DetectorIs(d, e) && |e.buf| == 5 && !IsValley(e.buf, 10) && x <= 1880
    ensures var w := e.buf[1..] + [x];
      DetectorIs(AfterAddDistance(d, x), if IsValley(w, 10) then Det(w, e.peaks + 1, SeqMin(w)) else Det(w, e.peaks, e.last))
  {
    assert d.distances[..d.window] == Buffer(d);
    SlideStep(d, x);
  }

  /** A sample after a peak empties the window and starts it over. */
  lemma Restart(d: DetectorState, e: Det, x: int)
    requires DetectorIs(d, e) && |e.buf| == 5 && IsValley(e.buf, 10) && x <= 1880
    ensures DetectorIs(AfterAddDistance(d, x), Det([x], e.peaks, e.last))
  {
    assert d.distances[..d.window] == Buffer(d);
    AddDistanceStores(d, x);
    AddDistanceRecordsPeaks(d, x);
    assert Buffer(AfterAddDistance(d, x)) == [x];
  }

  /** A path slot, compared on its zone and, when it holds a peak, its
      distance. */
  predicate SlotIs(p: PeakData, q: PeakData)
  {
    p.zone == q.zone && (q.zone != NoZone ==> p.distance == q.distance)
  }

  const Empty := PeakData(NoZone, 0)

  datatype Trk = Trk(count: int, full: bool, w0: PeakData, w1: PeakData, pre: PeakData)

  predicate TrackerIs(t: PathTracker, e: Trk)
  {
    && t.bufferCount == e.count && t.bufferFull == e.full
    && SlotIs(t.window[0], e.w0) && SlotIs(t.window[1], e.w1) && SlotIs(t.preWindow, e.pre)
  }

  /** Everything a scenario tracks of the counter, the count relative to
      `base`. */
  ghost predicate CounterIs(s: CounterState, l: ZoneStatus, r: ZoneStatus, ld: Det, rd: Det, t: Trk,
                            d: PeopleCounterData, count: int)
  {
    && TestThresholds(s) && s.peakVariationTolerance == 10
    && s.leftStatus == l && s.rightStatus == r
    && DetectorIs(s.left, ld) && DetectorIs(s.right, rd)
    && TrackerIs(s.tracker, t) && s.data == d && s.pplCount == count
  }

  const Floor := Det([], 0, 1880)
  const Clear := Trk(0, false, Empty, Empty, Empty)

  /** The episode data once both zones have been seen occupied together,
      before any peak. */
  const Crossed := PeopleCounterData(NoZone, NoZone, true, 0, 0)

  /** The opening instant of every scenario that starts on the left: the
      left zone reads 1600 and is occupied, the right reads 1780 and stays
      vacant. */
  lemma OpeningInstant(s: CounterState)
    requires ScenarioStart(s)
    ensures CounterIs(Instant(s, 1600, 1780), Occupied, Vacant, Det([1600], 0, 1880), Floor,
                      Clear, InitialData, s.pplCount)
  {
  }

  /** The left reading that follows it in those scenarios. */
  lemma OpeningLeftReading(s: CounterState, c: int)
    requires CounterIs(s, Occupied, Vacant, Det([1600], 0, 1880), Floor,
                       Clear, InitialData, c)
    ensures CounterIs(AfterAddData(s, 1500, Left), Occupied, Vacant, Det([1600, 1500], 0, 1880), Floor,
                      Clear, InitialData, c)
  {
  }

  /** A reading in range but at or past the vacancy threshold, with both
      zones vacant and the episode clear: it starts an empty episode and
      changes nothing a scenario tracks. */
  lemma QuietReading(s: CounterState, c: int, x: int, zone: Zone)
    requires CounterIs(s, Vacant, Vacant, Floor, Floor, Clear, InitialData, c)
    requires 1720 <= x <= 1800
    ensures CounterIs(AfterAddData(s, x, zone), Vacant, Vacant, Floor, Floor, Clear, InitialData, c)
  {
  }

  /** Test case 0, a traversal of the right zone alone: starting as the
      single-sample cases leave the counter, with the left zone vacant and no
      overlap marked, the count does not move and both zones end vacant. */
  lemma RightTraversal(s: CounterState)
    requires TestThresholds(s) && s.leftStatus == Vacant && !s.data.zoneOverlap
    ensures var r := Run(s, Readings([1780, 1600, 1500, 1510, 1550, 1750, 1800], Right));
      BothVacant(r) && r.pplCount == s.pplCount && SameSettings(r, s) && SameDetectorSettings(r, s)
  {
    OneSidedStreamKeepsCount(s, Readings([1780, 1600, 1500, 1510, 1550, 1750, 1800], Right), Right);
  }

  /** The readings of test case 10, left and right zone, one per instant. */
  const NoOverlapLeft := [1600, 1500, 1400, 1500, 1600, 1750, 1780, 1790, 1790, 1790, 1790, 1790, 1790]
  const NoOverlapRight := [1780, 1780, 1780, 1780, 1780, 1780, 1600, 1500, 1400, 1500, 1600, 1780, 1790]

  lemma NoOverlapInRange()
    ensures |NoOverlapLeft| == |NoOverlapRight| == 13
    ensures forall i :: 0 <= i < 13 ==>
      200 <= NoOverlapLeft[i] <= 1800 && 200 <= NoOverlapRight[i] <= 1800
    ensures NoOverlapLeft[12] == NoOverlapRight[12] == 1790
  {
  }

  lemma NoOverlapApart()
    ensures |NoOverlapLeft| == |NoOverlapRight| && Apart(NoOverlapLeft, NoOverlapRight, 1720)
  {
  }

  /** Test case 10, two people stepping in and back on opposite sides, never
      both in view at once: the count does not move. */
  lemma NoOverlap(s: CounterState)
    requires ScenarioStart(s)
    ensures var r := Run(s, Interleave(NoOverlapLeft, NoOverlapRight));
      ScenarioStart(r) && r.pplCount == s.pplCount
  {
    NoOverlapInRange();
    NoOverlapApart();
    ApartStreamKeepsCount(s, NoOverlapLeft, NoOverlapRight);
  }

  /** The test program's opening: the counter built for the tests, fed the
      single-sample cases and then test case 0, is ready for the walk-through
      scenarios with nothing counted. */
  lemma TestProgramOpening(s0: CounterState)
    requires FreshTestCounter(s0)
    ensures var s1 := AfterAddData(s0, 1801, Left);
      var s2 := AfterAddData(s1, 1721, Left);
      var s3 := AfterAddData(s2, 1719, Left);
      var s4 := AfterAddData(s3, 1719, Left);
      var s5 := AfterAddData(s4, 1799, Left);
      var s6 := AfterAddData(s5, 1799, Left);
      var s7 := AfterAddData(s6, 199, Right);
      var s8 := AfterAddData(s7, 200, Right);
      var r := Run(s8, Readings([1780, 1600, 1500, 1510, 1550, 1750, 1800], Right));
      ScenarioStart(r) && r.pplCount == 0
  {
    SingleSampleCases(s0);
    var s8 := AfterAddData(AfterAddData(AfterAddData(AfterAddData(AfterAddData(AfterAddData(AfterAddData(AfterAddData(
      s0, 1801, Left), 1721, Left), 1719, Left), 1719, Left), 1799, Left), 1799, Left), 199, Right), 200, Right);
    RightTraversal(s8);
  }
}
