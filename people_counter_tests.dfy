// The people counter's single-sample unit tests: a counter built with floor
// 1800, a range of 1600 and the default 5 per cent vacancy margin, then fed
// one reading at a time, left zone first, in the order the test program
// uses.

module PeopleCounterTests {
  import opened CArith
  import opened PeakDetection
  import opened PeopleCounting
  import opened PeopleCounterProperties

  /** Test case i: the constructor's numbers. The ceiling is 1800 - 1600,
      the vacancy threshold lies 5 per cent of the range (80) inside the
      floor, and both detectors are built with the floor raised by the same
      80. */
  lemma ConstructedForTests()
    ensures var s := CounterConstructed(1800, 1600, 5);
      && s.ceilingThreshold == 200 && s.floorThreshold == 1800 && s.zoneVacancyThreshold == 1720
      && s.left.floorThreshold == 1880 && s.right.floorThreshold == 1880
      && BothVacant(s) && s.pplCount == 0
  {
    assert Percent(200 - 1800, 5) == -80;
    assert Percent(1600, 5) == 80;
  }

  /** The thresholds of the test counter. */
  ghost predicate TestThresholds(s: CounterState)
  {
    s.Valid() && s.ceilingThreshold == 200 && s.floorThreshold == 1800 && s.zoneVacancyThreshold == 1720
  }

  /** Test case ii and the second one numbered vii: a reading beyond the
      floor or before the ceiling is dropped. */
  lemma OutOfRangeIgnored(s: CounterState)
    requires TestThresholds(s)
    ensures AfterAddData(s, 1801, Left) == s
    ensures AfterAddData(s, 199, Right) == s
  {
  }

  /** Test case iii: 1721 is outside the vacancy threshold, so the zone
      stays vacant. */
  lemma JustOutsideStaysVacant(s: CounterState)
    requires TestThresholds(s) && BothVacant(s)
    ensures var r := AfterAddData(s, 1721, Left);
      BothVacant(r) && r.pplCount == s.pplCount && TestThresholds(r)
  {
    StatusFollowsSample(s, 1721, Left);
    VacantStartKeepsCount(s, 1721, Left);
  }

  /** Test case iv: 1719 is inside it, so the left zone becomes occupied. */
  lemma JustInsideOccupies(s: CounterState)
    requires TestThresholds(s) && BothVacant(s)
    ensures var r := AfterAddData(s, 1719, Left);
      r.leftStatus == Occupied && r.rightStatus == Vacant && r.pplCount == s.pplCount && TestThresholds(r)
  {
    StatusFollowsSample(s, 1719, Left);
  }

  /** Test case v: another 1719 keeps the left zone occupied. */
  lemma StaysOccupied(s: CounterState)
    requires TestThresholds(s) && s.leftStatus == Occupied && s.rightStatus == Vacant
    ensures var r := AfterAddData(s, 1719, Left);
      r.leftStatus == Occupied && r.rightStatus == Vacant && r.pplCount == s.pplCount && TestThresholds(r)
  {
    StatusFollowsSample(s, 1719, Left);
  }

  /** Test cases vi and vii: 1799 vacates the left zone; as the right zone
      was never occupied alongside it, the episode adds nothing. */
  lemma FarReadingVacates(s: CounterState)
    requires TestThresholds(s) && s.rightStatus == Vacant && !s.data.zoneOverlap
    ensures var r := AfterAddData(s, 1799, Left);
      BothVacant(r) && r.pplCount == s.pplCount && !r.data.zoneOverlap && TestThresholds(r)
  {
    StatusFollowsSample(s, 1799, Left);
    OverlapNeedsBothOccupied(s, 1799, Left);
  }

  /** Test case ix: a reading exactly at the ceiling is accepted and
      occupies the right zone. */
  lemma CeilingReadingOccupies(s: CounterState)
    requires TestThresholds(s) && BothVacant(s)
    ensures var r := AfterAddData(s, 200, Right);
      r.leftStatus == Vacant && r.rightStatus == Occupied && r.pplCount == s.pplCount
  {
    StatusFollowsSample(s, 200, Right);
  }

  /** The counter as test case i finds it: the test thresholds, the default
      tolerances, detectors of width 5 over the raised floor 1880, both
      zones vacant and nothing counted. */
  ghost predicate FreshTestCounter(s: CounterState)
  {
    && TestThresholds(s) && s.peakVariationTolerance == 10
    && s.left.window == 5 && s.left.tolerance == 10 && s.left.floorThreshold == 1880
    && s.right.window == 5 && s.right.tolerance == 10 && s.right.floorThreshold == 1880
    && BothVacant(s) && !s.data.zoneOverlap && s.pplCount == 0
  }

  /** The constructor builds exactly that counter. */
  lemma ConstructedIsFresh()
    ensures FreshTestCounter(CounterConstructed(1800, 1600, 5))
  {
    ConstructedForTests();
  }

  /** The single-sample cases, ii to ix, in sequence on one counter, as
      the test program runs them after building it. */
  lemma SingleSampleCases(s0: CounterState)
    requires FreshTestCounter(s0)
    ensures var s1 := AfterAddData(s0, 1801, Left);
      var s2 := AfterAddData(s1, 1721, Left);
      var s3 := AfterAddData(s2, 1719, Left);
      var s4 := AfterAddData(s3, 1719, Left);
      var s5 := AfterAddData(s4, 1799, Left);
      var s6 := AfterAddData(s5, 1799, Left);
      var s7 := AfterAddData(s6, 199, Right);
      var s8 := AfterAddData(s7, 200, Right);
      && BothVacant(s1) && BothVacant(s2)
      && s3.leftStatus == Occupied && s3.rightStatus == Vacant
      && s4.leftStatus == Occupied && s4.rightStatus == Vacant
      && BothVacant(s5) && BothVacant(s6) && BothVacant(s7)
      && s8.leftStatus == Vacant && s8.rightStatus == Occupied
      && s1.pplCount == s2.pplCount == s3.pplCount == s4.pplCount == 0
      && s5.pplCount == s6.pplCount == s7.pplCount == s8.pplCount == 0
      && !s8.data.zoneOverlap && SameSettings(s8, s0) && SameDetectorSettings(s8, s0)
  {
    var s1 := AfterAddData(s0, 1801, Left);
    OutOfRangeIgnored(s0);
    var s2 := AfterAddData(s1, 1721, Left);
    JustOutsideStaysVacant(s1);
    var s3 := AfterAddData(s2, 1719, Left);
    JustInsideOccupies(s2);
    var s4 := AfterAddData(s3, 1719, Left);
    StaysOccupied(s3);
    var s5 := AfterAddData(s4, 1799, Left);
    assert !s4.data.zoneOverlap by {
      OverlapNeedsBothOccupied(s1, 1721, Left);
      OverlapNeedsBothOccupied(s2, 1719, Left);
      OverlapNeedsBothOccupied(s3, 1719, Left);
    }
    FarReadingVacates(s4);
    var s6 := AfterAddData(s5, 1799, Left);
    FarReadingVacates(s5);
    var s7 := AfterAddData(s6, 199, Right);
    OutOfRangeIgnored(s6);
    var s8 := AfterAddData(s7, 200, Right);
    CeilingReadingOccupies(s7);
    OverlapNeedsBothOccupied(s7, 200, Right);
  }
}
