// Test case 3 of the detector's test program, sample by sample, on the
// window-level description `PkNext`, which `FeedTracks` shows the detector
// follows. `From<k>` runs the samples from the k-th to the last.


module OneMinimumRun {
  import opened PeakDetection
  import opened PeakDetectorProperties
  import opened PeakDetectorTests

  lemma From10()
    ensures PkRun(Pk([1639, 1645], 1, 1629, 1800, 1629),
                  [1653] + [], TestFive)
         == Pk([1639, 1645, 1653], 1, 1629, 1800, 1629)
  {
    assert [1639, 1645] + [1653] == [1639, 1645, 1653];
    assert PkNext(Pk([1639, 1645], 1, 1629, 1800, 1629), 1653, TestFive) == Pk([1639, 1645, 1653], 1, 1629, 1800, 1629);
    PkRunStep(Pk([1639, 1645], 1, 1629, 1800, 1629), 1653, [], TestFive);
  }

  lemma From9()
    ensures PkRun(Pk([1639], 1, 1629, 1800, 1629),
                  [1645] + [1653], TestFive)
         == Pk([1639, 1645, 1653], 1, 1629, 1800, 1629)
  {
    assert [1639] + [1645] == [1639, 1645];
    assert PkNext(Pk([1639], 1, 1629, 1800, 1629), 1645, TestFive) == Pk([1639, 1645], 1, 1629, 1800, 1629);
    PkRunStep(Pk([1639], 1, 1629, 1800, 1629), 1645, [1653], TestFive);
    From10();
  }

  lemma From8()
    ensures PkRun(Pk([1635, 1638, 1630, 1629, 1635], 1, 1629, 1800, 1629),
                  [1639] + [1645, 1653], TestFive)
         == Pk([1639, 1645, 1653], 1, 1629, 1800, 1629)
  {
    ValleyByEndpoints([1635, 1638, 1630, 1629, 1635], 10);
    assert [] + [1639] == [1639];
    assert PkNext(Pk([1635, 1638, 1630, 1629, 1635], 1, 1629, 1800, 1629), 1639, TestFive) == Pk([1639], 1, 1629, 1800, 1629);
    PkRunStep(Pk([1635, 1638, 1630, 1629, 1635], 1, 1629, 1800, 1629), 1639, [1645, 1653], TestFive);
    From9();
  }

  lemma From7()
    ensures PkRun(Pk([1640, 1635, 1638, 1630, 1629], 0, 1800, 1800, 1800),
                  [1635] + [1639, 1645, 1653], TestFive)
         == Pk([1639, 1645, 1653], 1, 1629, 1800, 1629)
  {
    ValleyByEndpoints([1640, 1635, 1638, 1630, 1629], 10);
    assert [1640, 1635, 1638, 1630, 1629][1..] + [1635] == [1635, 1638, 1630, 1629, 1635];
    ValleyByEndpoints([1635, 1638, 1630, 1629, 1635], 10);
    PkNextSlidePeak(Pk([1640, 1635, 1638, 1630, 1629], 0, 1800, 1800, 1800), 1635, TestFive, [1635, 1638, 1630, 1629, 1635], 1629);
    PkRunStep(Pk([1640, 1635, 1638, 1630, 1629], 0, 1800, 1800, 1800), 1635, [1639, 1645, 1653], TestFive);
    From8();
  }

  lemma From6()
    ensures PkRun(Pk([1650, 1640, 1635, 1638, 1630], 0, 1800, 1800, 1800),
                  [1629] + [], TestFive)
         == Pk([1640, 1635, 1638, 1630, 1629], 0, 1800, 1800, 1800)
  {
    ValleyByEndpoints([1650, 1640, 1635, 1638, 1630], 10);
    assert [1650, 1640, 1635, 1638, 1630][1..] + [1629] == [1640, 1635, 1638, 1630, 1629];
    ValleyByEndpoints([1640, 1635, 1638, 1630, 1629], 10);
    assert PkNext(Pk([1650, 1640, 1635, 1638, 1630], 0, 1800, 1800, 1800), 1629, TestFive) == Pk([1640, 1635, 1638, 1630, 1629], 0, 1800, 1800, 1800);
    PkRunStep(Pk([1650, 1640, 1635, 1638, 1630], 0, 1800, 1800, 1800), 1629, [], TestFive);
  }

  lemma From5()
    ensures PkRun(Pk([1650, 1640, 1635, 1638], 0, 1800, 1800, 1800),
                  [1630] + [1629], TestFive)
         == Pk([1640, 1635, 1638, 1630, 1629], 0, 1800, 1800, 1800)
  {
    assert [1650, 1640, 1635, 1638] + [1630] == [1650, 1640, 1635, 1638, 1630];
    ValleyByEndpoints([1650, 1640, 1635, 1638, 1630], 10);
    assert PkNext(Pk([1650, 1640, 1635, 1638], 0, 1800, 1800, 1800), 1630, TestFive) == Pk([1650, 1640, 1635, 1638, 1630], 0, 1800, 1800, 1800);
    PkRunStep(Pk([1650, 1640, 1635, 1638], 0, 1800, 1800, 1800), 1630, [1629], TestFive);
    From6();
  }

  lemma From4()
    ensures PkRun(Pk([1650, 1640, 1635], 0, 1800, 1800, 1800),
                  [1638] + [1630, 1629], TestFive)
         == Pk([1640, 1635, 1638, 1630, 1629], 0, 1800, 1800, 1800)
  {
    assert [1650, 1640, 1635] + [1638] == [1650, 1640, 1635, 1638];
    assert PkNext(Pk([1650, 1640, 1635], 0, 1800, 1800, 1800), 1638, TestFive) == Pk([1650, 1640, 1635, 1638], 0, 1800, 1800, 1800);
    PkRunStep(Pk([1650, 1640, 1635], 0, 1800, 1800, 1800), 1638, [1630, 1629], TestFive);
    From5();
  }

  lemma From3()
    ensures PkRun(Pk([1650, 1640], 0, 1800, 1800, 1800),
                  [1635] + [1638, 1630, 1629], TestFive)
         == Pk([1640, 1635, 1638, 1630, 1629], 0, 1800, 1800, 1800)
  {
    assert [1650, 1640] + [1635] == [1650, 1640, 1635];
    assert PkNext(Pk([1650, 1640], 0, 1800, 1800, 1800), 1635, TestFive) == Pk([1650, 1640, 1635], 0, 1800, 1800, 1800);
    PkRunStep(Pk([1650, 1640], 0, 1800, 1800, 1800), 1635, [1638, 1630, 1629], TestFive);
    From4();
  }

  lemma From2()
    ensures PkRun(Pk([1650], 0, 1800, 1800, 1800),
                  [1640] + [1635, 1638, 1630, 1629], TestFive)
         == Pk([1640, 1635, 1638, 1630, 1629], 0, 1800, 1800, 1800)
  {
    assert [1650] + [1640] == [1650, 1640];
    assert PkNext(Pk([1650], 0, 1800, 1800, 1800), 1640, TestFive) == Pk([1650, 1640], 0, 1800, 1800, 1800);
    PkRunStep(Pk([1650], 0, 1800, 1800, 1800), 1640, [1635, 1638, 1630, 1629], TestFive);
    From3();
  }

  lemma From1()
    ensures PkRun(Reset,
                  [1650] + [1640, 1635, 1638, 1630, 1629], TestFive)
         == Pk([1640, 1635, 1638, 1630, 1629], 0, 1800, 1800, 1800)
  {
    assert [] + [1650] == [1650];
    assert PkNext(Reset, 1650, TestFive) == Pk([1650], 0, 1800, 1800, 1800);
    PkRunStep(Reset, 1650, [1640, 1635, 1638, 1630, 1629], TestFive);
    From2();
  }

  lemma SamplesSplit()
    ensures Samples == ([1650] + [1640, 1635, 1638, 1630, 1629]) + (([1635] + [1639, 1645, 1653]))
  {
  }

  /** What `PkNext` makes of the samples. */
  lemma Trace()
    ensures PkRun(Reset, Samples, TestFive) == Pk([1639, 1645, 1653], 1, 1629, 1800, 1629)
  {
    SamplesSplit();
    PkRunConcat(Reset, ([1650] + [1640, 1635, 1638, 1630, 1629]), ([1635] + [1639, 1645, 1653]), TestFive);
    From1();
    From7();
  }

  /** The samples of the test case, in order. */
  const Samples := [1650, 1640, 1635, 1638, 1630, 1629, 1635, 1639, 1645, 1653]

  /** Test case 3: one minimum of 1629, found once the window has slid to
      hold it at its centre. */
  lemma OneMinimum(s: DetectorState)
    requires ResetForTest(s, 5)
    ensures var r := Feed(s, Samples);
      r.largestPeak == 1629 && r.numberOfPeaks == 1 && r.lastPeak == 1629 && r.secondLastPeak == 1800
  {
    FeedTracks(s, TestFive, Reset, Samples);
    Trace();
  }
}
