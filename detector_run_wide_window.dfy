// Test case 8 (the first of that number) of the detector's test program, sample by sample, on the
// window-level description `PkNext`, which `FeedTracks` shows the detector
// follows. `From<k>` runs the samples from the k-th to the last.


module WideWindowRun {
  import opened PeakDetection
  import opened PeakDetectorProperties
  import opened PeakDetectorTests

  lemma From10()
    ensures PkRun(Pk([1650, 1640, 1635, 1638, 1630, 1629, 1635, 1639, 1645], 0, 1800, 1800, 1800),
                  [1653] + [], TestTen)
         == Pk([1650, 1640, 1635, 1638, 1630, 1629, 1635, 1639, 1645, 1653], 1, 1629, 1800, 1629)
  {
    assert [1650, 1640, 1635, 1638, 1630, 1629, 1635, 1639, 1645] + [1653] == [1650, 1640, 1635, 1638, 1630, 1629, 1635, 1639, 1645, 1653];
    ValleyByEndpoints([1650, 1640, 1635, 1638, 1630, 1629, 1635, 1639, 1645, 1653], 10);
    PkNextFillPeak(Pk([1650, 1640, 1635, 1638, 1630, 1629, 1635, 1639, 1645], 0, 1800, 1800, 1800), 1653, TestTen, [1650, 1640, 1635, 1638, 1630, 1629, 1635, 1639, 1645, 1653], 1629);
    PkRunStep(Pk([1650, 1640, 1635, 1638, 1630, 1629, 1635, 1639, 1645], 0, 1800, 1800, 1800), 1653, [], TestTen);
  }

  lemma From9()
    ensures PkRun(Pk([1650, 1640, 1635, 1638, 1630, 1629, 1635, 1639], 0, 1800, 1800, 1800),
                  [1645] + [1653], TestTen)
         == Pk([1650, 1640, 1635, 1638, 1630, 1629, 1635, 1639, 1645, 1653], 1, 1629, 1800, 1629)
  {
    assert [1650, 1640, 1635, 1638, 1630, 1629, 1635, 1639] + [1645] == [1650, 1640, 1635, 1638, 1630, 1629, 1635, 1639, 1645];
    assert PkNext(Pk([1650, 1640, 1635, 1638, 1630, 1629, 1635, 1639], 0, 1800, 1800, 1800), 1645, TestTen) == Pk([1650, 1640, 1635, 1638, 1630, 1629, 1635, 1639, 1645], 0, 1800, 1800, 1800);
    PkRunStep(Pk([1650, 1640, 1635, 1638, 1630, 1629, 1635, 1639], 0, 1800, 1800, 1800), 1645, [1653], TestTen);
    From10();
  }

  lemma From8()
    ensures PkRun(Pk([1650, 1640, 1635, 1638, 1630, 1629, 1635], 0, 1800, 1800, 1800),
                  [1639] + [1645, 1653], TestTen)
         == Pk([1650, 1640, 1635, 1638, 1630, 1629, 1635, 1639, 1645, 1653], 1, 1629, 1800, 1629)
  {
    assert [1650, 1640, 1635, 1638, 1630, 1629, 1635] + [1639] == [1650, 1640, 1635, 1638, 1630, 1629, 1635, 1639];
    assert PkNext(Pk([1650, 1640, 1635, 1638, 1630, 1629, 1635], 0, 1800, 1800, 1800), 1639, TestTen) == Pk([1650, 1640, 1635, 1638, 1630, 1629, 1635, 1639], 0, 1800, 1800, 1800);
    PkRunStep(Pk([1650, 1640, 1635, 1638, 1630, 1629, 1635], 0, 1800, 1800, 1800), 1639, [1645, 1653], TestTen);
    From9();
  }

  lemma From7()
    ensures PkRun(Pk([1650, 1640, 1635, 1638, 1630, 1629], 0, 1800, 1800, 1800),
                  [1635] + [1639, 1645, 1653], TestTen)
         == Pk([1650, 1640, 1635, 1638, 1630, 1629, 1635, 1639, 1645, 1653], 1, 1629, 1800, 1629)
  {
    assert [1650, 1640, 1635, 1638, 1630, 1629] + [1635] == [1650, 1640, 1635, 1638, 1630, 1629, 1635];
    assert PkNext(Pk([1650, 1640, 1635, 1638, 1630, 1629], 0, 1800, 1800, 1800), 1635, TestTen) == Pk([1650, 1640, 1635, 1638, 1630, 1629, 1635], 0, 1800, 1800, 1800);
    PkRunStep(Pk([1650, 1640, 1635, 1638, 1630, 1629], 0, 1800, 1800, 1800), 1635, [1639, 1645, 1653], TestTen);
    From8();
  }

  lemma From6()
    ensures PkRun(Pk([1650, 1640, 1635, 1638, 1630], 0, 1800, 1800, 1800),
                  [1629] + [], TestTen)
         == Pk([1650, 1640, 1635, 1638, 1630, 1629], 0, 1800, 1800, 1800)
  {
    assert [1650, 1640, 1635, 1638, 1630] + [1629] == [1650, 1640, 1635, 1638, 1630, 1629];
    assert PkNext(Pk([1650, 1640, 1635, 1638, 1630], 0, 1800, 1800, 1800), 1629, TestTen) == Pk([1650, 1640, 1635, 1638, 1630, 1629], 0, 1800, 1800, 1800);
    PkRunStep(Pk([1650, 1640, 1635, 1638, 1630], 0, 1800, 1800, 1800), 1629, [], TestTen);
  }

  lemma From5()
    ensures PkRun(Pk([1650, 1640, 1635, 1638], 0, 1800, 1800, 1800),
                  [1630] + [1629], TestTen)
         == Pk([1650, 1640, 1635, 1638, 1630, 1629], 0, 1800, 1800, 1800)
  {
    assert [1650, 1640, 1635, 1638] + [1630] == [1650, 1640, 1635, 1638, 1630];
    assert PkNext(Pk([1650, 1640, 1635, 1638], 0, 1800, 1800, 1800), 1630, TestTen) == Pk([1650, 1640, 1635, 1638, 1630], 0, 1800, 1800, 1800);
    PkRunStep(Pk([1650, 1640, 1635, 1638], 0, 1800, 1800, 1800), 1630, [1629], TestTen);
    From6();
  }

  lemma From4()
    ensures PkRun(Pk([1650, 1640, 1635], 0, 1800, 1800, 1800),
                  [1638] + [1630, 1629], TestTen)
         == Pk([1650, 1640, 1635, 1638, 1630, 1629], 0, 1800, 1800, 1800)
  {
    assert [1650, 1640, 1635] + [1638] == [1650, 1640, 1635, 1638];
    assert PkNext(Pk([1650, 1640, 1635], 0, 1800, 1800, 1800), 1638, TestTen) == Pk([1650, 1640, 1635, 1638], 0, 1800, 1800, 1800);
    PkRunStep(Pk([1650, 1640, 1635], 0, 1800, 1800, 1800), 1638, [1630, 1629], TestTen);
    From5();
  }

  lemma From3()
    ensures PkRun(Pk([1650, 1640], 0, 1800, 1800, 1800),
                  [1635] + [1638, 1630, 1629], TestTen)
         == Pk([1650, 1640, 1635, 1638, 1630, 1629], 0, 1800, 1800, 1800)
  {
    assert [1650, 1640] + [1635] == [1650, 1640, 1635];
    assert PkNext(Pk([1650, 1640], 0, 1800, 1800, 1800), 1635, TestTen) == Pk([1650, 1640, 1635], 0, 1800, 1800, 1800);
    PkRunStep(Pk([1650, 1640], 0, 1800, 1800, 1800), 1635, [1638, 1630, 1629], TestTen);
    From4();
  }

  lemma From2()
    ensures PkRun(Pk([1650], 0, 1800, 1800, 1800),
                  [1640] + [1635, 1638, 1630, 1629], TestTen)
         == Pk([1650, 1640, 1635, 1638, 1630, 1629], 0, 1800, 1800, 1800)
  {
    assert [1650] + [1640] == [1650, 1640];
    assert PkNext(Pk([1650], 0, 1800, 1800, 1800), 1640, TestTen) == Pk([1650, 1640], 0, 1800, 1800, 1800);
    PkRunStep(Pk([1650], 0, 1800, 1800, 1800), 1640, [1635, 1638, 1630, 1629], TestTen);
    From3();
  }

  lemma From1()
    ensures PkRun(Reset,
                  [1650] + [1640, 1635, 1638, 1630, 1629], TestTen)
         == Pk([1650, 1640, 1635, 1638, 1630, 1629], 0, 1800, 1800, 1800)
  {
    assert [] + [1650] == [1650];
    assert PkNext(Reset, 1650, TestTen) == Pk([1650], 0, 1800, 1800, 1800);
    PkRunStep(Reset, 1650, [1640, 1635, 1638, 1630, 1629], TestTen);
    From2();
  }

  lemma SamplesSplit()
    ensures Samples == ([1650] + [1640, 1635, 1638, 1630, 1629]) + (([1635] + [1639, 1645, 1653]))
  {
  }

  /** What `PkNext` makes of the samples. */
  lemma Trace()
    ensures PkRun(Reset, Samples, TestTen) == Pk([1650, 1640, 1635, 1638, 1630, 1629, 1635, 1639, 1645, 1653], 1, 1629, 1800, 1629)
  {
    SamplesSplit();
    PkRunConcat(Reset, ([1650] + [1640, 1635, 1638, 1630, 1629]), ([1635] + [1639, 1645, 1653]), TestTen);
    From1();
    From7();
  }

  /** The samples of the test case, in order. */
  const Samples := [1650, 1640, 1635, 1638, 1630, 1629, 1635, 1639, 1645, 1653]

  /** The samples of test case 3 in one window of ten, which holds the
      minimum 1629. */
  lemma WideWindow(s: DetectorState)
    requires ResetForTest(s, 10)
    ensures var r := Feed(s, Samples);
      r.largestPeak == 1629 && r.numberOfPeaks == 1 && r.lastPeak == 1629 && r.secondLastPeak == 1800
  {
    FeedTracks(s, TestTen, Reset, Samples);
    Trace();
  }
}
