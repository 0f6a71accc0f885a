// Test case 2 of the detector's test program, sample by sample, on the
// window-level description `PkNext`, which `FeedTracks` shows the detector
// follows. `From<k>` runs the samples from the k-th to the last.


module DescendingRun {
  import opened PeakDetection
  import opened PeakDetectorProperties
  import opened PeakDetectorTests

  lemma From10()
    ensures PkRun(Pk([1650, 10, 9, 8, 7], 0, 1800, 1800, 1800),
                  [6] + [], TestFive)
         == Pk([10, 9, 8, 7, 6], 0, 1800, 1800, 1800)
  {
    ValleyByEndpoints([1650, 10, 9, 8, 7], 10);
    assert [1650, 10, 9, 8, 7][1..] + [6] == [10, 9, 8, 7, 6];
    ValleyByEndpoints([10, 9, 8, 7, 6], 10);
    assert PkNext(Pk([1650, 10, 9, 8, 7], 0, 1800, 1800, 1800), 6, TestFive) == Pk([10, 9, 8, 7, 6], 0, 1800, 1800, 1800);
    PkRunStep(Pk([1650, 10, 9, 8, 7], 0, 1800, 1800, 1800), 6, [], TestFive);
  }

  lemma From9()
    ensures PkRun(Pk([1660, 1650, 10, 9, 8], 0, 1800, 1800, 1800),
                  [7] + [6], TestFive)
         == Pk([10, 9, 8, 7, 6], 0, 1800, 1800, 1800)
  {
    ValleyByEndpoints([1660, 1650, 10, 9, 8], 10);
    assert [1660, 1650, 10, 9, 8][1..] + [7] == [1650, 10, 9, 8, 7];
    ValleyByEndpoints([1650, 10, 9, 8, 7], 10);
    assert PkNext(Pk([1660, 1650, 10, 9, 8], 0, 1800, 1800, 1800), 7, TestFive) == Pk([1650, 10, 9, 8, 7], 0, 1800, 1800, 1800);
    PkRunStep(Pk([1660, 1650, 10, 9, 8], 0, 1800, 1800, 1800), 7, [6], TestFive);
    From10();
  }

  lemma From8()
    ensures PkRun(Pk([1670, 1660, 1650, 10, 9], 0, 1800, 1800, 1800),
                  [8] + [7, 6], TestFive)
         == Pk([10, 9, 8, 7, 6], 0, 1800, 1800, 1800)
  {
    ValleyByEndpoints([1670, 1660, 1650, 10, 9], 10);
    assert [1670, 1660, 1650, 10, 9][1..] + [8] == [1660, 1650, 10, 9, 8];
    ValleyByEndpoints([1660, 1650, 10, 9, 8], 10);
    assert PkNext(Pk([1670, 1660, 1650, 10, 9], 0, 1800, 1800, 1800), 8, TestFive) == Pk([1660, 1650, 10, 9, 8], 0, 1800, 1800, 1800);
    PkRunStep(Pk([1670, 1660, 1650, 10, 9], 0, 1800, 1800, 1800), 8, [7, 6], TestFive);
    From9();
  }

  lemma From7()
    ensures PkRun(Pk([1680, 1670, 1660, 1650, 10], 0, 1800, 1800, 1800),
                  [9] + [8, 7, 6], TestFive)
         == Pk([10, 9, 8, 7, 6], 0, 1800, 1800, 1800)
  {
    ValleyByEndpoints([1680, 1670, 1660, 1650, 10], 10);
    assert [1680, 1670, 1660, 1650, 10][1..] + [9] == [1670, 1660, 1650, 10, 9];
    ValleyByEndpoints([1670, 1660, 1650, 10, 9], 10);
    assert PkNext(Pk([1680, 1670, 1660, 1650, 10], 0, 1800, 1800, 1800), 9, TestFive) == Pk([1670, 1660, 1650, 10, 9], 0, 1800, 1800, 1800);
    PkRunStep(Pk([1680, 1670, 1660, 1650, 10], 0, 1800, 1800, 1800), 9, [8, 7, 6], TestFive);
    From8();
  }

  lemma From6()
    ensures PkRun(Pk([1700, 1680, 1670, 1660, 1650], 0, 1800, 1800, 1800),
                  [10] + [], TestFive)
         == Pk([1680, 1670, 1660, 1650, 10], 0, 1800, 1800, 1800)
  {
    ValleyByEndpoints([1700, 1680, 1670, 1660, 1650], 10);
    assert [1700, 1680, 1670, 1660, 1650][1..] + [10] == [1680, 1670, 1660, 1650, 10];
    ValleyByEndpoints([1680, 1670, 1660, 1650, 10], 10);
    assert PkNext(Pk([1700, 1680, 1670, 1660, 1650], 0, 1800, 1800, 1800), 10, TestFive) == Pk([1680, 1670, 1660, 1650, 10], 0, 1800, 1800, 1800);
    PkRunStep(Pk([1700, 1680, 1670, 1660, 1650], 0, 1800, 1800, 1800), 10, [], TestFive);
  }

  lemma From5()
    ensures PkRun(Pk([1700, 1680, 1670, 1660], 0, 1800, 1800, 1800),
                  [1650] + [10], TestFive)
         == Pk([1680, 1670, 1660, 1650, 10], 0, 1800, 1800, 1800)
  {
    assert [1700, 1680, 1670, 1660] + [1650] == [1700, 1680, 1670, 1660, 1650];
    ValleyByEndpoints([1700, 1680, 1670, 1660, 1650], 10);
    assert PkNext(Pk([1700, 1680, 1670, 1660], 0, 1800, 1800, 1800), 1650, TestFive) == Pk([1700, 1680, 1670, 1660, 1650], 0, 1800, 1800, 1800);
    PkRunStep(Pk([1700, 1680, 1670, 1660], 0, 1800, 1800, 1800), 1650, [10], TestFive);
    From6();
  }

  lemma From4()
    ensures PkRun(Pk([1700, 1680, 1670], 0, 1800, 1800, 1800),
                  [1660] + [1650, 10], TestFive)
         == Pk([1680, 1670, 1660, 1650, 10], 0, 1800, 1800, 1800)
  {
    assert [1700, 1680, 1670] + [1660] == [1700, 1680, 1670, 1660];
    assert PkNext(Pk([1700, 1680, 1670], 0, 1800, 1800, 1800), 1660, TestFive) == Pk([1700, 1680, 1670, 1660], 0, 1800, 1800, 1800);
    PkRunStep(Pk([1700, 1680, 1670], 0, 1800, 1800, 1800), 1660, [1650, 10], TestFive);
    From5();
  }

  lemma From3()
    ensures PkRun(Pk([1700, 1680], 0, 1800, 1800, 1800),
                  [1670] + [1660, 1650, 10], TestFive)
         == Pk([1680, 1670, 1660, 1650, 10], 0, 1800, 1800, 1800)
  {
    assert [1700, 1680] + [1670] == [1700, 1680, 1670];
    assert PkNext(Pk([1700, 1680], 0, 1800, 1800, 1800), 1670, TestFive) == Pk([1700, 1680, 1670], 0, 1800, 1800, 1800);
    PkRunStep(Pk([1700, 1680], 0, 1800, 1800, 1800), 1670, [1660, 1650, 10], TestFive);
    From4();
  }

  lemma From2()
    ensures PkRun(Pk([1700], 0, 1800, 1800, 1800),
                  [1680] + [1670, 1660, 1650, 10], TestFive)
         == Pk([1680, 1670, 1660, 1650, 10], 0, 1800, 1800, 1800)
  {
    assert [1700] + [1680] == [1700, 1680];
    assert PkNext(Pk([1700], 0, 1800, 1800, 1800), 1680, TestFive) == Pk([1700, 1680], 0, 1800, 1800, 1800);
    PkRunStep(Pk([1700], 0, 1800, 1800, 1800), 1680, [1670, 1660, 1650, 10], TestFive);
    From3();
  }

  lemma From1()
    ensures PkRun(Reset,
                  [1700] + [1680, 1670, 1660, 1650, 10], TestFive)
         == Pk([1680, 1670, 1660, 1650, 10], 0, 1800, 1800, 1800)
  {
    assert [] + [1700] == [1700];
    assert PkNext(Reset, 1700, TestFive) == Pk([1700], 0, 1800, 1800, 1800);
    PkRunStep(Reset, 1700, [1680, 1670, 1660, 1650, 10], TestFive);
    From2();
  }

  lemma SamplesSplit()
    ensures Samples == ([1700] + [1680, 1670, 1660, 1650, 10]) + (([9] + [8, 7, 6]))
  {
  }

  /** What `PkNext` makes of the samples. */
  lemma Trace()
    ensures PkRun(Reset, Samples, TestFive) == Pk([10, 9, 8, 7, 6], 0, 1800, 1800, 1800)
  {
    SamplesSplit();
    PkRunConcat(Reset, ([1700] + [1680, 1670, 1660, 1650, 10]), ([9] + [8, 7, 6]), TestFive);
    From1();
    From7();
  }

  /** The samples of the test case, in order. */
  const Samples := [1700, 1680, 1670, 1660, 1650, 10, 9, 8, 7, 6]

  /** Test case 2: a curve that falls and keeps falling holds no valley, so
      no peak is counted. */
  lemma Descending(s: DetectorState)
    requires ResetForTest(s, 5)
    ensures var r := Feed(s, Samples);
      r.largestPeak == 1800 && r.numberOfPeaks == 0 && r.lastPeak == 1800 && r.secondLastPeak == 1800
  {
    FeedTracks(s, TestFive, Reset, Samples);
    Trace();
  }
}
