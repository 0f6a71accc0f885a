// Test case 9 of the detector's test program, sample by sample, on the
// window-level description `PkNext`, which `FeedTracks` shows the detector
// follows. `From<k>` runs the samples from the k-th to the last.


module TwoMinimaRun {
  import opened PeakDetection
  import opened PeakDetectorProperties
  import opened PeakDetectorTests

  lemma From14()
    ensures PkRun(Pk([1700, 1750], 2, 1400, 1670, 1400),
                  [1780] + [], TestFive)
         == Pk([1700, 1750, 1780], 2, 1400, 1670, 1400)
  {
    assert [1700, 1750] + [1780] == [1700, 1750, 1780];
    assert PkNext(Pk([1700, 1750], 2, 1400, 1670, 1400), 1780, TestFive) == Pk([1700, 1750, 1780], 2, 1400, 1670, 1400);
    PkRunStep(Pk([1700, 1750], 2, 1400, 1670, 1400), 1780, [], TestFive);
  }

  lemma From13()
    ensures PkRun(Pk([1700], 2, 1400, 1670, 1400),
                  [1750] + [1780], TestFive)
         == Pk([1700, 1750, 1780], 2, 1400, 1670, 1400)
  {
    assert [1700] + [1750] == [1700, 1750];
    assert PkNext(Pk([1700], 2, 1400, 1670, 1400), 1750, TestFive) == Pk([1700, 1750], 2, 1400, 1670, 1400);
    PkRunStep(Pk([1700], 2, 1400, 1670, 1400), 1750, [1780], TestFive);
    From14();
  }

  lemma From12()
    ensures PkRun(Pk([1600, 1500, 1400, 1500, 1600], 2, 1400, 1670, 1400),
                  [1700] + [], TestFive)
         == Pk([1700], 2, 1400, 1670, 1400)
  {
    ValleyByEndpoints([1600, 1500, 1400, 1500, 1600], 10);
    assert [] + [1700] == [1700];
    assert PkNext(Pk([1600, 1500, 1400, 1500, 1600], 2, 1400, 1670, 1400), 1700, TestFive) == Pk([1700], 2, 1400, 1670, 1400);
    PkRunStep(Pk([1600, 1500, 1400, 1500, 1600], 2, 1400, 1670, 1400), 1700, [], TestFive);
  }

  lemma From11()
    ensures PkRun(Pk([1600, 1500, 1400, 1500], 1, 1670, 1800, 1670),
                  [1600] + [1700], TestFive)
         == Pk([1700], 2, 1400, 1670, 1400)
  {
    assert [1600, 1500, 1400, 1500] + [1600] == [1600, 1500, 1400, 1500, 1600];
    ValleyByEndpoints([1600, 1500, 1400, 1500, 1600], 10);
    PkNextFillPeak(Pk([1600, 1500, 1400, 1500], 1, 1670, 1800, 1670), 1600, TestFive, [1600, 1500, 1400, 1500, 1600], 1400);
    PkRunStep(Pk([1600, 1500, 1400, 1500], 1, 1670, 1800, 1670), 1600, [1700], TestFive);
    From12();
  }

  lemma From10()
    ensures PkRun(Pk([1600, 1500, 1400], 1, 1670, 1800, 1670),
                  [1500] + [1600, 1700], TestFive)
         == Pk([1700], 2, 1400, 1670, 1400)
  {
    assert [1600, 1500, 1400] + [1500] == [1600, 1500, 1400, 1500];
    assert PkNext(Pk([1600, 1500, 1400], 1, 1670, 1800, 1670), 1500, TestFive) == Pk([1600, 1500, 1400, 1500], 1, 1670, 1800, 1670);
    PkRunStep(Pk([1600, 1500, 1400], 1, 1670, 1800, 1670), 1500, [1600, 1700], TestFive);
    From11();
  }

  lemma From9()
    ensures PkRun(Pk([1600, 1500], 1, 1670, 1800, 1670),
                  [1400] + [1500, 1600, 1700], TestFive)
         == Pk([1700], 2, 1400, 1670, 1400)
  {
    assert [1600, 1500] + [1400] == [1600, 1500, 1400];
    assert PkNext(Pk([1600, 1500], 1, 1670, 1800, 1670), 1400, TestFive) == Pk([1600, 1500, 1400], 1, 1670, 1800, 1670);
    PkRunStep(Pk([1600, 1500], 1, 1670, 1800, 1670), 1400, [1500, 1600, 1700], TestFive);
    From10();
  }

  lemma From8()
    ensures PkRun(Pk([1600], 1, 1670, 1800, 1670),
                  [1500] + [1400, 1500, 1600, 1700], TestFive)
         == Pk([1700], 2, 1400, 1670, 1400)
  {
    assert [1600] + [1500] == [1600, 1500];
    assert PkNext(Pk([1600], 1, 1670, 1800, 1670), 1500, TestFive) == Pk([1600, 1500], 1, 1670, 1800, 1670);
    PkRunStep(Pk([1600], 1, 1670, 1800, 1670), 1500, [1400, 1500, 1600, 1700], TestFive);
    From9();
  }

  lemma From7()
    ensures PkRun(Pk([1690, 1680, 1670, 1680, 1690], 1, 1670, 1800, 1670),
                  [1600] + [1500, 1400, 1500, 1600, 1700], TestFive)
         == Pk([1700], 2, 1400, 1670, 1400)
  {
    ValleyByEndpoints([1690, 1680, 1670, 1680, 1690], 10);
    assert [] + [1600] == [1600];
    assert PkNext(Pk([1690, 1680, 1670, 1680, 1690], 1, 1670, 1800, 1670), 1600, TestFive) == Pk([1600], 1, 1670, 1800, 1670);
    PkRunStep(Pk([1690, 1680, 1670, 1680, 1690], 1, 1670, 1800, 1670), 1600, [1500, 1400, 1500, 1600, 1700], TestFive);
    From8();
  }

  lemma From6()
    ensures PkRun(Pk([1700, 1690, 1680, 1670, 1680], 0, 1800, 1800, 1800),
                  [1690] + [], TestFive)
         == Pk([1690, 1680, 1670, 1680, 1690], 1, 1670, 1800, 1670)
  {
    ValleyByEndpoints([1700, 1690, 1680, 1670, 1680], 10);
    assert [1700, 1690, 1680, 1670, 1680][1..] + [1690] == [1690, 1680, 1670, 1680, 1690];
    ValleyByEndpoints([1690, 1680, 1670, 1680, 1690], 10);
    PkNextSlidePeak(Pk([1700, 1690, 1680, 1670, 1680], 0, 1800, 1800, 1800), 1690, TestFive, [1690, 1680, 1670, 1680, 1690], 1670);
    PkRunStep(Pk([1700, 1690, 1680, 1670, 1680], 0, 1800, 1800, 1800), 1690, [], TestFive);
  }

  lemma From5()
    ensures PkRun(Pk([1700, 1690, 1680, 1670], 0, 1800, 1800, 1800),
                  [1680] + [1690], TestFive)
         == Pk([1690, 1680, 1670, 1680, 1690], 1, 1670, 1800, 1670)
  {
    assert [1700, 1690, 1680, 1670] + [1680] == [1700, 1690, 1680, 1670, 1680];
    ValleyByEndpoints([1700, 1690, 1680, 1670, 1680], 10);
    assert PkNext(Pk([1700, 1690, 1680, 1670], 0, 1800, 1800, 1800), 1680, TestFive) == Pk([1700, 1690, 1680, 1670, 1680], 0, 1800, 1800, 1800);
    PkRunStep(Pk([1700, 1690, 1680, 1670], 0, 1800, 1800, 1800), 1680, [1690], TestFive);
    From6();
  }

  lemma From4()
    ensures PkRun(Pk([1700, 1690, 1680], 0, 1800, 1800, 1800),
                  [1670] + [1680, 1690], TestFive)
         == Pk([1690, 1680, 1670, 1680, 1690], 1, 1670, 1800, 1670)
  {
    assert [1700, 1690, 1680] + [1670] == [1700, 1690, 1680, 1670];
    assert PkNext(Pk([1700, 1690, 1680], 0, 1800, 1800, 1800), 1670, TestFive) == Pk([1700, 1690, 1680, 1670], 0, 1800, 1800, 1800);
    PkRunStep(Pk([1700, 1690, 1680], 0, 1800, 1800, 1800), 1670, [1680, 1690], TestFive);
    From5();
  }

  lemma From3()
    ensures PkRun(Pk([1700, 1690], 0, 1800, 1800, 1800),
                  [1680] + [1670, 1680, 1690], TestFive)
         == Pk([1690, 1680, 1670, 1680, 1690], 1, 1670, 1800, 1670)
  {
    assert [1700, 1690] + [1680] == [1700, 1690, 1680];
    assert PkNext(Pk([1700, 1690], 0, 1800, 1800, 1800), 1680, TestFive) == Pk([1700, 1690, 1680], 0, 1800, 1800, 1800);
    PkRunStep(Pk([1700, 1690], 0, 1800, 1800, 1800), 1680, [1670, 1680, 1690], TestFive);
    From4();
  }

  lemma From2()
    ensures PkRun(Pk([1700], 0, 1800, 1800, 1800),
                  [1690] + [1680, 1670, 1680, 1690], TestFive)
         == Pk([1690, 1680, 1670, 1680, 1690], 1, 1670, 1800, 1670)
  {
    assert [1700] + [1690] == [1700, 1690];
    assert PkNext(Pk([1700], 0, 1800, 1800, 1800), 1690, TestFive) == Pk([1700, 1690], 0, 1800, 1800, 1800);
    PkRunStep(Pk([1700], 0, 1800, 1800, 1800), 1690, [1680, 1670, 1680, 1690], TestFive);
    From3();
  }

  lemma From1()
    ensures PkRun(Reset,
                  [1700] + [1690, 1680, 1670, 1680, 1690], TestFive)
         == Pk([1690, 1680, 1670, 1680, 1690], 1, 1670, 1800, 1670)
  {
    assert [] + [1700] == [1700];
    assert PkNext(Reset, 1700, TestFive) == Pk([1700], 0, 1800, 1800, 1800);
    PkRunStep(Reset, 1700, [1690, 1680, 1670, 1680, 1690], TestFive);
    From2();
  }

  lemma SamplesSplit()
    ensures Samples == ([1700] + [1690, 1680, 1670, 1680, 1690]) + (([1600] + [1500, 1400, 1500, 1600, 1700]) + (([1750] + [1780])))
  {
  }

  /** What `PkNext` makes of the samples. */
  lemma Trace()
    ensures PkRun(Reset, Samples, TestFive) == Pk([1700, 1750, 1780], 2, 1400, 1670, 1400)
  {
    SamplesSplit();
    PkRunConcat(Reset, ([1700] + [1690, 1680, 1670, 1680, 1690]), ([1600] + [1500, 1400, 1500, 1600, 1700]) + (([1750] + [1780])), TestFive);
    From1();
    PkRunConcat(Pk([1690, 1680, 1670, 1680, 1690], 1, 1670, 1800, 1670), ([1600] + [1500, 1400, 1500, 1600, 1700]), ([1750] + [1780]), TestFive);
    From7();
    From13();
  }

  /** The samples of the test case, in order. */
  const Samples := [1700, 1690, 1680, 1670, 1680, 1690, 1600, 1500, 1400, 1500, 1600, 1700, 1750, 1780]

  /** Valleys of 1670 and then 1400. */
  lemma TwoMinima(s: DetectorState)
    requires ResetForTest(s, 5)
    ensures var r := Feed(s, Samples);
      r.largestPeak == 1400 && r.numberOfPeaks == 2 && r.lastPeak == 1400 && r.secondLastPeak == 1670
  {
    FeedTracks(s, TestFive, Reset, Samples);
    Trace();
  }
}
