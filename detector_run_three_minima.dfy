// Test case 8 (the second of that number) of the detector's test program, sample by sample, on the
// window-level description `PkNext`, which `FeedTracks` shows the detector
// follows. `From<k>` runs the samples from the k-th to the last.


module ThreeMinimaRun {
  import opened PeakDetection
  import opened PeakDetectorProperties
  import opened PeakDetectorTests

  lemma From23()
    ensures PkRun(Pk([1700, 1750, 1780], 3, 1398, 1399, 1397),
                  [1780] + [], TestFive)
         == Pk([1700, 1750, 1780, 1780], 3, 1398, 1399, 1397)
  {
    assert [1700, 1750, 1780] + [1780] == [1700, 1750, 1780, 1780];
    assert PkNext(Pk([1700, 1750, 1780], 3, 1398, 1399, 1397), 1780, TestFive) == Pk([1700, 1750, 1780, 1780], 3, 1398, 1399, 1397);
    PkRunStep(Pk([1700, 1750, 1780], 3, 1398, 1399, 1397), 1780, [], TestFive);
  }

  lemma From22()
    ensures PkRun(Pk([1700, 1750], 3, 1398, 1399, 1397),
                  [1780] + [1780], TestFive)
         == Pk([1700, 1750, 1780, 1780], 3, 1398, 1399, 1397)
  {
    assert [1700, 1750] + [1780] == [1700, 1750, 1780];
    assert PkNext(Pk([1700, 1750], 3, 1398, 1399, 1397), 1780, TestFive) == Pk([1700, 1750, 1780], 3, 1398, 1399, 1397);
    PkRunStep(Pk([1700, 1750], 3, 1398, 1399, 1397), 1780, [1780], TestFive);
    From23();
  }

  lemma From21()
    ensures PkRun(Pk([1700], 3, 1398, 1399, 1397),
                  [1750] + [1780, 1780], TestFive)
         == Pk([1700, 1750, 1780, 1780], 3, 1398, 1399, 1397)
  {
    assert [1700] + [1750] == [1700, 1750];
    assert PkNext(Pk([1700], 3, 1398, 1399, 1397), 1750, TestFive) == Pk([1700, 1750], 3, 1398, 1399, 1397);
    PkRunStep(Pk([1700], 3, 1398, 1399, 1397), 1750, [1780, 1780], TestFive);
    From22();
  }

  lemma From20()
    ensures PkRun(Pk([1600, 1500, 1398, 1500, 1600], 3, 1398, 1399, 1397),
                  [1700] + [1750, 1780, 1780], TestFive)
         == Pk([1700, 1750, 1780, 1780], 3, 1398, 1399, 1397)
  {
    ValleyByEndpoints([1600, 1500, 1398, 1500, 1600], 10);
    assert [] + [1700] == [1700];
    assert PkNext(Pk([1600, 1500, 1398, 1500, 1600], 3, 1398, 1399, 1397), 1700, TestFive) == Pk([1700], 3, 1398, 1399, 1397);
    PkRunStep(Pk([1600, 1500, 1398, 1500, 1600], 3, 1398, 1399, 1397), 1700, [1750, 1780, 1780], TestFive);
    From21();
  }

  lemma From19()
    ensures PkRun(Pk([1660, 1600, 1500, 1398, 1500], 2, 1399, 1397, 1397),
                  [1600] + [1700, 1750, 1780, 1780], TestFive)
         == Pk([1700, 1750, 1780, 1780], 3, 1398, 1399, 1397)
  {
    ValleyByEndpoints([1660, 1600, 1500, 1398, 1500], 10);
    assert [1660, 1600, 1500, 1398, 1500][1..] + [1600] == [1600, 1500, 1398, 1500, 1600];
    ValleyByEndpoints([1600, 1500, 1398, 1500, 1600], 10);
    PkNextSlidePeak(Pk([1660, 1600, 1500, 1398, 1500], 2, 1399, 1397, 1397), 1600, TestFive, [1600, 1500, 1398, 1500, 1600], 1398);
    PkRunStep(Pk([1660, 1600, 1500, 1398, 1500], 2, 1399, 1397, 1397), 1600, [1700, 1750, 1780, 1780], TestFive);
    From20();
  }

  lemma From18()
    ensures PkRun(Pk([1650, 1660, 1600, 1500, 1398], 2, 1399, 1397, 1397),
                  [1500] + [], TestFive)
         == Pk([1660, 1600, 1500, 1398, 1500], 2, 1399, 1397, 1397)
  {
    ValleyByEndpoints([1650, 1660, 1600, 1500, 1398], 10);
    assert [1650, 1660, 1600, 1500, 1398][1..] + [1500] == [1660, 1600, 1500, 1398, 1500];
    ValleyByEndpoints([1660, 1600, 1500, 1398, 1500], 10);
    assert PkNext(Pk([1650, 1660, 1600, 1500, 1398], 2, 1399, 1397, 1397), 1500, TestFive) == Pk([1660, 1600, 1500, 1398, 1500], 2, 1399, 1397, 1397);
    PkRunStep(Pk([1650, 1660, 1600, 1500, 1398], 2, 1399, 1397, 1397), 1500, [], TestFive);
  }

  lemma From17()
    ensures PkRun(Pk([1650, 1660, 1600, 1500], 2, 1399, 1397, 1397),
                  [1398] + [1500], TestFive)
         == Pk([1660, 1600, 1500, 1398, 1500], 2, 1399, 1397, 1397)
  {
    assert [1650, 1660, 1600, 1500] + [1398] == [1650, 1660, 1600, 1500, 1398];
    ValleyByEndpoints([1650, 1660, 1600, 1500, 1398], 10);
    assert PkNext(Pk([1650, 1660, 1600, 1500], 2, 1399, 1397, 1397), 1398, TestFive) == Pk([1650, 1660, 1600, 1500, 1398], 2, 1399, 1397, 1397);
    PkRunStep(Pk([1650, 1660, 1600, 1500], 2, 1399, 1397, 1397), 1398, [1500], TestFive);
    From18();
  }

  lemma From16()
    ensures PkRun(Pk([1650, 1660, 1600], 2, 1399, 1397, 1397),
                  [1500] + [1398, 1500], TestFive)
         == Pk([1660, 1600, 1500, 1398, 1500], 2, 1399, 1397, 1397)
  {
    assert [1650, 1660, 1600] + [1500] == [1650, 1660, 1600, 1500];
    assert PkNext(Pk([1650, 1660, 1600], 2, 1399, 1397, 1397), 1500, TestFive) == Pk([1650, 1660, 1600, 1500], 2, 1399, 1397, 1397);
    PkRunStep(Pk([1650, 1660, 1600], 2, 1399, 1397, 1397), 1500, [1398, 1500], TestFive);
    From17();
  }

  lemma From15()
    ensures PkRun(Pk([1650, 1660], 2, 1399, 1397, 1397),
                  [1600] + [1500, 1398, 1500], TestFive)
         == Pk([1660, 1600, 1500, 1398, 1500], 2, 1399, 1397, 1397)
  {
    assert [1650, 1660] + [1600] == [1650, 1660, 1600];
    assert PkNext(Pk([1650, 1660], 2, 1399, 1397, 1397), 1600, TestFive) == Pk([1650, 1660, 1600], 2, 1399, 1397, 1397);
    PkRunStep(Pk([1650, 1660], 2, 1399, 1397, 1397), 1600, [1500, 1398, 1500], TestFive);
    From16();
  }

  lemma From14()
    ensures PkRun(Pk([1650], 2, 1399, 1397, 1397),
                  [1660] + [1600, 1500, 1398, 1500], TestFive)
         == Pk([1660, 1600, 1500, 1398, 1500], 2, 1399, 1397, 1397)
  {
    assert [1650] + [1660] == [1650, 1660];
    assert PkNext(Pk([1650], 2, 1399, 1397, 1397), 1660, TestFive) == Pk([1650, 1660], 2, 1399, 1397, 1397);
    PkRunStep(Pk([1650], 2, 1399, 1397, 1397), 1660, [1600, 1500, 1398, 1500], TestFive);
    From15();
  }

  lemma From13()
    ensures PkRun(Pk([1550, 1500, 1399, 1500, 1550], 2, 1399, 1397, 1397),
                  [1650] + [1660, 1600, 1500, 1398, 1500], TestFive)
         == Pk([1660, 1600, 1500, 1398, 1500], 2, 1399, 1397, 1397)
  {
    ValleyByEndpoints([1550, 1500, 1399, 1500, 1550], 10);
    assert [] + [1650] == [1650];
    assert PkNext(Pk([1550, 1500, 1399, 1500, 1550], 2, 1399, 1397, 1397), 1650, TestFive) == Pk([1650], 2, 1399, 1397, 1397);
    PkRunStep(Pk([1550, 1500, 1399, 1500, 1550], 2, 1399, 1397, 1397), 1650, [1660, 1600, 1500, 1398, 1500], TestFive);
    From14();
  }

  lemma From12()
    ensures PkRun(Pk([1780, 1550, 1500, 1399, 1500], 1, 1397, 1800, 1397),
                  [1550] + [], TestFive)
         == Pk([1550, 1500, 1399, 1500, 1550], 2, 1399, 1397, 1397)
  {
    ValleyByEndpoints([1780, 1550, 1500, 1399, 1500], 10);
    assert [1780, 1550, 1500, 1399, 1500][1..] + [1550] == [1550, 1500, 1399, 1500, 1550];
    ValleyByEndpoints([1550, 1500, 1399, 1500, 1550], 10);
    PkNextSlidePeak(Pk([1780, 1550, 1500, 1399, 1500], 1, 1397, 1800, 1397), 1550, TestFive, [1550, 1500, 1399, 1500, 1550], 1399);
    PkRunStep(Pk([1780, 1550, 1500, 1399, 1500], 1, 1397, 1800, 1397), 1550, [], TestFive);
  }

  lemma From11()
    ensures PkRun(Pk([1780, 1780, 1550, 1500, 1399], 1, 1397, 1800, 1397),
                  [1500] + [1550], TestFive)
         == Pk([1550, 1500, 1399, 1500, 1550], 2, 1399, 1397, 1397)
  {
    ValleyByEndpoints([1780, 1780, 1550, 1500, 1399], 10);
    assert [1780, 1780, 1550, 1500, 1399][1..] + [1500] == [1780, 1550, 1500, 1399, 1500];
    ValleyByEndpoints([1780, 1550, 1500, 1399, 1500], 10);
    assert PkNext(Pk([1780, 1780, 1550, 1500, 1399], 1, 1397, 1800, 1397), 1500, TestFive) == Pk([1780, 1550, 1500, 1399, 1500], 1, 1397, 1800, 1397);
    PkRunStep(Pk([1780, 1780, 1550, 1500, 1399], 1, 1397, 1800, 1397), 1500, [1550], TestFive);
    From12();
  }

  lemma From10()
    ensures PkRun(Pk([1780, 1780, 1550, 1500], 1, 1397, 1800, 1397),
                  [1399] + [1500, 1550], TestFive)
         == Pk([1550, 1500, 1399, 1500, 1550], 2, 1399, 1397, 1397)
  {
    assert [1780, 1780, 1550, 1500] + [1399] == [1780, 1780, 1550, 1500, 1399];
    ValleyByEndpoints([1780, 1780, 1550, 1500, 1399], 10);
    assert PkNext(Pk([1780, 1780, 1550, 1500], 1, 1397, 1800, 1397), 1399, TestFive) == Pk([1780, 1780, 1550, 1500, 1399], 1, 1397, 1800, 1397);
    PkRunStep(Pk([1780, 1780, 1550, 1500], 1, 1397, 1800, 1397), 1399, [1500, 1550], TestFive);
    From11();
  }

  lemma From9()
    ensures PkRun(Pk([1780, 1780, 1550], 1, 1397, 1800, 1397),
                  [1500] + [1399, 1500, 1550], TestFive)
         == Pk([1550, 1500, 1399, 1500, 1550], 2, 1399, 1397, 1397)
  {
    assert [1780, 1780, 1550] + [1500] == [1780, 1780, 1550, 1500];
    assert PkNext(Pk([1780, 1780, 1550], 1, 1397, 1800, 1397), 1500, TestFive) == Pk([1780, 1780, 1550, 1500], 1, 1397, 1800, 1397);
    PkRunStep(Pk([1780, 1780, 1550], 1, 1397, 1800, 1397), 1500, [1399, 1500, 1550], TestFive);
    From10();
  }

  lemma From8()
    ensures PkRun(Pk([1780, 1780], 1, 1397, 1800, 1397),
                  [1550] + [1500, 1399, 1500, 1550], TestFive)
         == Pk([1550, 1500, 1399, 1500, 1550], 2, 1399, 1397, 1397)
  {
    assert [1780, 1780] + [1550] == [1780, 1780, 1550];
    assert PkNext(Pk([1780, 1780], 1, 1397, 1800, 1397), 1550, TestFive) == Pk([1780, 1780, 1550], 1, 1397, 1800, 1397);
    PkRunStep(Pk([1780, 1780], 1, 1397, 1800, 1397), 1550, [1500, 1399, 1500, 1550], TestFive);
    From9();
  }

  lemma From7()
    ensures PkRun(Pk([1780], 1, 1397, 1800, 1397),
                  [1780] + [1550, 1500, 1399, 1500, 1550], TestFive)
         == Pk([1550, 1500, 1399, 1500, 1550], 2, 1399, 1397, 1397)
  {
    assert [1780] + [1780] == [1780, 1780];
    assert PkNext(Pk([1780], 1, 1397, 1800, 1397), 1780, TestFive) == Pk([1780, 1780], 1, 1397, 1800, 1397);
    PkRunStep(Pk([1780], 1, 1397, 1800, 1397), 1780, [1550, 1500, 1399, 1500, 1550], TestFive);
    From8();
  }

  lemma From6()
    ensures PkRun(Pk([1600, 1500, 1397, 1500, 1600], 1, 1397, 1800, 1397),
                  [1780] + [], TestFive)
         == Pk([1780], 1, 1397, 1800, 1397)
  {
    ValleyByEndpoints([1600, 1500, 1397, 1500, 1600], 10);
    assert [] + [1780] == [1780];
    assert PkNext(Pk([1600, 1500, 1397, 1500, 1600], 1, 1397, 1800, 1397), 1780, TestFive) == Pk([1780], 1, 1397, 1800, 1397);
    PkRunStep(Pk([1600, 1500, 1397, 1500, 1600], 1, 1397, 1800, 1397), 1780, [], TestFive);
  }

  lemma From5()
    ensures PkRun(Pk([1600, 1500, 1397, 1500], 0, 1800, 1800, 1800),
                  [1600] + [1780], TestFive)
         == Pk([1780], 1, 1397, 1800, 1397)
  {
    assert [1600, 1500, 1397, 1500] + [1600] == [1600, 1500, 1397, 1500, 1600];
    ValleyByEndpoints([1600, 1500, 1397, 1500, 1600], 10);
    PkNextFillPeak(Pk([1600, 1500, 1397, 1500], 0, 1800, 1800, 1800), 1600, TestFive, [1600, 1500, 1397, 1500, 1600], 1397);
    PkRunStep(Pk([1600, 1500, 1397, 1500], 0, 1800, 1800, 1800), 1600, [1780], TestFive);
    From6();
  }

  lemma From4()
    ensures PkRun(Pk([1600, 1500, 1397], 0, 1800, 1800, 1800),
                  [1500] + [1600, 1780], TestFive)
         == Pk([1780], 1, 1397, 1800, 1397)
  {
    assert [1600, 1500, 1397] + [1500] == [1600, 1500, 1397, 1500];
    assert PkNext(Pk([1600, 1500, 1397], 0, 1800, 1800, 1800), 1500, TestFive) == Pk([1600, 1500, 1397, 1500], 0, 1800, 1800, 1800);
    PkRunStep(Pk([1600, 1500, 1397], 0, 1800, 1800, 1800), 1500, [1600, 1780], TestFive);
    From5();
  }

  lemma From3()
    ensures PkRun(Pk([1600, 1500], 0, 1800, 1800, 1800),
                  [1397] + [1500, 1600, 1780], TestFive)
         == Pk([1780], 1, 1397, 1800, 1397)
  {
    assert [1600, 1500] + [1397] == [1600, 1500, 1397];
    assert PkNext(Pk([1600, 1500], 0, 1800, 1800, 1800), 1397, TestFive) == Pk([1600, 1500, 1397], 0, 1800, 1800, 1800);
    PkRunStep(Pk([1600, 1500], 0, 1800, 1800, 1800), 1397, [1500, 1600, 1780], TestFive);
    From4();
  }

  lemma From2()
    ensures PkRun(Pk([1600], 0, 1800, 1800, 1800),
                  [1500] + [1397, 1500, 1600, 1780], TestFive)
         == Pk([1780], 1, 1397, 1800, 1397)
  {
    assert [1600] + [1500] == [1600, 1500];
    assert PkNext(Pk([1600], 0, 1800, 1800, 1800), 1500, TestFive) == Pk([1600, 1500], 0, 1800, 1800, 1800);
    PkRunStep(Pk([1600], 0, 1800, 1800, 1800), 1500, [1397, 1500, 1600, 1780], TestFive);
    From3();
  }

  lemma From1()
    ensures PkRun(Reset,
                  [1600] + [1500, 1397, 1500, 1600, 1780], TestFive)
         == Pk([1780], 1, 1397, 1800, 1397)
  {
    assert [] + [1600] == [1600];
    assert PkNext(Reset, 1600, TestFive) == Pk([1600], 0, 1800, 1800, 1800);
    PkRunStep(Reset, 1600, [1500, 1397, 1500, 1600, 1780], TestFive);
    From2();
  }

  lemma SamplesSplit()
    ensures Samples == ([1600] + [1500, 1397, 1500, 1600, 1780]) + (([1780] + [1550, 1500, 1399, 1500, 1550]) + (([1650] + [1660, 1600, 1500, 1398, 1500]) + (([1600] + [1700, 1750, 1780, 1780]))))
  {
  }

  /** What `PkNext` makes of the samples. */
  lemma Trace()
    ensures PkRun(Reset, Samples, TestFive) == Pk([1700, 1750, 1780, 1780], 3, 1398, 1399, 1397)
  {
    SamplesSplit();
    PkRunConcat(Reset, ([1600] + [1500, 1397, 1500, 1600, 1780]), ([1780] + [1550, 1500, 1399, 1500, 1550]) + (([1650] + [1660, 1600, 1500, 1398, 1500]) + (([1600] + [1700, 1750, 1780, 1780]))), TestFive);
    From1();
    PkRunConcat(Pk([1780], 1, 1397, 1800, 1397), ([1780] + [1550, 1500, 1399, 1500, 1550]), ([1650] + [1660, 1600, 1500, 1398, 1500]) + (([1600] + [1700, 1750, 1780, 1780])), TestFive);
    From7();
    PkRunConcat(Pk([1550, 1500, 1399, 1500, 1550], 2, 1399, 1397, 1397), ([1650] + [1660, 1600, 1500, 1398, 1500]), ([1600] + [1700, 1750, 1780, 1780]), TestFive);
    From13();
    From19();
  }

  /** The samples of the test case, in order. */
  const Samples := [1600, 1500, 1397, 1500, 1600, 1780, 1780, 1550, 1500, 1399, 1500, 1550, 1650, 1660, 1600, 1500, 1398, 1500, 1600, 1700, 1750, 1780, 1780]

  /** Valleys of 1397, 1399 and 1398; the largest peak is the closest
      approach, 1397. */
  lemma ThreeMinima(s: DetectorState)
    requires ResetForTest(s, 5)
    ensures var r := Feed(s, Samples);
      r.largestPeak == 1397 && r.numberOfPeaks == 3 && r.lastPeak == 1398 && r.secondLastPeak == 1399
  {
    FeedTracks(s, TestFive, Reset, Samples);
    Trace();
  }
}
