// Test case 1 of the people counter's test program, instant by instant.
// `LeftReading<k>` and `RightReading<k>` are what the k-th left and right
// readings do; `From<k>` runs the scenario from instant k to the end. The
// opening readings and the readings that change nothing are shared by the
// scenarios (`OpeningInstant`, `OpeningLeftReading`, `QuietReading`).

module EntranceScenario {
  import opened PeakDetection
  import opened PeakDetectorProperties
  import opened PeopleCounting
  import opened PeopleCounterProperties
  import opened PeopleCounterScenarios

  lemma RightReading2(s: CounterState, c: int)
    requires CounterIs(s, Occupied, Vacant, Det([1600, 1500], 0, 1880), Floor,
                       Clear, InitialData, c)
    ensures CounterIs(AfterAddData(s, 1600, Right), Occupied, Occupied, Det([1600, 1500], 0, 1880), Det([1600], 0, 1880),
                      Clear, Crossed, c)
  {
  }

  lemma LeftReading3(s: CounterState, c: int)
    requires CounterIs(s, Occupied, Occupied, Det([1600, 1500], 0, 1880), Det([1600], 0, 1880),
                       Clear, Crossed, c)
    ensures CounterIs(AfterAddData(s, 1400, Left), Occupied, Occupied, Det([1600, 1500, 1400], 0, 1880), Det([1600], 0, 1880),
                      Clear, Crossed, c)
  {
  }

  lemma RightReading3(s: CounterState, c: int)
    requires CounterIs(s, Occupied, Occupied, Det([1600, 1500, 1400], 0, 1880), Det([1600], 0, 1880),
                       Clear, Crossed, c)
    ensures CounterIs(AfterAddData(s, 1500, Right), Occupied, Occupied, Det([1600, 1500, 1400], 0, 1880), Det([1600, 1500], 0, 1880),
                      Clear, Crossed, c)
  {
  }

  lemma LeftReading4(s: CounterState, c: int)
    requires CounterIs(s, Occupied, Occupied, Det([1600, 1500, 1400], 0, 1880), Det([1600, 1500], 0, 1880),
                       Clear, Crossed, c)
    ensures CounterIs(AfterAddData(s, 1500, Left), Occupied, Occupied, Det([1600, 1500, 1400, 1500], 0, 1880), Det([1600, 1500], 0, 1880),
                      Clear, Crossed, c)
  {
  }

  lemma RightReading4(s: CounterState, c: int)
    requires CounterIs(s, Occupied, Occupied, Det([1600, 1500, 1400, 1500], 0, 1880), Det([1600, 1500], 0, 1880),
                       Clear, Crossed, c)
    ensures CounterIs(AfterAddData(s, 1400, Right), Occupied, Occupied, Det([1600, 1500, 1400, 1500], 0, 1880), Det([1600, 1500, 1400], 0, 1880),
                      Clear, Crossed, c)
  {
  }

  lemma LeftReading5(s: CounterState, c: int)
    requires CounterIs(s, Occupied, Occupied, Det([1600, 1500, 1400, 1500], 0, 1880), Det([1600, 1500, 1400], 0, 1880),
                       Clear, Crossed, c)
    ensures CounterIs(AfterAddData(s, 1600, Left), Occupied, Occupied, Det([1600, 1500, 1400, 1500, 1600], 1, 1400), Det([1600, 1500, 1400], 0, 1880),
                      Trk(1, false, PeakData(LeftZone, 1400), Empty, Empty), PeopleCounterData(LeftZone, LeftZone, true, 0, 0), c)
  {
    ValleyByEndpoints([1600, 1500, 1400, 1500, 1600], 10);
    Fill(s.left, Det([1600, 1500, 1400, 1500], 0, 1880), 1600);
  }

  lemma RightReading5(s: CounterState, c: int)
    requires CounterIs(s, Occupied, Occupied, Det([1600, 1500, 1400, 1500, 1600], 1, 1400), Det([1600, 1500, 1400], 0, 1880),
                       Trk(1, false, PeakData(LeftZone, 1400), Empty, Empty), PeopleCounterData(LeftZone, LeftZone, true, 0, 0), c)
    ensures CounterIs(AfterAddData(s, 1500, Right), Occupied, Occupied, Det([1600, 1500, 1400, 1500, 1600], 1, 1400), Det([1600, 1500, 1400, 1500], 0, 1880),
                      Trk(1, false, PeakData(LeftZone, 1400), Empty, Empty), PeopleCounterData(LeftZone, LeftZone, true, 0, 0), c)
  {
    ValleyByEndpoints([1600, 1500, 1400, 1500, 1600], 10);
  }

  lemma LeftReading6(s: CounterState, c: int)
    requires CounterIs(s, Occupied, Occupied, Det([1600, 1500, 1400, 1500, 1600], 1, 1400), Det([1600, 1500, 1400, 1500], 0, 1880),
                       Trk(1, false, PeakData(LeftZone, 1400), Empty, Empty), PeopleCounterData(LeftZone, LeftZone, true, 0, 0), c)
    ensures CounterIs(AfterAddData(s, 1750, Left), Vacant, Occupied, Det([1600, 1500, 1400, 1500, 1600], 1, 1400), Det([1600, 1500, 1400, 1500], 0, 1880),
                      Trk(1, false, PeakData(LeftZone, 1400), Empty, Empty), PeopleCounterData(LeftZone, LeftZone, true, 0, 0), c)
  {
    ValleyByEndpoints([1600, 1500, 1400, 1500, 1600], 10);
  }

  lemma RightReading6(s: CounterState, c: int)
    requires CounterIs(s, Vacant, Occupied, Det([1600, 1500, 1400, 1500, 1600], 1, 1400), Det([1600, 1500, 1400, 1500], 0, 1880),
                       Trk(1, false, PeakData(LeftZone, 1400), Empty, Empty), PeopleCounterData(LeftZone, LeftZone, true, 0, 0), c)
    ensures CounterIs(AfterAddData(s, 1600, Right), Vacant, Occupied, Det([1600, 1500, 1400, 1500, 1600], 1, 1400), Det([1600, 1500, 1400, 1500, 1600], 1, 1400),
                      Trk(0, false, Empty, Empty, PeakData(RightZone, 1400)), PeopleCounterData(LeftZone, RightZone, true, 2, 1), c)
  {
    ValleyByEndpoints([1600, 1500, 1400, 1500, 1600], 10);
    Fill(s.right, Det([1600, 1500, 1400, 1500], 0, 1880), 1600);
  }

  lemma LeftReading7(s: CounterState, c: int)
    requires CounterIs(s, Vacant, Occupied, Det([1600, 1500, 1400, 1500, 1600], 1, 1400), Det([1600, 1500, 1400, 1500, 1600], 1, 1400),
                       Trk(0, false, Empty, Empty, PeakData(RightZone, 1400)), PeopleCounterData(LeftZone, RightZone, true, 2, 1), c)
    ensures CounterIs(AfterAddData(s, 1780, Left), Vacant, Occupied, Det([1600, 1500, 1400, 1500, 1600], 1, 1400), Det([1600, 1500, 1400, 1500, 1600], 1, 1400),
                      Trk(0, false, Empty, Empty, PeakData(RightZone, 1400)), PeopleCounterData(LeftZone, LeftZone, true, 2, 1), c)
  {
    ValleyByEndpoints([1600, 1500, 1400, 1500, 1600], 10);
  }

  lemma RightReading7(s: CounterState, c: int)
    requires CounterIs(s, Vacant, Occupied, Det([1600, 1500, 1400, 1500, 1600], 1, 1400), Det([1600, 1500, 1400, 1500, 1600], 1, 1400),
                       Trk(0, false, Empty, Empty, PeakData(RightZone, 1400)), PeopleCounterData(LeftZone, LeftZone, true, 2, 1), c)
    ensures CounterIs(AfterAddData(s, 1750, Right), Vacant, Vacant, Det([1600, 1500, 1400, 1500, 1600], 1, 1400), Det([1600, 1500, 1400, 1500, 1600], 1, 1400),
                      Trk(0, false, Empty, Empty, PeakData(RightZone, 1400)), PeopleCounterData(LeftZone, RightZone, true, 2, 1), c + 1)
  {
    ValleyByEndpoints([1600, 1500, 1400, 1500, 1600], 10);
  }

  lemma LeftReading8(s: CounterState, c: int)
    requires CounterIs(s, Vacant, Vacant, Det([1600, 1500, 1400, 1500, 1600], 1, 1400), Det([1600, 1500, 1400, 1500, 1600], 1, 1400),
                       Trk(0, false, Empty, Empty, PeakData(RightZone, 1400)), PeopleCounterData(LeftZone, RightZone, true, 2, 1), c)
    ensures CounterIs(AfterAddData(s, 1790, Left), Vacant, Vacant, Floor, Floor,
                      Clear, InitialData, c)
  {
    ValleyByEndpoints([1600, 1500, 1400, 1500, 1600], 10);
  }

  /** The readings of the left zone, one per instant. */
  const LeftReadings := [1600, 1500, 1400, 1500, 1600, 1750, 1780, 1790]

  /** The readings of the right zone, one per instant. */
  const RightReadings := [1780, 1600, 1500, 1400, 1500, 1600, 1750, 1780]

  lemma From8(s: CounterState, c: int)
    requires CounterIs(s, Vacant, Vacant, Det([1600, 1500, 1400, 1500, 1600], 1, 1400), Det([1600, 1500, 1400, 1500, 1600], 1, 1400),
                       Trk(0, false, Empty, Empty, PeakData(RightZone, 1400)), PeopleCounterData(LeftZone, RightZone, true, 2, 1), c)
    ensures var r := Run(s, Interleave([1790] + [],
                                       [1780] + []));
      ScenarioStart(r) && r.pplCount == c
  {
    RunStep(s, 1790, 1780, [], []);
    LeftReading8(s, c);
    QuietReading(AfterAddData(s, 1790, Left), c, 1780, Right);
    assert Interleave([], []) == [];
  }

  lemma From7(s: CounterState, c: int)
    requires CounterIs(s, Vacant, Occupied, Det([1600, 1500, 1400, 1500, 1600], 1, 1400), Det([1600, 1500, 1400, 1500, 1600], 1, 1400),
                       Trk(0, false, Empty, Empty, PeakData(RightZone, 1400)), PeopleCounterData(LeftZone, RightZone, true, 2, 1), c)
    ensures var r := Run(s, Interleave([1780] + [1790],
                                       [1750] + [1780]));
      ScenarioStart(r) && r.pplCount == c + 1
  {
    RunStep(s, 1780, 1750, [1790], [1780]);
    LeftReading7(s, c);
    RightReading7(AfterAddData(s, 1780, Left), c);
    From8(Instant(s, 1780, 1750), c + 1);
  }

  lemma From6(s: CounterState, c: int)
    requires CounterIs(s, Occupied, Occupied, Det([1600, 1500, 1400, 1500, 1600], 1, 1400), Det([1600, 1500, 1400, 1500], 0, 1880),
                       Trk(1, false, PeakData(LeftZone, 1400), Empty, Empty), PeopleCounterData(LeftZone, LeftZone, true, 0, 0), c)
    ensures var r := Run(s, Interleave([1750] + [1780, 1790],
                                       [1600] + [1750, 1780]));
      ScenarioStart(r) && r.pplCount == c + 1
  {
    RunStep(s, 1750, 1600, [1780, 1790], [1750, 1780]);
    LeftReading6(s, c);
    RightReading6(AfterAddData(s, 1750, Left), c);
    From7(Instant(s, 1750, 1600), c);
  }

  lemma From5(s: CounterState, c: int)
    requires CounterIs(s, Occupied, Occupied, Det([1600, 1500, 1400, 1500], 0, 1880), Det([1600, 1500, 1400], 0, 1880),
                       Clear, Crossed, c)
    ensures var r := Run(s, Interleave([1600] + [1750, 1780, 1790],
                                       [1500] + [1600, 1750, 1780]));
      ScenarioStart(r) && r.pplCount == c + 1
  {
    RunStep(s, 1600, 1500, [1750, 1780, 1790], [1600, 1750, 1780]);
    LeftReading5(s, c);
    RightReading5(AfterAddData(s, 1600, Left), c);
    From6(Instant(s, 1600, 1500), c);
  }

  lemma From4(s: CounterState, c: int)
    requires CounterIs(s, Occupied, Occupied, Det([1600, 1500, 1400], 0, 1880), Det([1600, 1500], 0, 1880),
                       Clear, Crossed, c)
    ensures var r := Run(s, Interleave([1500] + [1600, 1750, 1780, 1790],
                                       [1400] + [1500, 1600, 1750, 1780]));
      ScenarioStart(r) && r.pplCount == c + 1
  {
    RunStep(s, 1500, 1400, [1600, 1750, 1780, 1790], [1500, 1600, 1750, 1780]);
    LeftReading4(s, c);
    RightReading4(AfterAddData(s, 1500, Left), c);
    From5(Instant(s, 1500, 1400), c);
  }

  lemma From3(s: CounterState, c: int)
    requires CounterIs(s, Occupied, Occupied, Det([1600, 1500], 0, 1880), Det([1600], 0, 1880),
                       Clear, Crossed, c)
    ensures var r := Run(s, Interleave([1400] + [1500, 1600, 1750, 1780, 1790],
                                       [1500] + [1400, 1500, 1600, 1750, 1780]));
      ScenarioStart(r) && r.pplCount == c + 1
  {
    RunStep(s, 1400, 1500, [1500, 1600, 1750, 1780, 1790], [1400, 1500, 1600, 1750, 1780]);
    LeftReading3(s, c);
    RightReading3(AfterAddData(s, 1400, Left), c);
    From4(Instant(s, 1400, 1500), c);
  }

  lemma From2(s: CounterState, c: int)
    requires CounterIs(s, Occupied, Vacant, Det([1600], 0, 1880), Floor,
                       Clear, InitialData, c)
    ensures var r := Run(s, Interleave([1500] + [1400, 1500, 1600, 1750, 1780, 1790],
                                       [1600] + [1500, 1400, 1500, 1600, 1750, 1780]));
      ScenarioStart(r) && r.pplCount == c + 1
  {
    RunStep(s, 1500, 1600, [1400, 1500, 1600, 1750, 1780, 1790], [1500, 1400, 1500, 1600, 1750, 1780]);
    OpeningLeftReading(s, c);
    RightReading2(AfterAddData(s, 1500, Left), c);
    From3(Instant(s, 1500, 1600), c);
  }

  lemma LeftReadingsSplit()
    ensures LeftReadings == [1600] + ([1500] + [1400, 1500, 1600, 1750, 1780, 1790])
  {
  }

  lemma RightReadingsSplit()
    ensures RightReadings == [1780] + ([1600] + [1500, 1400, 1500, 1600, 1750, 1780])
  {
  }

  /** Test case 1, entrance through the door: seen on the left, then on both
      sides, then on the right; the count goes up by one. */
  lemma Entrance(s: CounterState)
    requires ScenarioStart(s)
    ensures var r := Run(s, Interleave(LeftReadings, RightReadings));
      ScenarioStart(r) && r.pplCount == s.pplCount + 1
  {
    LeftReadingsSplit();
    RightReadingsSplit();
    RunStep(s, 1600, 1780, [1500] + [1400, 1500, 1600, 1750, 1780, 1790], [1600] + [1500, 1400, 1500, 1600, 1750, 1780]);
    OpeningInstant(s);
    From2(Instant(s, 1600, 1780), s.pplCount);
  }

}
