// Test case 5 of the people counter's test program, instant by instant.
// `LeftReading<k>` and `RightReading<k>` are what the k-th left and right
// readings do; `From<k>` runs the scenario from instant k to the end. The
// opening readings and the readings that change nothing are shared by the
// scenarios (`OpeningInstant`, `OpeningLeftReading`, `QuietReading`). The
// first person's readings are those of test case 1, and come from there.

module TwoEnterScenario {
  import opened PeakDetection
  import opened PeakDetectorProperties
  import opened PeopleCounting
  import opened PeopleCounterProperties
  import opened PeopleCounterScenarios
  import EntranceScenario

  lemma LeftReading6(s: CounterState, c: int)
    requires CounterIs(s, Occupied, Occupied, Det([1600, 1500, 1400, 1500, 1600], 1, 1400), Det([1600, 1500, 1400, 1500], 0, 1880),
                       Trk(1, false, PeakData(LeftZone, 1400), Empty, Empty), PeopleCounterData(LeftZone, LeftZone, true, 0, 0), c)
    ensures CounterIs(AfterAddData(s, 1550, Left), Occupied, Occupied, Det([1550], 1, 1400), Det([1600, 1500, 1400, 1500], 0, 1880),
                      Trk(1, false, PeakData(LeftZone, 1400), Empty, Empty), PeopleCounterData(LeftZone, LeftZone, true, 0, 0), c)
  {
    ValleyByEndpoints([1600, 1500, 1400, 1500, 1600], 10);
    Restart(s.left, Det([1600, 1500, 1400, 1500, 1600], 1, 1400), 1550);
  }

  lemma RightReading6(s: CounterState, c: int)
    requires CounterIs(s, Occupied, Occupied, Det([1550], 1, 1400), Det([1600, 1500, 1400, 1500], 0, 1880),
                       Trk(1, false, PeakData(LeftZone, 1400), Empty, Empty), PeopleCounterData(LeftZone, LeftZone, true, 0, 0), c)
    ensures CounterIs(AfterAddData(s, 1600, Right), Occupied, Occupied, Det([1550], 1, 1400), Det([1600, 1500, 1400, 1500, 1600], 1, 1400),
                      Trk(0, false, Empty, Empty, PeakData(RightZone, 1400)), PeopleCounterData(LeftZone, RightZone, true, 2, 1), c)
  {
    ValleyByEndpoints([1600, 1500, 1400, 1500, 1600], 10);
    Fill(s.right, Det([1600, 1500, 1400, 1500], 0, 1880), 1600);
  }

  lemma LeftReading7(s: CounterState, c: int)
    requires CounterIs(s, Occupied, Occupied, Det([1550], 1, 1400), Det([1600, 1500, 1400, 1500, 1600], 1, 1400),
                       Trk(0, false, Empty, Empty, PeakData(RightZone, 1400)), PeopleCounterData(LeftZone, RightZone, true, 2, 1), c)
    ensures CounterIs(AfterAddData(s, 1500, Left), Occupied, Occupied, Det([1550, 1500], 1, 1400), Det([1600, 1500, 1400, 1500, 1600], 1, 1400),
                      Trk(0, false, Empty, Empty, PeakData(RightZone, 1400)), PeopleCounterData(LeftZone, RightZone, true, 2, 1), c)
  {
    ValleyByEndpoints([1600, 1500, 1400, 1500, 1600], 10);
  }

  lemma RightReading7(s: CounterState, c: int)
    requires CounterIs(s, Occupied, Occupied, Det([1550, 1500], 1, 1400), Det([1600, 1500, 1400, 1500, 1600], 1, 1400),
                       Trk(0, false, Empty, Empty, PeakData(RightZone, 1400)), PeopleCounterData(LeftZone, RightZone, true, 2, 1), c)
    ensures CounterIs(AfterAddData(s, 1550, Right), Occupied, Occupied, Det([1550, 1500], 1, 1400), Det([1550], 1, 1400),
                      Trk(0, false, Empty, Empty, PeakData(RightZone, 1400)), PeopleCounterData(LeftZone, RightZone, true, 2, 1), c)
  {
    ValleyByEndpoints([1600, 1500, 1400, 1500, 1600], 10);
    Restart(s.right, Det([1600, 1500, 1400, 1500, 1600], 1, 1400), 1550);
  }

  lemma LeftReading8(s: CounterState, c: int)
    requires CounterIs(s, Occupied, Occupied, Det([1550, 1500], 1, 1400), Det([1550], 1, 1400),
                       Trk(0, false, Empty, Empty, PeakData(RightZone, 1400)), PeopleCounterData(LeftZone, RightZone, true, 2, 1), c)
    ensures CounterIs(AfterAddData(s, 1400, Left), Occupied, Occupied, Det([1550, 1500, 1400], 1, 1400), Det([1550], 1, 1400),
                      Trk(0, false, Empty, Empty, PeakData(RightZone, 1400)), PeopleCounterData(LeftZone, RightZone, true, 2, 1), c)
  {
  }

  lemma RightReading8(s: CounterState, c: int)
    requires CounterIs(s, Occupied, Occupied, Det([1550, 1500, 1400], 1, 1400), Det([1550], 1, 1400),
                       Trk(0, false, Empty, Empty, PeakData(RightZone, 1400)), PeopleCounterData(LeftZone, RightZone, true, 2, 1), c)
    ensures CounterIs(AfterAddData(s, 1500, Right), Occupied, Occupied, Det([1550, 1500, 1400], 1, 1400), Det([1550, 1500], 1, 1400),
                      Trk(0, false, Empty, Empty, PeakData(RightZone, 1400)), PeopleCounterData(LeftZone, RightZone, true, 2, 1), c)
  {
  }

  lemma LeftReading9(s: CounterState, c: int)
    requires CounterIs(s, Occupied, Occupied, Det([1550, 1500, 1400], 1, 1400), Det([1550, 1500], 1, 1400),
                       Trk(0, false, Empty, Empty, PeakData(RightZone, 1400)), PeopleCounterData(LeftZone, RightZone, true, 2, 1), c)
    ensures CounterIs(AfterAddData(s, 1500, Left), Occupied, Occupied, Det([1550, 1500, 1400, 1500], 1, 1400), Det([1550, 1500], 1, 1400),
                      Trk(0, false, Empty, Empty, PeakData(RightZone, 1400)), PeopleCounterData(LeftZone, RightZone, true, 2, 1), c)
  {
  }

  lemma RightReading9(s: CounterState, c: int)
    requires CounterIs(s, Occupied, Occupied, Det([1550, 1500, 1400, 1500], 1, 1400), Det([1550, 1500], 1, 1400),
                       Trk(0, false, Empty, Empty, PeakData(RightZone, 1400)), PeopleCounterData(LeftZone, RightZone, true, 2, 1), c)
    ensures CounterIs(AfterAddData(s, 1400, Right), Occupied, Occupied, Det([1550, 1500, 1400, 1500], 1, 1400), Det([1550, 1500, 1400], 1, 1400),
                      Trk(0, false, Empty, Empty, PeakData(RightZone, 1400)), PeopleCounterData(LeftZone, RightZone, true, 2, 1), c)
  {
  }

  lemma LeftReading10(s: CounterState, c: int)
    requires CounterIs(s, Occupied, Occupied, Det([1550, 1500, 1400, 1500], 1, 1400), Det([1550, 1500, 1400], 1, 1400),
                       Trk(0, false, Empty, Empty, PeakData(RightZone, 1400)), PeopleCounterData(LeftZone, RightZone, true, 2, 1), c)
    ensures CounterIs(AfterAddData(s, 1550, Left), Occupied, Occupied, Det([1550, 1500, 1400, 1500, 1550], 2, 1400), Det([1550, 1500, 1400], 1, 1400),
                      Trk(1, false, PeakData(LeftZone, 1400), Empty, PeakData(RightZone, 1400)), PeopleCounterData(LeftZone, LeftZone, true, 2, 1), c)
  {
    ValleyByEndpoints([1550, 1500, 1400, 1500, 1550], 10);
    Fill(s.left, Det([1550, 1500, 1400, 1500], 1, 1400), 1550);
  }

  lemma RightReading10(s: CounterState, c: int)
    requires CounterIs(s, Occupied, Occupied, Det([1550, 1500, 1400, 1500, 1550], 2, 1400), Det([1550, 1500, 1400], 1, 1400),
                       Trk(1, false, PeakData(LeftZone, 1400), Empty, PeakData(RightZone, 1400)), PeopleCounterData(LeftZone, LeftZone, true, 2, 1), c)
    ensures CounterIs(AfterAddData(s, 1500, Right), Occupied, Occupied, Det([1550, 1500, 1400, 1500, 1550], 2, 1400), Det([1550, 1500, 1400, 1500], 1, 1400),
                      Trk(1, false, PeakData(LeftZone, 1400), Empty, PeakData(RightZone, 1400)), PeopleCounterData(LeftZone, LeftZone, true, 2, 1), c)
  {
    ValleyByEndpoints([1550, 1500, 1400, 1500, 1550], 10);
  }

  lemma LeftReading11(s: CounterState, c: int)
    requires CounterIs(s, Occupied, Occupied, Det([1550, 1500, 1400, 1500, 1550], 2, 1400), Det([1550, 1500, 1400, 1500], 1, 1400),
                       Trk(1, false, PeakData(LeftZone, 1400), Empty, PeakData(RightZone, 1400)), PeopleCounterData(LeftZone, LeftZone, true, 2, 1), c)
    ensures CounterIs(AfterAddData(s, 1650, Left), Occupied, Occupied, Det([1650], 2, 1400), Det([1550, 1500, 1400, 1500], 1, 1400),
                      Trk(1, false, PeakData(LeftZone, 1400), Empty, PeakData(RightZone, 1400)), PeopleCounterData(LeftZone, LeftZone, true, 2, 1), c)
  {
    ValleyByEndpoints([1550, 1500, 1400, 1500, 1550], 10);
    Restart(s.left, Det([1550, 1500, 1400, 1500, 1550], 2, 1400), 1650);
  }

  lemma RightReading11(s: CounterState, c: int)
    requires CounterIs(s, Occupied, Occupied, Det([1650], 2, 1400), Det([1550, 1500, 1400, 1500], 1, 1400),
                       Trk(1, false, PeakData(LeftZone, 1400), Empty, PeakData(RightZone, 1400)), PeopleCounterData(LeftZone, LeftZone, true, 2, 1), c)
    ensures CounterIs(AfterAddData(s, 1550, Right), Occupied, Occupied, Det([1650], 2, 1400), Det([1550, 1500, 1400, 1500, 1550], 2, 1400),
                      Trk(0, false, Empty, Empty, PeakData(RightZone, 1400)), PeopleCounterData(LeftZone, RightZone, true, 4, 2), c)
  {
    ValleyByEndpoints([1550, 1500, 1400, 1500, 1550], 10);
    Fill(s.right, Det([1550, 1500, 1400, 1500], 1, 1400), 1550);
  }

  lemma LeftReading12(s: CounterState, c: int)
    requires CounterIs(s, Occupied, Occupied, Det([1650], 2, 1400), Det([1550, 1500, 1400, 1500, 1550], 2, 1400),
                       Trk(0, false, Empty, Empty, PeakData(RightZone, 1400)), PeopleCounterData(LeftZone, RightZone, true, 4, 2), c)
    ensures CounterIs(AfterAddData(s, 1660, Left), Occupied, Occupied, Det([1650, 1660], 2, 1400), Det([1550, 1500, 1400, 1500, 1550], 2, 1400),
                      Trk(0, false, Empty, Empty, PeakData(RightZone, 1400)), PeopleCounterData(LeftZone, RightZone, true, 4, 2), c)
  {
    ValleyByEndpoints([1550, 1500, 1400, 1500, 1550], 10);
  }

  lemma RightReading12(s: CounterState, c: int)
    requires CounterIs(s, Occupied, Occupied, Det([1650, 1660], 2, 1400), Det([1550, 1500, 1400, 1500, 1550], 2, 1400),
                       Trk(0, false, Empty, Empty, PeakData(RightZone, 1400)), PeopleCounterData(LeftZone, RightZone, true, 4, 2), c)
    ensures CounterIs(AfterAddData(s, 1650, Right), Occupied, Occupied, Det([1650, 1660], 2, 1400), Det([1650], 2, 1400),
                      Trk(0, false, Empty, Empty, PeakData(RightZone, 1400)), PeopleCounterData(LeftZone, RightZone, true, 4, 2), c)
  {
    ValleyByEndpoints([1550, 1500, 1400, 1500, 1550], 10);
    Restart(s.right, Det([1550, 1500, 1400, 1500, 1550], 2, 1400), 1650);
  }

  lemma LeftReading13(s: CounterState, c: int)
    requires CounterIs(s, Occupied, Occupied, Det([1650, 1660], 2, 1400), Det([1650], 2, 1400),
                       Trk(0, false, Empty, Empty, PeakData(RightZone, 1400)), PeopleCounterData(LeftZone, RightZone, true, 4, 2), c)
    ensures CounterIs(AfterAddData(s, 1750, Left), Vacant, Occupied, Det([1650, 1660], 2, 1400), Det([1650], 2, 1400),
                      Trk(0, false, Empty, Empty, PeakData(RightZone, 1400)), PeopleCounterData(LeftZone, RightZone, true, 4, 2), c)
  {
  }

  lemma RightReading13(s: CounterState, c: int)
    requires CounterIs(s, Vacant, Occupied, Det([1650, 1660], 2, 1400), Det([1650], 2, 1400),
                       Trk(0, false, Empty, Empty, PeakData(RightZone, 1400)), PeopleCounterData(LeftZone, RightZone, true, 4, 2), c)
    ensures CounterIs(AfterAddData(s, 1660, Right), Vacant, Occupied, Det([1650, 1660], 2, 1400), Det([1650, 1660], 2, 1400),
                      Trk(0, false, Empty, Empty, PeakData(RightZone, 1400)), PeopleCounterData(LeftZone, RightZone, true, 4, 2), c)
  {
  }

  lemma LeftReading14(s: CounterState, c: int)
    requires CounterIs(s, Vacant, Occupied, Det([1650, 1660], 2, 1400), Det([1650, 1660], 2, 1400),
                       Trk(0, false, Empty, Empty, PeakData(RightZone, 1400)), PeopleCounterData(LeftZone, RightZone, true, 4, 2), c)
    ensures CounterIs(AfterAddData(s, 1780, Left), Vacant, Occupied, Det([1650, 1660], 2, 1400), Det([1650, 1660], 2, 1400),
                      Trk(0, false, Empty, Empty, PeakData(RightZone, 1400)), PeopleCounterData(LeftZone, RightZone, true, 4, 2), c)
  {
  }

  lemma RightReading14(s: CounterState, c: int)
    requires CounterIs(s, Vacant, Occupied, Det([1650, 1660], 2, 1400), Det([1650, 1660], 2, 1400),
                       Trk(0, false, Empty, Empty, PeakData(RightZone, 1400)), PeopleCounterData(LeftZone, RightZone, true, 4, 2), c)
    ensures CounterIs(AfterAddData(s, 1750, Right), Vacant, Vacant, Det([1650, 1660], 2, 1400), Det([1650, 1660], 2, 1400),
                      Trk(0, false, Empty, Empty, PeakData(RightZone, 1400)), PeopleCounterData(LeftZone, RightZone, true, 4, 2), c + 2)
  {
  }

  lemma LeftReading15(s: CounterState, c: int)
    requires CounterIs(s, Vacant, Vacant, Det([1650, 1660], 2, 1400), Det([1650, 1660], 2, 1400),
                       Trk(0, false, Empty, Empty, PeakData(RightZone, 1400)), PeopleCounterData(LeftZone, RightZone, true, 4, 2), c)
    ensures CounterIs(AfterAddData(s, 1780, Left), Vacant, Vacant, Floor, Floor,
                      Clear, InitialData, c)
  {
  }

  /** The readings of the left zone, one per instant. */
  const LeftReadings := [1600, 1500, 1400, 1500, 1600, 1550, 1500, 1400, 1500, 1550, 1650, 1660, 1750, 1780, 1780]

  /** The readings of the right zone, one per instant. */
  const RightReadings := [1780, 1600, 1500, 1400, 1500, 1600, 1550, 1500, 1400, 1500, 1550, 1650, 1660, 1750, 1780]

  lemma From15(s: CounterState, c: int)
    requires CounterIs(s, Vacant, Vacant, Det([1650, 1660], 2, 1400), Det([1650, 1660], 2, 1400),
                       Trk(0, false, Empty, Empty, PeakData(RightZone, 1400)), PeopleCounterData(LeftZone, RightZone, true, 4, 2), c)
    ensures var r := Run(s, Interleave([1780] + [],
                                       [1780] + []));
      ScenarioStart(r) && r.pplCount == c
  {
    RunStep(s, 1780, 1780, [], []);
    LeftReading15(s, c);
    QuietReading(AfterAddData(s, 1780, Left), c, 1780, Right);
    assert Interleave([], []) == [];
  }

  lemma From14(s: CounterState, c: int)
    requires CounterIs(s, Vacant, Occupied, Det([1650, 1660], 2, 1400), Det([1650, 1660], 2, 1400),
                       Trk(0, false, Empty, Empty, PeakData(RightZone, 1400)), PeopleCounterData(LeftZone, RightZone, true, 4, 2), c)
    ensures var r := Run(s, Interleave([1780] + [1780],
                                       [1750] + [1780]));
      ScenarioStart(r) && r.pplCount == c + 2
  {
    RunStep(s, 1780, 1750, [1780], [1780]);
    LeftReading14(s, c);
    RightReading14(AfterAddData(s, 1780, Left), c);
    From15(Instant(s, 1780, 1750), c + 2);
  }

  lemma From13(s: CounterState, c: int)
    requires CounterIs(s, Occupied, Occupied, Det([1650, 1660], 2, 1400), Det([1650], 2, 1400),
                       Trk(0, false, Empty, Empty, PeakData(RightZone, 1400)), PeopleCounterData(LeftZone, RightZone, true, 4, 2), c)
    ensures var r := Run(s, Interleave([1750] + [1780, 1780],
                                       [1660] + [1750, 1780]));
      ScenarioStart(r) && r.pplCount == c + 2
  {
    RunStep(s, 1750, 1660, [1780, 1780], [1750, 1780]);
    LeftReading13(s, c);
    RightReading13(AfterAddData(s, 1750, Left), c);
    From14(Instant(s, 1750, 1660), c);
  }

  lemma From12(s: CounterState, c: int)
    requires CounterIs(s, Occupied, Occupied, Det([1650], 2, 1400), Det([1550, 1500, 1400, 1500, 1550], 2, 1400),
                       Trk(0, false, Empty, Empty, PeakData(RightZone, 1400)), PeopleCounterData(LeftZone, RightZone, true, 4, 2), c)
    ensures var r := Run(s, Interleave([1660] + [1750, 1780, 1780],
                                       [1650] + [1660, 1750, 1780]));
      ScenarioStart(r) && r.pplCount == c + 2
  {
    RunStep(s, 1660, 1650, [1750, 1780, 1780], [1660, 1750, 1780]);
    LeftReading12(s, c);
    RightReading12(AfterAddData(s, 1660, Left), c);
    From13(Instant(s, 1660, 1650), c);
  }

  lemma From11(s: CounterState, c: int)
    requires CounterIs(s, Occupied, Occupied, Det([1550, 1500, 1400, 1500, 1550], 2, 1400), Det([1550, 1500, 1400, 1500], 1, 1400),
                       Trk(1, false, PeakData(LeftZone, 1400), Empty, PeakData(RightZone, 1400)), PeopleCounterData(LeftZone, LeftZone, true, 2, 1), c)
    ensures var r := Run(s, Interleave([1650] + [1660, 1750, 1780, 1780],
                                       [1550] + [1650, 1660, 1750, 1780]));
      ScenarioStart(r) && r.pplCount == c + 2
  {
    RunStep(s, 1650, 1550, [1660, 1750, 1780, 1780], [1650, 1660, 1750, 1780]);
    LeftReading11(s, c);
    RightReading11(AfterAddData(s, 1650, Left), c);
    From12(Instant(s, 1650, 1550), c);
  }

  lemma From10(s: CounterState, c: int)
    requires CounterIs(s, Occupied, Occupied, Det([1550, 1500, 1400, 1500], 1, 1400), Det([1550, 1500, 1400], 1, 1400),
                       Trk(0, false, Empty, Empty, PeakData(RightZone, 1400)), PeopleCounterData(LeftZone, RightZone, true, 2, 1), c)
    ensures var r := Run(s, Interleave([1550] + [1650, 1660, 1750, 1780, 1780],
                                       [1500] + [1550, 1650, 1660, 1750, 1780]));
      ScenarioStart(r) && r.pplCount == c + 2
  {
    RunStep(s, 1550, 1500, [1650, 1660, 1750, 1780, 1780], [1550, 1650, 1660, 1750, 1780]);
    LeftReading10(s, c);
    RightReading10(AfterAddData(s, 1550, Left), c);
    From11(Instant(s, 1550, 1500), c);
  }

  lemma From9(s: CounterState, c: int)
    requires CounterIs(s, Occupied, Occupied, Det([1550, 1500, 1400], 1, 1400), Det([1550, 1500], 1, 1400),
                       Trk(0, false, Empty, Empty, PeakData(RightZone, 1400)), PeopleCounterData(LeftZone, RightZone, true, 2, 1), c)
    ensures var r := Run(s, Interleave([1500] + [1550, 1650, 1660, 1750, 1780, 1780],
                                       [1400] + [1500, 1550, 1650, 1660, 1750, 1780]));
      ScenarioStart(r) && r.pplCount == c + 2
  {
    RunStep(s, 1500, 1400, [1550, 1650, 1660, 1750, 1780, 1780], [1500, 1550, 1650, 1660, 1750, 1780]);
    LeftReading9(s, c);
    RightReading9(AfterAddData(s, 1500, Left), c);
    From10(Instant(s, 1500, 1400), c);
  }

  lemma From8(s: CounterState, c: int)
    requires CounterIs(s, Occupied, Occupied, Det([1550, 1500], 1, 1400), Det([1550], 1, 1400),
                       Trk(0, false, Empty, Empty, PeakData(RightZone, 1400)), PeopleCounterData(LeftZone, RightZone, true, 2, 1), c)
    ensures var r := Run(s, Interleave([1400] + [1500, 1550, 1650, 1660, 1750, 1780, 1780],
                                       [1500] + [1400, 1500, 1550, 1650, 1660, 1750, 1780]));
      ScenarioStart(r) && r.pplCount == c + 2
  {
    RunStep(s, 1400, 1500, [1500, 1550, 1650, 1660, 1750, 1780, 1780], [1400, 1500, 1550, 1650, 1660, 1750, 1780]);
    LeftReading8(s, c);
    RightReading8(AfterAddData(s, 1400, Left), c);
    From9(Instant(s, 1400, 1500), c);
  }

  lemma From7(s: CounterState, c: int)
    requires CounterIs(s, Occupied, Occupied, Det([1550], 1, 1400), Det([1600, 1500, 1400, 1500, 1600], 1, 1400),
                       Trk(0, false, Empty, Empty, PeakData(RightZone, 1400)), PeopleCounterData(LeftZone, RightZone, true, 2, 1), c)
    ensures var r := Run(s, Interleave([1500] + [1400, 1500, 1550, 1650, 1660, 1750, 1780, 1780],
                                       [1550] + [1500, 1400, 1500, 1550, 1650, 1660, 1750, 1780]));
      ScenarioStart(r) && r.pplCount == c + 2
  {
    RunStep(s, 1500, 1550, [1400, 1500, 1550, 1650, 1660, 1750, 1780, 1780], [1500, 1400, 1500, 1550, 1650, 1660, 1750, 1780]);
    LeftReading7(s, c);
    RightReading7(AfterAddData(s, 1500, Left), c);
    From8(Instant(s, 1500, 1550), c);
  }

  lemma From6(s: CounterState, c: int)
    requires CounterIs(s, Occupied, Occupied, Det([1600, 1500, 1400, 1500, 1600], 1, 1400), Det([1600, 1500, 1400, 1500], 0, 1880),
                       Trk(1, false, PeakData(LeftZone, 1400), Empty, Empty), PeopleCounterData(LeftZone, LeftZone, true, 0, 0), c)
    ensures var r := Run(s, Interleave([1550] + [1500, 1400, 1500, 1550, 1650, 1660, 1750, 1780, 1780],
                                       [1600] + [1550, 1500, 1400, 1500, 1550, 1650, 1660, 1750, 1780]));
      ScenarioStart(r) && r.pplCount == c + 2
  {
    RunStep(s, 1550, 1600, [1500, 1400, 1500, 1550, 1650, 1660, 1750, 1780, 1780], [1550, 1500, 1400, 1500, 1550, 1650, 1660, 1750, 1780]);
    LeftReading6(s, c);
    RightReading6(AfterAddData(s, 1550, Left), c);
    From7(Instant(s, 1550, 1600), c);
  }

  lemma From5(s: CounterState, c: int)
    requires CounterIs(s, Occupied, Occupied, Det([1600, 1500, 1400, 1500], 0, 1880), Det([1600, 1500, 1400], 0, 1880),
                       Clear, Crossed, c)
    ensures var r := Run(s, Interleave([1600] + [1550, 1500, 1400, 1500, 1550, 1650, 1660, 1750, 1780, 1780],
                                       [1500] + [1600, 1550, 1500, 1400, 1500, 1550, 1650, 1660, 1750, 1780]));
      ScenarioStart(r) && r.pplCount == c + 2
  {
    RunStep(s, 1600, 1500, [1550, 1500, 1400, 1500, 1550, 1650, 1660, 1750, 1780, 1780], [1600, 1550, 1500, 1400, 1500, 1550, 1650, 1660, 1750, 1780]);
    EntranceScenario.LeftReading5(s, c);
    EntranceScenario.RightReading5(AfterAddData(s, 1600, Left), c);
    From6(Instant(s, 1600, 1500), c);
  }

  lemma From4(s: CounterState, c: int)
    requires CounterIs(s, Occupied, Occupied, Det([1600, 1500, 1400], 0, 1880), Det([1600, 1500], 0, 1880),
                       Clear, Crossed, c)
    ensures var r := Run(s, Interleave([1500] + [1600, 1550, 1500, 1400, 1500, 1550, 1650, 1660, 1750, 1780, 1780],
                                       [1400] + [1500, 1600, 1550, 1500, 1400, 1500, 1550, 1650, 1660, 1750, 1780]));
      ScenarioStart(r) && r.pplCount == c + 2
  {
    RunStep(s, 1500, 1400, [1600, 1550, 1500, 1400, 1500, 1550, 1650, 1660, 1750, 1780, 1780], [1500, 1600, 1550, 1500, 1400, 1500, 1550, 1650, 1660, 1750, 1780]);
    EntranceScenario.LeftReading4(s, c);
    EntranceScenario.RightReading4(AfterAddData(s, 1500, Left), c);
    From5(Instant(s, 1500, 1400), c);
  }

  lemma From3(s: CounterState, c: int)
    requires CounterIs(s, Occupied, Occupied, Det([1600, 1500], 0, 1880), Det([1600], 0, 1880),
                       Clear, Crossed, c)
    ensures var r := Run(s, Interleave([1400] + [1500, 1600, 1550, 1500, 1400, 1500, 1550, 1650, 1660, 1750, 1780, 1780],
                                       [1500] + [1400, 1500, 1600, 1550, 1500, 1400, 1500, 1550, 1650, 1660, 1750, 1780]));
      ScenarioStart(r) && r.pplCount == c + 2
  {
    RunStep(s, 1400, 1500, [1500, 1600, 1550, 1500, 1400, 1500, 1550, 1650, 1660, 1750, 1780, 1780], [1400, 1500, 1600, 1550, 1500, 1400, 1500, 1550, 1650, 1660, 1750, 1780]);
    EntranceScenario.LeftReading3(s, c);
    EntranceScenario.RightReading3(AfterAddData(s, 1400, Left), c);
    From4(Instant(s, 1400, 1500), c);
  }

  lemma From2(s: CounterState, c: int)
    requires CounterIs(s, Occupied, Vacant, Det([1600], 0, 1880), Floor,
                       Clear, InitialData, c)
    ensures var r := Run(s, Interleave([1500] + [1400, 1500, 1600, 1550, 1500, 1400, 1500, 1550, 1650, 1660, 1750, 1780, 1780],
                                       [1600] + [1500, 1400, 1500, 1600, 1550, 1500, 1400, 1500, 1550, 1650, 1660, 1750, 1780]));
      ScenarioStart(r) && r.pplCount == c + 2
  {
    RunStep(s, 1500, 1600, [1400, 1500, 1600, 1550, 1500, 1400, 1500, 1550, 1650, 1660, 1750, 1780, 1780], [1500, 1400, 1500, 1600, 1550, 1500, 1400, 1500, 1550, 1650, 1660, 1750, 1780]);
    OpeningLeftReading(s, c);
    EntranceScenario.RightReading2(AfterAddData(s, 1500, Left), c);
    From3(Instant(s, 1500, 1600), c);
  }

  lemma LeftReadingsSplit()
    ensures LeftReadings == [1600] + ([1500] + [1400, 1500, 1600, 1550, 1500, 1400, 1500, 1550, 1650, 1660, 1750, 1780, 1780])
  {
  }

  lemma RightReadingsSplit()
    ensures RightReadings == [1780] + ([1600] + [1500, 1400, 1500, 1600, 1550, 1500, 1400, 1500, 1550, 1650, 1660, 1750, 1780])
  {
  }

  /** Test case 5, two people entering one after the other: the count goes up
      by two. */
  lemma TwoEnter(s: CounterState)
    requires ScenarioStart(s)
    ensures var r := Run(s, Interleave(LeftReadings, RightReadings));
      ScenarioStart(r) && r.pplCount == s.pplCount + 2
  {
    LeftReadingsSplit();
    RightReadingsSplit();
    RunStep(s, 1600, 1780, [1500] + [1400, 1500, 1600, 1550, 1500, 1400, 1500, 1550, 1650, 1660, 1750, 1780, 1780], [1600] + [1500, 1400, 1500, 1600, 1550, 1500, 1400, 1500, 1550, 1650, 1660, 1750, 1780]);
    OpeningInstant(s);
    From2(Instant(s, 1600, 1780), s.pplCount);
  }

}
